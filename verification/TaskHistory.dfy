/**
 The daemon's task manager: the tasks it knows, and for each task id a bounded event history with
 consecutive sequence numbers. Everything an operation touches belongs to one task id, so each
 method is proved against a function on that id's slot and leaves the other slots alone.
 */
module TaskHistory {
  import opened Wrappers

  /** 16 << 20 */
  const MAX_HISTORY_BYTES := 16777216

  datatype Event = Event(event: string, data: string, seqNo: int)

  datatype Task = Task(runID: string, agentID: string, channelID: string, nodeID: string, status: string,
                       attemptID: string, agentToken: string, forwarding: bool)

  /** What the maps hold for one id; a missing entry reads as empty or zero. */
  datatype Slot = Slot(task: Option<Task>, events: seq<Event>, bytes: int, nextSeq: int)

  const NO_SLOT := Slot(None, [], 0, 0)

  function Cost(e: Event): nat {
    |e.event| + |e.data| + 16
  }

  function TotalCost(events: seq<Event>): nat {
    if events == [] then 0 else (|events[0].event| + |events[0].data| + 16) + TotalCost(events[1..])
  }

  // ---- The operations on a slot ----

  /** Drops old events while the rest is too large and not alone. */
  function Trim(s: Slot): Slot
    decreases |s.events|
  {
    if s.bytes > MAX_HISTORY_BYTES && |s.events| > 1 then
      Trim(s.(events := s.events[1..], bytes := s.bytes - Cost(s.events[0])))
    else s
  }

  function Push(s: Slot, e: Event): Slot {
    var n := if e.seqNo == 0 then s.nextSeq + 1 else s.nextSeq;
    var stored := if e.seqNo == 0 then e.(seqNo := n) else e;
    Trim(s.(events := s.events + [stored], bytes := s.bytes + Cost(stored), nextSeq := n))
  }

  function After(events: seq<Event>, seqNo: int): seq<Event> {
    if events == [] then []
    else (if events[0].seqNo > seqNo then [events[0]] else []) + After(events[1..], seqNo)
  }

  function Add(s: Slot, task: Task): (Slot, bool) {
    if s.task.Some? && s.task.value.attemptID == task.attemptID then (s, false) else (s.(task := Some(task)), true)
  }

  function SetStatus(s: Slot, status: string): Slot {
    if s.task.Some? then s.(task := Some(s.task.value.(status := status))) else s
  }

  function Begin(s: Slot, attemptID: string): (Slot, bool) {
    if s.task.None? || s.task.value.attemptID != attemptID || s.task.value.forwarding then (s, false)
    else (s.(task := Some(s.task.value.(forwarding := true))), true)
  }

  function End(s: Slot, attemptID: string, delivered: bool): Slot {
    if s.task.None? || s.task.value.attemptID != attemptID then s
    else if delivered then NO_SLOT
    else s.(task := Some(s.task.value.(forwarding := false)))
  }

  lemma {:induction false} AfterGrows(events: seq<Event>, e: Event, seqNo: int)
    ensures After(events + [e], seqNo) == After(events, seqNo) + (if e.seqNo > seqNo then [e] else [])
  {
    if events == [] {
      assert events + [e] == [e];
    } else {
      assert (events + [e])[1..] == events[1..] + [e];
      AfterGrows(events[1..], e, seqNo);
    }
  }

  class TaskManager {
    var tasks: map<string, Task>
    var eventHistory: map<string, seq<Event>>
    var historyBytes: map<string, int>
    var nextEventSeq: map<string, int>

    constructor ()
      ensures forall id :: SlotOf(id) == NO_SLOT
    {
      tasks, eventHistory, historyBytes, nextEventSeq := map[], map[], map[], map[];
    }

    function SlotOf(id: string): Slot
      reads this
    {
      Slot(if id in tasks then Some(tasks[id]) else None,
           if id in eventHistory then eventHistory[id] else [],
           if id in historyBytes then historyBytes[id] else 0,
           if id in nextEventSeq then nextEventSeq[id] else 0)
    }

    method AddTask(id: string, task: Task) returns (added: bool)
      modifies this`tasks
      ensures added <==> !(id in old(tasks) && old(tasks)[id].attemptID == task.attemptID)
      ensures tasks == if added then old(tasks)[id := task] else old(tasks)
      ensures (SlotOf(id), added) == Add(old(SlotOf(id)), task)
      ensures forall other | other != id :: SlotOf(other) == old(SlotOf(other))
    {
      if id in tasks && tasks[id].attemptID == task.attemptID {
        return false;
      }
      tasks := tasks[id := task];
      return true;
    }

    method UpdateStatus(id: string, status: string)
      modifies this`tasks
      ensures tasks == if id in old(tasks) then old(tasks)[id := old(tasks)[id].(status := status)] else old(tasks)
      ensures SlotOf(id) == SetStatus(old(SlotOf(id)), status)
      ensures forall other | other != id :: SlotOf(other) == old(SlotOf(other))
    {
      if id in tasks {
        tasks := tasks[id := tasks[id].(status := status)];
      }
    }

    method BeginForward(id: string, attemptID: string) returns (began: bool)
      modifies this`tasks
      ensures began <==> id in old(tasks) && old(tasks)[id].attemptID == attemptID && !old(tasks)[id].forwarding
      ensures tasks == if began then old(tasks)[id := old(tasks)[id].(forwarding := true)] else old(tasks)
      ensures (SlotOf(id), began) == Begin(old(SlotOf(id)), attemptID)
      ensures forall other | other != id :: SlotOf(other) == old(SlotOf(other))
    {
      if id !in tasks || tasks[id].attemptID != attemptID || tasks[id].forwarding {
        return false;
      }
      tasks := tasks[id := tasks[id].(forwarding := true)];
      return true;
    }

    method EndForward(id: string, attemptID: string, delivered: bool)
      modifies this
      ensures SlotOf(id) == End(old(SlotOf(id)), attemptID, delivered)
      ensures !(id in old(tasks) && old(tasks)[id].attemptID == attemptID) ==> unchanged(this)
      ensures id in old(tasks) && old(tasks)[id].attemptID == attemptID && delivered ==>
                && tasks == old(tasks) - {id} && eventHistory == old(eventHistory) - {id}
                && historyBytes == old(historyBytes) - {id} && nextEventSeq == old(nextEventSeq) - {id}
      ensures id in old(tasks) && old(tasks)[id].attemptID == attemptID && !delivered ==>
                && tasks == old(tasks)[id := old(tasks)[id].(forwarding := false)] && unchanged(`eventHistory)
                && unchanged(`historyBytes) && unchanged(`nextEventSeq)
      ensures forall other | other != id :: SlotOf(other) == old(SlotOf(other))
    {
      if id !in tasks || tasks[id].attemptID != attemptID {
        return;
      }
      tasks := tasks[id := tasks[id].(forwarding := false)];
      if delivered {
        tasks := tasks - {id};
        eventHistory := eventHistory - {id};
        historyBytes := historyBytes - {id};
        nextEventSeq := nextEventSeq - {id};
      }
    }

    method PushSSEEvent(id: string, event: Event)
      modifies this`eventHistory, this`historyBytes, this`nextEventSeq
      ensures SlotOf(id) == Push(old(SlotOf(id)), event)
      ensures forall other | other != id :: SlotOf(other) == old(SlotOf(other))
    {
      var was := SlotOf(id);
      var evt := event;
      if evt.seqNo == 0 {
        nextEventSeq := nextEventSeq[id := was.nextSeq + 1];
        evt := evt.(seqNo := was.nextSeq + 1);
      }
      eventHistory := eventHistory[id := was.events + [evt]];
      historyBytes := historyBytes[id := was.bytes + Cost(evt)];
      Evict(id);
    }

    /** The eviction loop of PushSSEEvent. */
    method Evict(id: string)
      requires id in eventHistory && id in historyBytes
      modifies this`eventHistory, this`historyBytes
      ensures SlotOf(id) == Trim(old(SlotOf(id)))
      ensures forall other | other != id :: SlotOf(other) == old(SlotOf(other))
    {
      while historyBytes[id] > MAX_HISTORY_BYTES && |eventHistory[id]| > 1
        invariant id in eventHistory && id in historyBytes
        invariant Trim(SlotOf(id)) == Trim(old(SlotOf(id)))
        invariant forall other | other != id :: SlotOf(other) == old(SlotOf(other))
        decreases |eventHistory[id]|
      {
        DropOldest(id);
      }
    }

    method DropOldest(id: string)
      requires id in eventHistory && id in historyBytes && |eventHistory[id]| > 0
      modifies this`eventHistory, this`historyBytes
      ensures id in eventHistory && id in historyBytes
      ensures SlotOf(id) == old(SlotOf(id)).(events := old(eventHistory[id])[1..], bytes := old(historyBytes[id]) - Cost(old(eventHistory[id])[0]))
      ensures forall other | other != id :: SlotOf(other) == old(SlotOf(other))
    {
      var dropped := eventHistory[id][0];
      eventHistory := eventHistory[id := eventHistory[id][1..]];
      historyBytes := historyBytes[id := historyBytes[id] - Cost(dropped)];
    }

    method EventsAfter(id: string, seqNo: int) returns (result: seq<Event>)
      ensures result == After(SlotOf(id).events, seqNo)
    {
      var events := SlotOf(id).events;
      result := [];
      for i := 0 to |events|
        invariant result == After(events[..i], seqNo)
      {
        AfterGrows(events[..i], events[i], seqNo);
        assert events[..i + 1] == events[..i] + [events[i]];
        if events[i].seqNo > seqNo {
          result := result + [events[i]];
        }
      }
      assert events[..|events|] == events;
    }
  }

  // ---- The history of a run of pushes ----

  /** The pushed events with their numbers, from first + 1 on. */
  function Numbered(pushed: seq<Event>, first: int): (numbered: seq<Event>)
    ensures |numbered| == |pushed|
    ensures forall i | 0 <= i < |pushed| :: numbered[i] == pushed[i].(seqNo := first + i + 1)
  {
    seq(|pushed|, i requires 0 <= i < |pushed| => pushed[i].(seqNo := first + i + 1))
  }

  /** From k on the events fit, or there is only one left. */
  predicate Fits(events: seq<Event>, k: nat) {
    k <= |events| && (TotalCost(events[k..]) <= 16777216 || k + 1 == |events|)
  }

  /** The longest suffix that fits starts here. */
  predicate KeepsFrom(events: seq<Event>, k: nat) {
    Fits(events, k) && forall j | 0 <= j < k :: !Fits(events, j)
  }

  function PushAll(s: Slot, pushed: seq<Event>): Slot {
    if pushed == [] then s else Push(PushAll(s, pushed[..|pushed| - 1]), pushed[|pushed| - 1])
  }

  lemma NumberedGrows(pushed: seq<Event>)
    requires pushed != []
    ensures var n := |pushed| - 1; Numbered(pushed, 0) == Numbered(pushed[..n], 0) + [pushed[n].(seqNo := n + 1)]
  {
  }

  predicate Unnumbered(pushed: seq<Event>) {
    forall e <- pushed :: e.seqNo == 0
  }

  lemma {:induction false} CostSplits(a: seq<Event>, b: seq<Event>)
    ensures TotalCost(a + b) == TotalCost(a) + TotalCost(b)
  {
    if a == [] {
      assert a + b == b;
    } else {
      assert (a + b)[1..] == a[1..] + b;
      CostSplits(a[1..], b);
    }
  }

  /** Trimming a suffix of all that starts no later than the longest fitting one leaves that one. */
  lemma {:induction false} TrimKeeps(all: seq<Event>, s: Slot, from: nat) returns (k: nat)
    requires from <= |all| && s.events == all[from..] && s.bytes == TotalCost(s.events)
    requires forall j | 0 <= j < from :: !Fits(all, j)
    requires |all| > from
    ensures from <= k < |all| && KeepsFrom(all, k)
    ensures Trim(s) == s.(events := all[k..], bytes := TotalCost(all[k..]))
    decreases |all| - from
  {
    if Fits(all, from) {
      k := from;
    } else {
      k := TrimKeeps(all, s.(events := s.events[1..], bytes := s.bytes - Cost(s.events[0])), from + 1);
    }
  }

  lemma {:induction false} TrimKeepsLast(s: Slot)
    requires s.events != []
    ensures Trim(s).events != [] && Trim(s).events[|Trim(s).events| - 1] == s.events[|s.events| - 1]
    ensures Trim(s).task == s.task && Trim(s).nextSeq == s.nextSeq
    decreases |s.events|
  {
    if s.bytes > MAX_HISTORY_BYTES && |s.events| > 1 {
      TrimKeepsLast(s.(events := s.events[1..], bytes := s.bytes - Cost(s.events[0])));
    }
  }

  /** A pushed event is the newest one afterwards; it gets the next number unless it has one already. */
  lemma PushNumbers(s: Slot, e: Event)
    ensures var t := Push(s, e);
            && t.events != [] && t.events[|t.events| - 1] == e.(seqNo := if e.seqNo == 0 then s.nextSeq + 1 else e.seqNo)
            && t.nextSeq == (if e.seqNo == 0 then s.nextSeq + 1 else s.nextSeq) && t.task == s.task
  {
    var stored := e.(seqNo := if e.seqNo == 0 then s.nextSeq + 1 else e.seqNo);
    TrimKeepsLast(s.(events := s.events + [stored], bytes := s.bytes + Cost(stored), nextSeq := if e.seqNo == 0 then s.nextSeq + 1 else s.nextSeq));
  }

  /** The longest fitting suffix of more events starts no earlier. */
  lemma FitsShrinks(events: seq<Event>, e: Event, k: nat)
    requires k < |events| && !Fits(events, k)
    ensures !Fits(events + [e], k)
  {
    assert (events + [e])[k..] == events[k..] + [e];
    CostSplits(events[k..], [e]);
  }

  lemma PushKeeps(s: Slot, before: seq<Event>, j: nat, e: Event) returns (k: nat)
    requires e.seqNo == 0 && KeepsFrom(before, j)
    requires s.events == before[j..] && s.bytes == TotalCost(before[j..]) && s.nextSeq == |before|
    ensures var all := before + [e.(seqNo := |before| + 1)];
            && k < |all| && KeepsFrom(all, k)
            && Push(s, e) == Slot(s.task, all[k..], TotalCost(all[k..]), |all|)
  {
    var stored := e.(seqNo := |before| + 1);
    var all := before + [stored];
    forall i | 0 <= i < j
      ensures !Fits(all, i)
    {
      FitsShrinks(before, stored, i);
    }
    assert all[j..] == before[j..] + [stored];
    CostSplits(before[j..], [stored]);
    k := TrimKeeps(all, s.(events := all[j..], bytes := TotalCost(all[j..]), nextSeq := |all|), j);
  }

  /**
   From a slot without history, any run of pushes leaves the longest suffix of all pushed events
   that fits 16 MiB, or the last one if not even that fits; numbers are consecutive, and the byte
   count is exact.
   */
  lemma {:induction false} HistoryIsLongestSuffix(s: Slot, pushed: seq<Event>) returns (k: nat)
    requires s.events == [] && s.bytes == 0 && s.nextSeq == 0 && Unnumbered(pushed)
    ensures KeepsFrom(Numbered(pushed, 0), k) && (pushed != [] ==> k < |pushed|)
    ensures PushAll(s, pushed) == Slot(s.task, Numbered(pushed, 0)[k..], TotalCost(Numbered(pushed, 0)[k..]), |pushed|)
  {
    if pushed == [] {
      k := 0;
    } else {
      var n := |pushed| - 1;
      var front, e := pushed[..n], pushed[n];
      assert Unnumbered(front) && e.seqNo == 0 by {
        assert e in pushed;
        assert forall x | x in front :: x in pushed;
      }
      var j := HistoryIsLongestSuffix(s, front);
      k := PushKeeps(PushAll(s, front), Numbered(front, 0), j, e);
      NumberedGrows(pushed);
    }
  }

  predicate Consecutive(events: seq<Event>) {
    forall i | 0 <= i < |events| :: events[i].seqNo == events[0].seqNo + i
  }

  lemma {:induction false} AfterAll(events: seq<Event>, seqNo: int)
    requires forall e <- events :: e.seqNo > seqNo
    ensures After(events, seqNo) == events
  {
    if events != [] {
      AfterAll(events[1..], seqNo);
    }
  }

  /** Of consecutive events, those after a number are a suffix, and nothing after it is missing. */
  lemma {:induction false} AfterIsSuffix(events: seq<Event>, seqNo: int) returns (m: nat)
    requires Consecutive(events)
    ensures m <= |events| && After(events, seqNo) == events[m..]
    ensures forall i | 0 <= i < |events| :: events[i].seqNo > seqNo <==> m <= i
  {
    if events == [] {
      m := 0;
    } else if events[0].seqNo > seqNo {
      m := 0;
      AfterAll(events, seqNo);
    } else {
      assert forall i | 0 <= i < |events[1..]| :: events[1..][i] == events[i + 1];
      var n := AfterIsSuffix(events[1..], seqNo);
      m := n + 1;
      assert forall i | 1 <= i < |events| :: events[i] == events[1..][i - 1];
    }
  }
}
