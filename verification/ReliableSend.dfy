/**
 Sending a message reliably from the browser. A send is tried, retried after a failure by a timer or
 by hand, and settled by whatever comes first: the response, an acknowledgement on the WebSocket, or
 a cancellation. The class holds the module's map, the entries and, beside them, the requests and
 timers the browser has; its methods are proved against functions on values.
 */
module ReliableSend {
  import opened Wrappers

  /** An entry object of the map; timer is an index into the timers. */
  datatype Entry = Entry(id: string, attempts: nat, inFlight: bool, failed: bool, timer: Option<nat>)

  /** A request that runSend made for an entry and still awaits, or not. */
  datatype Call = Call(entry: nat, id: string, awaited: bool)

  datatype Timer = Timer(id: string, delay: int, armed: bool)

  /** What an entry's owner sees; manual tells whether the user asked for the attempt. */
  datatype Mark =
    | Requested(entry: nat, manual: bool)
    | Failed(entry: nat)
    | Confirmed(entry: nat)
    | Resolved(entry: nat, sent: bool)

  datatype State = State(entries: seq<Entry>, pending: map<string, nat>, calls: seq<Call>, timers: seq<Timer>, log: seq<Mark>)

  const INITIAL := State([], map[], [], [], [])

  // ---- The functions ----

  predicate Pending(s: State, id: string) {
    id in s.pending && s.pending[id] < |s.entries|
  }

  function Of(s: State, id: string): Entry
    requires Pending(s, id)
  {
    s.entries[s.pending[id]]
  }

  function Update(s: State, id: string, entry: Entry): State
    requires Pending(s, id)
  {
    s.(entries := s.entries[s.pending[id] := entry])
  }

  function Disarmed(timers: seq<Timer>, timer: Option<nat>): seq<Timer> {
    if timer.Some? && timer.value < |timers| then timers[timer.value := timers[timer.value].(armed := false)] else timers
  }

  function RunSend(s: State, id: string, manual: bool): State {
    if !Pending(s, id) || Of(s, id).inFlight then s
    else
      var e := Of(s, id);
      Update(s, id, e.(inFlight := true, failed := false, attempts := e.attempts + 1))
      .(calls := s.calls + [Call(s.pending[id], id, true)], log := s.log + [Requested(s.pending[id], manual)])
  }

  function Send(s: State, id: string): State {
    RunSend(s.(entries := s.entries + [Entry(id, 0, false, false, None)], pending := s.pending[id := |s.entries|]), id, false)
  }

  function Acknowledge(s: State, id: string): State {
    if !Pending(s, id) then s
    else
      s.(pending := s.pending - {id}, timers := Disarmed(s.timers, Of(s, id).timer),
         log := s.log + [Confirmed(s.pending[id])] + [Resolved(s.pending[id], true)])
  }

  function Cancel(s: State, id: string): State {
    if !Pending(s, id) then s
    else
      s.(pending := s.pending - {id}, timers := Disarmed(s.timers, Of(s, id).timer),
         log := s.log + [Resolved(s.pending[id], false)])
  }

  function Retry(s: State, id: string, manual: bool): State {
    if !Pending(s, id) || Of(s, id).inFlight then s
    else
      RunSend(Update(s, id, Of(s, id).(timer := None)).(timers := Disarmed(s.timers, Of(s, id).timer)), id, manual)
  }

  function Delay(attempts: nat): int {
    if attempts == 1 then 3000 else 2000 * attempts
  }

  /** The catch branch of runSend, for the entry it was started with. */
  function Fail(s: State, id: string, entry: nat): State {
    if !Pending(s, id) || s.pending[id] != entry then s
    else
      var e := Of(s, id).(inFlight := false, failed := true);
      if e.attempts < 3 then
        Update(s, id, e.(timer := Some(|s.timers|)))
        .(timers := s.timers + [Timer(id, Delay(e.attempts), true)], log := s.log + [Failed(entry)])
      else Update(s, id, e).(log := s.log + [Failed(entry)])
  }

  /** The timer, if any, no longer fires; the others are as they were. */
  predicate OnlyDisarmed(before: seq<Timer>, timer: Option<nat>, after: seq<Timer>) {
    && |after| == |before|
    && forall u | 0 <= u < |before| :: after[u] == if timer == Some(u) then Timer(before[u].id, before[u].delay, false) else before[u]
  }

  class ReliableSends {
    var entries: seq<Entry>
    var pendingSends: map<string, nat>
    var calls: seq<Call>
    var timers: seq<Timer>
    var log: seq<Mark>

    constructor ()
      ensures Now() == INITIAL
    {
      entries, pendingSends, calls, timers, log := [], map[], [], [], [];
    }

    function Now(): State
      reads this
    {
      State(entries, pendingSends, calls, timers, log)
    }

    method ClearTimer(timer: Option<nat>)
      modifies this`timers
      ensures timers == Disarmed(old(timers), timer) && OnlyDisarmed(old(timers), timer, timers)
    {
      if timer.Some? && timer.value < |timers| {
        timers := timers[timer.value := timers[timer.value].(armed := false)];
      }
    }

    method StartRequest(id: string, manual: bool)
      modifies this
      ensures Now() == RunSend(old(Now()), id, manual)
      ensures pendingSends == old(pendingSends) && timers == old(timers)
      ensures if old(Pending(Now(), id) && !Of(Now(), id).inFlight) then
                var k := old(pendingSends[id]);
                var e := old(entries[k]);
                && entries == old(entries)[k := Entry(e.id, e.attempts + 1, true, false, e.timer)]
                && calls == old(calls) + [Call(k, id, true)] && log == old(log) + [Requested(k, manual)]
              else entries == old(entries) && calls == old(calls) && log == old(log)
    {
      if !Pending(Now(), id) {
        return;
      }
      var k := pendingSends[id];
      if entries[k].inFlight {
        return;
      }
      entries := entries[k := entries[k].(inFlight := true, failed := false, attempts := entries[k].attempts + 1)];
      calls := calls + [Call(k, id, true)];
      log := log + [Requested(k, manual)];
    }

    method SendReliably(id: string)
      modifies this
      ensures Now() == Send(old(Now()), id)
      ensures var k := |old(entries)|;
              && entries == old(entries) + [Entry(id, 1, true, false, None)] && pendingSends == old(pendingSends)[id := k]
              && calls == old(calls) + [Call(k, id, true)] && log == old(log) + [Requested(k, false)] && timers == old(timers)
    {
      entries := entries + [Entry(id, 0, false, false, None)];
      pendingSends := pendingSends[id := |entries| - 1];
      StartRequest(id, false);
    }

    method AcknowledgeReliableSend(id: string) returns (known: bool)
      modifies this
      ensures Now() == Acknowledge(old(Now()), id) && known == old(Pending(Now(), id))
      ensures entries == old(entries) && calls == old(calls)
      ensures if known then
                var k := old(pendingSends[id]);
                && id !in pendingSends && pendingSends == old(pendingSends) - {id}
                && OnlyDisarmed(old(timers), old(entries[k]).timer, timers)
                && log == old(log) + [Confirmed(k), Resolved(k, true)]
              else pendingSends == old(pendingSends) && timers == old(timers) && log == old(log)
    {
      if !Pending(Now(), id) {
        return false;
      }
      var k := pendingSends[id];
      pendingSends := pendingSends - {id};
      ClearTimer(entries[k].timer);
      log := log + [Confirmed(k)];
      log := log + [Resolved(k, true)];
      return true;
    }

    method CancelReliableSend(id: string)
      modifies this
      ensures Now() == Cancel(old(Now()), id)
      ensures entries == old(entries) && calls == old(calls)
      ensures if old(Pending(Now(), id)) then
                var k := old(pendingSends[id]);
                && id !in pendingSends && pendingSends == old(pendingSends) - {id}
                && OnlyDisarmed(old(timers), old(entries[k]).timer, timers)
                && log == old(log) + [Resolved(k, false)]
              else pendingSends == old(pendingSends) && timers == old(timers) && log == old(log)
    {
      if !Pending(Now(), id) {
        return;
      }
      var k := pendingSends[id];
      pendingSends := pendingSends - {id};
      ClearTimer(entries[k].timer);
      log := log + [Resolved(k, false)];
    }

    method RetryReliableSend(id: string, manual: bool)
      modifies this
      ensures Now() == Retry(old(Now()), id, manual)
      ensures pendingSends == old(pendingSends)
      ensures if old(Pending(Now(), id) && !Of(Now(), id).inFlight) then
                var k := old(pendingSends[id]);
                var e := old(entries[k]);
                && OnlyDisarmed(old(timers), e.timer, timers)
                && entries == old(entries)[k := Entry(e.id, e.attempts + 1, true, false, None)]
                && calls == old(calls) + [Call(k, id, true)] && log == old(log) + [Requested(k, manual)]
              else entries == old(entries) && calls == old(calls) && log == old(log) && timers == old(timers)
    {
      if !Pending(Now(), id) {
        return;
      }
      var k := pendingSends[id];
      if entries[k].inFlight {
        return;
      }
      if entries[k].timer.Some? {
        ClearTimer(entries[k].timer);
      }
      entries := entries[k := entries[k].(timer := None)];
      StartRequest(id, manual);
    }

    method HandleFailure(id: string, entry: nat)
      modifies this
      ensures Now() == Fail(old(Now()), id, entry)
      ensures pendingSends == old(pendingSends) && calls == old(calls)
      ensures if old(Pending(Now(), id)) && old(pendingSends)[id] == entry then
                var e := old(entries)[entry];
                && log == old(log) + [Failed(entry)]
                && entries == old(entries)[entry := Entry(e.id, e.attempts, false, true, if e.attempts < 3 then Some(|old(timers)|) else e.timer)]
                && timers == old(timers) + if e.attempts < 3 then [Timer(id, if e.attempts == 1 then 3000 else 2000 * e.attempts, true)] else []
              else entries == old(entries) && timers == old(timers) && log == old(log)
    {
      if !Pending(Now(), id) || pendingSends[id] != entry {
        return;
      }
      var e := entries[entry].(inFlight := false, failed := true);
      log := log + [Failed(entry)];
      if e.attempts < 3 {
        var delay := 2000 * e.attempts;
        if e.attempts == 1 {
          delay := 3000;
        }
        e := e.(timer := Some(|timers|));
        timers := timers + [Timer(id, delay, true)];
      }
      entries := entries[entry := e];
    }
  }

  // ---- Runs ----

  datatype Action =
    | NewSend(id: string)
    | WebSocketAck(id: string)
    | Respond(call: nat, ok: bool)
    | TimerFires(timer: nat)
    | RetryByHand(id: string)
    | CancelByHand(id: string)

  function Do(s: State, a: Action): State {
    match a
    case NewSend(id) => Send(s, id)
    case WebSocketAck(id) => Acknowledge(s, id)
    case Respond(c, ok) =>
      if c < |s.calls| && s.calls[c].awaited then
        var t := s.(calls := s.calls[c := s.calls[c].(awaited := false)]);
        if ok then Acknowledge(t, s.calls[c].id) else Fail(t, s.calls[c].id, s.calls[c].entry)
      else s
    case TimerFires(t) =>
      if t < |s.timers| && s.timers[t].armed then
        Retry(s.(timers := Disarmed(s.timers, Some(t))), s.timers[t].id, false)
      else s
    case RetryByHand(id) => Retry(s, id, true)
    case CancelByHand(id) => Cancel(s, id)
  }

  /** A client message id is not used again while it is pending. */
  predicate Fresh(s: State, a: Action) {
    a.NewSend? ==> a.id !in s.pending
  }

  predicate FreshRun(s: State, actions: seq<Action>)
    decreases |actions|
  {
    actions == [] || (Fresh(s, actions[0]) && FreshRun(Do(s, actions[0]), actions[1..]))
  }

  function Run(s: State, actions: seq<Action>): State
    decreases |actions|
  {
    if actions == [] then s else Run(Do(s, actions[0]), actions[1..])
  }

  // ---- What may happen to one send ----

  datatype Phase = Unsent | Flying | Waiting | Accepted | Settled | Broken

  /** The order of marks that a send allows; anything else breaks it. */
  function Follow(p: Phase, m: Mark): Phase {
    match m
    case Requested(_, _) => if p.Unsent? || p.Waiting? then Flying else Broken
    case Failed(_) => if p.Flying? then Waiting else Broken
    case Confirmed(_) => if p.Flying? || p.Waiting? then Accepted else Broken
    case Resolved(_, sent) => if (if sent then p.Accepted? else p.Flying? || p.Waiting?) then Settled else Broken
  }

  function PhaseOf(log: seq<Mark>, k: nat): Phase {
    if log == [] then Unsent
    else
      var m, before := log[|log| - 1], PhaseOf(log[..|log| - 1], k);
      if m.entry == k then Follow(before, m) else before
  }

  function Requests(log: seq<Mark>, k: nat): nat {
    if log == [] then 0
    else (if log[|log| - 1].Requested? && log[|log| - 1].entry == k then 1 else 0) + Requests(log[..|log| - 1], k)
  }

  function ByHand(log: seq<Mark>, k: nat): nat {
    if log == [] then 0
    else
      var m := log[|log| - 1];
      (if m.Requested? && m.entry == k && m.manual then 1 else 0) + ByHand(log[..|log| - 1], k)
  }

  function Awaited(calls: seq<Call>, k: nat): nat {
    if calls == [] then 0
    else
      var c := calls[|calls| - 1];
      (if c.awaited && c.entry == k then 1 else 0) + Awaited(calls[..|calls| - 1], k)
  }

  lemma Logged(log: seq<Mark>, m: Mark, k: nat)
    ensures PhaseOf(log + [m], k) == if m.entry == k then Follow(PhaseOf(log, k), m) else PhaseOf(log, k)
    ensures Requests(log + [m], k) == Requests(log, k) + (if m.Requested? && m.entry == k then 1 else 0)
    ensures ByHand(log + [m], k) == ByHand(log, k) + (if m.Requested? && m.entry == k && m.manual then 1 else 0)
  {
    assert (log + [m])[..|log|] == log;
  }

  lemma CallAdded(calls: seq<Call>, c: Call, k: nat)
    ensures Awaited(calls + [c], k) == Awaited(calls, k) + (if c.awaited && c.entry == k then 1 else 0)
  {
    assert (calls + [c])[..|calls|] == calls;
  }

  lemma {:induction false} CallDone(calls: seq<Call>, c: nat, k: nat)
    requires c < |calls| && calls[c].awaited
    ensures Awaited(calls[c := calls[c].(awaited := false)], k) + (if calls[c].entry == k then 1 else 0) == Awaited(calls, k)
  {
    var n := |calls| - 1;
    var after := calls[c := calls[c].(awaited := false)];
    if c == n {
      assert after[..n] == calls[..n];
    } else {
      assert after[..n] == calls[..n][c := calls[c].(awaited := false)];
      CallDone(calls[..n], c, k);
    }
  }

  // ---- The invariant ----

  predicate Live(s: State, k: nat)
    requires k < |s.entries|
  {
    s.entries[k].id in s.pending && s.pending[s.entries[k].id] == k
  }

  /** The requests of k that are under way; answering is the entry whose answer is being handled. */
  function UnderWay(s: State, answering: Option<nat>, k: nat): nat {
    Awaited(s.calls, k) + if answering == Some(k) then 1 else 0
  }

  /** How an entry, its marks, its requests and its timer belong together. */
  predicate EntryOk(e: Entry, live: bool, phase: Phase, requests: nat, byHand: nat, underWay: nat, timers: seq<Timer>) {
    && requests == e.attempts && 1 <= e.attempts <= 3 + byHand
    && (if live then
          && phase == (if e.inFlight then Flying else Waiting)
          && underWay == (if e.inFlight then 1 else 0)
          && (e.timer.Some? <==> !e.inFlight && e.attempts < 3)
          && (e.timer.Some? ==> e.timer.value < |timers| && timers[e.timer.value] == Timer(e.id, Delay(e.attempts), true))
          && e.failed == !e.inFlight
        else
          phase == Settled && underWay <= 1)
  }

  predicate SendOk(s: State, answering: Option<nat>, k: nat)
    requires k < |s.entries|
  {
    EntryOk(s.entries[k], Live(s, k), PhaseOf(s.log, k), Requests(s.log, k), ByHand(s.log, k), UnderWay(s, answering, k), s.timers)
  }

  predicate Linked(s: State) {
    && (forall id | id in s.pending :: s.pending[id] < |s.entries| && s.entries[s.pending[id]].id == id)
    && (forall c | 0 <= c < |s.calls| :: s.calls[c].entry < |s.entries| && s.calls[c].id == s.entries[s.calls[c].entry].id)
    && (forall t | 0 <= t < |s.timers| && s.timers[t].armed :: Pending(s, s.timers[t].id) && Of(s, s.timers[t].id).timer == Some(t))
  }

  predicate Untouched(s: State, k: nat) {
    PhaseOf(s.log, k) == Unsent && Requests(s.log, k) == 0 && ByHand(s.log, k) == 0 && Awaited(s.calls, k) == 0
  }

  ghost predicate Safe(s: State, answering: Option<nat>) {
    && Linked(s)
    && (forall k | 0 <= k < |s.entries| :: SendOk(s, answering, k))
    && (forall k: nat | k >= |s.entries| :: Untouched(s, k))
  }

  /** Nothing that concerns entry k is different. */
  predicate SameFor(s: State, t: State, k: nat) {
    && PhaseOf(t.log, k) == PhaseOf(s.log, k) && Requests(t.log, k) == Requests(s.log, k) && ByHand(t.log, k) == ByHand(s.log, k)
    && Awaited(t.calls, k) == Awaited(s.calls, k)
  }

  /** The other entries of a step for entry k: their marks, requests, timers and places in the map stay. */
  lemma OthersStay(s: State, t: State, answering: Option<nat>, after: Option<nat>, k: nat, j: nat)
    requires j < |s.entries| && j < |t.entries| && j != k && SendOk(s, answering, j) && SameFor(s, t, j)
    requires t.entries[j] == s.entries[j] && Live(t, j) == Live(s, j)
    requires Live(s, j) && s.entries[j].timer.Some? && s.entries[j].timer.value < |s.timers| ==>
               s.entries[j].timer.value < |t.timers| && t.timers[s.entries[j].timer.value] == s.timers[s.entries[j].timer.value]
    requires (answering == Some(j)) == (after == Some(j))
    ensures SendOk(t, after, j)
  {
  }

  lemma LiveIsPending(s: State, id: string)
    requires Linked(s) && Pending(s, id)
    ensures Live(s, s.pending[id]) && s.entries[s.pending[id]].id == id
  {
  }

  // ---- Each step ----

  /** Timers of different live entries are different, since an armed timer belongs to its id. */
  lemma DisarmOthers(s: State, k: nat, j: nat, answering: Option<nat>)
    requires Safe(s, answering) && k < |s.entries| && j < |s.entries| && j != k && Live(s, k) && Live(s, j)
    requires s.entries[j].timer.Some?
    ensures s.entries[j].timer.value < |s.timers|
    ensures Disarmed(s.timers, s.entries[k].timer)[s.entries[j].timer.value] == s.timers[s.entries[j].timer.value]
  {
    assert SendOk(s, answering, k) && SendOk(s, answering, j);
    assert s.entries[k].id != s.entries[j].id;
  }

  lemma MarksOfOthers(s: State, t: State, m: Mark, j: nat)
    requires t.log == s.log + [m] && m.entry != j && t.calls == s.calls
    ensures SameFor(s, t, j)
  {
    Logged(s.log, m, j);
  }

  lemma SettleLinks(s: State, t: State, id: string, answering: Option<nat>)
    requires Safe(s, answering) && Pending(s, id)
    requires t.entries == s.entries && t.pending == s.pending - {id} && t.timers == Disarmed(s.timers, Of(s, id).timer) && t.calls == s.calls
    ensures Linked(t)
  {
    var k := s.pending[id];
    LiveIsPending(s, id);
    assert SendOk(s, answering, k);
    forall u | 0 <= u < |t.timers| && t.timers[u].armed
      ensures Pending(t, t.timers[u].id) && Of(t, t.timers[u].id).timer == Some(u)
    {
      assert s.timers[u].armed;
    }
  }

  /** Leaving the map with the last mark or two about entry k settles it and nothing else. */
  lemma SettleIsSafe(s: State, t: State, id: string, answering: Option<nat>)
    requires Safe(s, answering) && Pending(s, id)
    requires answering.None? || answering == Some(s.pending[id])
    requires t.entries == s.entries && t.pending == s.pending - {id} && t.timers == Disarmed(s.timers, Of(s, id).timer) && t.calls == s.calls
    requires var k := s.pending[id];
             t.log == s.log + [Resolved(k, false)] || t.log == s.log + [Confirmed(k)] + [Resolved(k, true)]
    ensures Safe(t, None)
  {
    var k := s.pending[id];
    SettleLinks(s, t, id, answering);
    LiveIsPending(s, id);
    forall j: nat
      ensures j != k ==> SameFor(s, t, j)
      ensures Requests(t.log, j) == Requests(s.log, j) && ByHand(t.log, j) == ByHand(s.log, j)
      ensures j == k && SendOk(s, answering, k) ==> PhaseOf(t.log, j) == Settled
    {
      Logged(s.log, Resolved(k, false), j);
      Logged(s.log, Confirmed(k), j);
      Logged(s.log + [Confirmed(k)], Resolved(k, true), j);
    }
    assert SendOk(s, answering, k);
    forall j | 0 <= j < |t.entries|
      ensures SendOk(t, None, j)
    {
      if j != k {
        assert Live(s, j) ==> s.entries[j].id != id;
        if Live(s, j) && s.entries[j].timer.Some? {
          DisarmOthers(s, k, j, answering);
        }
        OthersStay(s, t, answering, None, k, j);
      }
    }
    forall j: nat | j >= |t.entries|
      ensures Untouched(t, j)
    {
      assert Untouched(s, j);
    }
  }

  /** An answer that comes after its entry was settled means nothing. */
  lemma LateAnswer(s: State, k: nat)
    requires Safe(s, Some(k)) && k < |s.entries| && !Live(s, k)
    ensures Safe(s, None)
  {
    forall j | 0 <= j < |s.entries|
      ensures SendOk(s, None, j)
    {
      assert SendOk(s, Some(k), j);
    }
  }

  lemma FailLinks(s: State, t: State, k: nat, timer: Timer)
    requires Safe(s, Some(k)) && k < |s.entries| && Live(s, k) && s.entries[k].timer.None?
    requires timer.id == s.entries[k].id && t.pending == s.pending && t.calls == s.calls
    requires (t.timers == s.timers && t.entries == s.entries[k := s.entries[k].(inFlight := false, failed := true)])
             || (t.timers == s.timers + [timer]
                 && t.entries == s.entries[k := s.entries[k].(inFlight := false, failed := true, timer := Some(|s.timers|))])
    ensures Linked(t)
  {
    forall u | 0 <= u < |t.timers| && t.timers[u].armed
      ensures Pending(t, t.timers[u].id) && Of(t, t.timers[u].id).timer == Some(u)
    {
      if u < |s.timers| {
        assert s.timers[u].armed;
        assert s.pending[s.timers[u].id] != k;
      }
    }
  }

  lemma FailIsSafe(s: State, k: nat)
    requires Safe(s, Some(k)) && k < |s.entries|
    ensures Safe(Fail(s, s.entries[k].id, k), None)
  {
    var id := s.entries[k].id;
    if !Live(s, k) {
      LateAnswer(s, k);
    } else {
      var t := Fail(s, id, k);
      assert SendOk(s, Some(k), k);
      FailLinks(s, t, k, Timer(id, Delay(s.entries[k].attempts), true));
      Logged(s.log, Failed(k), k);
      forall j | 0 <= j < |t.entries|
        ensures SendOk(t, None, j)
      {
        if j != k {
          MarksOfOthers(s, s.(log := t.log), Failed(k), j);
          assert SendOk(s, Some(k), j);
          OthersStay(s, t, Some(k), None, k, j);
        }
      }
      forall j: nat | j >= |t.entries|
        ensures Untouched(t, j)
      {
        assert Untouched(s, j);
        Logged(s.log, Failed(k), j);
      }
    }
  }

  lemma RetryLinks(s: State, t: State, k: nat)
    requires Safe(s, None) && k < |s.entries| && Live(s, k)
    requires t.pending == s.pending && t.timers == Disarmed(s.timers, s.entries[k].timer)
    requires |t.entries| == |s.entries| && t.entries == s.entries[k := t.entries[k]]
    requires t.entries[k].id == s.entries[k].id && t.calls == s.calls + [Call(k, s.entries[k].id, true)]
    ensures Linked(t)
  {
    assert SendOk(s, None, k);
    forall u | 0 <= u < |t.timers| && t.timers[u].armed
      ensures Pending(t, t.timers[u].id) && Of(t, t.timers[u].id).timer == Some(u)
    {
      assert s.timers[u].armed;
      assert s.pending[s.timers[u].id] != k;
    }
  }

  /** An attempt of a waiting entry: the user's, or the timer's while fewer than three were made. */
  lemma RetryIsSafe(s: State, id: string, manual: bool)
    requires Safe(s, None) && (!manual ==> Pending(s, id) && Of(s, id).attempts < 3)
    ensures Safe(Retry(s, id, manual), None)
  {
    if Pending(s, id) && !Of(s, id).inFlight {
      var k := s.pending[id];
      LiveIsPending(s, id);
      var t := Retry(s, id, manual);
      RetryShape(s, id, manual);
      RetryLinks(s, t, k);
      assert SendOk(s, None, k);
      forall j: nat
        ensures j != k ==> SameFor(s, t, j)
        ensures j == k ==> PhaseOf(t.log, j) == Follow(PhaseOf(s.log, j), Requested(k, manual)) && Requests(t.log, j) == Requests(s.log, j) + 1
        ensures j == k ==> ByHand(t.log, j) == ByHand(s.log, j) + (if manual then 1 else 0) && Awaited(t.calls, j) == Awaited(s.calls, j) + 1
      {
        Logged(s.log, Requested(k, manual), j);
        CallAdded(s.calls, Call(k, id, true), j);
      }
      forall j | 0 <= j < |t.entries|
        ensures SendOk(t, None, j)
      {
        if j != k {
          if Live(s, j) && s.entries[j].timer.Some? {
            DisarmOthers(s, k, j, None);
          }
          assert SendOk(s, None, j);
          OthersStay(s, t, None, None, k, j);
        }
      }
      forall j: nat | j >= |t.entries|
        ensures Untouched(t, j)
      {
        assert Untouched(s, j);
      }
    }
  }

  lemma RetryShape(s: State, id: string, manual: bool)
    requires Linked(s) && Pending(s, id) && !Of(s, id).inFlight
    ensures var k, t := s.pending[id], Retry(s, id, manual);
            && t.entries == s.entries[k := s.entries[k].(timer := None, inFlight := true, failed := false, attempts := s.entries[k].attempts + 1)]
            && t.pending == s.pending && t.timers == Disarmed(s.timers, s.entries[k].timer)
            && t.calls == s.calls + [Call(k, id, true)] && t.log == s.log + [Requested(k, manual)]
  {
  }

  lemma SendShape(s: State, id: string)
    requires Linked(s) && Fresh(s, NewSend(id))
    ensures var k := |s.entries|;
            Send(s, id) == State(s.entries + [Entry(id, 1, true, false, None)], s.pending[id := k], s.calls + [Call(k, id, true)],
                                 s.timers, s.log + [Requested(k, false)])
  {
    var e := Entry(id, 0, false, false, None);
    assert (s.entries + [e])[|s.entries| := Entry(id, 1, true, false, None)] == s.entries + [Entry(id, 1, true, false, None)];
  }

  lemma SendLinks(s: State, t: State, id: string)
    requires Linked(s) && Fresh(s, NewSend(id))
    requires t.entries == s.entries + [Entry(id, 1, true, false, None)] && t.pending == s.pending[id := |s.entries|]
    requires t.calls == s.calls + [Call(|s.entries|, id, true)] && t.timers == s.timers
    ensures Linked(t)
  {
  }

  /** What a new send adds to the log and the calls concerns its own entry. */
  lemma SendMarks(s: State, t: State, id: string, j: nat)
    requires Untouched(s, |s.entries|)
    requires t.log == s.log + [Requested(|s.entries|, false)] && t.calls == s.calls + [Call(|s.entries|, id, true)]
    ensures j != |s.entries| ==> SameFor(s, t, j)
    ensures j == |s.entries| ==> PhaseOf(t.log, j) == Flying && Requests(t.log, j) == 1 && ByHand(t.log, j) == 0 && Awaited(t.calls, j) == 1
  {
    Logged(s.log, Requested(|s.entries|, false), j);
    CallAdded(s.calls, Call(|s.entries|, id, true), j);
  }

  lemma NewSendOk(t: State, id: string)
    requires t.entries != []
    requires var k := |t.entries| - 1;
             && t.entries[k] == Entry(id, 1, true, false, None) && id in t.pending && t.pending[id] == k
             && PhaseOf(t.log, k) == Flying && Requests(t.log, k) == 1 && ByHand(t.log, k) == 0 && Awaited(t.calls, k) == 1
    ensures SendOk(t, None, |t.entries| - 1)
  {
  }

  lemma SendIsSafe(s: State, id: string)
    requires Safe(s, None) && Fresh(s, NewSend(id))
    ensures Safe(Send(s, id), None)
  {
    var k := |s.entries|;
    var t := Send(s, id);
    SendShape(s, id);
    SendLinks(s, t, id);
    assert Untouched(s, k);
    forall j: nat
      ensures j != k ==> SameFor(s, t, j)
      ensures j == k ==> PhaseOf(t.log, j) == Flying && Requests(t.log, j) == 1 && ByHand(t.log, j) == 0 && Awaited(t.calls, j) == 1
    {
      SendMarks(s, t, id, j);
    }
    forall j | 0 <= j < |t.entries|
      ensures SendOk(t, None, j)
    {
      if j < k {
        assert SendOk(s, None, j);
        OthersStay(s, t, None, None, k, j);
      } else {
        NewSendOk(t, id);
      }
    }
    forall j: nat | j >= |t.entries|
      ensures Untouched(t, j)
    {
      assert Untouched(s, j);
    }
  }

  lemma AnswerIsSafe(s: State, c: nat)
    requires Safe(s, None) && c < |s.calls| && s.calls[c].awaited
    ensures Safe(s.(calls := s.calls[c := s.calls[c].(awaited := false)]), Some(s.calls[c].entry))
  {
    var t := s.(calls := s.calls[c := s.calls[c].(awaited := false)]);
    forall j: nat
      ensures Awaited(t.calls, j) + (if s.calls[c].entry == j then 1 else 0) == Awaited(s.calls, j)
    {
      CallDone(s.calls, c, j);
    }
    forall j | 0 <= j < |t.entries|
      ensures SendOk(t, Some(s.calls[c].entry), j)
    {
      assert SendOk(s, None, j);
    }
    forall j: nat | j >= |t.entries|
      ensures Untouched(t, j)
    {
      assert Untouched(s, j);
    }
  }

  lemma RespondIsSafe(s: State, c: nat, ok: bool)
    requires Safe(s, None)
    ensures Safe(Do(s, Respond(c, ok)), None)
  {
    if c < |s.calls| && s.calls[c].awaited {
      var k := s.calls[c].entry;
      var t := s.(calls := s.calls[c := s.calls[c].(awaited := false)]);
      AnswerIsSafe(s, c);
      var id := t.entries[k].id;
      assert id == s.calls[c].id;
      if !ok {
        FailIsSafe(t, k);
      } else if Live(t, k) {
        SettleIsSafe(t, Acknowledge(t, id), id, Some(k));
      } else {
        LateAnswer(t, k);
        if Pending(t, id) {
          SettleIsSafe(t, Acknowledge(t, id), id, None);
        }
      }
    }
  }

  lemma TimerIsSafe(s: State, u: nat)
    requires Safe(s, None)
    ensures Safe(Do(s, TimerFires(u)), None)
  {
    if u < |s.timers| && s.timers[u].armed {
      var id := s.timers[u].id;
      LiveIsPending(s, id);
      assert SendOk(s, None, s.pending[id]);
      assert Disarmed(Disarmed(s.timers, Some(u)), Some(u)) == Disarmed(s.timers, Some(u));
      assert Do(s, TimerFires(u)) == Retry(s, id, false);
      RetryIsSafe(s, id, false);
    }
  }

  lemma DoIsSafe(s: State, a: Action)
    requires Safe(s, None) && Fresh(s, a)
    ensures Safe(Do(s, a), None)
  {
    match a
    case NewSend(id) => SendIsSafe(s, id);
    case WebSocketAck(id) => if Pending(s, id) { SettleIsSafe(s, Acknowledge(s, id), id, None); }
    case Respond(c, ok) => RespondIsSafe(s, c, ok);
    case TimerFires(u) => TimerIsSafe(s, u);
    case RetryByHand(id) => RetryIsSafe(s, id, true);
    case CancelByHand(id) => if Pending(s, id) { SettleIsSafe(s, Cancel(s, id), id, None); }
  }

  lemma {:induction false} RunIsSafe(s: State, actions: seq<Action>)
    requires Safe(s, None) && FreshRun(s, actions)
    ensures Safe(Run(s, actions), None)
    decreases |actions|
  {
    if actions != [] {
      DoIsSafe(s, actions[0]);
      RunIsSafe(Do(s, actions[0]), actions[1..]);
    }
  }

  // ---- The theorems ----

  /**
   In every run that does not reuse a pending id, each send's marks come in the allowed order, and it has settled exactly
   when it is no longer pending. At most one request of it is under way, and it made at most three
   attempts beyond those the user asked for.
   */
  lemma EachSendIsOrderly(actions: seq<Action>, k: nat)
    requires FreshRun(INITIAL, actions) && k < |Run(INITIAL, actions).entries|
    ensures var s := Run(INITIAL, actions);
            && !PhaseOf(s.log, k).Broken?
            && (PhaseOf(s.log, k) == Settled <==> !Live(s, k))
            && Awaited(s.calls, k) <= 1
            && Requests(s.log, k) <= 3 + ByHand(s.log, k)
  {
    RunIsSafe(INITIAL, actions);
    assert SendOk(Run(INITIAL, actions), None, k);
  }

  /** What settles a pending send: a cancellation with nothing; an acknowledgement or any answer under its id with a confirmation. */
  lemma PendingSendSettles(actions: seq<Action>, id: string, c: nat)
    requires FreshRun(INITIAL, actions) && id in Run(INITIAL, actions).pending
    ensures var s := Run(INITIAL, actions);
            var k := s.pending[id];
            var cancelled, confirmed := Do(s, CancelByHand(id)), Do(s, WebSocketAck(id));
            && cancelled.log == s.log + [Resolved(k, false)] && id !in cancelled.pending
            && confirmed.log == s.log + [Confirmed(k), Resolved(k, true)] && id !in confirmed.pending
            && (c < |s.calls| && s.calls[c].awaited && s.calls[c].id == id ==>
                  var answered := Do(s, Respond(c, true));
                  answered.log == s.log + [Confirmed(k), Resolved(k, true)] && id !in answered.pending && !answered.calls[c].awaited)
  {
    RunIsSafe(INITIAL, actions);
  }

  lemma FailureIsMarked(s: State, id: string, c: nat)
    requires Linked(s) && id in s.pending && c < |s.calls| && s.calls[c].awaited && s.calls[c].entry == s.pending[id]
    ensures Do(s, Respond(c, false)).log == s.log + [Failed(s.pending[id])]
  {
  }

  lemma RetryIsMarked(s: State, id: string, manual: bool)
    requires Pending(s, id) && !Of(s, id).inFlight
    ensures Retry(s, id, manual).log == s.log + [Requested(s.pending[id], manual)]
  {
  }

  lemma TimerIsMarked(s: State, id: string, u: nat)
    requires Pending(s, id) && !Of(s, id).inFlight && u < |s.timers| && s.timers[u].armed && s.timers[u].id == id
    ensures Do(s, TimerFires(u)).log == s.log + [Requested(s.pending[id], false)]
  {
    RetryIsMarked(s.(timers := Disarmed(s.timers, Some(u))), id, false);
  }

  /** And what keeps it going: its request failing counts, and its timer or a retry by hand makes the next one. */
  lemma PendingSendGoesOn(actions: seq<Action>, id: string, c: nat, u: nat)
    requires FreshRun(INITIAL, actions) && id in Run(INITIAL, actions).pending
    ensures var s := Run(INITIAL, actions);
            var k := s.pending[id];
            && Pending(s, id)
            && (c < |s.calls| && s.calls[c].awaited && s.calls[c].entry == k ==> Do(s, Respond(c, false)).log == s.log + [Failed(k)])
            && (!Of(s, id).inFlight ==> Do(s, RetryByHand(id)).log == s.log + [Requested(k, true)])
            && (u < |s.timers| && s.timers[u].armed && s.timers[u].id == id ==> Do(s, TimerFires(u)).log == s.log + [Requested(k, false)])
  {
    RunIsSafe(INITIAL, actions);
    var s := Run(INITIAL, actions);
    if c < |s.calls| && s.calls[c].awaited && s.calls[c].entry == s.pending[id] {
      FailureIsMarked(s, id, c);
    }
    if !Of(s, id).inFlight {
      RetryIsMarked(s, id, true);
    }
    if u < |s.timers| && s.timers[u].armed && s.timers[u].id == id {
      TimersBelongToWaiting(actions, u);
      TimerIsMarked(s, id, u);
    }
  }

  /** A pending send is never forgotten: a request is under way, or a retry is timed, or three attempts have failed. */
  lemma NoSendIsForgotten(actions: seq<Action>, k: nat)
    requires FreshRun(INITIAL, actions) && k < |Run(INITIAL, actions).entries|
    ensures var s := Run(INITIAL, actions);
            var e := s.entries[k];
            Live(s, k) ==>
              if e.inFlight then Awaited(s.calls, k) == 1
              else if e.attempts < 3 then
                && e.timer.Some? && e.timer.value < |s.timers| && s.timers[e.timer.value].armed
                && s.timers[e.timer.value].delay == (if e.attempts == 1 then 3000 else 4000)
              else e.failed && Requests(s.log, k) >= 3
  {
    RunIsSafe(INITIAL, actions);
    assert SendOk(Run(INITIAL, actions), None, k);
  }

  /** An armed timer belongs to a send that is pending and has no request under way. */
  lemma TimersBelongToWaiting(actions: seq<Action>, u: nat)
    requires FreshRun(INITIAL, actions) && u < |Run(INITIAL, actions).timers| && Run(INITIAL, actions).timers[u].armed
    ensures var s := Run(INITIAL, actions);
            var id := s.timers[u].id;
            Pending(s, id) && Of(s, id).timer == Some(u) && !Of(s, id).inFlight && Awaited(s.calls, s.pending[id]) == 0
  {
    RunIsSafe(INITIAL, actions);
    var s := Run(INITIAL, actions);
    LiveIsPending(s, s.timers[u].id);
    assert SendOk(s, None, s.pending[s.timers[u].id]);
  }

  /** What the allowed order means: nothing about a send comes after it resolved, so it resolves and confirms once. */
  lemma {:induction false} ResolvedIsLast(log: seq<Mark>, k: nat, i: nat, j: nat)
    requires i < j < |log| && log[i].Resolved? && log[i].entry == k && log[j].entry == k
    ensures PhaseOf(log, k).Broken?
    decreases |log|
  {
    var n := |log| - 1;
    if j < n {
      ResolvedIsLast(log[..n], k, i, j);
    } else {
      ResolvedStays(log[..n], k, i);
    }
  }

  lemma {:induction false} ResolvedStays(log: seq<Mark>, k: nat, i: nat)
    requires i < |log| && log[i].Resolved? && log[i].entry == k
    ensures PhaseOf(log, k).Broken? || PhaseOf(log, k).Settled?
    decreases |log|
  {
    var n := |log| - 1;
    if i < n {
      ResolvedStays(log[..n], k, i);
    }
  }

  /** A confirmation is followed by its resolution, never by another confirmation, a failure or an attempt. */
  lemma {:induction false} ConfirmedOnce(log: seq<Mark>, k: nat, i: nat, j: nat)
    requires i < j < |log| && log[i].Confirmed? && log[i].entry == k && log[j].entry == k && !log[j].Resolved?
    ensures PhaseOf(log, k).Broken?
    decreases |log|
  {
    var n := |log| - 1;
    if j < n {
      ConfirmedOnce(log[..n], k, i, j);
    } else {
      ConfirmedStays(log[..n], k, i);
    }
  }

  lemma {:induction false} ConfirmedStays(log: seq<Mark>, k: nat, i: nat)
    requires i < |log| && log[i].Confirmed? && log[i].entry == k
    ensures PhaseOf(log, k).Broken? || PhaseOf(log, k).Accepted? || PhaseOf(log, k).Settled?
    decreases |log|
  {
    var n := |log| - 1;
    if i < n {
      ConfirmedStays(log[..n], k, i);
    }
  }

  /** So in every run a send resolves at most once, confirms at most once, and reports nothing afterwards. */
  lemma NothingAfterResolve(actions: seq<Action>, i: nat, j: nat)
    requires FreshRun(INITIAL, actions)
    ensures var log := Run(INITIAL, actions).log;
            i < j < |log| && log[i].entry == log[j].entry ==>
              !log[i].Resolved? && (log[i].Confirmed? ==> log[j] == Resolved(log[i].entry, true))
  {
    RunIsSafe(INITIAL, actions);
    var s := Run(INITIAL, actions);
    if i < j < |s.log| && s.log[i].entry == s.log[j].entry {
      var k := s.log[i].entry;
      assert !PhaseOf(s.log, k).Broken? by {
        if k < |s.entries| {
          assert SendOk(s, None, k);
        } else {
          assert Untouched(s, k);
        }
      }
      if s.log[i].Resolved? {
        ResolvedIsLast(s.log, k, i, j);
      }
      if s.log[i].Confirmed? {
        if s.log[j].Resolved? {
          ConfirmedResolvesTrue(s.log, k, i, j);
        } else {
          ConfirmedOnce(s.log, k, i, j);
        }
      }
    }
  }

  lemma {:induction false} ConfirmedResolvesTrue(log: seq<Mark>, k: nat, i: nat, j: nat)
    requires i < j < |log| && log[i] == Confirmed(k) && log[j].entry == k && log[j].Resolved?
    ensures PhaseOf(log, k).Broken? || log[j] == Resolved(k, true)
    decreases |log|
  {
    var n := |log| - 1;
    if j < n {
      ConfirmedResolvesTrue(log[..n], k, i, j);
    } else {
      ConfirmedStays(log[..n], k, i);
    }
  }

  // ---- Why a pending id must not be reused ----

  predicate Unreachable(s: State, k: nat) {
    k < |s.entries| && forall id | id in s.pending :: s.pending[id] != k
  }

  lemma AttemptStays(s: State, id: string, manual: bool, k: nat)
    requires Unreachable(s, k)
    ensures Unreachable(RunSend(s, id, manual), k) && PhaseOf(RunSend(s, id, manual).log, k) == PhaseOf(s.log, k)
  {
    if Pending(s, id) {
      Logged(s.log, Requested(s.pending[id], manual), k);
    }
  }

  lemma EndStays(s: State, id: string, entry: nat, k: nat)
    requires Unreachable(s, k)
    ensures Unreachable(Acknowledge(s, id), k) && PhaseOf(Acknowledge(s, id).log, k) == PhaseOf(s.log, k)
    ensures Unreachable(Cancel(s, id), k) && PhaseOf(Cancel(s, id).log, k) == PhaseOf(s.log, k)
    ensures Unreachable(Fail(s, id, entry), k) && PhaseOf(Fail(s, id, entry).log, k) == PhaseOf(s.log, k)
  {
    if Pending(s, id) {
      Logged(s.log, Confirmed(s.pending[id]), k);
      Logged(s.log + [Confirmed(s.pending[id])], Resolved(s.pending[id], true), k);
      Logged(s.log, Resolved(s.pending[id], false), k);
      Logged(s.log, Failed(s.pending[id]), k);
    }
  }

  lemma RetryStays(s: State, id: string, manual: bool, k: nat)
    requires Unreachable(s, k)
    ensures Unreachable(Retry(s, id, manual), k) && PhaseOf(Retry(s, id, manual).log, k) == PhaseOf(s.log, k)
  {
    if Pending(s, id) {
      AttemptStays(Update(s, id, Of(s, id).(timer := None)).(timers := Disarmed(s.timers, Of(s, id).timer)), id, manual, k);
    }
  }

  lemma StaysUnreachable(s: State, a: Action, k: nat)
    requires Unreachable(s, k)
    ensures Unreachable(Do(s, a), k) && PhaseOf(Do(s, a).log, k) == PhaseOf(s.log, k)
  {
    match a
    case NewSend(id) =>
      AttemptStays(s.(entries := s.entries + [Entry(id, 0, false, false, None)], pending := s.pending[id := |s.entries|]), id, false, k);
    case WebSocketAck(id) => EndStays(s, id, 0, k);
    case CancelByHand(id) => EndStays(s, id, 0, k);
    case RetryByHand(id) => RetryStays(s, id, true, k);
    case Respond(c, ok) =>
      if c < |s.calls| && s.calls[c].awaited {
        EndStays(s.(calls := s.calls[c := s.calls[c].(awaited := false)]), s.calls[c].id, s.calls[c].entry, k);
      }
    case TimerFires(u) =>
      if u < |s.timers| && s.timers[u].armed {
        RetryStays(s.(timers := Disarmed(s.timers, Some(u))), s.timers[u].id, false, k);
      }
  }

  /** A new send under the id of a pending one takes its place, and the promise of the first never resolves. */
  lemma ReusedIdNeverResolves(s: State, k: nat, actions: seq<Action>)
    requires Linked(s) && k < |s.entries| && Live(s, k) && !PhaseOf(s.log, k).Settled?
    ensures !PhaseOf(Run(Send(s, s.entries[k].id), actions).log, k).Settled?
  {
    var id := s.entries[k].id;
    assert Do(s, NewSend(id)) == Send(s, id);
    Logged(s.log, Requested(|s.entries|, false), k);
    StaysSo(Send(s, id), k, actions);
  }

  lemma {:induction false} StaysSo(s: State, k: nat, actions: seq<Action>)
    requires Unreachable(s, k)
    ensures PhaseOf(Run(s, actions).log, k) == PhaseOf(s.log, k)
    decreases |actions|
  {
    if actions != [] {
      StaysUnreachable(s, actions[0], k);
      StaysSo(Do(s, actions[0]), k, actions[1..]);
    }
  }

  /** Some continuation settles send k. */
  ghost predicate CanSettle(s: State, k: nat) {
    exists more: seq<Action> :: PhaseOf(Run(s, more).log, k).Settled?
  }

  lemma LiveCanSettle(s: State, k: nat)
    requires Safe(s, None) && k < |s.entries| && Live(s, k)
    ensures CanSettle(s, k)
  {
    var id := s.entries[k].id;
    var t := Acknowledge(s, id);
    SettleIsSafe(s, t, id, None);
    assert SendOk(t, None, k);
    assert Run(s, [WebSocketAck(id)]) == Run(t, []) == t;
  }

  /** A new send leaves every earlier one that has not settled able to settle exactly when its id is not pending. */
  lemma NewSendIsHarmlessIff(actions: seq<Action>, id: string)
    requires FreshRun(INITIAL, actions)
    ensures var s := Run(INITIAL, actions);
            id !in s.pending <==>
            forall k | 0 <= k < |s.entries| && !PhaseOf(s.log, k).Settled? :: CanSettle(Send(s, id), k)
  {
    RunIsSafe(INITIAL, actions);
    var s := Run(INITIAL, actions);
    var t := Send(s, id);
    if id !in s.pending {
      SendIsSafe(s, id);
      SendShape(s, id);
      forall k | 0 <= k < |s.entries| && !PhaseOf(s.log, k).Settled?
        ensures CanSettle(t, k)
      {
        assert SendOk(s, None, k);
        LiveCanSettle(t, k);
      }
    } else {
      var k := s.pending[id];
      assert SendOk(s, None, k);
      forall more: seq<Action>
        ensures !PhaseOf(Run(t, more).log, k).Settled?
      {
        ReusedIdNeverResolves(s, k, more);
      }
      assert !CanSettle(t, k);
    }
  }
}
