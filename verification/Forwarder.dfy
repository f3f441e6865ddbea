/**
 Delivery of one task's events to the server. The processing of the task pushes events into the
 bounded history while forwarders poll it and upload what they find, event by event, retrying on
 failure; wakeups may try to start further forwarders at any time. All steps interleave.
 */
module Forwarder {
  import opened Wrappers
  import opened TaskHistory

  predicate Terminal(e: Event) {
    e.event == "done" || e.event == "error" || e.event == "complete"
  }

  /** Processing pushes ordinary events, then one final event, then perhaps "done"; a shutdown may suppress the end. */
  datatype Phase = Working | Final | Ended | Suppressed

  datatype Pc = Polling | Uploading(batch: seq<Event>) | Leaving(delivered: bool) | Gone

  datatype Worker = Worker(pc: Pc, deliveredSeq: int, acked: seq<Event>)

  /**
   The slot, the processing and the workers; pushed, evicted and dropped record the history of the
   slot up to the moment it is dropped.
   */
  datatype State = State(
    attempt: string,
    slot: Slot,
    phase: Phase,
    shuttingDown: bool,
    cancelled: bool,
    connected: bool,
    workers: seq<Worker>,
    pushed: seq<Event>,
    evicted: nat,
    dropped: bool)

  datatype Action =
    | PushOrdinary(e: Event)
    | PushFinal(e: Event)
    | PushDone(data: string)
    | EndProcessing
    | Shutdown
    | Suppress
    | ChangeStatus(status: string)
    | Wake
    | Cancel
    | Connect(up: bool)
    | Poll(w: nat)
    | Upload(w: nat, ok: bool)
    | Exit(w: nat)
    | Leave(w: nat)

  function PushEvent(s: State, e: Event): State {
    var slot := Push(s.slot, e);
    if s.dropped then s.(slot := slot)
    else
      var pushed := s.pushed + [e.(seqNo := s.slot.nextSeq + 1)];
      s.(slot := slot, pushed := pushed, evicted := if |slot.events| <= |pushed| then |pushed| - |slot.events| else 0)
  }

  predicate At(s: State, w: nat) {
    w < |s.workers|
  }

  function Put(s: State, w: nat, worker: Worker): State
    requires At(s, w)
  {
    s.(workers := s.workers[w := worker])
  }

  /** One round of the inner loop whose upload was answered. */
  function Acknowledge(worker: Worker): Worker
    requires worker.pc.Uploading? && worker.pc.batch != []
  {
    var e, rest := worker.pc.batch[0], worker.pc.batch[1..];
    Worker(if Terminal(e) then Leaving(true) else if rest == [] then Polling else Uploading(rest), e.seqNo, worker.acked + [e])
  }

  function Do(s: State, a: Action): State {
    match a
    case PushOrdinary(e) => if s.phase.Working? && e.seqNo == 0 && !Terminal(e) then PushEvent(s, e) else s
    case PushFinal(e) =>
      if s.phase.Working? && e.seqNo == 0 && (e.event == "error" || e.event == "complete") then PushEvent(s, e).(phase := Final) else s
    case PushDone(data) => if s.phase.Final? then PushEvent(s, Event("done", data, 0)).(phase := Ended) else s
    case EndProcessing => if s.phase.Final? then s.(phase := Ended) else s
    case Shutdown => s.(shuttingDown := true)
    case Suppress => if s.phase.Working? && s.shuttingDown then s.(phase := Suppressed) else s
    case ChangeStatus(status) => s.(slot := SetStatus(s.slot, status))
    case Wake =>
      var (slot, began) := Begin(s.slot, s.attempt);
      if began then s.(slot := slot, workers := s.workers + [Worker(Polling, 0, [])]) else s
    case Cancel => s.(cancelled := true)
    case Connect(up) => s.(connected := up)
    case Poll(w) =>
      if At(s, w) && s.workers[w].pc.Polling? then
        var events := After(s.slot.events, s.workers[w].deliveredSeq);
        if events == [] then s else Put(s, w, s.workers[w].(pc := Uploading(events)))
      else s
    case Upload(w, ok) =>
      if At(s, w) && s.workers[w].pc.Uploading? && s.workers[w].pc.batch != [] && s.connected && ok then
        Put(s, w, Acknowledge(s.workers[w]))
      else s
    case Exit(w) =>
      if At(s, w) && (s.workers[w].pc.Polling? || s.workers[w].pc.Uploading?) && s.cancelled then
        Put(s, w, s.workers[w].(pc := Leaving(false)))
      else s
    case Leave(w) =>
      if At(s, w) && s.workers[w].pc.Leaving? then
        var delivered := s.workers[w].pc.delivered;
        Put(s, w, s.workers[w].(pc := Gone)).(slot := End(s.slot, s.attempt, delivered), dropped := s.dropped || delivered)
      else s
  }

  function Run(s: State, actions: seq<Action>): State
    decreases |actions|
  {
    if actions == [] then s else Run(Do(s, actions[0]), actions[1..])
  }

  /** A task that was just added under an id without history. */
  predicate Initial(s: State) {
    && s.slot.task.Some? && s.slot.task.value.attemptID == s.attempt && !s.slot.task.value.forwarding
    && s.slot == Slot(s.slot.task, [], 0, 0)
    && s.phase.Working? && s.workers == [] && s.pushed == [] && s.evicted == 0 && !s.dropped
  }

  // ---- The invariant ----

  function Live(workers: seq<Worker>): nat {
    if workers == [] then 0 else (if workers[|workers| - 1].pc.Gone? then 0 else 1) + Live(workers[..|workers| - 1])
  }

  lemma {:induction false} LivePut(workers: seq<Worker>, w: nat, worker: Worker)
    requires w < |workers|
    ensures Live(workers[w := worker]) + (if workers[w].pc.Gone? then 0 else 1) == Live(workers) + (if worker.pc.Gone? then 0 else 1)
  {
    var n := |workers| - 1;
    if w == n {
      assert workers[w := worker][..n] == workers[..n];
    } else {
      assert workers[w := worker][..n] == workers[..n][w := worker];
      LivePut(workers[..n], w, worker);
    }
  }

  lemma {:induction false} LiveCounts(workers: seq<Worker>, w: nat)
    requires w < |workers| && !workers[w].pc.Gone?
    ensures Live(workers) > 0
  {
    if w < |workers| - 1 {
      LiveCounts(workers[..|workers| - 1], w);
    }
  }

  predicate InSequence(acked: seq<Event>) {
    forall i, j | 0 <= i < j < |acked| :: acked[i].seqNo < acked[j].seqNo
  }

  /** The event is the pushed one with its number. */
  predicate Genuine(e: Event, pushed: seq<Event>) {
    1 <= e.seqNo <= |pushed| && e == pushed[e.seqNo - 1]
  }

  predicate Acked(acked: seq<Event>, n: int) {
    exists e <- acked :: e.seqNo == n
  }

  /** Every number up to n was acknowledged or evicted. */
  predicate Covers(acked: seq<Event>, n: int, evicted: nat) {
    forall k | evicted < k <= n :: Acked(acked, k)
  }

  predicate BatchOk(batch: seq<Event>, deliveredSeq: int, pushed: seq<Event>, evicted: nat) {
    && batch != [] && Consecutive(batch)
    && deliveredSeq < batch[0].seqNo && (batch[0].seqNo == deliveredSeq + 1 || batch[0].seqNo <= evicted + 1)
    && forall e <- batch :: Genuine(e, pushed)
  }

  predicate WorkerOk(worker: Worker, pushed: seq<Event>, evicted: nat) {
    && InSequence(worker.acked)
    && (forall e <- worker.acked :: Genuine(e, pushed) && e.seqNo <= worker.deliveredSeq)
    && (worker.deliveredSeq == if worker.acked == [] then 0 else worker.acked[|worker.acked| - 1].seqNo)
    && Covers(worker.acked, worker.deliveredSeq, evicted)
    && (worker.pc.Uploading? ==> BatchOk(worker.pc.batch, worker.deliveredSeq, pushed, evicted))
    && (worker.pc.Polling? || worker.pc.Uploading? || worker.pc == Leaving(false) ==> forall e <- worker.acked :: !Terminal(e))
    && (worker.pc == Leaving(true) ==> worker.acked != [] && Terminal(worker.acked[|worker.acked| - 1]))
  }

  predicate WorkersOk(workers: seq<Worker>, pushed: seq<Event>, evicted: nat) {
    forall w | 0 <= w < |workers| :: WorkerOk(workers[w], pushed, evicted)
  }

  predicate HistoryOk(events: seq<Event>, bytes: int, nextSeq: int, pushed: seq<Event>, evicted: nat) {
    && KeepsFrom(pushed, evicted) && (pushed != [] ==> evicted < |pushed|)
    && events == pushed[evicted..] && bytes == TotalCost(events) && nextSeq == |pushed|
  }

  /** The forwarding flag stands for the one live worker. */
  predicate GuardOk(task: Option<Task>, attempt: string, workers: seq<Worker>) {
    && task.Some? && task.value.attemptID == attempt
    && Live(workers) == if task.value.forwarding then 1 else 0
  }

  predicate PushedOk(phase: Phase, pushed: seq<Event>) {
    && (forall i | 0 <= i < |pushed| :: pushed[i].seqNo == i + 1)
    && (forall i, j | 0 <= i < j < |pushed| && Terminal(pushed[i]) :: Terminal(pushed[j]))
    && (phase.Working? || phase.Suppressed? ==> forall i | 0 <= i < |pushed| :: !Terminal(pushed[i]))
    && (phase.Final? || phase.Ended? ==> pushed != [] && Terminal(pushed[|pushed| - 1]))
  }

  /** The last event the worker had acknowledged is terminal. */
  predicate Delivered(worker: Worker) {
    worker.acked != [] && Terminal(worker.acked[|worker.acked| - 1])
  }

  predicate DroppedOk(slot: Slot, phase: Phase, workers: seq<Worker>) {
    && slot.task.None? && Live(workers) == 0 && (phase.Final? || phase.Ended?)
    && exists w | 0 <= w < |workers| :: Delivered(workers[w])
  }

  predicate Safe(s: State) {
    && PushedOk(s.phase, s.pushed) && WorkersOk(s.workers, s.pushed, s.evicted)
    && (!s.dropped ==>
          && HistoryOk(s.slot.events, s.slot.bytes, s.slot.nextSeq, s.pushed, s.evicted)
          && GuardOk(s.slot.task, s.attempt, s.workers))
    && (s.dropped ==> DroppedOk(s.slot, s.phase, s.workers))
  }

  // ---- Pushing ----

  lemma EvictedGrows(events: seq<Event>, e: Event, j: nat, k: nat)
    requires KeepsFrom(events, j) && KeepsFrom(events + [e], k) && (events == [] ==> j == 0)
    ensures j <= k
  {
    if k < j {
      FitsShrinks(events, e, k);
    }
  }

  lemma PushKeepsHistory(s: Slot, e: Event, pushed: seq<Event>, evicted: nat) returns (k: nat)
    requires HistoryOk(s.events, s.bytes, s.nextSeq, pushed, evicted) && e.seqNo == 0
    ensures var slot, more := Push(s, e), pushed + [e.(seqNo := |pushed| + 1)];
            evicted <= k <= |more| && |slot.events| == |more| - k
            && HistoryOk(slot.events, slot.bytes, slot.nextSeq, more, k)
  {
    k := PushKeeps(s, pushed, evicted, e);
    if pushed == [] {
      assert evicted == 0;
    }
    EvictedGrows(pushed, e.(seqNo := |pushed| + 1), evicted, k);
  }

  lemma PushKeepsPushed(phase: Phase, pushed: seq<Event>, e: Event, next: Phase)
    requires PushedOk(phase, pushed) && !phase.Suppressed? && e.seqNo == |pushed| + 1
    requires if phase.Working? && !Terminal(e) then next.Working? else Terminal(e) && (next.Final? || next.Ended?)
    ensures PushedOk(next, pushed + [e])
  {
  }

  lemma WorkerStays(worker: Worker, pushed: seq<Event>, evicted: nat, e: Event, later: nat)
    requires WorkerOk(worker, pushed, evicted) && evicted <= later
    ensures WorkerOk(worker, pushed + [e], later)
  {
    var more := pushed + [e];
    forall x | Genuine(x, pushed)
      ensures Genuine(x, more)
    {
    }
  }

  lemma WorkersStay(workers: seq<Worker>, pushed: seq<Event>, evicted: nat, e: Event, later: nat)
    requires WorkersOk(workers, pushed, evicted) && evicted <= later
    ensures WorkersOk(workers, pushed + [e], later)
  {
    forall w | 0 <= w < |workers|
      ensures WorkerOk(workers[w], pushed + [e], later)
    {
      WorkerStays(workers[w], pushed, evicted, e, later);
    }
  }

  lemma AfterPush(s: State, slot: Slot, stored: Event, k: nat, phase: Phase)
    requires Safe(s) && !s.dropped && !s.phase.Suppressed? && s.evicted <= k && slot.task == s.slot.task
    requires stored.seqNo == |s.pushed| + 1
    requires if s.phase.Working? && !Terminal(stored) then phase.Working? else Terminal(stored) && (phase.Final? || phase.Ended?)
    requires HistoryOk(slot.events, slot.bytes, slot.nextSeq, s.pushed + [stored], k)
    ensures Safe(s.(slot := slot, pushed := s.pushed + [stored], evicted := k, phase := phase))
  {
    PushKeepsPushed(s.phase, s.pushed, stored, phase);
    WorkersStay(s.workers, s.pushed, s.evicted, stored, k);
  }

  lemma PushKeepsSafe(s: State, e: Event, phase: Phase)
    requires Safe(s) && e.seqNo == 0 && !s.phase.Suppressed?
    requires if s.phase.Working? && !Terminal(e) then phase.Working? else Terminal(e) && (phase.Final? || phase.Ended?)
    ensures Safe(PushEvent(s, e).(phase := phase))
  {
    PushNumbers(s.slot, e);
    if s.dropped {
      PushAfterDrop(s, Push(s.slot, e), phase);
    } else {
      var slot := Push(s.slot, e);
      var k := PushKeepsHistory(s.slot, e, s.pushed, s.evicted);
      var stored := e.(seqNo := |s.pushed| + 1);
      AfterPush(s, slot, stored, k, phase);
      PushShape(s, e, slot, stored, k);
    }
  }

  lemma PushShape(s: State, e: Event, slot: Slot, stored: Event, k: nat)
    requires !s.dropped && slot == Push(s.slot, e) && stored == e.(seqNo := s.slot.nextSeq + 1)
    requires k <= |s.pushed| + 1 && |slot.events| == |s.pushed| + 1 - k
    ensures PushEvent(s, e) == s.(slot := slot, pushed := s.pushed + [stored], evicted := k)
  {
  }

  lemma PushAfterDrop(s: State, slot: Slot, phase: Phase)
    requires Safe(s) && s.dropped && slot.task == s.slot.task && (phase.Final? || phase.Ended?)
    ensures Safe(s.(slot := slot, phase := phase))
  {
  }

  // ---- The workers ----

  lemma PolledOk(delivered: int, events: seq<Event>, pushed: seq<Event>, evicted: nat)
    requires evicted <= |pushed| && events == pushed[evicted..]
    requires forall i | 0 <= i < |pushed| :: pushed[i].seqNo == i + 1
    requires After(events, delivered) != []
    ensures BatchOk(After(events, delivered), delivered, pushed, evicted)
  {
    assert forall i | 0 <= i < |events| :: events[i] == pushed[evicted + i];
    var m := AfterIsSuffix(events, delivered);
    var batch := events[m..];
    assert batch == pushed[evicted + m..];
    assert m > 0 ==> events[m - 1].seqNo <= delivered;
    BatchIsGenuine(batch, pushed, evicted + m);
  }

  lemma BatchIsGenuine(batch: seq<Event>, pushed: seq<Event>, from: nat)
    requires from <= |pushed| && batch == pushed[from..]
    requires forall i | 0 <= i < |pushed| :: pushed[i].seqNo == i + 1
    ensures forall e <- batch :: Genuine(e, pushed)
  {
    forall e | e in batch
      ensures Genuine(e, pushed)
    {
      var i :| 0 <= i < |batch| && batch[i] == e;
      assert pushed[from + i] == e;
    }
  }

  lemma AcknowledgedOk(worker: Worker, pushed: seq<Event>, evicted: nat)
    requires WorkerOk(worker, pushed, evicted) && worker.pc.Uploading?
    ensures WorkerOk(Acknowledge(worker), pushed, evicted)
  {
    var batch, after := worker.pc.batch, Acknowledge(worker);
    var e, rest := batch[0], batch[1..];
    assert forall i | 0 <= i < |rest| :: rest[i] == batch[i + 1];
    assert Genuine(e, pushed);
    forall k | evicted < k <= e.seqNo
      ensures Acked(after.acked, k)
    {
      if k == e.seqNo {
        assert e in after.acked;
      } else {
        assert Acked(worker.acked, k);
        var previous :| previous in worker.acked && previous.seqNo == k;
        assert previous in after.acked;
      }
    }
  }

  /** A step of one worker that stays live and leaves everything else alone. */
  lemma WorkerStepKeepsSafe(s: State, w: nat, worker: Worker)
    requires Safe(s) && At(s, w) && !s.workers[w].pc.Gone? && !worker.pc.Gone? && WorkerOk(worker, s.pushed, s.evicted)
    ensures Safe(Put(s, w, worker)) && !s.dropped
  {
    LivePut(s.workers, w, worker);
    LiveCounts(s.workers, w);
  }

  lemma WorkerReplaced(worker: Worker, pc: Pc, pushed: seq<Event>, evicted: nat)
    requires WorkerOk(worker, pushed, evicted)
    requires pc.Gone? || (pc == Leaving(false) && (worker.pc.Polling? || worker.pc.Uploading?))
             || (pc.Uploading? && worker.pc.Polling? && BatchOk(pc.batch, worker.deliveredSeq, pushed, evicted))
    ensures WorkerOk(worker.(pc := pc), pushed, evicted)
  {
  }

  lemma PollKeepsSafe(s: State, w: nat)
    requires Safe(s)
    ensures Safe(Do(s, Poll(w)))
  {
    if At(s, w) && s.workers[w].pc.Polling? {
      var worker := s.workers[w];
      var events := After(s.slot.events, worker.deliveredSeq);
      if events != [] {
        LiveCounts(s.workers, w);
        PolledOk(worker.deliveredSeq, s.slot.events, s.pushed, s.evicted);
        WorkerReplaced(worker, Uploading(events), s.pushed, s.evicted);
        WorkerStepKeepsSafe(s, w, worker.(pc := Uploading(events)));
      }
    }
  }

  lemma UploadKeepsSafe(s: State, w: nat, ok: bool)
    requires Safe(s)
    ensures Safe(Do(s, Upload(w, ok)))
  {
    if At(s, w) && s.workers[w].pc.Uploading? && s.connected && ok {
      AcknowledgedOk(s.workers[w], s.pushed, s.evicted);
      WorkerStepKeepsSafe(s, w, Acknowledge(s.workers[w]));
    }
  }

  lemma ExitKeepsSafe(s: State, w: nat)
    requires Safe(s)
    ensures Safe(Do(s, Exit(w)))
  {
    if At(s, w) && (s.workers[w].pc.Polling? || s.workers[w].pc.Uploading?) {
      WorkerReplaced(s.workers[w], Leaving(false), s.pushed, s.evicted);
      WorkerStepKeepsSafe(s, w, s.workers[w].(pc := Leaving(false)));
    }
  }

  lemma TerminalAcked(worker: Worker, phase: Phase, pushed: seq<Event>, evicted: nat)
    requires WorkerOk(worker, pushed, evicted) && PushedOk(phase, pushed) && worker.pc == Leaving(true)
    ensures Delivered(worker) && (phase.Final? || phase.Ended?)
  {
    var last := worker.acked[|worker.acked| - 1];
    assert last in worker.acked;
    assert Genuine(last, pushed);
  }

  lemma LeaveKeepsSafe(s: State, w: nat)
    requires Safe(s)
    ensures Safe(Do(s, Leave(w)))
  {
    if At(s, w) && s.workers[w].pc == Leaving(true) {
      DeliveredLeaves(s, w);
    } else if At(s, w) && s.workers[w].pc == Leaving(false) {
      UndeliveredLeaves(s, w);
    }
  }

  lemma DeliveredLeaves(s: State, w: nat)
    requires Safe(s) && At(s, w) && s.workers[w].pc == Leaving(true)
    ensures Safe(Do(s, Leave(w)))
  {
    TerminalIsDelivered(s, w);
    LastWorkerGoes(s, w);
    LeaveDrops(s, w);
    DropKeepsSafe(s, Do(s, Leave(w)), w);
  }

  function WithoutWorker(s: State, w: nat): seq<Worker>
    requires At(s, w)
  {
    s.workers[w := s.workers[w].(pc := Gone)]
  }

  lemma LeaveDrops(s: State, w: nat)
    requires Safe(s) && At(s, w) && s.workers[w].pc == Leaving(true)
    ensures Do(s, Leave(w)) == s.(slot := NO_SLOT, dropped := true, workers := WithoutWorker(s, w))
  {
    OnlyOneIsLive(s, w);
  }

  lemma TerminalIsDelivered(s: State, w: nat)
    requires Safe(s) && At(s, w) && s.workers[w].pc == Leaving(true)
    ensures s.phase.Final? || s.phase.Ended?
    ensures At(s, w) && Delivered(WithoutWorker(s, w)[w])
  {
    TerminalAcked(s.workers[w], s.phase, s.pushed, s.evicted);
    GoneStaysDelivered(s.workers, w);
  }

  lemma GoneStaysDelivered(workers: seq<Worker>, w: nat)
    requires w < |workers| && Delivered(workers[w])
    ensures Delivered(workers[w := workers[w].(pc := Gone)][w])
  {
  }

  lemma LastWorkerGoes(s: State, w: nat)
    requires Safe(s) && At(s, w) && !s.workers[w].pc.Gone?
    ensures WorkersOk(WithoutWorker(s, w), s.pushed, s.evicted) && Live(WithoutWorker(s, w)) == 0
  {
    OnlyOneIsLive(s, w);
    GoneKeepsWorkers(s.workers, s.pushed, s.evicted, w);
  }

  lemma UndeliveredLeaves(s: State, w: nat)
    requires Safe(s) && At(s, w) && s.workers[w].pc == Leaving(false)
    ensures Safe(Do(s, Leave(w)))
  {
    OnlyOneIsLive(s, w);
    LastWorkerGoes(s, w);
    LeaveStays(s, w);
    LastOneLeaves(s, Do(s, Leave(w)));
  }

  lemma LeaveStays(s: State, w: nat)
    requires At(s, w) && s.workers[w].pc == Leaving(false)
    ensures var t := Do(s, Leave(w));
            && t.slot == End(s.slot, s.attempt, false) && t.dropped == s.dropped && t.attempt == s.attempt
            && t.workers == s.workers[w := s.workers[w].(pc := Gone)] && t.cancelled == s.cancelled && t.connected == s.connected
            && t.phase == s.phase && t.pushed == s.pushed && t.evicted == s.evicted
  {
  }

  lemma OnlyOneIsLive(s: State, w: nat)
    requires Safe(s) && At(s, w) && !s.workers[w].pc.Gone?
    ensures !s.dropped && Live(s.workers) == 1 && s.slot.task.Some? && s.slot.task.value.attemptID == s.attempt
    ensures WorkerOk(s.workers[w], s.pushed, s.evicted)
  {
    LiveCounts(s.workers, w);
  }

  lemma GoneKeepsWorkers(workers: seq<Worker>, pushed: seq<Event>, evicted: nat, w: nat)
    requires WorkersOk(workers, pushed, evicted) && w < |workers| && !workers[w].pc.Gone?
    ensures WorkersOk(workers[w := workers[w].(pc := Gone)], pushed, evicted)
    ensures Live(workers[w := workers[w].(pc := Gone)]) + 1 == Live(workers)
  {
    LivePut(workers, w, workers[w].(pc := Gone));
    WorkerReplaced(workers[w], Gone, pushed, evicted);
  }

  lemma DropKeepsSafe(s: State, t: State, w: nat)
    requires PushedOk(s.phase, s.pushed) && (s.phase.Final? || s.phase.Ended?)
    requires t.phase == s.phase && t.pushed == s.pushed && t.evicted == s.evicted && t.dropped && t.slot.task.None?
    requires WorkersOk(t.workers, s.pushed, s.evicted) && Live(t.workers) == 0
    requires w < |t.workers| && Delivered(t.workers[w])
    ensures Safe(t)
  {
  }

  lemma LastOneLeaves(s: State, t: State)
    requires Safe(s) && !s.dropped
    requires t.phase == s.phase && t.pushed == s.pushed && t.evicted == s.evicted && t.attempt == s.attempt && !t.dropped
    requires t.slot == End(s.slot, s.attempt, false)
    requires WorkersOk(t.workers, s.pushed, s.evicted) && Live(t.workers) == 0
    ensures Safe(t)
  {
  }

  lemma WakeKeepsSafe(s: State)
    requires Safe(s)
    ensures Safe(Do(s, Wake))
  {
    var (slot, began) := Begin(s.slot, s.attempt);
    if began {
      WokenIsSafe(s, slot);
    }
  }

  lemma WokenIsSafe(s: State, slot: Slot)
    requires Safe(s) && s.slot.task.Some? && s.slot.task.value.attemptID == s.attempt && !s.slot.task.value.forwarding
    requires slot == s.slot.(task := Some(s.slot.task.value.(forwarding := true)))
    ensures Safe(s.(slot := slot, workers := s.workers + [Worker(Polling, 0, [])]))
  {
    NewWorkerOk(s.workers, s.pushed, s.evicted);
  }

  lemma NewWorkerOk(workers: seq<Worker>, pushed: seq<Event>, evicted: nat)
    requires WorkersOk(workers, pushed, evicted)
    ensures WorkersOk(workers + [Worker(Polling, 0, [])], pushed, evicted)
    ensures Live(workers + [Worker(Polling, 0, [])]) == Live(workers) + 1
  {
    assert (workers + [Worker(Polling, 0, [])])[..|workers|] == workers;
  }

  lemma ProcessingKeepsSafe(s: State, a: Action)
    requires Safe(s) && (a.PushOrdinary? || a.PushFinal? || a.PushDone?)
    ensures Safe(Do(s, a))
  {
    match a
    case PushOrdinary(e) => if s.phase.Working? && e.seqNo == 0 && !Terminal(e) { PushKeepsSafe(s, e, Working); }
    case PushFinal(e) => if s.phase.Working? && e.seqNo == 0 && Terminal(e) { PushKeepsSafe(s, e, Final); }
    case PushDone(data) => if s.phase.Final? { PushKeepsSafe(s, Event("done", data, 0), Ended); }
  }

  lemma EnvironmentKeepsSafe(s: State, a: Action)
    requires Safe(s) && (a.Shutdown? || a.Cancel? || a.Connect?)
    ensures Safe(Do(s, a))
  {
  }

  lemma StatusKeepsSafe(s: State, status: string)
    requires Safe(s)
    ensures Safe(Do(s, ChangeStatus(status)))
  {
    SameButTask(s, Do(s, ChangeStatus(status)));
  }

  /** The status of the task plays no part. */
  lemma SameButTask(s: State, t: State)
    requires Safe(s) && t == s.(slot := s.slot.(task := t.slot.task))
    requires if s.slot.task.Some? then t.slot.task.Some? && t.slot.task.value == s.slot.task.value.(status := t.slot.task.value.status)
             else t.slot.task.None?
    ensures Safe(t)
  {
  }

  lemma PhaseKeepsSafe(s: State, phase: Phase)
    requires Safe(s) && ((s.phase.Final? && phase.Ended?) || (s.phase.Working? && phase.Suppressed?))
    ensures Safe(s.(phase := phase))
  {
    assert PushedOk(phase, s.pushed);
  }

  lemma DoKeepsSafe(s: State, a: Action)
    requires Safe(s)
    ensures Safe(Do(s, a))
  {
    match a
    case PushOrdinary(_) => ProcessingKeepsSafe(s, a);
    case PushFinal(_) => ProcessingKeepsSafe(s, a);
    case PushDone(_) => ProcessingKeepsSafe(s, a);
    case Wake => WakeKeepsSafe(s);
    case Poll(w) => PollKeepsSafe(s, w);
    case Upload(w, ok) => UploadKeepsSafe(s, w, ok);
    case Exit(w) => ExitKeepsSafe(s, w);
    case Leave(w) => LeaveKeepsSafe(s, w);
    case EndProcessing => if s.phase.Final? { PhaseKeepsSafe(s, Ended); }
    case Shutdown => EnvironmentKeepsSafe(s, a);
    case Suppress => if s.phase.Working? { PhaseKeepsSafe(s, Suppressed); }
    case ChangeStatus(status) => StatusKeepsSafe(s, status);
    case Cancel => EnvironmentKeepsSafe(s, a);
    case Connect(_) => EnvironmentKeepsSafe(s, a);
  }

  lemma {:induction false} RunKeepsSafe(s: State, actions: seq<Action>)
    requires Safe(s)
    ensures Safe(Run(s, actions))
    decreases |actions|
  {
    if actions != [] {
      DoKeepsSafe(s, actions[0]);
      RunKeepsSafe(Do(s, actions[0]), actions[1..]);
    }
  }

  // ---- The theorems ----

  /** What one worker had acknowledged: increasing numbers of pushed events, and all it skipped was evicted. */
  predicate InOrder(s: State, worker: Worker) {
    && InSequence(worker.acked)
    && (forall e <- worker.acked :: Genuine(e, s.pushed))
    && Covers(worker.acked, worker.deliveredSeq, s.evicted)
  }

  /** In every run each forwarder delivers in order and skips only evicted events, and at most one is live. */
  lemma DeliveryIsInOrder(s: State, actions: seq<Action>, w: nat)
    requires Initial(s) && At(Run(s, actions), w)
    ensures InOrder(Run(s, actions), Run(s, actions).workers[w])
    ensures Live(Run(s, actions).workers) <= 1
  {
    RunKeepsSafe(s, actions);
    assert WorkerOk(Run(s, actions).workers[w], Run(s, actions).pushed, Run(s, actions).evicted);
  }

  /** Every ordinary event was acknowledged by this worker, or evicted before anyone could. */
  predicate DeliveredAll(s: State, worker: Worker) {
    forall i | s.evicted <= i < |s.pushed| && !Terminal(s.pushed[i]) :: Acked(worker.acked, i + 1)
  }

  /**
   The task is dropped only after a terminal event was acknowledged, and then one forwarder had all
   the ordinary events acknowledged that were not evicted. Until then the task stays.
   */
  lemma DroppedMeansDelivered(s: State, actions: seq<Action>)
    requires Initial(s)
    ensures var t := Run(s, actions);
            && (t.slot.task.None? <==> t.dropped)
            && (t.dropped ==> exists w | 0 <= w < |t.workers| :: Delivered(t.workers[w]) && DeliveredAll(t, t.workers[w]))
  {
    RunKeepsSafe(s, actions);
    var t := Run(s, actions);
    if t.dropped {
      var w :| 0 <= w < |t.workers| && Delivered(t.workers[w]);
      TerminalIsAfterAll(t, t.workers[w]);
    }
  }

  lemma TerminalIsAfterAll(s: State, worker: Worker)
    requires PushedOk(s.phase, s.pushed) && WorkerOk(worker, s.pushed, s.evicted) && Delivered(worker)
    ensures DeliveredAll(s, worker)
  {
    var last := worker.acked[|worker.acked| - 1];
    assert last in worker.acked;
    assert Genuine(last, s.pushed);
    forall i | s.evicted <= i < |s.pushed| && !Terminal(s.pushed[i])
      ensures Acked(worker.acked, i + 1)
    {
      assert i < last.seqNo;
    }
  }

  /** Once processing has ended, outside shutdown, and until the task is dropped, the newest retained event is terminal. */
  lemma NewestIsTerminal(s: State, actions: seq<Action>)
    requires Initial(s)
    ensures var t := Run(s, actions);
            (t.phase.Final? || t.phase.Ended?) && !t.dropped ==>
              t.slot.events != [] && Terminal(t.slot.events[|t.slot.events| - 1])
              && t.slot.events[|t.slot.events| - 1].seqNo == |t.pushed|
  {
    RunKeepsSafe(s, actions);
    var t := Run(s, actions);
    if (t.phase.Final? || t.phase.Ended?) && !t.dropped {
      NewestIsLastPushed(t.slot, t.phase, t.pushed, t.evicted);
    }
  }

  lemma NewestIsLastPushed(slot: Slot, phase: Phase, pushed: seq<Event>, evicted: nat)
    requires PushedOk(phase, pushed) && (phase.Final? || phase.Ended?)
    requires HistoryOk(slot.events, slot.bytes, slot.nextSeq, pushed, evicted)
    ensures slot.events != [] && slot.events[|slot.events| - 1] == pushed[|pushed| - 1]
    ensures Terminal(pushed[|pushed| - 1]) && pushed[|pushed| - 1].seqNo == |pushed|
  {
  }

  // ---- Delivery completes ----

  /** The next step of a worker whose uploads succeed. */
  function NextStep(s: State, w: nat): Action
    requires At(s, w)
  {
    match s.workers[w].pc
    case Polling => Poll(w)
    case Uploading(_) => Upload(w, true)
    case Leaving(_) => Leave(w)
    case Gone => Wake
  }

  function Remaining(s: State, w: nat): int
    requires At(s, w)
  {
    match s.workers[w].pc
    case Polling => 2 * (|s.pushed| - s.workers[w].deliveredSeq) + 2
    case Uploading(_) => 2 * (|s.pushed| - s.workers[w].deliveredSeq) + 1
    case Leaving(_) => 1
    case Gone => 0
  }

  /** Processing has ended and a worker that was not cancelled is delivering. */
  predicate Delivering(s: State, w: nat) {
    && (s.phase.Final? || s.phase.Ended?) && !s.cancelled && At(s, w)
    && !s.workers[w].pc.Gone? && s.workers[w].pc != Leaving(false)
  }

  /** The worker gets a turn that takes effect; an upload needs the connection. */
  predicate OwnTurn(s: State, a: Action, w: nat) {
    At(s, w) && !s.workers[w].pc.Gone? && a == NextStep(s, w) && (s.workers[w].pc.Uploading? ==> s.connected)
  }

  function OwnTurns(s: State, actions: seq<Action>, w: nat): nat
    decreases |actions|
  {
    if actions == [] then 0
    else (if OwnTurn(s, actions[0], w) then 1 else 0) + OwnTurns(Do(s, actions[0]), actions[1..], w)
  }

  /** Two turns for each event that is left, one more that may still be pushed included, and two for the end. */
  function Bound(s: State, w: nat): int
    requires At(s, w)
  {
    Remaining(s, w) + if s.phase.Final? then 2 else 0
  }

  /** A worker that is still at it has not delivered the newest event, since that one is terminal. */
  lemma NotYetAll(s: State, w: nat)
    requires Safe(s) && Delivering(s, w) && (s.workers[w].pc.Polling? || s.workers[w].pc.Uploading?)
    ensures 0 <= s.workers[w].deliveredSeq < |s.pushed|
  {
    var worker := s.workers[w];
    assert WorkerOk(worker, s.pushed, s.evicted);
    if worker.acked != [] {
      var last := worker.acked[|worker.acked| - 1];
      assert last in worker.acked;
      assert Genuine(last, s.pushed) && !Terminal(last);
    }
  }

  lemma PollFinds(s: State, w: nat)
    requires Safe(s) && Delivering(s, w) && s.workers[w].pc.Polling?
    ensures !s.dropped && After(s.slot.events, s.workers[w].deliveredSeq) != []
  {
    OnlyOneIsLive(s, w);
    NotYetAll(s, w);
    var events := s.slot.events;
    assert forall i | 0 <= i < |events| :: events[i] == s.pushed[s.evicted + i];
    var m := AfterIsSuffix(events, s.workers[w].deliveredSeq);
    assert events[|events| - 1].seqNo == |s.pushed|;
  }

  lemma PollDelivers(s: State, w: nat)
    requires Safe(s) && Delivering(s, w) && s.workers[w].pc.Polling?
    ensures var t := Do(s, Poll(w));
            t == Put(s, w, s.workers[w].(pc := Uploading(After(s.slot.events, s.workers[w].deliveredSeq))))
    ensures 0 <= s.workers[w].deliveredSeq < |s.pushed|
  {
    PollFinds(s, w);
    NotYetAll(s, w);
  }

  lemma UploadDelivers(s: State, w: nat)
    requires Safe(s) && Delivering(s, w) && s.workers[w].pc.Uploading? && s.connected
    ensures s.workers[w].pc.batch != [] && Do(s, Upload(w, true)) == Put(s, w, Acknowledge(s.workers[w]))
    ensures s.workers[w].deliveredSeq < Acknowledge(s.workers[w]).deliveredSeq <= |s.pushed|
  {
    var worker := s.workers[w];
    assert WorkerOk(worker, s.pushed, s.evicted);
    assert Genuine(worker.pc.batch[0], s.pushed);
  }

  lemma OwnTurnDelivers(s: State, w: nat)
    requires Safe(s) && Delivering(s, w) && OwnTurn(s, NextStep(s, w), w)
    ensures var t := Do(s, NextStep(s, w));
            && t.connected == s.connected
            && if s.workers[w].pc.Leaving? then t.slot == NO_SLOT && t.dropped && t.workers == WithoutWorker(s, w)
               else Delivering(t, w) && 0 < Bound(t, w) < Bound(s, w)
  {
    if s.workers[w].pc.Leaving? {
      LeaveDrops(s, w);
    } else if s.workers[w].pc.Polling? {
      PollDelivers(s, w);
      PollIsCloser(s, Do(s, Poll(w)), w);
    } else {
      UploadDelivers(s, w);
      UploadIsCloser(s, Do(s, Upload(w, true)), w);
    }
  }

  lemma PollIsCloser(s: State, t: State, w: nat)
    requires Delivering(s, w) && s.workers[w].pc.Polling? && 0 <= s.workers[w].deliveredSeq < |s.pushed|
    requires t == Put(s, w, s.workers[w].(pc := Uploading(After(s.slot.events, s.workers[w].deliveredSeq))))
    ensures Delivering(t, w) && 0 < Bound(t, w) < Bound(s, w)
  {
  }

  lemma UploadIsCloser(s: State, t: State, w: nat)
    requires Delivering(s, w) && s.workers[w].pc.Uploading? && s.workers[w].pc.batch != []
    requires s.workers[w].deliveredSeq < Acknowledge(s.workers[w]).deliveredSeq <= |s.pushed|
    requires t == Put(s, w, Acknowledge(s.workers[w]))
    ensures Delivering(t, w) && 0 < Bound(t, w) < Bound(s, w)
  {
  }

  lemma OthersAreGone(s: State, w: nat, v: nat)
    requires Safe(s) && At(s, w) && !s.workers[w].pc.Gone? && At(s, v) && v != w
    ensures s.workers[v].pc.Gone?
  {
    LastWorkerGoes(s, w);
    if !s.workers[v].pc.Gone? {
      LiveCounts(WithoutWorker(s, w), v);
    }
  }

  lemma ProcessingWaits(s: State, a: Action, w: nat)
    requires Delivering(s, w) && (a.PushOrdinary? || a.PushFinal? || a.PushDone? || a.EndProcessing? || a.Suppress?)
    ensures var t := Do(s, a);
            Delivering(t, w) && t.workers[w] == s.workers[w] && t.dropped == s.dropped && Bound(t, w) <= Bound(s, w)
  {
  }

  predicate OfWorker(a: Action, v: nat) {
    a == Poll(v) || a == Upload(v, true) || a == Upload(v, false) || a == Exit(v) || a == Leave(v)
  }

  lemma GoneWaits(s: State, a: Action, v: nat)
    requires OfWorker(a, v) && (At(s, v) ==> s.workers[v].pc.Gone?)
    ensures Do(s, a) == s
  {
  }

  lemma OwnWaits(s: State, a: Action, w: nat)
    requires OfWorker(a, w) && Delivering(s, w) && !OwnTurn(s, a, w)
    ensures Do(s, a) == s
  {
  }

  /** A step of a worker that is not this one's turn has no effect. */
  lemma WorkersWait(s: State, a: Action, v: nat, w: nat)
    requires Safe(s) && Delivering(s, w) && !OwnTurn(s, a, w)
    requires OfWorker(a, v)
    ensures Do(s, a) == s
  {
    if v == w {
      OwnWaits(s, a, w);
    } else {
      if At(s, v) {
        OthersAreGone(s, w, v);
      }
      GoneWaits(s, a, v);
    }
  }

  lemma EnvironmentWaits(s: State, a: Action, w: nat)
    requires Delivering(s, w) && (a.Shutdown? || a.ChangeStatus? || a.Wake? || a.Connect?)
    ensures var t := Do(s, a);
            Delivering(t, w) && t.workers[w] == s.workers[w] && t.dropped == s.dropped && Bound(t, w) == Bound(s, w)
  {
  }

  /** Whatever else happens meanwhile, only the event after the final one costs the worker more turns. */
  lemma OtherStepWaits(s: State, a: Action, w: nat)
    requires Safe(s) && Delivering(s, w) && !OwnTurn(s, a, w) && !a.Cancel?
    ensures var t := Do(s, a);
            Delivering(t, w) && t.workers[w] == s.workers[w] && t.dropped == s.dropped && Bound(t, w) <= Bound(s, w)
  {
    match a
    case Poll(v) => WorkersWait(s, a, v, w);
    case Upload(v, _) => WorkersWait(s, a, v, w);
    case Exit(v) => WorkersWait(s, a, v, w);
    case Leave(v) => WorkersWait(s, a, v, w);
    case Shutdown => EnvironmentWaits(s, a, w);
    case ChangeStatus(_) => EnvironmentWaits(s, a, w);
    case Wake => EnvironmentWaits(s, a, w);
    case Connect(_) => EnvironmentWaits(s, a, w);
    case _ => ProcessingWaits(s, a, w);
  }

  lemma {:induction false} DroppedStays(s: State, actions: seq<Action>)
    requires s.dropped
    ensures Run(s, actions).dropped
    decreases |actions|
  {
    if actions != [] {
      DroppedStays(Do(s, actions[0]), actions[1..]);
    }
  }

  lemma BoundIsPositive(s: State, w: nat)
    requires Safe(s) && Delivering(s, w)
    ensures Bound(s, w) > 0 && !s.dropped
  {
    OnlyOneIsLive(s, w);
    if s.workers[w].pc.Polling? || s.workers[w].pc.Uploading? {
      NotYetAll(s, w);
    }
  }

  /**
   Once processing has ended, whatever happens next except a cancellation - the last event, wakeups,
   status changes, failed uploads, lost connections - the task is dropped, or the forwarder is still
   delivering and each turn it had has brought it closer: so it needs at most Bound turns.
   */
  lemma {:induction false} DeliveryCompletes(s: State, actions: seq<Action>, w: nat)
    requires Safe(s) && Delivering(s, w) && forall a <- actions :: !a.Cancel?
    ensures var t := Run(s, actions);
            t.dropped || (Delivering(t, w) && 0 < Bound(t, w) <= Bound(s, w) - OwnTurns(s, actions, w))
    ensures OwnTurns(s, actions, w) <= Bound(s, w)
    decreases |actions|
  {
    BoundIsPositive(s, w);
    if actions != [] {
      var a, rest := actions[0], actions[1..];
      DoKeepsSafe(s, a);
      if OwnTurn(s, a, w) {
        OwnTurnDelivers(s, w);
      } else {
        OtherStepWaits(s, a, w);
      }
      if OwnTurn(s, a, w) && s.workers[w].pc.Leaving? {
        DroppedStays(Do(s, a), rest);
        NoTurnsLeft(Do(s, a), rest, w);
      } else {
        DeliveryCompletes(Do(s, a), rest, w);
      }
    }
  }

  lemma GoneStays(s: State, a: Action, w: nat)
    requires At(s, w) && s.workers[w].pc.Gone?
    ensures At(Do(s, a), w) && Do(s, a).workers[w] == s.workers[w]
  {
  }

  lemma {:induction false} NoTurnsLeft(s: State, actions: seq<Action>, w: nat)
    requires At(s, w) && s.workers[w].pc.Gone?
    ensures OwnTurns(s, actions, w) == 0
    decreases |actions|
  {
    if actions != [] {
      GoneStays(s, actions[0], w);
      NoTurnsLeft(Do(s, actions[0]), actions[1..], w);
    }
  }

  /** While it is connected the forwarder always has such a turn, so its own steps alone drop the task. */
  lemma {:induction false} DeliveryCanComplete(s: State, w: nat) returns (actions: seq<Action>)
    requires Safe(s) && Delivering(s, w) && s.connected
    ensures |actions| <= Bound(s, w)
    ensures forall a <- actions :: a == Poll(w) || a == Upload(w, true) || a == Leave(w)
    ensures Run(s, actions).slot == NO_SLOT && Run(s, actions).dropped
    decreases Bound(s, w)
  {
    var a := NextStep(s, w);
    BoundIsPositive(s, w);
    OwnTurnDelivers(s, w);
    var rest := [];
    if !s.workers[w].pc.Leaving? {
      DoKeepsSafe(s, a);
      rest := DeliveryCanComplete(Do(s, a), w);
    }
    actions := [a] + rest;
    assert actions[1..] == rest;
  }

  // ---- Wakeups ----

  /** A task that is still here has its forwarding flag set exactly while a forwarder is live. */
  lemma FlagTellsLive(s: State)
    requires Safe(s) && !s.dropped
    ensures s.slot.task.Some? && s.slot.task.value.attemptID == s.attempt
    ensures Live(s.workers) == if s.slot.task.value.forwarding then 1 else 0
  {
  }

  lemma WakeActs(s: State)
    requires s.slot.task.Some? && s.slot.task.value.attemptID == s.attempt
    ensures Do(s, Wake) ==
            if s.slot.task.value.forwarding then s
            else s.(workers := s.workers + [Worker(Polling, 0, [])],
                    slot := s.slot.(task := Some(s.slot.task.value.(forwarding := true))))
  {
  }

  lemma LiveAppend(workers: seq<Worker>)
    ensures Live(workers + [Worker(Polling, 0, [])]) == Live(workers) + 1
  {
    assert (workers + [Worker(Polling, 0, [])])[..|workers|] == workers;
  }

  /** A wakeup starts a forwarder, polling from the first event on, exactly when none is live. */
  lemma WakeStartsIff(s: State)
    requires Safe(s) && !s.dropped
    ensures s.slot.task.Some?
    ensures var t := Do(s, Wake);
            && Live(t.workers) == 1
            && (Live(s.workers) == 0 ==>
                  t == s.(workers := s.workers + [Worker(Polling, 0, [])],
                          slot := s.slot.(task := Some(s.slot.task.value.(forwarding := true)))))
            && (Live(s.workers) == 1 ==> t == s)
  {
    FlagTellsLive(s);
    WakeActs(s);
    LiveAppend(s.workers);
  }

  lemma {:induction false} SomeLive(workers: seq<Worker>) returns (w: nat)
    requires Live(workers) > 0
    ensures w < |workers| && !workers[w].pc.Gone?
  {
    w := |workers| - 1;
    if workers[w].pc.Gone? {
      w := SomeLive(workers[..w]);
    }
  }

  /** A forwarder that leaves without having delivered gives the task back. */
  lemma UndeliveredIsGivenBack(s: State, w: nat)
    requires Safe(s) && At(s, w) && s.workers[w].pc == Leaving(false)
    ensures s.slot.task.Some?
    ensures var t := Do(s, Leave(w));
            && Safe(t) && Live(t.workers) == 0 && !t.dropped && t.phase == s.phase
            && t.cancelled == s.cancelled && t.connected == s.connected && |t.workers| == |s.workers|
            && t.slot == s.slot.(task := Some(s.slot.task.value.(forwarding := false)))
  {
    OnlyOneIsLive(s, w);
    LastWorkerGoes(s, w);
    LeaveStays(s, w);
    UndeliveredLeaves(s, w);
  }

  /** A forwarder whose context is cancelled leaves the task to the next wakeup. */
  lemma CancelledForwarderFreesTask(s: State, w: nat)
    requires Safe(s) && At(s, w) && (s.workers[w].pc.Polling? || s.workers[w].pc.Uploading?)
    ensures s.slot.task.Some?
    ensures var t := Do(Do(Do(s, Cancel), Exit(w)), Leave(w));
            Live(t.workers) == 0 && !t.dropped && t.slot == s.slot.(task := Some(s.slot.task.value.(forwarding := false)))
  {
    var cancelled := s.(cancelled := true);
    EnvironmentKeepsSafe(s, Cancel);
    ExitLeavesUndelivered(cancelled, w);
  }

  lemma ExitLeavesUndelivered(s: State, w: nat)
    requires Safe(s) && s.cancelled && At(s, w) && (s.workers[w].pc.Polling? || s.workers[w].pc.Uploading?)
    ensures s.slot.task.Some?
    ensures var t := Do(Do(s, Exit(w)), Leave(w));
            Live(t.workers) == 0 && !t.dropped && t.slot == s.slot.(task := Some(s.slot.task.value.(forwarding := false)))
  {
    var t := Put(s, w, s.workers[w].(pc := Leaving(false)));
    ExitKeepsSafe(s, w);
    assert Do(s, Exit(w)) == t;
    UndeliveredIsGivenBack(t, w);
  }

  /** What comes from outside: the end of processing without a last event, a shutdown that suppresses its end, a new status. */
  lemma OutsideActs(s: State, status: string)
    ensures s.phase.Final? ==> Do(s, EndProcessing) == s.(phase := Ended)
    ensures s.phase.Working? ==> Do(Do(s, Shutdown), Suppress) == s.(phase := Suppressed, shuttingDown := true)
    ensures s.phase.Working? && !s.shuttingDown ==> Do(s, Suppress) == s
    ensures s.slot.task.Some? ==>
              Do(s, ChangeStatus(status)) == s.(slot := s.slot.(task := Some(s.slot.task.value.(status := status))))
    ensures Do(s, Connect(false)) == s.(connected := false)
  {
  }

  lemma RunOne(s: State, a: Action, rest: seq<Action>)
    ensures Run(s, [a] + rest) == Run(Do(s, a), rest)
  {
    assert ([a] + rest)[1..] == rest;
  }

  /** The steps of forwarders and the wakeups that start them. */
  predicate Forwards(a: Action) {
    a.Wake? || a.Poll? || a.Upload? || a.Leave?
  }

  lemma {:induction false} ForwardingKeepsPushed(s: State, actions: seq<Action>)
    requires Safe(s) && forall a <- actions :: Forwards(a)
    ensures var t := Run(s, actions); Safe(t) && t.pushed == s.pushed && t.evicted == s.evicted
    decreases |actions|
  {
    if actions != [] {
      assert Forwards(actions[0]);
      DoKeepsSafe(s, actions[0]);
      ForwardStepKeepsPushed(s, actions[0]);
      ForwardingKeepsPushed(Do(s, actions[0]), actions[1..]);
    }
  }

  lemma ForwardStepKeepsPushed(s: State, a: Action)
    requires Forwards(a)
    ensures Do(s, a).pushed == s.pushed && Do(s, a).evicted == s.evicted
  {
  }

  /** Once processing has ended, a connected task that is not cancelled can be delivered, starting with a wakeup. */
  lemma EndedTaskCanBeDelivered(s: State) returns (rest: seq<Action>)
    requires Safe(s) && (s.phase.Final? || s.phase.Ended?) && !s.dropped && !s.cancelled && s.connected
    ensures Run(s, [Wake] + rest).dropped && forall a <- [Wake] + rest :: Forwards(a)
  {
    WakeStartsIff(s);
    WakeKeepsSafe(s);
    var t := Do(s, Wake);
    var w := SomeLive(t.workers);
    if t.workers[w].pc == Leaving(false) {
      rest := FreedTaskCanBeDelivered(t, w);
    } else {
      rest := DeliveryCanComplete(t, w);
    }
    RunOne(s, Wake, rest);
  }

  lemma FreedTaskCanBeDelivered(s: State, w: nat) returns (rest: seq<Action>)
    requires Safe(s) && (s.phase.Final? || s.phase.Ended?) && !s.cancelled && s.connected
    requires At(s, w) && s.workers[w].pc == Leaving(false)
    ensures Run(s, rest).dropped && forall a <- rest :: Forwards(a)
  {
    UndeliveredIsGivenBack(s, w);
    var left := Do(s, Leave(w));
    var more := FreshForwarderDelivers(left);
    RunOne(s, Leave(w), [Wake] + more);
    rest := [Leave(w)] + ([Wake] + more);
  }

  lemma FreshForwarderDelivers(s: State) returns (more: seq<Action>)
    requires Safe(s) && (s.phase.Final? || s.phase.Ended?) && !s.cancelled && s.connected && !s.dropped && Live(s.workers) == 0
    ensures Run(s, [Wake] + more).dropped && forall a <- more :: Forwards(a)
  {
    WakeStartsIff(s);
    WakeKeepsSafe(s);
    more := DeliveryCanComplete(Do(s, Wake), |s.workers|);
    RunOne(s, Wake, more);
  }

  // ---- A task from its first event to its last acknowledgement ----

  predicate Ordinary(events: seq<Event>) {
    forall e <- events :: e.seqNo == 0 && e.event != "done" && e.event != "error" && e.event != "complete"
  }

  function Pushes(events: seq<Event>): seq<Action> {
    seq(|events|, i requires 0 <= i < |events| => PushOrdinary(events[i]))
  }

  /** A pushed event gets the next number and is kept. */
  lemma PushIsKept(s: State, e: Event)
    requires Safe(s) && !s.dropped && e.seqNo == 0
    ensures PushEvent(s, e).pushed == s.pushed + [e.(seqNo := |s.pushed| + 1)] && !PushEvent(s, e).dropped
  {
  }

  lemma {:induction false} RunSplits(s: State, a: seq<Action>, b: seq<Action>)
    ensures Run(s, a + b) == Run(Run(s, a), b)
    decreases |a|
  {
    if a == [] {
      assert a + b == b;
    } else {
      assert (a + b)[1..] == a[1..] + b;
      RunSplits(Do(s, a[0]), a[1..], b);
    }
  }

  lemma OneMoreIsKept(s: State, e: Event)
    requires Safe(s) && s.phase.Working? && !s.dropped && e.seqNo == 0 && !Terminal(e)
    ensures var t := Do(s, PushOrdinary(e));
            && Safe(t) && t.phase.Working? && !t.dropped && t.cancelled == s.cancelled && t.connected == s.connected
            && t.pushed == s.pushed + [e.(seqNo := |s.pushed| + 1)]
  {
    DoKeepsSafe(s, PushOrdinary(e));
    PushIsKept(s, e);
  }

  /** From s these events were pushed, and nothing else happened. */
  predicate HasPushed(t: State, s: State, events: seq<Event>) {
    && Safe(t) && t.phase.Working? && !t.dropped && t.cancelled == s.cancelled && t.connected == s.connected
    && t.pushed == Numbered(events, 0)
  }

  lemma PushesSplit(s: State, events: seq<Event>)
    requires events != []
    ensures var n := |events| - 1; Run(s, Pushes(events)) == Do(Run(s, Pushes(events[..n])), PushOrdinary(events[n]))
  {
    var n := |events| - 1;
    var t := Run(s, Pushes(events[..n]));
    assert Pushes(events) == Pushes(events[..n]) + [PushOrdinary(events[n])];
    RunSplits(s, Pushes(events[..n]), [PushOrdinary(events[n])]);
    RunOne(t, PushOrdinary(events[n]), []);
    assert [PushOrdinary(events[n])] + [] == [PushOrdinary(events[n])];
  }

  lemma HasPushedMore(t: State, s: State, events: seq<Event>)
    requires events != [] && HasPushed(t, s, events[..|events| - 1]) && events[|events| - 1].seqNo == 0 && !Terminal(events[|events| - 1])
    ensures HasPushed(Do(t, PushOrdinary(events[|events| - 1])), s, events)
  {
    OneMoreIsKept(t, events[|events| - 1]);
    NumberedGrows(events);
  }

  lemma {:induction false} PushesAreKept(s: State, events: seq<Event>)
    requires Initial(s) && Ordinary(events)
    ensures HasPushed(Run(s, Pushes(events)), s, events)
  {
    if events == [] {
      assert HasPushed(s, s, []);
    } else {
      var n := |events| - 1;
      assert Ordinary(events[..n]) && events[n] in events;
      PushesAreKept(s, events[..n]);
      PushesSplit(s, events);
      HasPushedMore(Run(s, Pushes(events[..n])), s, events);
    }
  }

  lemma FinalIsKept(s: State, last: Event)
    requires Safe(s) && s.phase.Working? && !s.dropped && last.seqNo == 0 && (last.event == "complete" || last.event == "error")
    ensures var t := Do(s, PushFinal(last));
            && Safe(t) && t.phase.Final? && !t.dropped && t.cancelled == s.cancelled && t.connected == s.connected
            && t.pushed == s.pushed + [last.(seqNo := |s.pushed| + 1)]
  {
    DoKeepsSafe(s, PushFinal(last));
    PushIsKept(s, last);
  }

  /** With everything pushed within the bound, nothing was evicted, so whoever delivered had everything acknowledged. */
  lemma AllWereAcknowledged(s: State, events: seq<Event>) returns (w: nat)
    requires Safe(s) && s.dropped && s.evicted == 0 && Ordinary(events) && |s.pushed| > |events|
    requires forall i | 0 <= i < |events| :: s.pushed[i] == events[i].(seqNo := i + 1)
    ensures w < |s.workers| && forall i | 0 <= i < |events| :: events[i].(seqNo := i + 1) in s.workers[w].acked
  {
    w :| 0 <= w < |s.workers| && Delivered(s.workers[w]);
    var worker := s.workers[w];
    TerminalIsAfterAll(s, worker);
    assert WorkerOk(worker, s.pushed, s.evicted);
    forall i | 0 <= i < |events|
      ensures events[i].(seqNo := i + 1) in worker.acked
    {
      assert events[i] in events;
      AckedIsPushed(worker.acked, s.pushed, i);
    }
  }

  lemma AckedIsPushed(acked: seq<Event>, pushed: seq<Event>, i: nat)
    requires Acked(acked, i + 1) && forall e <- acked :: Genuine(e, pushed)
    ensures i < |pushed| && pushed[i] in acked
  {
    var e :| e in acked && e.seqNo == i + 1;
    assert Genuine(e, pushed);
  }

  lemma DoneIsKept(s: State, data: string)
    requires Safe(s) && s.phase.Final? && !s.dropped
    ensures var t := Do(s, PushDone(data));
            && Safe(t) && t.phase.Ended? && !t.dropped && t.cancelled == s.cancelled
            && t.pushed == s.pushed + [Event("done", data, |s.pushed| + 1)]
  {
    DoKeepsSafe(s, PushDone(data));
    PushIsKept(s, Event("done", data, 0));
  }

  /** Everything that happens to a task until it can be forwarded. */
  function Processing(events: seq<Event>, last: Event, data: string): seq<Action> {
    Pushes(events) + ([PushFinal(last)] + ([PushDone(data)] + ([Connect(true)] + [])))
  }

  lemma ProcessingRuns(s: State, events: seq<Event>, last: Event, data: string)
    ensures Run(s, Processing(events, last, data)) == Do(Do(Do(Run(s, Pushes(events)), PushFinal(last)), PushDone(data)), Connect(true))
  {
    var pushed := Run(s, Pushes(events));
    var ended := Do(pushed, PushFinal(last));
    RunSplits(s, Pushes(events), [PushFinal(last)] + ([PushDone(data)] + ([Connect(true)] + [])));
    RunOne(pushed, PushFinal(last), [PushDone(data)] + ([Connect(true)] + []));
    RunOne(ended, PushDone(data), [Connect(true)] + []);
    RunOne(Do(ended, PushDone(data)), Connect(true), []);
  }

  lemma ProcessingIsKept(s: State, events: seq<Event>, last: Event, data: string)
    requires Initial(s) && Ordinary(events) && !s.cancelled
    requires last.seqNo == 0 && (last.event == "complete" || last.event == "error")
    ensures var t := Run(s, Processing(events, last, data));
            && Safe(t) && t.phase.Ended? && !t.dropped && !t.cancelled && t.connected
            && t.pushed == Numbered(events, 0) + [last.(seqNo := |events| + 1)] + [Event("done", data, |events| + 2)]
  {
    ProcessingRuns(s, events, last, data);
    PushesAreKept(s, events);
    EndIsKept(Run(s, Pushes(events)), s, events, last, data);
  }

  lemma EndIsKept(t: State, s: State, events: seq<Event>, last: Event, data: string)
    requires HasPushed(t, s, events) && !s.cancelled
    requires last.seqNo == 0 && (last.event == "complete" || last.event == "error")
    ensures var e := Do(Do(Do(t, PushFinal(last)), PushDone(data)), Connect(true));
            && Safe(e) && e.phase.Ended? && !e.dropped && !e.cancelled && e.connected
            && e.pushed == Numbered(events, 0) + [last.(seqNo := |events| + 1)] + [Event("done", data, |events| + 2)]
  {
    FinalIsKept(t, last);
    DoneIsKept(Do(t, PushFinal(last)), data);
    ConnectsSafely(Do(Do(t, PushFinal(last)), PushDone(data)));
  }

  lemma ConnectsSafely(s: State)
    requires Safe(s)
    ensures Safe(Do(s, Connect(true))) && Do(s, Connect(true)) == s.(connected := true)
  {
    EnvironmentKeepsSafe(s, Connect(true));
  }

  /**
   From its start to its drop: a task that is not cancelled pushes any ordinary events, the final one and
   "done", and the connection comes up. Then it can be delivered, starting with a wakeup, and if its
   events fit 16 MiB together, one forwarder has had every ordinary one of them acknowledged.
   */
  lemma WholeTaskIsDelivered(s: State, events: seq<Event>, last: Event, data: string) returns (rest: seq<Action>, w: nat)
    requires Initial(s) && Ordinary(events) && !s.cancelled
    requires last.seqNo == 0 && (last.event == "complete" || last.event == "error")
    requires TotalCost(Numbered(events + [last] + [Event("done", data, 0)], 0)) <= 16777216
    ensures var t := Run(s, Processing(events, last, data) + ([Wake] + rest));
            && t.dropped && t.slot.task.None? && w < |t.workers|
            && forall i | 0 <= i < |events| :: events[i].(seqNo := i + 1) in t.workers[w].acked
  {
    ProcessingIsKept(s, events, last, data);
    var ended := Run(s, Processing(events, last, data));
    rest := EndedTaskCanBeDelivered(ended);
    RunSplits(s, Processing(events, last, data), [Wake] + rest);
    NothingIsEvicted(ended, events, last, data);
    ForwardingKeepsPushed(ended, [Wake] + rest);
    w := AllWereAcknowledged(Run(ended, [Wake] + rest), events);
  }

  lemma NothingIsEvicted(s: State, events: seq<Event>, last: Event, data: string)
    requires Safe(s) && !s.dropped
    requires s.pushed == Numbered(events, 0) + [last.(seqNo := |events| + 1)] + [Event("done", data, |events| + 2)]
    requires TotalCost(Numbered(events + [last] + [Event("done", data, 0)], 0)) <= 16777216
    ensures s.evicted == 0 && |s.pushed| > |events|
    ensures forall i | 0 <= i < |events| :: s.pushed[i] == events[i].(seqNo := i + 1)
  {
    assert s.pushed == Numbered(events + [last] + [Event("done", data, 0)], 0);
    assert s.pushed[0..] == s.pushed;
    assert Fits(s.pushed, 0);
  }
}
