/**
 What each call on the ACP controller does, in every run: an emit, a record, a finish or a begin is
 followed from the moment it is called to the moment it returns, with everything else in between.
 */
module AcpTurnCalls {
  import opened Wrappers
  import opened AcpTurn
  import opened AcpTurnSafety
  import opened AcpTurnTrace
  import opened AcpTurnProgress

  /** The goroutine that an event names. */
  predicate By(e: Event, tid: nat) {
    (e.Accepted? || e.Recorded? || e.Finished? || e.Sent? || e.Dropped?) && e.tid == tid
  }

  /** Goroutines that were never called have done nothing. */
  ghost predicate TidsKnown(s: State) {
    forall e, tid: nat | e in s.log && By(e, tid) :: tid in s.pcs
  }

  lemma TidsKept(s: State, step: Step)
    requires TidsKnown(s) && Possible(s, step)
    ensures TidsKnown(Apply(s, step))
  {
    var s' := Apply(s, step);
    LogGrows(s, step);
    forall e, tid: nat | e in s'.log && By(e, tid)
      ensures tid in s'.pcs
    {
      if e !in s.log {
        NewEventBy(s, step, e, tid);
      }
    }
  }

  /** The log has nothing new, or nothing by another goroutine than t. */
  ghost predicate NewsAreBy(s: State, log: seq<Event>, t: nat) {
    |log| > |s.log| ==> forall tid: nat | By(log[|s.log|], tid) :: tid == t
  }

  lemma EmitIsBy(s: State, t: nat, chunk: Chunk, e: EmitAt)
    ensures NewsAreBy(s, EmitStep(s, t, chunk, e).0.log, t)
  {
  }

  lemma FinIsBy(s: State, t: nat, f: FinAt)
    ensures NewsAreBy(s, FinStep(s, t, f).0.log, t)
  {
  }

  lemma RecIsBy(s: State, t: nat, usage: Usage, r: RecAt)
    ensures NewsAreBy(s, RecStep(s, t, usage, r).0.log, t)
  {
  }

  lemma NextIsBy(s: State, t: nat)
    requires t in s.pcs
    ensures NewsAreBy(s, Next(s, t).log, t)
  {
    match s.pcs[t]
    case Emit(chunk, e) => EmitIsBy(s, t, chunk, e);
    case Fin(f) => FinIsBy(s, t, f);
    case Rec(usage, r) => RecIsBy(s, t, usage, r);
    case _ =>
  }

  lemma NewEventBy(s: State, step: Step, e: Event, tid: nat)
    requires Possible(s, step) && e in Apply(s, step).log && e !in s.log && By(e, tid)
    ensures (step.Run? || step.Leave?) && step.tid == tid
  {
    LogGrows(s, step);
    assert e == Apply(s, step).log[|s.log|];
    if step.Run? {
      NextIsBy(s, step.tid);
    }
  }

  /** Nobody else moves a goroutine, and the log only grows. */
  lemma OthersWait(s: State, step: Step, tid: nat)
    requires Possible(s, step) && tid in s.pcs
    ensures tid in Apply(s, step).pcs && s.log <= Apply(s, step).log
    ensures !((step.Run? || step.Leave?) && step.tid == tid) ==> Apply(s, step).pcs[tid] == s.pcs[tid]
  {
    LogGrows(s, step);
  }

  /** A turn that exists and is not finished is the current one, and was before. */
  lemma UnfinishedIsCurrent(s: State, step: Step, k: nat)
    requires Safe(s) && Possible(s, step) && k < |s.turns|
    ensures k < |Apply(s, step).turns|
    ensures !Apply(s, step).turns[k].finished ==> !s.turns[k].finished && s.current == Some(k)
  {
    assert TurnPhase(s, k);
    if s.turns[k].finished {
      FlagStays(s, step, k);
    }
  }

  // ---- emit ----

  /** While turn k is not finished the emitter is on its way to it, or the chunk was accepted there. */
  predicate EmitStory(s: State, tid: nat, chunk: Chunk, k: nat) {
    && tid in s.pcs && k < |s.turns|
    && (!s.turns[k].finished ==>
          var pc := s.pcs[tid];
          if Accepted(k, tid, chunk) in s.log then pc == Emit(chunk, ESend(k)) || pc == Emit(chunk, ERUnlock(k)) || pc == Done(true)
          else pc.Emit? && pc.chunk == chunk && (pc.e.ECtl? || pc.e.EPeek? || pc.e in {ERLock(k), ELock(k), ECheck(k)}))
  }

  lemma EmitStoryKept(s: State, step: Step, tid: nat, chunk: Chunk, k: nat)
    requires Safe(s) && Possible(s, step) && EmitStory(s, tid, chunk, k) && TidsKnown(s)
    ensures EmitStory(Apply(s, step), tid, chunk, k)
  {
    UnfinishedIsCurrent(s, step, k);
    OthersWait(s, step, tid);
    var s' := Apply(s, step);
    if Accepted(k, tid, chunk) in s'.log && Accepted(k, tid, chunk) !in s.log {
      NewEventBy(s, step, Accepted(k, tid, chunk), tid);
    }
    if step == Run(tid) && !s'.turns[k].finished {
      EmitMoves(s, tid, chunk, k);
    }
  }

  lemma EmitMoves(s: State, tid: nat, chunk: Chunk, k: nat)
    requires EmitStory(s, tid, chunk, k) && !s.turns[k].finished && s.current == Some(k) && Possible(s, Run(tid))
    ensures Next(s, tid).turns[k].finished || EmitStory(Next(s, tid), tid, chunk, k)
  {
    var s' := Next(s, tid);
    assert s.log <= s'.log && |s'.log| <= |s.log| + 1;
    if s.pcs[tid].e.ECheck? {
      assert s'.log[|s.log|] in s'.log;
    }
  }

  lemma {:induction false} EmitStoryRuns(s: State, steps: seq<Step>, tid: nat, chunk: Chunk, k: nat)
    requires Safe(s) && TidsKnown(s) && CanRun(s, steps) && EmitStory(s, tid, chunk, k)
    ensures EmitStory(After(s, steps), tid, chunk, k)
    decreases |steps|
  {
    if steps != [] {
      SafeKept(s, steps[0]);
      TidsKept(s, steps[0]);
      EmitStoryKept(s, steps[0], tid, chunk, k);
      EmitStoryRuns(Apply(s, steps[0]), steps[1..], tid, chunk, k);
    }
  }

  /** The state just after a call, in a run. */
  ghost predicate Calls(before: seq<Step>, tid: nat, pc: Pc, s: State) {
    CanRun(INITIAL, before) && Possible(After(INITIAL, before), Spawn(tid, pc)) && s == Apply(After(INITIAL, before), Spawn(tid, pc))
  }

  lemma {:induction false} TidsRun(s: State, steps: seq<Step>)
    requires TidsKnown(s) && CanRun(s, steps)
    ensures TidsKnown(After(s, steps))
    decreases |steps|
  {
    if steps != [] {
      TidsKept(s, steps[0]);
      TidsRun(Apply(s, steps[0]), steps[1..]);
    }
  }

  /** A call finds the invariants, has done nothing yet, and its events are all in the log afterwards. */
  lemma CallStarts(before: seq<Step>, tid: nat, pc: Pc, s: State)
    requires Calls(before, tid, pc, s)
    ensures Safe(s) && History(s) && AllAccounted(s) && TidsKnown(s) && tid in s.pcs && s.pcs[tid] == pc
    ensures forall e | e in s.log :: !By(e, tid)
  {
    var s0 := After(INITIAL, before);
    StartInvariant();
    RunKeeps(INITIAL, before);
    AllAccountedAfter(INITIAL, before);
    TidsRun(INITIAL, before);
    SafeKept(s0, Spawn(tid, pc));
    HistoryKept(s0, Spawn(tid, pc));
    AccountedKept(s0, Spawn(tid, pc));
    TidsKept(s0, Spawn(tid, pc));
  }

  /**
   A chunk emitted while turn k is active, by an emit that has returned, was accepted by turn k if the
   turn is still not finished; and then it was sent, or it is an ordinary one and was dropped with 256
   chunks unread.
   */
  lemma EmitTakesEffect(before: seq<Step>, tid: nat, chunk: Chunk, s: State, after: seq<Step>, k: nat)
    requires Calls(before, tid, Emit(chunk, ECtl), s) && CanRun(s, after) && s.current == Some(k)
    ensures var end := After(s, after);
            && tid in end.pcs
            && (end.pcs[tid].Done? && Finishes(end.log, k) == 0 ==>
                  && Accepted(k, tid, chunk) in end.log
                  && (Sent(k, tid, chunk) in end.log || (!chunk.context && Dropped(k, tid, chunk, 256) in end.log)))
  {
    CallStarts(before, tid, Emit(chunk, ECtl), s);
    EmitStoryRuns(s, after, tid, chunk, k);
    RunKeeps(s, after);
    AllAccountedAfter(s, after);
    var end := After(s, after);
    assert Agrees(At(end, k), end.log, k);
    if end.pcs[tid].Done? && Finishes(end.log, k) == 0 {
      AcceptedIsSettled(end, tid, chunk, k);
    }
  }

  lemma AcceptedIsSettled(s: State, tid: nat, chunk: Chunk, k: nat)
    requires History(s) && AllAccounted(s) && tid in s.pcs && s.pcs[tid].Done?
    requires Accepted(k, tid, chunk) in s.log && Finishes(s.log, k) == 0
    ensures Sent(k, tid, chunk) in s.log || (!chunk.context && Dropped(k, tid, chunk, 256) in s.log)
  {
    assert Accounted(s, k, tid, chunk);
    if Sent(k, tid, chunk) !in s.log {
      var e :| e in s.log && e.Dropped? && e.k == k && e.tid == tid && e.chunk == chunk;
      var i: nat :| i < |s.log| && s.log[i] == e;
      assert MayFollow(s.log[..i], s.log[i]);
      FinishesGrow(s.log, i, k);
    }
  }

  // ---- recordPromptDone ----

  predicate RecStory(s: State, tid: nat, usage: Usage, k: nat) {
    && tid in s.pcs && k < |s.turns|
    && (!s.turns[k].finished && Recorded(k, tid, usage) !in s.log ==>
          var pc := s.pcs[tid];
          pc.Rec? && pc.usage == usage && (pc.r.RCtl? || pc.r.RPeek? || pc.r == RLock(k) || pc.r == RStore(k)))
  }

  lemma RecStoryKept(s: State, step: Step, tid: nat, usage: Usage, k: nat)
    requires Safe(s) && Possible(s, step) && RecStory(s, tid, usage, k)
    ensures RecStory(Apply(s, step), tid, usage, k)
  {
    UnfinishedIsCurrent(s, step, k);
    OthersWait(s, step, tid);
    var s' := Apply(s, step);
    if step == Run(tid) && Recorded(k, tid, usage) !in s.log && s.pcs[tid].Rec? && s.pcs[tid].r == RStore(k) && !s.turns[k].finished {
      assert s'.log == s.log + [Recorded(k, tid, s.pcs[tid].usage)];
    }
  }

  lemma {:induction false} RecStoryRuns(s: State, steps: seq<Step>, tid: nat, usage: Usage, k: nat)
    requires Safe(s) && CanRun(s, steps) && RecStory(s, tid, usage, k)
    ensures RecStory(After(s, steps), tid, usage, k)
    decreases |steps|
  {
    if steps != [] {
      SafeKept(s, steps[0]);
      RecStoryKept(s, steps[0], tid, usage, k);
      RecStoryRuns(Apply(s, steps[0]), steps[1..], tid, usage, k);
    }
  }

  /** Usage recorded while turn k is active, by a call that has returned, counts for turn k if it is still not finished. */
  lemma RecordTakesEffect(before: seq<Step>, tid: nat, usage: Usage, s: State, after: seq<Step>, k: nat)
    requires Calls(before, tid, Rec(usage, RCtl), s) && CanRun(s, after) && s.current == Some(k)
    ensures var end := After(s, after);
            && tid in end.pcs
            && (end.pcs[tid].Done? && Finishes(end.log, k) == 0 ==> Recorded(k, tid, usage) in end.log)
  {
    CallStarts(before, tid, Rec(usage, RCtl), s);
    RecStoryRuns(s, after, tid, usage, k);
    RunKeeps(s, after);
    assert Agrees(At(After(s, after), k), After(s, after).log, k);
  }

  // ---- begin ----

  predicate BeginStory(s: State, tid: nat, turns: nat, active: bool) {
    && tid in s.pcs && turns <= |s.turns| && (s.current.Some? ==> active || turns < |s.turns|)
    && match s.pcs[tid]
       case Begin(_) => true
       case Done(answer) => if answer then turns < |s.turns| else active || turns < |s.turns|
       case _ => false
  }

  lemma BeginStoryKept(s: State, step: Step, tid: nat, turns: nat, active: bool)
    requires Safe(s) && Possible(s, step) && BeginStory(s, tid, turns, active)
    ensures BeginStory(Apply(s, step), tid, turns, active)
  {
    OthersWait(s, step, tid);
  }

  lemma {:induction false} BeginStoryRuns(s: State, steps: seq<Step>, tid: nat, turns: nat, active: bool)
    requires Safe(s) && CanRun(s, steps) && BeginStory(s, tid, turns, active)
    ensures BeginStory(After(s, steps), tid, turns, active)
    decreases |steps|
  {
    if steps != [] {
      SafeKept(s, steps[0]);
      BeginStoryKept(s, steps[0], tid, turns, active);
      BeginStoryRuns(Apply(s, steps[0]), steps[1..], tid, turns, active);
    }
  }

  /** A begin looks once: without an active turn it installs an empty one and answers true, otherwise it changes nothing and answers false. */
  lemma BeginAnswers(s: State, tid: nat)
    requires tid in s.pcs && s.pcs[tid] == Begin(BPeek)
    ensures var s' := Next(s, tid);
            if s.current.None? then
              && s'.pcs[tid] == Done(true) && s'.current == Some(|s.turns|) && |s'.turns| == |s.turns| + 1 && s'.turns[..|s.turns|] == s.turns
              && s'.turns[|s.turns|] == Turn([], false, [], false, false, false, "", Usage(0, 0, 0))
            else s'.pcs[tid] == Done(false) && s'.current == s.current && s'.turns == s.turns
  {
  }

  /** A begin that succeeded made a turn; one that was refused met an active turn, from before or begun meanwhile. */
  lemma BeginTakesEffect(before: seq<Step>, tid: nat, s: State, after: seq<Step>)
    requires Calls(before, tid, Begin(BCtl), s) && CanRun(s, after)
    ensures var end := After(s, after);
            && tid in end.pcs
            && (end.pcs[tid] == Done(true) ==> |end.turns| > |s.turns|)
            && (end.pcs[tid] == Done(false) ==> s.current.Some? || |end.turns| > |s.turns|)
  {
    CallStarts(before, tid, Begin(BCtl), s);
    BeginStoryRuns(s, after, tid, |s.turns|, s.current.Some?);
  }

  // ---- finish and failActive ----

  /** failActive is about whatever turn is active; finish about the turn it is given. */
  predicate Names(target: Target, k: nat) {
    target == Active || target == Named(k)
  }

  /** The turn was finished by this call, and its result has the call's status and error. */
  ghost predicate WonWith(s: State, tid: nat, k: nat, status: string, error: string) {
    Finished(k, tid) in s.log && exists r | Delivered(k, r) in s.log :: r.status == status && r.error == error
  }

  /** Where a finisher stands, what it has done so far and what it still carries. */
  ghost predicate FinStory(s: State, tid: nat, target: Target, status: string, error: string) {
    && tid in s.pcs
    && match s.pcs[tid]
       case Done(answer) =>
         if answer then exists k :: Names(target, k) && WonWith(s, tid, k, status, error) else forall k :: Finished(k, tid) !in s.log
       case Fin(f) => CarriedBy(s, tid, f, target, status, error)
       case _ => false
  }

  ghost predicate CarriedBy(s: State, tid: nat, f: FinAt, target: Target, status: string, error: string) {
    match f
    case FCtl(t, st, er) => (t, st, er) == (target, status, error) && forall k :: Finished(k, tid) !in s.log
    case FPeek(t, st, er) => (t, st, er) == (target, status, error) && forall k :: Finished(k, tid) !in s.log
    case FLock(k, st, er) => Names(target, k) && (st, er) == (status, error) && forall j :: Finished(j, tid) !in s.log
    case FMark(k, st, er) => Names(target, k) && (st, er) == (status, error) && forall j :: Finished(j, tid) !in s.log
    case FAnnounce(k, r) => Names(target, k) && Finished(k, tid) in s.log && r.status == status && r.error == error
    case FDrain(k, r) => Names(target, k) && Finished(k, tid) in s.log && r.status == status && r.error == error
    case FClose(k, r) => Names(target, k) && Finished(k, tid) in s.log && r.status == status && r.error == error
    case FUnlock(k, r) => Names(target, k) && Finished(k, tid) in s.log && r.status == status && r.error == error
    case FDeliver(k, r) => Names(target, k) && Finished(k, tid) in s.log && r.status == status && r.error == error
    case FSeal(k) => Names(target, k) && WonWith(s, tid, k, status, error)
    case FClear(k, _) => Names(target, k) && WonWith(s, tid, k, status, error)
  }

  lemma WonStays(s: State, s': State, tid: nat, k: nat, status: string, error: string)
    requires WonWith(s, tid, k, status, error) && s.log <= s'.log
    ensures WonWith(s', tid, k, status, error)
  {
    var r :| Delivered(k, r) in s.log && r.status == status && r.error == error;
    assert Delivered(k, r) in s'.log;
  }

  lemma FinStoryKept(s: State, step: Step, tid: nat, target: Target, status: string, error: string)
    requires Safe(s) && Possible(s, step) && FinStory(s, tid, target, status, error)
    ensures FinStory(Apply(s, step), tid, target, status, error)
  {
    OthersWait(s, step, tid);
    if step == Run(tid) {
      FinMoves(s, tid, target, status, error);
    } else {
      FinWaits(s, step, tid, target, status, error);
    }
  }

  lemma FinWaits(s: State, step: Step, tid: nat, target: Target, status: string, error: string)
    requires Possible(s, step) && FinStory(s, tid, target, status, error) && step != Run(tid)
    ensures FinStory(Apply(s, step), tid, target, status, error)
  {
    var s' := Apply(s, step);
    OthersWait(s, step, tid);
    forall k | Finished(k, tid) in s'.log
      ensures Finished(k, tid) in s.log
    {
      if Finished(k, tid) !in s.log {
        NewEventBy(s, step, Finished(k, tid), tid);
      }
    }
    forall k | WonWith(s, tid, k, status, error)
      ensures WonWith(s', tid, k, status, error)
    {
      WonStays(s, s', tid, k, status, error);
    }
  }

  lemma FinMoves(s: State, tid: nat, target: Target, status: string, error: string)
    requires Safe(s) && Possible(s, Run(tid)) && FinStory(s, tid, target, status, error)
    ensures FinStory(Next(s, tid), tid, target, status, error)
  {
    var s' := Next(s, tid);
    var f := s.pcs[tid].f;
    assert PcPhase(s, s.pcs[tid]);
    if f.FMark? {
      CtlMeansNotClosing(s, tid, f.k);
      assert TurnPhase(s, f.k);
      assert s'.log == s.log + [Finished(f.k, tid)];
    } else if f.FDeliver? {
      assert s'.log == s.log + [Delivered(f.k, f.result)];
    } else if f.FSeal? || f.FClear? {
      assert s.log <= s'.log;
      WonStays(s, s', tid, f.k, status, error);
    }
  }

  lemma {:induction false} FinStoryRuns(s: State, steps: seq<Step>, tid: nat, target: Target, status: string, error: string)
    requires Safe(s) && CanRun(s, steps) && FinStory(s, tid, target, status, error)
    ensures FinStory(After(s, steps), tid, target, status, error)
    decreases |steps|
  {
    if steps != [] {
      SafeKept(s, steps[0]);
      FinStoryKept(s, steps[0], tid, target, status, error);
      FinStoryRuns(Apply(s, steps[0]), steps[1..], tid, target, status, error);
    }
  }

  /** While turn k is not finished, a finish that names it has not got to its flag. */
  predicate FinPending(s: State, tid: nat, target: Target, k: nat) {
    && tid in s.pcs && k < |s.turns|
    && (!s.turns[k].finished ==>
          && s.pcs[tid].Fin?
          && match s.pcs[tid].f
             case FCtl(t, _, _) => t == target
             case FPeek(t, _, _) => t == target
             case FLock(j, _, _) => j == k
             case FMark(j, _, _) => j == k
             case _ => false)
  }

  lemma FinPendingKept(s: State, step: Step, tid: nat, target: Target, k: nat)
    requires Safe(s) && Possible(s, step) && Names(target, k) && FinPending(s, tid, target, k)
    ensures FinPending(Apply(s, step), tid, target, k)
  {
    UnfinishedIsCurrent(s, step, k);
    OthersWait(s, step, tid);
    if step == Run(tid) && !s.turns[k].finished && s.pcs[tid].f.FMark? {
      assert PcPhase(s, s.pcs[tid]) && TurnPhase(s, k);
    }
  }

  lemma {:induction false} FinPendingRuns(s: State, steps: seq<Step>, tid: nat, target: Target, k: nat)
    requires Safe(s) && CanRun(s, steps) && Names(target, k) && FinPending(s, tid, target, k)
    ensures FinPending(After(s, steps), tid, target, k)
    decreases |steps|
  {
    if steps != [] {
      SafeKept(s, steps[0]);
      FinPendingKept(s, steps[0], tid, target, k);
      FinPendingRuns(Apply(s, steps[0]), steps[1..], tid, target, k);
    }
  }

  /**
   A finish that has returned: if it answers true, it finished a turn that it names, and that turn's
   result has its status and its error; if false, it finished nothing. A turn that it names and that
   was active when it was called is finished, by this call or another.
   */
  lemma FinishTakesEffect(before: seq<Step>, tid: nat, target: Target, status: string, error: string, s: State, after: seq<Step>, k: nat)
    requires Calls(before, tid, Fin(FCtl(target, status, error)), s) && CanRun(s, after)
    ensures var end := After(s, after);
            && tid in end.pcs
            && (end.pcs[tid] == Done(true) ==>
                  exists j :: (target == Active || target == Named(j)) && WonWith(end, tid, j, status, error))
            && (end.pcs[tid] == Done(false) ==> forall j :: Finished(j, tid) !in end.log)
            && (end.pcs[tid].Done? && s.current == Some(k) && (target == Active || target == Named(k)) ==> Finishes(end.log, k) == 1)
  {
    CallStarts(before, tid, Fin(FCtl(target, status, error)), s);
    FinStoryRuns(s, after, tid, target, status, error);
    RunKeeps(s, after);
    var end := After(s, after);
    if s.current == Some(k) && Names(target, k) {
      FinPendingRuns(s, after, tid, target, k);
      assert Agrees(At(end, k), end.log, k);
    }
  }
}
