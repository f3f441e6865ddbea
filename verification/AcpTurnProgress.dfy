/**
 Progress of the ACP turn protocol without any help from the consumer: every schedule of the
 goroutines already started is finite, and when it can go no further every operation has
 returned, except context senders waiting for room in the full buffer of a turn that nobody
 has finished. So once a finish has begun, it and every emit on its turn run to completion.
 */
module AcpTurnProgress {
  import opened AcpTurn
  import opened AcpTurnSafety
  import opened AcpTurnTrace

  /** A step of a goroutine already started; the consumer and new callers take no part. */
  predicate Internal(step: Step) {
    step.Run? || step.Leave?
  }

  /** No goroutine can step. */
  ghost predicate Stuck(s: State) {
    forall t | t in s.pcs :: !Ready(s, s.pcs[t]) && !MayGiveUp(s, s.pcs[t])
  }

  /** A context sender on a turn that is not finished and whose buffer is full. */
  predicate AwaitsRoom(s: State, pc: Pc) {
    pc.Emit? && pc.e.ESend? && pc.chunk.context && pc.e.k < |s.turns| &&
    !At(s, pc.e.k).finished && |At(s, pc.e.k).messages| == MESSAGE_CAPACITY
  }

  // ---- No deadlock ----

  lemma NobodyHoldsMu(s: State, t: nat, k: nat)
    requires Stuck(s) && t in s.pcs
    ensures !Holds(s.pcs[t], Mu(k))
  {
  }

  /** A reader that cannot step waits for room. */
  lemma StuckReader(s: State, t: nat, k: nat)
    requires Safe(s) && Stuck(s) && t in s.pcs && Holds(s.pcs[t], Shared(k))
    ensures AwaitsRoom(s, s.pcs[t])
  {
    assert PcPhase(s, s.pcs[t]) && TurnPhase(s, k);
    forall u | u in s.pcs
      ensures !Holds(s.pcs[u], Mu(k))
    {
      NobodyHoldsMu(s, u, k);
    }
  }

  /** Nobody can be stuck inside the controller's lock: its holder waits only for locks and readers that yield. */
  lemma StuckOutsideCtl(s: State, t: nat)
    requires Safe(s) && Stuck(s) && t in s.pcs
    ensures !Holds(s.pcs[t], Ctl)
  {
    if Holds(s.pcs[t], Ctl) {
      var pc := s.pcs[t];
      assert PcPhase(s, pc);
      var k := if pc.Fin? && !pc.f.FPeek? then pc.f.k else if pc.Rec? && pc.r.RLock? then pc.r.k else 0;
      forall u | u in s.pcs
        ensures !Holds(s.pcs[u], Mu(k)) && (u == t || !Holds(s.pcs[u], Exclusive(k)))
        ensures !Holds(s.pcs[u], Intent(k)) || u == t
      {
        NobodyHoldsMu(s, u, k);
        assert u != t ==> Apart(pc, Ctl, s.pcs[u], Ctl);
      }
      if pc.Fin? && pc.f.FDrain? {
        forall u | u in s.pcs
          ensures !Holds(s.pcs[u], Shared(k))
        {
          if Holds(s.pcs[u], Shared(k)) {
            StuckReader(s, u, k);
          }
        }
      }
    }
  }

  /** Deadlock freedom: a goroutine that is not done and cannot step waits for room in an unfinished turn. */
  lemma StuckMeansWaiting(s: State, t: nat)
    requires Safe(s) && Stuck(s) && t in s.pcs
    ensures s.pcs[t].Done? || AwaitsRoom(s, s.pcs[t])
  {
    forall u | u in s.pcs
      ensures !Holds(s.pcs[u], Ctl)
    {
      StuckOutsideCtl(s, u);
    }
    var pc := s.pcs[t];
    if pc.Emit? && !pc.e.ECtl? && !pc.e.EPeek? {
      if pc.e.ERLock? {
        assert forall u | u in s.pcs :: Holds(s.pcs[u], Intent(pc.e.k)) || Holds(s.pcs[u], Exclusive(pc.e.k)) ==> Holds(s.pcs[u], Ctl);
        assert Free(s, Intent(pc.e.k)) && Free(s, Exclusive(pc.e.k));
      } else {
        StuckReader(s, t, pc.e.k);
      }
    }
  }

  // ---- Every schedule is finite ----

  /** How many steps a goroutine can still take. */
  function Rank(pc: Pc): nat {
    match pc
    case Emit(_, e) =>
      (match e case ECtl => 7 case EPeek => 6 case ERLock(_) => 5 case ELock(_) => 4 case ECheck(_) => 3
       case ESend(_) => 2 case ERUnlock(_) => 1)
    case Fin(f) =>
      (match f case FCtl(_, _, _) => 11 case FPeek(_, _, _) => 10 case FLock(_, _, _) => 9 case FMark(_, _, _) => 8
       case FAnnounce(_, _) => 7 case FDrain(_, _) => 6 case FClose(_, _) => 5 case FUnlock(_, _) => 4
       case FDeliver(_, _) => 3 case FSeal(_) => 2 case FClear(_, _) => 1)
    case Rec(_, r) => (match r case RCtl => 5 case RPeek => 4 case RLock(_) => 3 case RStore(_) => 2 case RUnlock => 1)
    case Begin(b) => if b.BCtl? then 2 else 1
    case Done(_) => 0
  }

  /** The steps that the goroutines in `tids` can still take together. */
  ghost function WorkOf(pcs: map<nat, Pc>, tids: set<nat>): nat
    requires tids <= pcs.Keys
  {
    if tids == {} then 0
    else
      var t :| t in tids;
      Rank(pcs[t]) + WorkOf(pcs, tids - {t})
  }

  ghost function Work(s: State): nat {
    WorkOf(s.pcs, s.pcs.Keys)
  }

  lemma {:induction false} WorkSplits(pcs: map<nat, Pc>, tids: set<nat>, t: nat)
    requires t in tids && tids <= pcs.Keys
    ensures WorkOf(pcs, tids) == Rank(pcs[t]) + WorkOf(pcs, tids - {t})
  {
    var u :| u in tids && WorkOf(pcs, tids) == Rank(pcs[u]) + WorkOf(pcs, tids - {u});
    if u != t {
      WorkSplits(pcs, tids - {u}, t);
      WorkSplits(pcs, tids - {t}, u);
      assert tids - {u} - {t} == tids - {t} - {u};
    }
  }

  lemma {:induction false} WorkAgrees(pcs: map<nat, Pc>, pcs': map<nat, Pc>, tids: set<nat>)
    requires tids <= pcs.Keys && tids <= pcs'.Keys && forall t | t in tids :: pcs[t] == pcs'[t]
    ensures WorkOf(pcs, tids) == WorkOf(pcs', tids)
  {
    if tids != {} {
      var t :| t in tids;
      WorkSplits(pcs, tids, t);
      WorkSplits(pcs', tids, t);
      WorkAgrees(pcs, pcs', tids - {t});
    }
  }

  lemma RankFalls(s: State, tid: nat)
    requires tid in s.pcs && Ready(s, s.pcs[tid])
    ensures Rank(PcStep(s, tid, s.pcs[tid]).1) < Rank(s.pcs[tid])
  {
  }

  lemma StepMovesOne(s: State, step: Step)
    requires Internal(step) && Possible(s, step)
    ensures var pcs' := Apply(s, step).pcs;
            step.tid in pcs' && pcs' == s.pcs[step.tid := pcs'[step.tid]] && Rank(pcs'[step.tid]) < Rank(s.pcs[step.tid])
  {
    if step.Run? {
      RankFalls(s, step.tid);
    }
  }

  lemma WorkFalls(s: State, step: Step)
    requires Internal(step) && Possible(s, step)
    ensures Work(Apply(s, step)) < Work(s)
  {
    var pcs', t := Apply(s, step).pcs, step.tid;
    StepMovesOne(s, step);
    WorkSplits(s.pcs, s.pcs.Keys, t);
    WorkSplits(pcs', pcs'.Keys, t);
    assert pcs'.Keys == s.pcs.Keys;
    WorkAgrees(s.pcs, pcs', s.pcs.Keys - {t});
  }

  /** Every internal schedule from any state is no longer than the work in flight. */
  lemma {:induction false} SchedulesAreFinite(s: State, steps: seq<Step>)
    requires CanRun(s, steps) && forall step | step in steps :: Internal(step)
    ensures |steps| + Work(After(s, steps)) <= Work(s)
    decreases |steps|
  {
    if steps != [] {
      WorkFalls(s, steps[0]);
      SchedulesAreFinite(Apply(s, steps[0]), steps[1..]);
    }
  }

  /**
   Completion: after any run, let the goroutines in flight run by themselves in any order. The
   schedule is bounded by the work in flight, and when it can go no further every finish,
   recordPromptDone and begin has returned, and so has every emit, except context senders that
   wait for room in the full buffer of a turn that is not finished.
   */
  lemma RunsComplete(before: seq<Step>, alone: seq<Step>)
    requires CanRun(INITIAL, before) && CanRun(After(INITIAL, before), alone)
    requires (forall step | step in alone :: Internal(step)) && Stuck(After(After(INITIAL, before), alone))
    ensures |alone| <= Work(After(INITIAL, before))
    ensures var end := After(After(INITIAL, before), alone);
            forall t | t in end.pcs :: end.pcs[t].Done? || AwaitsRoom(end, end.pcs[t])
  {
    StartInvariant();
    RunKeeps(INITIAL, before);
    RunKeeps(After(INITIAL, before), alone);
    SchedulesAreFinite(After(INITIAL, before), alone);
    var end := After(After(INITIAL, before), alone);
    forall t | t in end.pcs
      ensures end.pcs[t].Done? || AwaitsRoom(end, end.pcs[t])
    {
      StuckMeansWaiting(end, t);
    }
  }

  /** Such a schedule exists from every reachable state. */
  lemma {:induction false} RunsCanComplete(s: State) returns (alone: seq<Step>)
    requires Safe(s)
    ensures (forall step | step in alone :: Internal(step)) && CanRun(s, alone) && Stuck(After(s, alone))
    decreases Work(s)
  {
    if Stuck(s) {
      alone := [];
    } else {
      var t :| t in s.pcs && (Ready(s, s.pcs[t]) || MayGiveUp(s, s.pcs[t]));
      var step := if Ready(s, s.pcs[t]) then Run(t) else Leave(t);
      WorkFalls(s, step);
      SafeKept(s, step);
      var rest := RunsCanComplete(Apply(s, step));
      alone := [step] + rest;
      assert alone[1..] == rest;
    }
  }

  /** The flag is never cleared, and a turn that exists keeps existing. */
  lemma {:induction false} FinishedStays(s: State, steps: seq<Step>, k: nat)
    requires CanRun(s, steps) && k < |s.turns| && s.turns[k].finished
    ensures k < |After(s, steps).turns| && After(s, steps).turns[k].finished
    decreases |steps|
  {
    if steps != [] {
      FlagStays(s, steps[0], k);
      FinishedStays(Apply(s, steps[0]), steps[1..], k);
    }
  }

  lemma FlagStays(s: State, step: Step, k: nat)
    requires Possible(s, step) && k < |s.turns| && s.turns[k].finished
    ensures k < |Apply(s, step).turns| && Apply(s, step).turns[k].finished
  {
  }

  /**
   Once a finish has set the flag of turn k, letting the goroutines run by themselves ends with the
   turn closed and its one result delivered, and with no emitter left on turn k, even if nobody
   ever reads and the buffer is full.
   */
  lemma FinishCompletes(before: seq<Step>, alone: seq<Step>, k: nat)
    requires CanRun(INITIAL, before) && CanRun(After(INITIAL, before), alone)
    requires (forall step | step in alone :: Internal(step)) && Stuck(After(After(INITIAL, before), alone))
    requires k < |After(INITIAL, before).turns| && After(INITIAL, before).turns[k].finished
    ensures var end := After(After(INITIAL, before), alone);
            && |Deliveries(end.log, k)| == 1 && MessageCloses(end.log, k) == 1 && ResultCloses(end.log, k) == 1
            && forall t | t in end.pcs && end.pcs[t].Emit? && !end.pcs[t].e.ECtl? && !end.pcs[t].e.EPeek? :: end.pcs[t].e.k != k
  {
    var middle, end := After(INITIAL, before), After(After(INITIAL, before), alone);
    RunsComplete(before, alone);
    FinishedStays(middle, alone, k);
    StartInvariant();
    RunKeeps(INITIAL, before);
    RunKeeps(middle, alone);
    assert TurnPhase(end, k) && Agrees(At(end, k), end.log, k);
  }
}
