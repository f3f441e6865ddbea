/**
 Safety of the ACP turn protocol over every interleaving: the event log of every reachable state
 is a well-formed protocol trace, no operation panics on a closed channel, and every turn that is
 no longer current has delivered exactly one result, built from the text accepted before finish.
 */
module AcpTurnSafety {
  import opened Wrappers
  import opened AcpTurn

  // ---- Mutual exclusion ----

  /** A mutex excludes itself, the write side of an RWMutex excludes the read side. */
  predicate Conflict(p: Lock, q: Lock) {
    (p == q && (p.Ctl? || p.Mu?)) || (p.Exclusive? && q == Shared(p.k)) || (q.Exclusive? && p == Shared(q.k))
  }

  predicate Apart(p: Pc, l: Lock, q: Pc, m: Lock) {
    Conflict(l, m) ==> !(Holds(p, l) && Holds(q, m))
  }

  /** Two goroutines never hold conflicting locks. */
  ghost predicate Exclusion(s: State) {
    forall t, u, l, m | t in s.pcs && u in s.pcs && t != u :: Apart(s.pcs[t], l, s.pcs[u], m)
  }

  /** A lock that a step acquires was free of every lock it conflicts with. */
  lemma StepperApart(s: State, tid: nat, u: nat, l: Lock, m: Lock)
    requires Exclusion(s) && tid in s.pcs && Ready(s, s.pcs[tid]) && u in s.pcs && u != tid
    ensures Apart(Next(s, tid).pcs[tid], l, s.pcs[u], m)
  {
    assert Apart(s.pcs[tid], l, s.pcs[u], m);
  }

  lemma ExclusionKept(s: State, step: Step)
    requires Exclusion(s) && Possible(s, step)
    ensures Exclusion(Apply(s, step))
  {
    var s' := Apply(s, step);
    forall t, u, l, m | t in s'.pcs && u in s'.pcs && t != u
      ensures Apart(s'.pcs[t], l, s'.pcs[u], m)
    {
      if step.Run? && t == step.tid {
        StepperApart(s, t, u, l, m);
      } else if step.Run? && u == step.tid {
        StepperApart(s, u, t, m, l);
      } else if t in s.pcs && u in s.pcs {
        assert Apart(s.pcs[t], l, s.pcs[u], m);
      }
    }
  }

  // ---- Phases of a turn ----

  /** The winner of turn k, between setting the flag and leaving the controller. */
  predicate Closing(pc: Pc, k: nat) {
    pc.Fin? && !pc.f.FCtl? && !pc.f.FPeek? && !pc.f.FLock? && !pc.f.FMark? && pc.f.k == k
  }

  predicate Open(turn: Turn) {
    !turn.finished && !turn.messagesClosed && !turn.resultsClosed && turn.results == []
  }

  predicate Retired(turn: Turn) {
    turn.finished && turn.messagesClosed && turn.resultsClosed
  }

  predicate Frozen(turn: Turn, result: TurnResult) {
    turn.finished && !turn.resultsClosed && turn.results == [] && result.output == turn.output && result.usage == turn.usage
  }

  /** What a finisher's position says about the turn it closes. */
  predicate FinPhase(s: State, f: FinAt) {
    match f
    case FCtl(_, _, _) => true
    case FPeek(_, _, _) => true
    case FLock(k, _, _) => s.current == Some(k)
    case FMark(k, _, _) => s.current == Some(k)
    case FAnnounce(k, result) => s.current == Some(k) && Frozen(At(s, k), result) && !At(s, k).messagesClosed
    case FDrain(k, result) => s.current == Some(k) && Frozen(At(s, k), result) && !At(s, k).messagesClosed
    case FClose(k, result) => s.current == Some(k) && Frozen(At(s, k), result) && !At(s, k).messagesClosed
    case FUnlock(k, result) => s.current == Some(k) && Frozen(At(s, k), result) && At(s, k).messagesClosed
    case FDeliver(k, result) => s.current == Some(k) && Frozen(At(s, k), result) && At(s, k).messagesClosed
    case FSeal(k) => s.current == Some(k) && At(s, k).finished && At(s, k).messagesClosed && !At(s, k).resultsClosed
    case FClear(k, won) => s.current == Some(k) && Retired(At(s, k)) && won
  }

  predicate EmitPhase(s: State, e: EmitAt) {
    match e
    case ECtl => true
    case EPeek => true
    case ESend(k) => k < |s.turns| && !At(s, k).messagesClosed
    case ERLock(k) => k < |s.turns|
    case ELock(k) => k < |s.turns|
    case ECheck(k) => k < |s.turns|
    case ERUnlock(k) => k < |s.turns|
  }

  predicate RecPhase(s: State, r: RecAt) {
    match r
    case RLock(k) => s.current == Some(k)
    case RStore(k) => s.current == Some(k)
    case _ => true
  }

  predicate PcPhase(s: State, pc: Pc) {
    match pc
    case Emit(_, e) => EmitPhase(s, e)
    case Fin(f) => FinPhase(s, f)
    case Rec(_, r) => RecPhase(s, r)
    case _ => true
  }

  ghost predicate TurnPhase(s: State, k: nat) {
    var turn := At(s, k);
    && turn.finished == turn.doneClosed
    && |turn.messages| <= MESSAGE_CAPACITY
    && |turn.results| <= RESULT_CAPACITY
    && (s.current != Some(k) ==> Retired(turn))
    && (s.current == Some(k) && !turn.finished ==> Open(turn))
    && (s.current == Some(k) && turn.finished ==> exists t | t in s.pcs :: Closing(s.pcs[t], k))
  }

  ghost predicate Phases(s: State) {
    && (s.current.Some? ==> s.current.value + 1 == |s.turns|)
    && (forall k: nat | k < |s.turns| :: TurnPhase(s, k))
    && (forall t | t in s.pcs :: PcPhase(s, s.pcs[t]))
  }

  ghost predicate Safe(s: State) {
    Exclusion(s) && Phases(s)
  }

  lemma OneHolder(s: State, t: nat, u: nat)
    requires Exclusion(s) && t in s.pcs && u in s.pcs && Holds(s.pcs[t], Ctl) && Holds(s.pcs[u], Ctl)
    ensures t == u
  {
    assert t != u ==> Apart(s.pcs[t], Ctl, s.pcs[u], Ctl);
  }

  /** While a goroutine that is not closing turn k holds the controller's lock, turn k is unfinished. */
  lemma CtlMeansNotClosing(s: State, tid: nat, k: nat)
    requires Safe(s) && tid in s.pcs && Holds(s.pcs[tid], Ctl) && !Closing(s.pcs[tid], k)
    requires k < |s.turns| && s.current == Some(k)
    ensures Open(At(s, k))
  {
    assert TurnPhase(s, k);
    forall t | t in s.pcs && Closing(s.pcs[t], k)
      ensures false
    {
      OneHolder(s, tid, t);
    }
  }

  /** Emitters, recorders and the consumer change no flag, and nothing of a finished turn but its buffers. */
  ghost predicate Quiet(s: State, s': State) {
    && s'.current == s.current && |s'.turns| == |s.turns|
    && forall k: nat | k < |s.turns| :: QuietTurn(At(s, k), At(s', k))
  }

  predicate QuietTurn(turn: Turn, turn': Turn) {
    && turn'.finished == turn.finished && turn'.doneClosed == turn.doneClosed
    && turn'.messagesClosed == turn.messagesClosed && turn'.resultsClosed == turn.resultsClosed
    && (turn'.results == turn.results || (turn.results != [] && turn'.results == turn.results[1..]))
    && (turn.finished ==> turn'.output == turn.output && turn'.usage == turn.usage)
    && (|turn'.messages| <= |turn.messages| || |turn'.messages| <= MESSAGE_CAPACITY)
  }

  lemma QuietKeepsPc(s: State, s': State, pc: Pc)
    requires Phases(s) && Quiet(s, s') && PcPhase(s, pc)
    ensures PcPhase(s', pc)
  {
  }

  lemma QuietKeepsTurn(s: State, s': State, k: nat)
    requires Phases(s) && Quiet(s, s') && k < |s.turns|
    requires forall t | t in s.pcs && Closing(s.pcs[t], k) :: t in s'.pcs && s'.pcs[t] == s.pcs[t]
    ensures TurnPhase(s', k)
  {
    assert TurnPhase(s, k) && QuietTurn(At(s, k), At(s', k));
  }

  lemma EmitKeeps(s: State, tid: nat)
    requires Safe(s) && tid in s.pcs && Ready(s, s.pcs[tid]) && s.pcs[tid].Emit?
    ensures Quiet(s, Next(s, tid)) && PcPhase(Next(s, tid), Next(s, tid).pcs[tid])
  {
    var e := s.pcs[tid].e;
    assert PcPhase(s, s.pcs[tid]);
    if e.ECheck? || e.ESend? {
      assert TurnPhase(s, e.k);
    }
  }

  lemma RecKeeps(s: State, tid: nat)
    requires Safe(s) && tid in s.pcs && Ready(s, s.pcs[tid]) && s.pcs[tid].Rec?
    ensures Quiet(s, Next(s, tid)) && PcPhase(Next(s, tid), Next(s, tid).pcs[tid])
  {
    assert PcPhase(s, s.pcs[tid]);
  }

  lemma FinStepperPhase(s: State, tid: nat)
    requires Safe(s) && tid in s.pcs && Ready(s, s.pcs[tid]) && s.pcs[tid].Fin?
    ensures PcPhase(Next(s, tid), Next(s, tid).pcs[tid])
  {
    var f := s.pcs[tid].f;
    assert PcPhase(s, s.pcs[tid]);
    if f.FMark? {
      CtlMeansNotClosing(s, tid, f.k);
      assert TurnPhase(s, f.k);
    }
  }

  /** A finisher past its first lock moves its own turn through its phases and touches no other turn. */
  lemma FinKeepsTurn(s: State, tid: nat, k: nat)
    requires Safe(s) && tid in s.pcs && Ready(s, s.pcs[tid]) && s.pcs[tid].Fin? && k < |s.turns|
    ensures TurnPhase(Next(s, tid), k)
  {
    var f := s.pcs[tid].f;
    var s' := Next(s, tid);
    assert PcPhase(s, s.pcs[tid]) && TurnPhase(s, k);
    if s.current == Some(k) && At(s, k).finished {
      FinKeepsClosing(s, tid, k);
    } else if f.FMark? {
      CtlMeansNotClosing(s, tid, f.k);
      assert Closing(s'.pcs[tid], f.k);
    }
  }

  /** The turn that is being closed stays so, by this finisher or another, or is retired. */
  lemma FinKeepsClosing(s: State, tid: nat, k: nat)
    requires Safe(s) && tid in s.pcs && Ready(s, s.pcs[tid]) && s.pcs[tid].Fin? && k < |s.turns|
    requires s.current == Some(k) && At(s, k).finished
    ensures TurnPhase(Next(s, tid), k)
  {
    var s' := Next(s, tid);
    assert PcPhase(s, s.pcs[tid]) && TurnPhase(s, k);
    if s.pcs[tid].f.FMark? {
      CtlMeansNotClosing(s, tid, s.pcs[tid].f.k);
    }
    var t :| t in s.pcs && Closing(s.pcs[t], k);
    if t == tid {
      assert s'.current == Some(k) ==> Closing(s'.pcs[tid], k);
    } else {
      assert Apart(s.pcs[tid], Ctl, s.pcs[t], Ctl);
      assert s'.pcs[t] == s.pcs[t];
    }
  }

  lemma FinLeavesOthers(s: State, tid: nat, u: nat)
    requires Safe(s) && tid in s.pcs && Ready(s, s.pcs[tid]) && s.pcs[tid].Fin? && u in s.pcs && u != tid
    ensures PcPhase(Next(s, tid), s.pcs[u])
  {
    assert PcPhase(s, s.pcs[tid]) && PcPhase(s, s.pcs[u]);
    assert Apart(s.pcs[tid], Ctl, s.pcs[u], Ctl);
    if s.pcs[u].Emit? && s.pcs[u].e.ESend? {
      assert Apart(s.pcs[tid], Exclusive(s.pcs[u].e.k), s.pcs[u], Shared(s.pcs[u].e.k));
    }
  }

  lemma BeginKeeps(s: State, tid: nat)
    requires Safe(s) && tid in s.pcs && Ready(s, s.pcs[tid]) && s.pcs[tid].Begin?
    ensures Phases(Next(s, tid))
  {
    var s' := Next(s, tid);
    forall k: nat | k < |s'.turns|
      ensures TurnPhase(s', k)
    {
      if k < |s.turns| {
        assert TurnPhase(s, k);
        if s.current == Some(k) && At(s, k).finished {
          var t :| t in s.pcs && Closing(s.pcs[t], k);
          assert s'.pcs[t] == s.pcs[t];
        }
      }
    }
    forall t | t in s'.pcs
      ensures PcPhase(s', s'.pcs[t])
    {
      assert t != tid ==> PcPhase(s, s.pcs[t]) && Apart(s.pcs[tid], Ctl, s.pcs[t], Ctl);
    }
  }

  lemma RunKeepsPhases(s: State, tid: nat)
    requires Safe(s) && tid in s.pcs && Ready(s, s.pcs[tid])
    ensures Phases(Next(s, tid))
  {
    var s' := Next(s, tid);
    match s.pcs[tid]
    case Begin(_) => BeginKeeps(s, tid);
    case Done(_) =>
    case Fin(_) => FinKeeps(s, tid);
    case _ =>
      if s.pcs[tid].Emit? { EmitKeeps(s, tid); } else { RecKeeps(s, tid); }
      QuietKeeps(s, s', tid);
  }

  lemma FinKeeps(s: State, tid: nat)
    requires Safe(s) && tid in s.pcs && Ready(s, s.pcs[tid]) && s.pcs[tid].Fin?
    ensures Phases(Next(s, tid))
  {
    var s' := Next(s, tid);
    FinStepperPhase(s, tid);
    forall k: nat | k < |s.turns|
      ensures TurnPhase(s', k)
    {
      FinKeepsTurn(s, tid, k);
    }
    forall u | u in s.pcs && u != tid
      ensures PcPhase(s', s.pcs[u])
    {
      FinLeavesOthers(s, tid, u);
    }
  }

  lemma QuietKeeps(s: State, s': State, tid: nat)
    requires Phases(s) && Quiet(s, s')
    requires tid in s'.pcs && s'.pcs == s.pcs[tid := s'.pcs[tid]] && PcPhase(s', s'.pcs[tid])
    requires tid in s.pcs ==> !s.pcs[tid].Fin?
    ensures Phases(s')
  {
    forall k: nat | k < |s'.turns|
      ensures TurnPhase(s', k)
    {
      QuietKeepsTurn(s, s', k);
    }
    forall t | t in s'.pcs
      ensures PcPhase(s', s'.pcs[t])
    {
      if t != tid {
        QuietKeepsPc(s, s', s.pcs[t]);
      }
    }
  }

  lemma SafeKept(s: State, step: Step)
    requires Safe(s) && Possible(s, step)
    ensures Safe(Apply(s, step))
  {
    var s' := Apply(s, step);
    ExclusionKept(s, step);
    match step
    case Run(tid) => RunKeepsPhases(s, tid);
    case Spawn(tid, pc) => QuietKeeps(s, s', tid);
    case Leave(tid) =>
      assert PcPhase(s, s.pcs[tid]);
      QuietKeeps(s, s', tid);
    case _ =>
      forall k: nat | k < |s'.turns|
        ensures TurnPhase(s', k)
      {
        QuietKeepsTurn(s, s', k);
      }
      forall t | t in s'.pcs
        ensures PcPhase(s', s'.pcs[t])
      {
        QuietKeepsPc(s, s', s.pcs[t]);
      }
  }
}
