/**
 What the event log of a reachable state looks like: the order of events the protocol allows,
 and the theorems about whole runs that follow from it.
 */
module AcpTurnTrace {
  import opened Wrappers
  import opened AcpTurn
  import opened AcpTurnSafety

  // ---- Projections of the log to one turn ----

  /** The text of the chunks that turn k accepted, in order. */
  function AcceptedText(log: seq<Event>, k: nat): string {
    if log == [] then ""
    else
      var before, last := log[..|log| - 1], log[|log| - 1];
      AcceptedText(before, k) + (if last.Accepted? && last.k == k && last.chunk.text then last.chunk.content else "")
  }

  /** The last nonzero amount that turn k recorded in one field, zero when there is none. */
  function LastNonzero(log: seq<Event>, k: nat, field: Usage -> int): int {
    if log == [] then 0
    else
      var before, last := log[..|log| - 1], log[|log| - 1];
      if last.Recorded? && last.k == k && field(last.usage) != 0 then field(last.usage) else LastNonzero(before, k, field)
  }

  function Reported(log: seq<Event>, k: nat): Usage {
    Usage(LastNonzero(log, k, (u: Usage) => u.input), LastNonzero(log, k, (u: Usage) => u.output),
          LastNonzero(log, k, (u: Usage) => u.cacheRead))
  }

  function SentTo(log: seq<Event>, k: nat): seq<Chunk> {
    if log == [] then []
    else
      var before, last := log[..|log| - 1], log[|log| - 1];
      SentTo(before, k) + (if last.Sent? && last.k == k then [last.chunk] else [])
  }

  function ReceivedFrom(log: seq<Event>, k: nat): seq<Chunk> {
    if log == [] then []
    else
      var before, last := log[..|log| - 1], log[|log| - 1];
      ReceivedFrom(before, k) + (if last.Received? && last.k == k then [last.chunk] else [])
  }

  function Deliveries(log: seq<Event>, k: nat): seq<TurnResult> {
    if log == [] then []
    else
      var before, last := log[..|log| - 1], log[|log| - 1];
      Deliveries(before, k) + (if last.Delivered? && last.k == k then [last.result] else [])
  }

  function Finishes(log: seq<Event>, k: nat): nat {
    if log == [] then 0
    else
      var before, last := log[..|log| - 1], log[|log| - 1];
      Finishes(before, k) + (if last.Finished? && last.k == k then 1 else 0)
  }

  function MessageCloses(log: seq<Event>, k: nat): nat {
    if log == [] then 0
    else
      var before, last := log[..|log| - 1], log[|log| - 1];
      MessageCloses(before, k) + (if last.MessagesClosed? && last.k == k then 1 else 0)
  }

  function ResultCloses(log: seq<Event>, k: nat): nat {
    if log == [] then 0
    else
      var before, last := log[..|log| - 1], log[|log| - 1];
      ResultCloses(before, k) + (if last.ResultsClosed? && last.k == k then 1 else 0)
  }

  /** The projections of a log that grew by one event. */
  lemma Grows(log: seq<Event>, e: Event, k: nat)
    ensures var now := log + [e];
            && AcceptedText(now, k) == AcceptedText(log, k) + (if e.Accepted? && e.k == k && e.chunk.text then e.chunk.content else "")
            && Reported(now, k) == (if e.Recorded? && e.k == k then MergeUsage(Reported(log, k), e.usage) else Reported(log, k))
            && SentTo(now, k) == SentTo(log, k) + (if e.Sent? && e.k == k then [e.chunk] else [])
            && ReceivedFrom(now, k) == ReceivedFrom(log, k) + (if e.Received? && e.k == k then [e.chunk] else [])
            && Deliveries(now, k) == Deliveries(log, k) + (if e.Delivered? && e.k == k then [e.result] else [])
            && Finishes(now, k) == Finishes(log, k) + (if e.Finished? && e.k == k then 1 else 0)
            && MessageCloses(now, k) == MessageCloses(log, k) + (if e.MessagesClosed? && e.k == k then 1 else 0)
            && ResultCloses(now, k) == ResultCloses(log, k) + (if e.ResultsClosed? && e.k == k then 1 else 0)
  {
    var now := log + [e];
    assert now[..|now| - 1] == log;
  }

  // ---- The order of events ----

  /**
   An event may follow a prefix of the log: nothing is accepted or recorded after the finish,
   nothing is sent after the message channel is closed, each channel is closed once and in order,
   an ordinary chunk is dropped only when 256 chunks are unread, a context chunk only after the
   finish, messages are read in the order they were sent, the one result holds the text accepted
   and the usage reported so far, and nothing ever panics.
   */
  ghost predicate MayFollow(prefix: seq<Event>, e: Event) {
    match e
    case Accepted(k, _, _) => Finishes(prefix, k) == 0
    case Recorded(k, _, _) => Finishes(prefix, k) == 0
    case Finished(k, _) => Finishes(prefix, k) == 0
    case Sent(k, _, _) => MessageCloses(prefix, k) == 0 && |SentTo(prefix, k)| - |ReceivedFrom(prefix, k)| < MESSAGE_CAPACITY
    case Dropped(k, _, chunk, buffered) =>
      && buffered == |SentTo(prefix, k)| - |ReceivedFrom(prefix, k)|
      && (if chunk.context then Finishes(prefix, k) == 1 else buffered == MESSAGE_CAPACITY)
    case Received(k, chunk) => ReceivedFrom(prefix, k) + [chunk] <= SentTo(prefix, k)
    case MessagesClosed(k) => Finishes(prefix, k) == 1 && MessageCloses(prefix, k) == 0
    case Delivered(k, result) =>
      && MessageCloses(prefix, k) == 1 && Deliveries(prefix, k) == []
      && result.output == AcceptedText(prefix, k) && result.usage == Reported(prefix, k)
    case ResultsClosed(k) => |Deliveries(prefix, k)| == 1 && ResultCloses(prefix, k) == 0
    case Panicked(_) => false
  }

  ghost predicate WellFormed(log: seq<Event>) {
    forall i: nat | i < |log| :: MayFollow(log[..i], log[i])
  }

  lemma WellFormedGrows(log: seq<Event>, e: Event)
    requires WellFormed(log) && MayFollow(log, e)
    ensures WellFormed(log + [e])
  {
    var now := log + [e];
    forall i: nat | i < |now|
      ensures MayFollow(now[..i], now[i])
    {
      if i < |log| {
        assert now[..i] == log[..i];
      } else {
        assert now[..i] == log;
      }
    }
  }

  // ---- The state agrees with its log ----

  predicate DeliveredOnce(turn: Turn, results: seq<TurnResult>) {
    |results| == 1 && turn.finished && turn.messagesClosed && results[0].output == turn.output && results[0].usage == turn.usage
  }

  predicate Agrees(turn: Turn, log: seq<Event>, k: nat) {
    && turn.output == AcceptedText(log, k)
    && turn.usage == Reported(log, k)
    && SentTo(log, k) == ReceivedFrom(log, k) + turn.messages
    && Finishes(log, k) == (if turn.finished then 1 else 0)
    && MessageCloses(log, k) == (if turn.messagesClosed then 1 else 0)
    && ResultCloses(log, k) == (if turn.resultsClosed then 1 else 0)
    && (Deliveries(log, k) == [] || DeliveredOnce(turn, Deliveries(log, k)))
    && (turn.resultsClosed ==> Deliveries(log, k) != [])
  }

  /** The closer of a turn has delivered the result exactly when it is past the delivery. */
  predicate DeliveryPhase(pc: Pc, log: seq<Event>) {
    pc.Fin? ==>
      match pc.f
      case FAnnounce(k, _) => Deliveries(log, k) == []
      case FDrain(k, _) => Deliveries(log, k) == []
      case FClose(k, _) => Deliveries(log, k) == []
      case FUnlock(k, _) => Deliveries(log, k) == []
      case FDeliver(k, _) => Deliveries(log, k) == []
      case FSeal(k) => Deliveries(log, k) != []
      case _ => true
  }

  ghost predicate History(s: State) {
    && WellFormed(s.log)
    && (forall k: nat :: Agrees(At(s, k), s.log, k))
    && (forall t | t in s.pcs :: DeliveryPhase(s.pcs[t], s.log))
  }

  // ---- What each event does to its turn ----

  /** Recording e leaves turn k, now turn', in agreement with the longer log. */
  ghost predicate Fits(turn': Turn, log: seq<Event>, e: Event) {
    MayFollow(log, e) && Agrees(turn', log + [e], e.k)
  }

  lemma AcceptFits(turn: Turn, log: seq<Event>, tid: nat, chunk: Chunk, k: nat)
    requires Agrees(turn, log, k) && !turn.finished
    ensures var kept := if chunk.text && chunk.content != "" then turn.output + chunk.content else turn.output;
            Fits(turn.(output := kept), log, Accepted(k, tid, chunk))
  {
    Grows(log, Accepted(k, tid, chunk), k);
  }

  lemma SendFits(turn: Turn, log: seq<Event>, tid: nat, chunk: Chunk, k: nat)
    requires Agrees(turn, log, k) && !turn.messagesClosed && |turn.messages| < MESSAGE_CAPACITY
    ensures Fits(turn.(messages := turn.messages + [chunk]), log, Sent(k, tid, chunk))
  {
    Grows(log, Sent(k, tid, chunk), k);
    assert ReceivedFrom(log, k) + (turn.messages + [chunk]) == (ReceivedFrom(log, k) + turn.messages) + [chunk];
  }

  lemma DropFits(turn: Turn, log: seq<Event>, tid: nat, chunk: Chunk, k: nat)
    requires Agrees(turn, log, k)
    requires if chunk.context then turn.finished else |turn.messages| == MESSAGE_CAPACITY
    ensures Fits(turn, log, Dropped(k, tid, chunk, |turn.messages|))
  {
    Grows(log, Dropped(k, tid, chunk, |turn.messages|), k);
  }

  lemma ReceiveFits(turn: Turn, log: seq<Event>, k: nat)
    requires Agrees(turn, log, k) && turn.messages != []
    ensures Fits(turn.(messages := turn.messages[1..]), log, Received(k, turn.messages[0]))
  {
    var first, rest := turn.messages[0], turn.messages[1..];
    Grows(log, Received(k, first), k);
    assert turn.messages == [first] + rest;
    assert SentTo(log, k) == (ReceivedFrom(log, k) + [first]) + rest;
  }

  lemma FinishFits(turn: Turn, log: seq<Event>, tid: nat, k: nat)
    requires Agrees(turn, log, k) && Open(turn)
    ensures Fits(turn.(finished := true, doneClosed := true), log, Finished(k, tid))
    ensures Deliveries(log + [Finished(k, tid)], k) == []
  {
    Grows(log, Finished(k, tid), k);
  }

  lemma CloseFits(turn: Turn, log: seq<Event>, k: nat)
    requires Agrees(turn, log, k) && turn.finished && !turn.messagesClosed
    ensures Fits(turn.(messagesClosed := true), log, MessagesClosed(k))
    ensures Deliveries(log + [MessagesClosed(k)], k) == Deliveries(log, k)
  {
    Grows(log, MessagesClosed(k), k);
  }

  lemma DeliverFits(turn: Turn, log: seq<Event>, k: nat, result: TurnResult)
    requires Agrees(turn, log, k) && Frozen(turn, result) && turn.messagesClosed && Deliveries(log, k) == []
    ensures Fits(turn.(results := turn.results + [result]), log, Delivered(k, result))
    ensures Deliveries(log + [Delivered(k, result)], k) != []
  {
    Grows(log, Delivered(k, result), k);
  }

  lemma SealFits(turn: Turn, log: seq<Event>, k: nat)
    requires Agrees(turn, log, k) && !turn.resultsClosed && Deliveries(log, k) != []
    ensures Fits(turn.(resultsClosed := true), log, ResultsClosed(k))
  {
    Grows(log, ResultsClosed(k), k);
  }

  lemma StoreFits(turn: Turn, log: seq<Event>, tid: nat, usage: Usage, k: nat)
    requires Agrees(turn, log, k) && !turn.finished
    ensures Fits(turn.(usage := MergeUsage(turn.usage, usage)), log, Recorded(k, tid, usage))
  {
    Grows(log, Recorded(k, tid, usage), k);
  }

  // ---- One step keeps the history ----

  /** The step recorded e about an existing turn and changed no other turn. */
  ghost predicate Records(s: State, s': State, e: Event) {
    && e.k < |s.turns| && s'.log == s.log + [e]
    && s'.turns == s.turns[e.k := At(s', e.k)] && Fits(At(s', e.k), s.log, e)
  }

  /** The step recorded nothing and left what the log speaks of alone. */
  ghost predicate Silent(s: State, s': State) {
    s'.log == s.log && forall k: nat :: At(s', k) == At(s, k).(results := At(s', k).results)
  }

  lemma RecordsKeep(s: State, s': State, e: Event)
    requires WellFormed(s.log) && (forall k: nat :: Agrees(At(s, k), s.log, k)) && Records(s, s', e)
    ensures WellFormed(s'.log) && forall k: nat :: Agrees(At(s', k), s'.log, k)
    ensures forall k: nat | k != e.k || !e.Delivered? :: Deliveries(s'.log, k) == Deliveries(s.log, k)
  {
    WellFormedGrows(s.log, e);
    forall k: nat
      ensures Agrees(At(s', k), s'.log, k)
      ensures k != e.k || !e.Delivered? ==> Deliveries(s'.log, k) == Deliveries(s.log, k)
    {
      if k != e.k {
        assert At(s', k) == At(s, k);
        StillAgrees(At(s, k), s.log, e, k);
      }
      Grows(s.log, e, k);
    }
  }

  lemma StillAgrees(turn: Turn, log: seq<Event>, e: Event, k: nat)
    requires Agrees(turn, log, k) && e.k != k
    ensures Agrees(turn, log + [e], k)
  {
    Grows(log, e, k);
  }

  lemma SilentKeeps(s: State, s': State)
    requires (forall k: nat :: Agrees(At(s, k), s.log, k)) && Silent(s, s')
    ensures forall k: nat :: Agrees(At(s', k), s'.log, k)
  {
    forall k: nat
      ensures Agrees(At(s', k), s'.log, k)
    {
      assert Agrees(At(s, k), s.log, k) && At(s', k) == At(s, k).(results := At(s', k).results);
    }
  }

  /** Every step is silent or records one event that fits. */
  ghost predicate Explained(s: State, s': State) {
    Silent(s, s') || (|s'.log| > |s.log| && Records(s, s', s'.log[|s.log|]))
  }

  lemma Explain(s: State, s': State, k: nat, turn': Turn, e: Event)
    requires k < |s.turns| && e.k == k && Fits(turn', s.log, e)
    requires s'.turns == s.turns[k := turn'] && s'.log == s.log + [e]
    ensures Explained(s, s')
  {
  }

  lemma EmitExplained(s: State, tid: nat, chunk: Chunk, e: EmitAt)
    requires EmitReady(s, chunk, e) && EmitPhase(s, e)
    requires e.ECheck? || e.ESend? ==> Agrees(At(s, e.k), s.log, e.k) && |At(s, e.k).messages| <= MESSAGE_CAPACITY
    ensures Explained(s, EmitStep(s, tid, chunk, e).0)
  {
    var s' := EmitStep(s, tid, chunk, e).0;
    if e.ECheck? {
      AcceptExplained(s, tid, chunk, e.k);
    } else if e.ESend? {
      SendExplained(s, tid, chunk, e.k);
    } else {
      assert Silent(s, s');
    }
  }

  lemma AcceptExplained(s: State, tid: nat, chunk: Chunk, k: nat)
    requires k < |s.turns| && Agrees(At(s, k), s.log, k)
    ensures Explained(s, EmitBody(s, tid, chunk, k).0)
  {
    var turn, s' := At(s, k), EmitBody(s, tid, chunk, k).0;
    if turn.finished {
      assert Silent(s, s');
    } else {
      AcceptFits(turn, s.log, tid, chunk, k);
      Explain(s, s', k, At(s', k), Accepted(k, tid, chunk));
    }
  }

  lemma SendExplained(s: State, tid: nat, chunk: Chunk, k: nat)
    requires k < |s.turns| && Agrees(At(s, k), s.log, k) && !At(s, k).messagesClosed
    requires EmitReady(s, chunk, ESend(k)) && |At(s, k).messages| <= MESSAGE_CAPACITY
    ensures Explained(s, SendBody(s, tid, chunk, k))
  {
    var turn, s' := At(s, k), SendBody(s, tid, chunk, k);
    if |turn.messages| < MESSAGE_CAPACITY {
      SendFits(turn, s.log, tid, chunk, k);
      Explain(s, s', k, At(s', k), Sent(k, tid, chunk));
    } else {
      DropFits(turn, s.log, tid, chunk, k);
      Explain(s, s', k, turn, Dropped(k, tid, chunk, |turn.messages|));
    }
  }

  lemma RecExplained(s: State, tid: nat, usage: Usage, r: RecAt)
    requires r.RStore? ==> r.k < |s.turns| && Agrees(At(s, r.k), s.log, r.k)
    ensures Explained(s, RecStep(s, tid, usage, r).0)
  {
    var s' := RecStep(s, tid, usage, r).0;
    if r.RStore? && !At(s, r.k).finished {
      StoreFits(At(s, r.k), s.log, tid, usage, r.k);
      Explain(s, s', r.k, At(s', r.k), Recorded(r.k, tid, usage));
    } else {
      assert Silent(s, s');
    }
  }

  lemma FinishExplained(s: State, tid: nat, f: FinAt)
    requires f.FMark? && FinPhase(s, f) && Open(At(s, f.k)) && !At(s, f.k).doneClosed && Agrees(At(s, f.k), s.log, f.k)
    requires s.current.Some? ==> s.current.value < |s.turns|
    ensures Explained(s, FinStep(s, tid, f).0)
    ensures DeliveryPhase(FinStep(s, tid, f).1, FinStep(s, tid, f).0.log)
  {
    var s' := FinStep(s, tid, f).0;
    FinishFits(At(s, f.k), s.log, tid, f.k);
    Explain(s, s', f.k, At(s', f.k), Finished(f.k, tid));
  }

  lemma CloseExplained(s: State, tid: nat, f: FinAt)
    requires f.FClose? && FinPhase(s, f) && Agrees(At(s, f.k), s.log, f.k)
    ensures Explained(s, FinStep(s, tid, f).0)
    ensures DeliveryPhase(FinStep(s, tid, f).1, FinStep(s, tid, f).0.log)
  {
    var s' := FinStep(s, tid, f).0;
    CloseFits(At(s, f.k), s.log, f.k);
    Explain(s, s', f.k, At(s', f.k), MessagesClosed(f.k));
  }

  lemma DeliverExplained(s: State, tid: nat, f: FinAt)
    requires f.FDeliver? && FinPhase(s, f) && DeliveryPhase(Fin(f), s.log) && Agrees(At(s, f.k), s.log, f.k)
    ensures Explained(s, FinStep(s, tid, f).0)
    ensures DeliveryPhase(FinStep(s, tid, f).1, FinStep(s, tid, f).0.log)
  {
    var s' := FinStep(s, tid, f).0;
    DeliverFits(At(s, f.k), s.log, f.k, f.result);
    Explain(s, s', f.k, At(s', f.k), Delivered(f.k, f.result));
  }

  lemma SealExplained(s: State, tid: nat, f: FinAt)
    requires f.FSeal? && FinPhase(s, f) && DeliveryPhase(Fin(f), s.log) && Agrees(At(s, f.k), s.log, f.k)
    ensures Explained(s, FinStep(s, tid, f).0)
    ensures DeliveryPhase(FinStep(s, tid, f).1, FinStep(s, tid, f).0.log)
  {
    var s' := FinStep(s, tid, f).0;
    SealFits(At(s, f.k), s.log, f.k);
    Explain(s, s', f.k, At(s', f.k), ResultsClosed(f.k));
  }

  lemma FinExplained(s: State, tid: nat, f: FinAt)
    requires FinPhase(s, f) && DeliveryPhase(Fin(f), s.log) && (s.current.Some? ==> s.current.value < |s.turns|)
    requires f.FMark? ==> Open(At(s, f.k)) && !At(s, f.k).doneClosed
    requires f.FMark? || f.FClose? || f.FDeliver? || f.FSeal? ==> Agrees(At(s, f.k), s.log, f.k)
    ensures Explained(s, FinStep(s, tid, f).0)
    ensures DeliveryPhase(FinStep(s, tid, f).1, FinStep(s, tid, f).0.log)
  {
    if f.FMark? {
      FinishExplained(s, tid, f);
    } else if f.FClose? {
      CloseExplained(s, tid, f);
    } else if f.FDeliver? {
      DeliverExplained(s, tid, f);
    } else if f.FSeal? {
      SealExplained(s, tid, f);
    } else {
      assert Silent(s, FinStep(s, tid, f).0);
    }
  }

  lemma RunExplained(s: State, tid: nat)
    requires Safe(s) && History(s) && tid in s.pcs && Ready(s, s.pcs[tid])
    ensures Explained(s, PcStep(s, tid, s.pcs[tid]).0)
    ensures DeliveryPhase(Next(s, tid).pcs[tid], Next(s, tid).log)
  {
    match s.pcs[tid]
    case Emit(_, _) => RunEmitExplained(s, tid);
    case Fin(_) => RunFinExplained(s, tid);
    case Rec(_, _) => RunRecExplained(s, tid);
    case Begin(b) => assert Silent(s, BeginStep(s, b).0);
    case Done(_) =>
  }

  lemma RunEmitExplained(s: State, tid: nat)
    requires Safe(s) && History(s) && tid in s.pcs && Ready(s, s.pcs[tid]) && s.pcs[tid].Emit?
    ensures Explained(s, PcStep(s, tid, s.pcs[tid]).0)
    ensures DeliveryPhase(Next(s, tid).pcs[tid], Next(s, tid).log)
  {
    var chunk, e := s.pcs[tid].chunk, s.pcs[tid].e;
    assert PcPhase(s, s.pcs[tid]);
    if e.ECheck? || e.ESend? {
      assert Agrees(At(s, e.k), s.log, e.k) && TurnPhase(s, e.k);
    }
    EmitExplained(s, tid, chunk, e);
  }

  lemma RunFinExplained(s: State, tid: nat)
    requires Safe(s) && History(s) && tid in s.pcs && Ready(s, s.pcs[tid]) && s.pcs[tid].Fin?
    ensures Explained(s, PcStep(s, tid, s.pcs[tid]).0)
    ensures DeliveryPhase(Next(s, tid).pcs[tid], Next(s, tid).log)
  {
    var f := s.pcs[tid].f;
    assert PcPhase(s, s.pcs[tid]) && DeliveryPhase(s.pcs[tid], s.log);
    if f.FMark? {
      CtlMeansNotClosing(s, tid, f.k);
      assert TurnPhase(s, f.k);
    }
    if f.FMark? || f.FClose? || f.FDeliver? || f.FSeal? {
      assert Agrees(At(s, f.k), s.log, f.k);
    }
    FinExplained(s, tid, f);
  }

  lemma RunRecExplained(s: State, tid: nat)
    requires Safe(s) && History(s) && tid in s.pcs && Ready(s, s.pcs[tid]) && s.pcs[tid].Rec?
    ensures Explained(s, PcStep(s, tid, s.pcs[tid]).0)
    ensures DeliveryPhase(Next(s, tid).pcs[tid], Next(s, tid).log)
  {
    var r := s.pcs[tid].r;
    assert PcPhase(s, s.pcs[tid]);
    if r.RStore? {
      assert Agrees(At(s, r.k), s.log, r.k);
    }
    RecExplained(s, tid, s.pcs[tid].usage, r);
  }

  lemma LeaveExplained(s: State, tid: nat)
    requires Safe(s) && History(s) && Possible(s, Leave(tid))
    ensures Explained(s, GiveUp(s, tid))
  {
    var chunk, k := s.pcs[tid].chunk, s.pcs[tid].e.k;
    assert PcPhase(s, s.pcs[tid]) && TurnPhase(s, k) && Agrees(At(s, k), s.log, k);
    DropFits(At(s, k), s.log, tid, chunk, k);
    Explain(s, GiveUp(s, tid), k, At(s, k), Dropped(k, tid, chunk, |At(s, k).messages|));
  }

  lemma ReceiveExplained(s: State, k: nat)
    requires History(s) && Possible(s, Receive(k))
    ensures Explained(s, Apply(s, Receive(k)))
  {
    var s' := Apply(s, Receive(k));
    assert Agrees(At(s, k), s.log, k);
    ReceiveFits(At(s, k), s.log, k);
    Explain(s, s', k, At(s', k), Received(k, At(s, k).messages[0]));
  }

  lemma NextExplained(s: State, tid: nat)
    requires Safe(s) && History(s) && tid in s.pcs && Ready(s, s.pcs[tid])
    ensures Explained(s, Next(s, tid))
  {
    RunExplained(s, tid);
    ExplainedByTurns(s, PcStep(s, tid, s.pcs[tid]).0, Next(s, tid));
  }

  lemma ExplainedByTurns(s: State, s': State, t: State)
    requires Explained(s, s') && t.log == s'.log && t.turns == s'.turns
    ensures Explained(s, t)
  {
    forall k: nat
      ensures At(t, k) == At(s', k)
    {
    }
  }

  lemma StepExplained(s: State, step: Step)
    requires Safe(s) && History(s) && Possible(s, step)
    ensures Explained(s, Apply(s, step))
  {
    match step
    case Run(tid) => NextExplained(s, tid);
    case Leave(tid) => LeaveExplained(s, tid);
    case Receive(k) => ReceiveExplained(s, k);
    case Spawn(tid, pc) => assert Silent(s, Goto(s, tid, pc));
    case ReceiveResult(k) => assert Silent(s, Apply(s, step));
  }

  lemma ExplainedKeeps(s: State, s': State)
    requires History(s) && Explained(s, s')
    ensures WellFormed(s'.log) && forall k: nat :: Agrees(At(s', k), s'.log, k)
    ensures forall k: nat | Deliveries(s'.log, k) != Deliveries(s.log, k) ::
              |s'.log| > |s.log| && s'.log[|s.log|].Delivered? && s'.log[|s.log|].k == k
  {
    if Silent(s, s') {
      SilentKeeps(s, s');
    } else {
      RecordsKeep(s, s', s'.log[|s.log|]);
    }
  }

  lemma DeliveredByHolder(s: State, step: Step)
    requires Possible(s, step)
    ensures var log' := Apply(s, step).log;
            |log'| > |s.log| && log'[|s.log|].Delivered? ==>
              step.Run? && s.pcs[step.tid].Fin? && s.pcs[step.tid].f.FDeliver?
  {
  }

  lemma HistoryKept(s: State, step: Step)
    requires Safe(s) && History(s) && Possible(s, step)
    ensures History(Apply(s, step))
  {
    var s' := Apply(s, step);
    StepExplained(s, step);
    ExplainedKeeps(s, s');
    forall t | t in s'.pcs
      ensures DeliveryPhase(s'.pcs[t], s'.log)
    {
      DeliveryKept(s, step, t);
    }
  }

  lemma DeliveryKept(s: State, step: Step, t: nat)
    requires Safe(s) && History(s) && Possible(s, step) && t in Apply(s, step).pcs
    ensures DeliveryPhase(Apply(s, step).pcs[t], Apply(s, step).log)
  {
    if step.Run? && step.tid == t {
      RunExplained(s, t);
    } else if t in s.pcs && Apply(s, step).pcs[t] == s.pcs[t] {
      OtherDeliveryKept(s, step, t);
    } else {
      EntersOrLeaves(s, step, t);
    }
  }

  lemma EntersOrLeaves(s: State, step: Step, t: nat)
    requires Possible(s, step) && t in Apply(s, step).pcs && !(step.Run? && step.tid == t)
    requires !(t in s.pcs && Apply(s, step).pcs[t] == s.pcs[t])
    ensures DeliveryPhase(Apply(s, step).pcs[t], Apply(s, step).log)
  {
  }

  /** A goroutine that stands still: a delivery by another one excludes that this one is finishing, too. */
  lemma OtherDeliveryKept(s: State, step: Step, t: nat)
    requires Safe(s) && History(s) && Possible(s, step) && t in s.pcs && !(step.Run? && step.tid == t)
    ensures DeliveryPhase(s.pcs[t], Apply(s, step).log)
  {
    assert DeliveryPhase(s.pcs[t], s.log);
    StepExplained(s, step);
    DeliveriesKept(s, Apply(s, step));
    DeliveredByHolder(s, step);
    if step.Run? && Holds(s.pcs[t], Ctl) && Holds(s.pcs[step.tid], Ctl) {
      OneHolder(s, t, step.tid);
    }
  }

  lemma DeliveriesKept(s: State, s': State)
    requires History(s) && Explained(s, s')
    ensures forall k: nat | Deliveries(s'.log, k) != Deliveries(s.log, k) ::
              |s'.log| > |s.log| && s'.log[|s.log|].Delivered? && s'.log[|s.log|].k == k && Deliveries(s'.log, k) != []
  {
    if Silent(s, s') {
      SilentKeeps(s, s');
    } else {
      RecordsKeep(s, s', s'.log[|s.log|]);
      forall k: nat
        ensures Deliveries(s'.log, k) != Deliveries(s.log, k) ==> Deliveries(s'.log, k) != []
      {
        Grows(s.log, s'.log[|s.log|], k);
      }
    }
  }

  // ---- Whole runs ----

  lemma StartInvariant()
    ensures Safe(INITIAL) && History(INITIAL)
  {
  }

  lemma {:induction false} RunKeeps(s: State, steps: seq<Step>)
    requires Safe(s) && History(s) && CanRun(s, steps)
    ensures Safe(After(s, steps)) && History(After(s, steps))
    decreases |steps|
  {
    if steps != [] {
      SafeKept(s, steps[0]);
      HistoryKept(s, steps[0]);
      RunKeeps(Apply(s, steps[0]), steps[1..]);
    }
  }

  /** In every interleaving the log is a well-formed trace; in particular nothing ever panics. */
  lemma EveryRunIsWellFormed(steps: seq<Step>)
    requires CanRun(INITIAL, steps)
    ensures WellFormed(After(INITIAL, steps).log)
    ensures forall e | e in After(INITIAL, steps).log :: !e.Panicked?
  {
    StartInvariant();
    RunKeeps(INITIAL, steps);
    var log := After(INITIAL, steps).log;
    forall e | e in log
      ensures !e.Panicked?
    {
      var i: nat :| i < |log| && log[i] == e;
      assert MayFollow(log[..i], log[i]);
    }
  }

  /** Two goroutines are never inside sections that exclude each other. */
  lemma LocksExclude(steps: seq<Step>, t: nat, u: nat, l: Lock, m: Lock)
    requires CanRun(INITIAL, steps) && t != u && Conflict(l, m)
    requires t in After(INITIAL, steps).pcs && u in After(INITIAL, steps).pcs
    ensures !(Holds(After(INITIAL, steps).pcs[t], l) && Holds(After(INITIAL, steps).pcs[u], m))
  {
    StartInvariant();
    RunKeeps(INITIAL, steps);
    assert Apart(After(INITIAL, steps).pcs[t], l, After(INITIAL, steps).pcs[u], m);
  }

  /**
   A turn that is no longer current has finished once, closed each channel once and delivered
   exactly one result, holding exactly the text it accepted and the usage it recorded. A begin
   can therefore only succeed when every earlier turn has done all of this.
   */
  lemma OneResultPerTurn(steps: seq<Step>, k: nat)
    requires CanRun(INITIAL, steps)
    requires k < |After(INITIAL, steps).turns| && After(INITIAL, steps).current != Some(k)
    ensures var log := After(INITIAL, steps).log;
            && Finishes(log, k) == 1 && MessageCloses(log, k) == 1 && ResultCloses(log, k) == 1
            && |Deliveries(log, k)| == 1
            && Deliveries(log, k)[0].output == AcceptedText(log, k)
            && Deliveries(log, k)[0].usage == Reported(log, k)
  {
    StartInvariant();
    RunKeeps(INITIAL, steps);
    var s := After(INITIAL, steps);
    assert TurnPhase(s, k) && Agrees(At(s, k), s.log, k);
  }

  lemma PrefixIsWellFormed(log: seq<Event>, n: nat)
    requires WellFormed(log) && n <= |log|
    ensures WellFormed(log[..n])
  {
    forall i: nat | i < n
      ensures MayFollow(log[..n][..i], log[..n][i])
    {
      assert log[..n][..i] == log[..i] && MayFollow(log[..i], log[i]);
    }
  }

  /** After a finish nothing more is accepted: the text of the turn is the text before the flag was set. */
  lemma {:induction false} OutputPrecedesFinish(log: seq<Event>, k: nat, at: nat)
    requires WellFormed(log) && at < |log| && log[at].Finished? && log[at].k == k
    ensures AcceptedText(log, k) == AcceptedText(log[..at], k) && Finishes(log, k) == 1
    decreases |log|
  {
    var n := |log| - 1;
    var most, last := log[..n], log[n];
    assert MayFollow(most, last) && most + [last] == log;
    if at < n {
      PrefixIsWellFormed(log, n);
      OutputPrecedesFinish(most, k, at);
      assert most[..at] == log[..at];
      TextIsClosed(most, last, k);
    } else {
      Grows(most, last, k);
    }
  }

  lemma TextIsClosed(log: seq<Event>, e: Event, k: nat)
    requires MayFollow(log, e) && Finishes(log, k) == 1
    ensures AcceptedText(log + [e], k) == AcceptedText(log, k) && Finishes(log + [e], k) == 1
  {
    Grows(log, e, k);
  }

  lemma {:induction false} FinishInLog(log: seq<Event>, k: nat) returns (at: nat)
    requires Finishes(log, k) > 0
    ensures at < |log| && log[at].Finished? && log[at].k == k
  {
    at := |log| - 1;
    if !(log[at].Finished? && log[at].k == k) {
      at := FinishInLog(log[..at], k);
    }
  }

  /** The one result of a retired turn holds exactly the text accepted before the finished flag was set. */
  lemma ResultIsTextBeforeFinish(steps: seq<Step>, k: nat)
    requires CanRun(INITIAL, steps)
    requires k < |After(INITIAL, steps).turns| && After(INITIAL, steps).current != Some(k)
    ensures var log := After(INITIAL, steps).log;
            |Deliveries(log, k)| == 1 &&
            exists at: nat | at < |log| ::
              log[at].Finished? && log[at].k == k && Deliveries(log, k)[0].output == AcceptedText(log[..at], k)
  {
    var log := After(INITIAL, steps).log;
    EveryRunIsWellFormed(steps);
    OneResultPerTurn(steps, k);
    var at := FinishInLog(log, k);
    OutputPrecedesFinish(log, k, at);
  }

  /** The consumer reads a prefix of what was sent, in order; what it has not read is in the buffer. */
  lemma MessagesAreFifo(steps: seq<Step>, k: nat)
    requires CanRun(INITIAL, steps) && k < |After(INITIAL, steps).turns|
    ensures var s := After(INITIAL, steps);
            ReceivedFrom(s.log, k) <= SentTo(s.log, k) && SentTo(s.log, k)[|ReceivedFrom(s.log, k)|..] == s.turns[k].messages
  {
    StartInvariant();
    RunKeeps(INITIAL, steps);
    var s := After(INITIAL, steps);
    assert Agrees(At(s, k), s.log, k);
  }

  // ---- What becomes of an accepted chunk ----

  /** An accepted chunk is still at its send, was sent, or was dropped. */
  ghost predicate Accounted(s: State, k: nat, tid: nat, chunk: Chunk) {
    || (tid in s.pcs && s.pcs[tid] == Emit(chunk, ESend(k)))
    || Sent(k, tid, chunk) in s.log
    || exists e | e in s.log :: e.Dropped? && e.k == k && e.tid == tid && e.chunk == chunk
  }

  ghost predicate AllAccounted(s: State) {
    forall e | e in s.log && e.Accepted? :: Accounted(s, e.k, e.tid, e.chunk)
  }

  lemma AccountedKept(s: State, step: Step)
    requires Possible(s, step) && AllAccounted(s) && Safe(s)
    ensures AllAccounted(Apply(s, step))
  {
    var s' := Apply(s, step);
    LogGrows(s, step);
    forall e | e in s'.log && e.Accepted?
      ensures Accounted(s', e.k, e.tid, e.chunk)
    {
      if e in s.log {
        assert Accounted(s, e.k, e.tid, e.chunk);
        StillAccounted(s, step, e.k, e.tid, e.chunk);
      } else {
        AcceptIsAtSend(s, step);
      }
    }
  }

  lemma StillAccounted(s: State, step: Step, k: nat, tid: nat, chunk: Chunk)
    requires Possible(s, step) && Safe(s) && Accounted(s, k, tid, chunk)
    ensures Accounted(Apply(s, step), k, tid, chunk)
  {
    LogGrows(s, step);
    if tid in s.pcs && s.pcs[tid] == Emit(chunk, ESend(k)) && Apply(s, step).pcs[tid] != s.pcs[tid] {
      SendIsRecorded(s, step, tid);
    }
  }

  lemma LogGrows(s: State, step: Step)
    requires Possible(s, step)
    ensures s.log <= Apply(s, step).log && |Apply(s, step).log| <= |s.log| + 1
  {
  }

  lemma SendIsRecorded(s: State, step: Step, tid: nat)
    requires Possible(s, step) && tid in s.pcs && s.pcs[tid].Emit? && s.pcs[tid].e.ESend?
    requires Safe(s) && Apply(s, step).pcs[tid] != s.pcs[tid]
    ensures Accounted(Apply(s, step), s.pcs[tid].e.k, tid, s.pcs[tid].chunk)
  {
    var s' := Apply(s, step);
    assert PcPhase(s, s.pcs[tid]);
    assert |s'.log| == |s.log| + 1 && s'.log[|s.log|] in s'.log;
  }

  lemma AcceptIsAtSend(s: State, step: Step)
    requires Possible(s, step)
    ensures var s' := Apply(s, step);
            |s'.log| > |s.log| && s'.log[|s.log|].Accepted? ==>
              var e := s'.log[|s.log|]; Accounted(s', e.k, e.tid, e.chunk)
  {
    if step.Run? {
      RunAccepts(s, step.tid);
    }
  }

  lemma RunAccepts(s: State, tid: nat)
    requires tid in s.pcs && Ready(s, s.pcs[tid])
    ensures var s' := Next(s, tid);
            |s'.log| > |s.log| && s'.log[|s.log|].Accepted? ==>
              var e := s'.log[|s.log|]; e.tid == tid && s'.pcs[tid] == Emit(e.chunk, ESend(e.k))
  {
  }

  lemma {:induction false} AllAccountedAfter(s: State, steps: seq<Step>)
    requires Safe(s) && AllAccounted(s) && CanRun(s, steps)
    ensures AllAccounted(After(s, steps))
    decreases |steps|
  {
    if steps != [] {
      SafeKept(s, steps[0]);
      AccountedKept(s, steps[0]);
      AllAccountedAfter(Apply(s, steps[0]), steps[1..]);
    }
  }

  /**
   Context events are lossless while a turn is active: one that was accepted by a turn that has
   not finished was sent, or its emitter still waits for room.
   */
  lemma ContextIsLossless(steps: seq<Step>, k: nat, tid: nat, chunk: Chunk)
    requires CanRun(INITIAL, steps) && chunk.context
    requires Accepted(k, tid, chunk) in After(INITIAL, steps).log && !At(After(INITIAL, steps), k).finished
    ensures var s := After(INITIAL, steps);
            Sent(k, tid, chunk) in s.log || (tid in s.pcs && s.pcs[tid] == Emit(chunk, ESend(k)))
  {
    StartInvariant();
    RunKeeps(INITIAL, steps);
    AllAccountedAfter(INITIAL, steps);
    var s := After(INITIAL, steps);
    assert Accounted(s, k, tid, chunk) && Agrees(At(s, k), s.log, k);
    forall e | e in s.log && e.Dropped? && e.k == k && e.chunk.context
      ensures Finishes(s.log, k) > 0
    {
      var i: nat :| i < |s.log| && s.log[i] == e;
      assert MayFollow(s.log[..i], s.log[i]);
      FinishesGrow(s.log, i, k);
    }
  }

  lemma {:induction false} FinishesGrow(log: seq<Event>, i: nat, k: nat)
    requires i <= |log|
    ensures Finishes(log[..i], k) <= Finishes(log, k)
    decreases |log|
  {
    if i < |log| {
      FinishesGrow(log[..|log| - 1], i, k);
      assert log[..|log| - 1][..i] == log[..i];
    } else {
      assert log[..i] == log;
    }
  }
}
