/**
 The end of a Codex turn and the reader's handlers, section by section. A handler accepts a
 notification under the turn lock and applies it under the context lock; a completion finishes the
 context and then claims the turn, a failure the other way round. An interrupt ends the turn beside
 the reader, so the sections of the two interleave, and what is applied after the context was
 finished is still there when the next turn begins.
 */
module CodexHandover {
  import opened CodexContext
  import opened CodexContextTurn
  import opened Wrappers

  /** The notification that the reader has accepted and not yet applied, and the events since the last prepareTurn. */
  datatype State = State(client: Client, reader: Option<Notice>, events: seq<ContextEvent>)

  datatype Action =
    | Look(n: Notice)         // the reader's section of the turn lock
    | Apply                   // its section of the context lock
    | Answer(turn: string)    // turn/start is answered
    | Finish(turn: string)    // finishContextTurn
    | Claim                   // the turn is done
    | Prepare                 // prepareTurn

  /** What the handlers check before they take the context lock. */
  predicate Heeds(c: Client, n: Notice) {
    match n
    case TurnStarted(_, turn) => turn != ""
    case TurnStartResponse(_) => false
    case TokenUsage(thread, turn, used, window) => Accepts(c, OrEmpty(thread), turn) && (used.Some? || window.Some?)
    case ItemStarted(thread, turn, item) => Accepts(c, OrEmpty(thread), turn) && item != ""
    case ItemCompleted(thread, turn, item) => Accepts(c, OrEmpty(thread), turn) && item != ""
  }

  function Section(c: Client, n: Notice): (Client, seq<ContextEvent>) {
    match n
    case TurnStarted(thread, turn) => BeginContext(c, OrEmpty(thread), turn)
    case TurnStartResponse(_) => (c, [])
    case TokenUsage(thread, turn, used, window) => AddUsage(c, OrEmpty(thread), turn, used, window)
    case ItemStarted(thread, turn, item) => StartItem(c, OrEmpty(thread), turn, item)
    case ItemCompleted(thread, turn, item) => (CompleteItem(c, OrEmpty(thread), turn, item), [])
  }

  function Emit(s: State, section: (Client, seq<ContextEvent>)): State {
    s.(client := section.0, events := s.events + section.1)
  }

  function Step(s: State, a: Action): State {
    match a
    case Look(n) =>
      if s.reader.Some? || OtherThread(s.client, n) || !Heeds(s.client, n) then s
      else s.(reader := Some(n), client := if n.TurnStarted? then RecordTurnID(s.client, n.turn) else s.client)
    case Apply => if s.reader.None? then s else Emit(s, Section(s.client, s.reader.value)).(reader := None)
    case Answer(turn) => s.(client := RecordTurnID(s.client, turn))
    case Finish(turn) => Emit(s, FinishContext(s.client, s.client.threadID, turn))
    case Claim => s.(client := s.client.(turnDone := true))
    case Prepare => s.(client := s.client.(turnDone := false, turnID := ""), events := [])
  }

  function Steps(s: State, actions: seq<Action>): State
    decreases |actions|
  {
    if actions == [] then s else Steps(Step(s, actions[0]), actions[1..])
  }

  /** Undisturbed, the two sections of a handler are the handler. */
  lemma SectionsMakeHandler(s: State, n: Notice)
    requires s.reader.None? && !n.TurnStartResponse?
    ensures Step(Step(s, Look(n)), Apply) == Emit(s, Handle(s.client, n))
    ensures Step(s, Answer(n.turn)) == Emit(s, Handle(s.client, TurnStartResponse(n.turn)))
  {
    assert s.events + [] == s.events;
  }

  // ---- One turn ----

  /** The actions belong to one turn of the thread: those that record an id record this one. */
  predicate OfTurn(a: Action, thread: string, turn: string) {
    match a
    case Look(n) => Records(n, thread) ==> n.turn == turn
    case Answer(id) => id == "" || id == turn
    case _ => true
  }

  /** What the reader holds is about this turn. */
  predicate ReaderOk(reader: Option<Notice>, thread: string, turn: string) {
    reader.Some? ==>
      match reader.value
      case TurnStarted(th, id) => (th.None? || th.value == thread) && id == turn
      case TurnStartResponse(_) => false
      case TokenUsage(th, id, used, window) => th == Some(thread) && id == turn && (used.Some? || window.Some?)
      case ItemStarted(th, id, item) => th == Some(thread) && id == turn && item != ""
      case ItemCompleted(th, id, item) => th == Some(thread) && id == turn && item != ""
  }

  predicate InTurn(s: State, thread: string, turn: string, t: Track) {
    && thread != "" && turn != "" && s.client.threadID == thread && (s.client.turnID == "" || s.client.turnID == turn)
    && ReaderOk(s.reader, thread, turn) && Holds(s.client, thread, turn, t)
  }

  /** What the turn hears when the reader applies what it holds. */
  function Applied(s: State, thread: string, turn: string): seq<Signal> {
    if s.reader.Some? && Open(s.client, thread, turn) then HeardIn(s.reader.value, thread, turn) else []
  }

  /** The signals applied since the context of the turn was last finished. */
  function Late(s: State, actions: seq<Action>, thread: string, turn: string, heard: seq<Signal>): seq<Signal>
    decreases |actions|
  {
    if actions == [] then heard
    else
      Late(Step(s, actions[0]), actions[1..], thread, turn,
           if actions[0] == Finish(turn) then [] else if actions[0].Apply? then heard + Applied(s, thread, turn) else heard)
  }

  lemma UsageHolds(c: Client, thread: string, turn: string, t: Track, used: Token, window: Token)
    requires Holds(c, thread, turn, t) && (used.Some? || window.Some?)
    ensures var next, added := Respond(t, if Open(c, thread, turn) then [Use(used, window)] else []), AddUsage(c, thread, turn, used, window);
            Holds(added.0, thread, turn, next.0) && added.1 == next.1
  {
  }

  lemma StartHolds(c: Client, thread: string, turn: string, t: Track, item: string)
    requires Holds(c, thread, turn, t)
    ensures var next, started := Respond(t, if Open(c, thread, turn) then [Start(item)] else []), StartItem(c, thread, turn, item);
            Holds(started.0, thread, turn, next.0) && started.1 == next.1
  {
  }

  lemma CompleteHolds(c: Client, thread: string, turn: string, t: Track, item: string)
    requires Holds(c, thread, turn, t)
    ensures var next := Respond(t, if Open(c, thread, turn) then [Signal.Complete(item)] else []);
            Holds(CompleteItem(c, thread, turn, item), thread, turn, next.0) && next.1 == []
  {
  }

  lemma SectionHolds(s: State, thread: string, turn: string, t: Track)
    requires InTurn(s, thread, turn, t) && s.reader.Some?
    ensures var next, section := Respond(t, Applied(s, thread, turn)), Section(s.client, s.reader.value);
            Holds(section.0, thread, turn, next.0) && section.1 == next.1
  {
    match s.reader.value
    case TurnStarted(_, _) =>
    case TokenUsage(_, _, used, window) => UsageHolds(s.client, thread, turn, t, used, window);
    case ItemStarted(_, _, item) => StartHolds(s.client, thread, turn, t, item);
    case ItemCompleted(_, _, item) => CompleteHolds(s.client, thread, turn, t, item);
  }

  lemma FinishHolds(c: Client, thread: string, turn: string, t: Track, id: string)
    requires thread != "" && turn != "" && c.threadID == thread && Holds(c, thread, turn, t)
    ensures Holds(FinishContext(c, thread, id).0, thread, turn, if id == turn then Idle(None) else t)
  {
  }

  lemma SectionKeepsIds(c: Client, n: Notice)
    ensures Section(c, n).0.threadID == c.threadID && Section(c, n).0.turnID == c.turnID
  {
  }

  lemma ApplyHolds(s: State, thread: string, turn: string, t: Track)
    requires InTurn(s, thread, turn, t)
    ensures InTurn(Step(s, Apply), thread, turn, Respond(t, Applied(s, thread, turn)).0)
  {
    if s.reader.Some? {
      SectionHolds(s, thread, turn, t);
      SectionKeepsIds(s.client, s.reader.value);
      AppliedIsInTurn(s, Section(s.client, s.reader.value), thread, turn, Respond(t, Applied(s, thread, turn)).0);
    }
  }

  lemma AppliedIsInTurn(s: State, section: (Client, seq<ContextEvent>), thread: string, turn: string, t: Track)
    requires thread != "" && turn != "" && s.client.threadID == thread && (s.client.turnID == "" || s.client.turnID == turn)
    requires section.0.threadID == s.client.threadID && section.0.turnID == s.client.turnID && Holds(section.0, thread, turn, t)
    ensures InTurn(Emit(s, section).(reader := None), thread, turn, t)
  {
  }

  lemma StepHolds(s: State, a: Action, thread: string, turn: string, t: Track)
    requires InTurn(s, thread, turn, t) && OfTurn(a, thread, turn)
    ensures InTurn(Step(s, a), thread, turn,
                   if a == Finish(turn) then Idle(None) else if a.Apply? then Respond(t, Applied(s, thread, turn)).0 else t)
  {
    match a
    case Apply => ApplyHolds(s, thread, turn, t);
    case Finish(id) => FinishHolds(s.client, thread, turn, t, id);
    case _ =>
  }

  lemma {:induction false} AfterOneMore(t: Track, sigs: seq<Signal>, more: seq<Signal>)
    requires |more| <= 1
    ensures After(t, sigs + more) == Respond(After(t, sigs), more).0
    decreases |sigs|
  {
    if sigs == [] {
      assert sigs + more == more;
      assert more != [] ==> more[1..] == [];
    } else {
      assert (sigs + more)[0] == sigs[0] && (sigs + more)[1..] == sigs[1..] + more;
      AfterOneMore(Next(t, sigs[0]).0, sigs[1..], more);
    }
  }

  /** The context keeps exactly what the late signals left. */
  lemma {:induction false} StepsHold(s: State, actions: seq<Action>, thread: string, turn: string, heard: seq<Signal>)
    requires InTurn(s, thread, turn, After(Idle(None), heard)) && forall a <- actions :: OfTurn(a, thread, turn)
    ensures InTurn(Steps(s, actions), thread, turn, After(Idle(None), Late(s, actions, thread, turn, heard)))
    decreases |actions|
  {
    if actions != [] {
      var a := actions[0];
      assert OfTurn(a, thread, turn);
      StepHolds(s, a, thread, turn, After(Idle(None), heard));
      AfterOneMore(Idle(None), heard, Applied(s, thread, turn));
      var next := if a == Finish(turn) then [] else if a.Apply? then heard + Applied(s, thread, turn) else heard;
      StepsHold(Step(s, a), actions[1..], thread, turn, next);
    }
  }

  // ---- What the next turn finds ----

  /** Neither the start of an item nor a usage. */
  predicate OnlyCompletes(sigs: seq<Signal>) {
    forall x <- sigs :: x.Complete?
  }

  lemma {:induction false} SomethingIsKept(t: Track, sigs: seq<Signal>)
    ensures After(t, sigs) == Idle(None) <==> t == Idle(None) && OnlyCompletes(sigs)
    decreases |sigs|
  {
    if sigs != [] {
      SomethingIsKept(Next(t, sigs[0]).0, sigs[1..]);
      assert OnlyCompletes(sigs) <==> sigs[0].Complete? && OnlyCompletes(sigs[1..]);
    }
  }

  /**
   However the end of a turn and the reader interleave, and whatever comes after the turn was
   finished, claimed and replaced: the context is settled exactly when no start and no usage was
   applied since it was last finished.
   */
  lemma ContextIsSettledIff(c: Client, actions: seq<Action>, thread: string, turn: string)
    requires turn != "" && Prepared(c, thread) && forall a <- actions :: OfTurn(a, thread, turn)
    ensures Settled(Steps(State(c, None, []), actions).client)
            <==> OnlyCompletes(Late(State(c, None, []), actions, thread, turn, []))
  {
    StepsHold(State(c, None, []), actions, thread, turn, []);
    SomethingIsKept(Idle(None), Late(State(c, None, []), actions, thread, turn, []));
  }

  /** So that is also exactly when the next turn begins as the theorems about whole turns ask. */
  lemma NextTurnIsPreparedIff(c: Client, actions: seq<Action>, thread: string, turn: string)
    requires turn != "" && Prepared(c, thread) && forall a <- actions :: OfTurn(a, thread, turn)
    ensures Prepared(Step(Steps(State(c, None, []), actions), Prepare).client, thread)
            <==> OnlyCompletes(Late(State(c, None, []), actions, thread, turn, []))
  {
    ContextIsSettledIff(c, actions, thread, turn);
    StepsHold(State(c, None, []), actions, thread, turn, []);
  }

  /** The compaction that a track would end without a token count. */
  function Stray(t: Track): seq<ContextEvent> {
    if t.Busy? && t.completed then [CompactionEnd(t.before, None, t.window)] else []
  }

  /**
   When the next turn starts it reports a compaction of the turn before exactly if the late signals
   left one that had completed, and it settles the context.
   */
  lemma NextTurnReportsIff(c: Client, actions: seq<Action>, thread: string, turn: string, next: string)
    requires turn != "" && Prepared(c, thread) && forall a <- actions :: OfTurn(a, thread, turn)
    requires Steps(State(c, None, []), actions).reader.None? && next != "" && next != turn
    ensures var s := Steps(State(c, None, []), actions);
            var e := Step(Step(s, Look(TurnStarted(Some(thread), next))), Apply);
            e.events == s.events + Stray(After(Idle(None), Late(State(c, None, []), actions, thread, turn, []))) && Settled(e.client)
  {
    StepsHold(State(c, None, []), actions, thread, turn, []);
  }

  /** Once the turn is claimed, or its id forgotten, and until an id is recorded again, no further event is accepted. */
  predicate Shut(s: State) {
    s.client.turnDone || s.client.turnID == ""
  }

  predicate RecordsNothing(a: Action, thread: string) {
    match a
    case Look(n) => !Records(n, thread)
    case Answer(id) => id == ""
    case _ => true
  }

  /** A turn that is shut hears at most the one notification that the reader had accepted before. */
  lemma {:induction false} ShutHearsAtMostOne(s: State, actions: seq<Action>, thread: string, turn: string, heard: seq<Signal>)
    requires Shut(s) && thread != "" && s.client.threadID == thread && forall a <- actions :: RecordsNothing(a, thread)
    ensures |Late(s, actions, thread, turn, heard)| <= |heard| + if s.reader.Some? then 1 else 0
    decreases |actions|
  {
    if actions != [] {
      var a := actions[0];
      assert RecordsNothing(a, thread);
      StaysShut(s, a, thread);
      var next := if a == Finish(turn) then [] else if a.Apply? then heard + Applied(s, thread, turn) else heard;
      ShutHearsAtMostOne(Step(s, a), actions[1..], thread, turn, next);
    }
  }

  lemma StaysShut(s: State, a: Action, thread: string)
    requires Shut(s) && thread != "" && s.client.threadID == thread && RecordsNothing(a, thread)
    ensures Shut(Step(s, a)) && Step(s, a).client.threadID == thread
    ensures Step(s, a).reader.Some? ==> s.reader.Some? && !a.Apply?
  {
  }

  /** So a turn that is claimed before its context is finished, as by a failure, leaves no completed compaction behind. */
  lemma ClaimedFirstIsNotReported(s: State, actions: seq<Action>, thread: string, turn: string)
    requires thread != "" && s.client.threadID == thread && forall a <- actions :: RecordsNothing(a, thread)
    ensures Stray(After(Idle(None), Late(Step(Step(s, Claim), Finish(turn)), actions, thread, turn, []))) == []
  {
    var finished := Step(Step(s, Claim), Finish(turn));
    var late := Late(finished, actions, thread, turn, []);
    ShutHearsAtMostOne(finished, actions, thread, turn, []);
    if late != [] {
      assert late[1..] == [];
      assert After(Idle(None), late) == After(Next(Idle(None), late[0]).0, []);
    }
  }

  // ---- A compaction between the two sections of a completion ----

  function Read(s: State, n: Notice): State {
    Step(Step(s, Look(n)), Apply)
  }

  /** A turn starts, finishes its context, and accepts an item before it is claimed. */
  function LateItem(c: Client, thread: string, turn: string, item: string): State {
    var finished := Step(Read(State(c, None, []), TurnStarted(Some(thread), turn)), Finish(turn));
    Read(Read(finished, ItemStarted(Some(thread), turn, item)), ItemCompleted(Some(thread), turn, item))
  }

  lemma TurnFinishes(c: Client, thread: string, turn: string)
    requires Prepared(c, thread) && turn != ""
    ensures Step(Read(State(c, None, []), TurnStarted(Some(thread), turn)), Finish(turn))
            == State(c.(turnID := turn, contextThread := thread, contextTurn := turn), None, [])
  {
  }

  lemma LateItemIsKept(c: Client, thread: string, turn: string, item: string)
    requires Prepared(c, thread) && turn != "" && item != ""
    ensures LateItem(c, thread, turn, item).reader.None?
    ensures LateItem(c, thread, turn, item).client
            == c.(turnID := turn, contextThread := thread, contextTurn := turn,
                  compaction := Some(Compaction(thread, turn, item, None, None, true)))
  {
    TurnFinishes(c, thread, turn);
  }

  /** So the next turn ends a compaction that it never started, and reports it. */
  lemma LateItemIsReportedByTheNext(c: Client, thread: string, a: string, b: string, item: string)
    requires Prepared(c, thread) && a != "" && b != "" && a != b && item != ""
    ensures var next := Step(Step(LateItem(c, thread, a, item), Claim), Prepare);
            var events := Read(next, TurnStarted(Some(thread), b)).events;
            && !Settled(next.client) && Ends(events) == 1 && Starts(events) == 0
            && ObserveAll(NOTHING_OBSERVED, events).compactions == [CompactionEnd(None, None, None)]
  {
    LateItemIsKept(c, thread, a, item);
    var events := Read(Step(Step(LateItem(c, thread, a, item), Claim), Prepare), TurnStarted(Some(thread), b)).events;
    assert events == [CompactionEnd(None, None, None)] && events[1..] == [];
  }
}
