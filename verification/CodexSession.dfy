/**
 The session around the Codex turns. Whoever sends to a session first takes its turn token, and the
 token comes back when the result of that turn arrives, which only a callback delivers, or when the
 send fails. So the next prepareTurn finds no callback owed, unless the send before it failed.
 */
module CodexSession {
  import Turn = CodexTurn

  /** Where the token is: free, with a caller that has not prepared its turn or that has, or with the turn until its result. */
  datatype Token = Free | Taken | Requesting | Held

  /** failed tells that the current turn's send failed, so that its token was given back without a result. */
  datatype State = State(turn: Turn.State, token: Token, failed: bool)

  datatype Action =
    | Acquire                    // acquireTurn
    | Decline                    // the session changed or went to sleep while waiting
    | Send                       // prepareTurn
    | Hold                       // turn/start was answered: holdTurnUntilResult
    | Fail                       // turn/start failed
    | Release                    // the result arrived
    | Other(a: Turn.Action)      // what else happens to the turn

  function Step(s: State, action: Action): State {
    match action
    case Acquire => if s.token.Free? then s.(token := Taken) else s
    case Decline => if s.token.Taken? then s.(token := Free) else s
    case Send => if s.token.Taken? then State(Turn.Do(s.turn, Turn.PrepareTurn), Requesting, false) else s
    case Hold => if s.token.Requesting? then s.(token := Held) else s
    case Fail => if s.token.Requesting? then s.(token := Free, failed := true) else s
    case Release => if s.token.Held? && Turn.FiresSince(s.turn.log) > 0 then s.(token := Free) else s
    case Other(a) => if a.PrepareTurn? then s else s.(turn := Turn.Do(s.turn, a))
  }

  function Steps(s: State, actions: seq<Action>): State
    decreases |actions|
  {
    if actions == [] then s else Steps(Step(s, actions[0]), actions[1..])
  }

  /** The session was started with its first turn, which holds the token. */
  const STARTED := State(Turn.INITIAL, Held, false)

  /** A send after a failed one waits until the callback of the failed turn was made, if one is owed. */
  predicate Calm(s: State, action: Action) {
    action.Send? && s.token.Taken? && s.failed ==> Turn.Invoking(s.turn.callers) == 0
  }

  predicate CalmRun(s: State, actions: seq<Action>)
    decreases |actions|
  {
    actions == [] || (Calm(s, actions[0]) && CalmRun(Step(s, actions[0]), actions[1..]))
  }

  /** The token is out of the turn's hands only after its callback or its failure. */
  ghost predicate TokenOk(s: State) {
    && Turn.Safe(s.turn)
    && ((s.token.Free? || s.token.Taken?) && !s.failed ==> Turn.FiresSince(s.turn.log) > 0)
  }

  ghost predicate Safe(s: State) {
    TokenOk(s) && Turn.Owed(s.turn, 0) && Turn.FiresApart(s.turn.log)
  }

  lemma FiredStays(s: Turn.State, a: Turn.Action)
    requires !a.PrepareTurn?
    ensures Turn.FiresSince(Turn.Do(s, a).log) >= Turn.FiresSince(s.log)
  {
  }

  /** Nobody owes a callback when a turn is prepared. */
  lemma NothingIsOwed(s: State)
    requires Safe(s) && s.token.Taken? && !s.failed
    ensures Turn.Invoking(s.turn.callers) == 0
  {
  }

  lemma TurnStepIsSafe(s: Turn.State, a: Turn.Action)
    requires Turn.Safe(s) && Turn.Owed(s, 0) && Turn.FiresApart(s.log)
    requires a.PrepareTurn? ==> Turn.Invoking(s.callers) == 0
    ensures var e := Turn.Do(s, a); Turn.Safe(e) && Turn.Owed(e, 0) && Turn.FiresApart(e.log)
  {
    Turn.DoKeepsSafe(s, a);
    Turn.DoKeepsOwed(s, a, 0);
    Turn.DoKeepsFiresApart(s, a);
  }

  lemma StepIsSafe(s: State, action: Action)
    requires Safe(s) && Calm(s, action)
    ensures Safe(Step(s, action))
  {
    match action
    case Send =>
      if s.token.Taken? {
        if !s.failed {
          NothingIsOwed(s);
        }
        TurnStepIsSafe(s.turn, Turn.PrepareTurn);
      }
    case Other(a) =>
      if !a.PrepareTurn? {
        TurnStepIsSafe(s.turn, a);
        FiredStays(s.turn, a);
      }
    case _ =>
  }

  lemma {:induction false} StepsAreSafe(s: State, actions: seq<Action>)
    requires Safe(s) && CalmRun(s, actions)
    ensures Safe(Steps(s, actions))
    decreases |actions|
  {
    if actions != [] {
      StepIsSafe(s, actions[0]);
      StepsAreSafe(Step(s, actions[0]), actions[1..]);
    }
  }

  /**
   However many callers want to send and however their turns end: each turn calls back at most once,
   and whoever is about to send finds no callback owed unless the send before failed.
   */
  lemma EachTurnCallsBackOnce(actions: seq<Action>)
    requires CalmRun(STARTED, actions)
    ensures var s := Steps(STARTED, actions);
            && Turn.FiresApart(s.turn.log)
            && Turn.FiresSince(s.turn.log) <= Turn.WinsSince(s.turn.log) <= 1
            && (s.token.Taken? && !s.failed ==> Turn.Invoking(s.turn.callers) == 0)
  {
    StepsAreSafe(STARTED, actions);
    if Steps(STARTED, actions).token.Taken? && !Steps(STARTED, actions).failed {
      NothingIsOwed(Steps(STARTED, actions));
    }
  }

  /** The token goes round: whoever takes it prepares the next turn, and it is free again after the result, a failure or a withdrawal. */
  lemma TokenGoesRound(s: State)
    ensures s.token.Free? ==>
              var sent := Step(Step(s, Acquire), Send);
              && sent.token.Requesting? && !sent.failed && sent.turn.shared.turnID == "" && !sent.turn.shared.turnDone
              && sent.turn.callers == s.turn.callers
              && Step(sent, Hold).token.Held? && Step(sent, Hold).turn == sent.turn
              && Step(sent, Fail).token.Free? && Step(sent, Fail).failed
              && Step(Step(s, Acquire), Decline) == s
    ensures s.token.Held? ==> (Step(s, Release).token.Free? <==> Turn.FiresSince(s.turn.log) > 0) && Step(s, Release).turn == s.turn
    ensures !s.token.Free? ==> Step(s, Acquire) == s
    ensures !s.token.Taken? ==> Step(s, Send) == s
  {
    assert s.token.Free? ==> Step(s, Acquire) == s.(token := Taken);
  }

  predicate NoFailure(actions: seq<Action>) {
    forall a <- actions :: !a.Fail?
  }

  /** Without a failed send every run is calm. */
  lemma {:induction false} NoFailureIsCalm(s: State, actions: seq<Action>)
    requires !s.failed && NoFailure(actions)
    ensures CalmRun(s, actions)
    decreases |actions|
  {
    if actions != [] {
      assert actions[0] in actions;
      NoFailureIsCalm(Step(s, actions[0]), actions[1..]);
    }
  }

  /** A send is safe, meaning that its turn calls back at most once, exactly when it is calm. */
  lemma SendIsSafeIff(actions: seq<Action>)
    requires CalmRun(STARTED, actions) && Steps(STARTED, actions).token.Taken?
    ensures var s := Steps(STARTED, actions);
            Calm(s, Send) <==>
            forall more: seq<Turn.Action> | Turn.SameTurn(more) ::
              Turn.FiresSince(Turn.Run(Step(s, Send).turn, more).log) <= 1
  {
    var s := Steps(STARTED, actions);
    StepsAreSafe(STARTED, actions);
    if !s.failed {
      NothingIsOwed(s);
    }
    Turn.PrepareIsSafeIff(s.turn);
  }

  /** And a send need not be calm: a completion of the failed turn may have won and still owe its callback. */
  lemma FailedSendOwes(s: State, id: string)
    requires s.token.Requesting? && Turn.WouldEnd(s.turn.shared, id)
    ensures var t := |s.turn.callers|;
            var arrived := Step(Step(s, Fail), Other(Turn.Arrive(Turn.DoneStart(id))));
            var won := Step(Step(arrived, Other(Turn.Advance(t))), Other(Turn.Advance(t)));
            var next := Step(won, Acquire);
            next.token.Taken? && next.turn.callers[t] == Turn.Invoke(true) && !Calm(next, Send)
  {
    var t := |s.turn.callers|;
    var arrived := Step(Step(s, Fail), Other(Turn.Arrive(Turn.DoneStart(id))));
    var won := Step(Step(arrived, Other(Turn.Advance(t))), Other(Turn.Advance(t)));
    assert won.turn.callers[t] == Turn.Invoke(true);
    Turn.SomeInvokingCounts(won.turn.callers, t);
  }
}
