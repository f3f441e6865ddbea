/**
 How a Codex turn ends. Completions, failures, interrupts and the exit of the process race for one
 turn; each takes the turn lock in short sections, and the winner calls the callback of the turn
 that is prepared at that moment. The class holds the fields and the locked sections; the machine
 below it interleaves any number of callers section by section.
 */
module CodexTurn {
  /** The channel that waitForTurnDone waits on. */
  datatype Chan = Nil | Open | Closed

  datatype Shared = Shared(turnID: string, turnDone: bool, completed: set<string>, finished: Chan)

  // ---- The locked sections ----

  function Prepare(s: Shared): Shared {
    Shared("", false, if s.turnDone && s.turnID != "" then s.completed + {s.turnID} else s.completed, Open)
  }

  function Record(s: Shared, id: string): Shared {
    if id == "" || s.turnDone then s else s.(turnID := id)
  }

  function MakeChannel(s: Shared): Shared {
    if !s.turnDone && s.finished.Nil? then s.(finished := Open) else s
  }

  /** An unnamed signal means the current turn. */
  function Resolve(s: Shared, given: string): string {
    if given == "" then s.turnID else given
  }

  function End(s: Shared): Shared {
    s.(turnDone := true, finished := if s.finished.Nil? then Nil else Closed)
  }

  function Complete(s: Shared, id: string): Shared {
    if id == "" then s else s.(completed := s.completed + {id})
  }

  /** The last section of signalTurnDoneForID, and whether it ended the turn. */
  function ClaimDone(s: Shared, given: string): (Shared, bool) {
    var id := Resolve(s, given);
    if id != "" && id in s.completed then (s, false)
    else if s.turnDone then (Complete(s, id), false)
    else (End(Complete(s, id)), true)
  }

  /** The section of signalTurnFailureForID, which also compares the id with the current one. */
  function ClaimFailure(s: Shared, given: string): (Shared, bool) {
    var id := Resolve(s, given);
    if id != "" && (id in s.completed || (s.turnID != "" && id != s.turnID)) then (s, false)
    else if s.turnDone then (s, false)
    else (Complete(End(s), id), true)
  }

  class TurnSignals {
    var turnID: string
    var turnDone: bool
    var completedTurnIDs: set<string>
    var turnFinished: Chan

    constructor ()
      ensures Now() == Shared("", false, {}, Nil)
    {
      turnID, turnDone, completedTurnIDs, turnFinished := "", false, {}, Nil;
    }

    function Now(): Shared
      reads this
    {
      Shared(turnID, turnDone, completedTurnIDs, turnFinished)
    }

    method PrepareTurn()
      modifies this
      ensures Now() == Prepare(old(Now()))
      ensures turnID == "" && !turnDone && turnFinished == Open
      ensures completedTurnIDs == old(completedTurnIDs) + if old(turnDone) && old(turnID) != "" then {old(turnID)} else {}
    {
      if turnDone && turnID != "" {
        completedTurnIDs := completedTurnIDs + {turnID};
      }
      turnDone, turnFinished, turnID := false, Open, "";
    }

    method RecordTurnID(id: string)
      modifies this
      ensures Now() == Record(old(Now()), id)
      ensures turnID == if id != "" && !old(turnDone) then id else old(turnID)
      ensures turnDone == old(turnDone) && completedTurnIDs == old(completedTurnIDs) && turnFinished == old(turnFinished)
    {
      if id == "" {
        return;
      }
      if !turnDone {
        turnID := id;
      }
    }

    method WaitForTurnDone() returns (already: bool)
      modifies this
      ensures Now() == MakeChannel(old(Now())) && already == old(turnDone)
      ensures turnFinished == if !old(turnDone) && old(turnFinished) == Nil then Open else old(turnFinished)
      ensures turnID == old(turnID) && turnDone == old(turnDone) && completedTurnIDs == old(completedTurnIDs)
    {
      if turnDone {
        return true;
      }
      if turnFinished.Nil? {
        turnFinished := Open;
      }
      return false;
    }

    method SignalTurnDone(given: string) returns (ended: bool)
      modifies this
      ensures (Now(), ended) == ClaimDone(old(Now()), given)
      ensures var id := if given == "" then old(turnID) else given;
              && (ended <==> !old(turnDone) && (id == "" || id !in old(completedTurnIDs)))
              && completedTurnIDs == old(completedTurnIDs) + if id == "" then {} else {id}
      ensures turnDone == (old(turnDone) || ended) && turnID == old(turnID)
      ensures turnFinished == if ended && old(turnFinished) != Nil then Closed else old(turnFinished)
    {
      var id := given;
      if id == "" {
        id := turnID;
      }
      if id != "" {
        if id in completedTurnIDs {
          return false;
        }
        completedTurnIDs := completedTurnIDs + {id};
      }
      if turnDone {
        return false;
      }
      turnDone := true;
      if turnFinished != Nil {
        turnFinished := Closed;
      }
      return true;
    }

    method SignalTurnFailure(given: string) returns (ended: bool)
      modifies this
      ensures (Now(), ended) == ClaimFailure(old(Now()), given)
      ensures var id := if given == "" then old(turnID) else given;
              && (ended <==> !old(turnDone) && (id == "" || (id !in old(completedTurnIDs) && (old(turnID) == "" || id == old(turnID)))))
              && completedTurnIDs == old(completedTurnIDs) + if ended && id != "" then {id} else {}
      ensures turnDone == (old(turnDone) || ended) && turnID == old(turnID)
      ensures turnFinished == if ended && old(turnFinished) != Nil then Closed else old(turnFinished)
    {
      var id := given;
      if id == "" {
        id := turnID;
      }
      if id != "" {
        if id in completedTurnIDs {
          return false;
        }
        if turnID != "" && id != turnID {
          return false;
        }
      }
      if turnDone {
        return false;
      }
      turnDone := true;
      if turnFinished != Nil {
        turnFinished := Closed;
      }
      if id != "" {
        completedTurnIDs := completedTurnIDs + {id};
      }
      return true;
    }
  }

  // ---- The machine ----

  /**
   A caller between two sections. A completion first resolves its id and only later, after the
   context of the turn is finished, claims the turn; a failure does both at once. Whoever ended the
   turn still has to call back. An interrupt waits for the turn and then signals without a name.
   */
  datatype Caller =
    | DoneStart(given: string)
    | DoneResolved(given: string)
    | FailStart(given: string)
    | Invoke(done: bool)
    | Interrupt
    | Waiting
    | Returned

  datatype Mark =
    | Prepared(ended: bool, last: string)                // prepareTurn, and the turn it replaced
    | Recorded(id: string)
    | Won(id: string, turn: string, done: bool)          // the turn ended under id while its own id was turn
    | Fired(done: bool)                                  // onTurnDone or onTurnFailed was called

  datatype State = State(shared: Shared, callers: seq<Caller>, log: seq<Mark>)

  /** Advance is the next section of a caller; Expire is its timer, or the failure of its request. */
  datatype Action = PrepareTurn | RecordTurnID(id: string) | Arrive(caller: Caller) | Advance(t: nat) | Expire(t: nat)

  predicate Arrives(c: Caller) {
    c.DoneStart? || c.FailStart? || c.Interrupt?
  }

  function Put(s: State, t: nat, c: Caller): State
    requires t < |s.callers|
  {
    s.(callers := s.callers[t := c])
  }

  function Claim(s: State, t: nat, claim: (Shared, bool), done: bool, given: string): State
    requires t < |s.callers|
  {
    State(claim.0, s.callers[t := if claim.1 then Invoke(done) else Returned],
          if claim.1 then s.log + [Won(Resolve(s.shared, given), s.shared.turnID, done)] else s.log)
  }

  function AdvanceCaller(s: State, t: nat): State
    requires t < |s.callers|
  {
    match s.callers[t]
    case DoneStart(given) => Put(s, t, DoneResolved(Resolve(s.shared, given)))
    case DoneResolved(given) => Claim(s, t, ClaimDone(s.shared, given), true, given)
    case FailStart(given) => Claim(s, t, ClaimFailure(s.shared, given), false, given)
    case Invoke(done) => Put(s, t, Returned).(log := s.log + [Fired(done)])
    case Interrupt => if s.shared.turnDone || s.shared.turnID == "" then Put(s, t, Returned) else Put(s, t, Waiting)
    case Waiting => if s.shared.turnDone then Put(s, t, Returned) else s.(shared := MakeChannel(s.shared))
    case Returned => s
  }

  function Do(s: State, a: Action): State {
    match a
    case PrepareTurn => s.(shared := Prepare(s.shared), log := s.log + [Prepared(s.shared.turnDone, s.shared.turnID)])
    case RecordTurnID(id) =>
      s.(shared := Record(s.shared, id), log := if id == "" || s.shared.turnDone then s.log else s.log + [Recorded(id)])
    case Arrive(c) => if Arrives(c) then s.(callers := s.callers + [c]) else s
    case Advance(t) => if t < |s.callers| then AdvanceCaller(s, t) else s
    case Expire(t) =>
      if t < |s.callers| && s.callers[t].Interrupt? then Put(s, t, Returned)
      else if t < |s.callers| && s.callers[t].Waiting? then Put(s, t, DoneStart(""))
      else s
  }

  function Run(s: State, actions: seq<Action>): State
    decreases |actions|
  {
    if actions == [] then s else Run(Do(s, actions[0]), actions[1..])
  }

  const INITIAL := State(Shared("", false, {}, Nil), [], [])

  // ---- Counting ----

  function Invoking(callers: seq<Caller>): nat {
    if callers == [] then 0 else (if callers[|callers| - 1].Invoke? then 1 else 0) + Invoking(callers[..|callers| - 1])
  }

  /** The turns ended since the last prepareTurn. */
  function WinsSince(log: seq<Mark>): nat {
    if log == [] || log[|log| - 1].Prepared? then 0
    else (if log[|log| - 1].Won? then 1 else 0) + WinsSince(log[..|log| - 1])
  }

  function FiresSince(log: seq<Mark>): nat {
    if log == [] || log[|log| - 1].Prepared? then 0
    else (if log[|log| - 1].Fired? then 1 else 0) + FiresSince(log[..|log| - 1])
  }

  lemma {:induction false} InvokingPut(callers: seq<Caller>, t: nat, c: Caller)
    requires t < |callers|
    ensures Invoking(callers[t := c]) + (if callers[t].Invoke? then 1 else 0) == Invoking(callers) + (if c.Invoke? then 1 else 0)
  {
    var n := |callers| - 1;
    if t == n {
      assert callers[t := c][..n] == callers[..n];
    } else {
      assert callers[t := c][..n] == callers[..n][t := c];
      InvokingPut(callers[..n], t, c);
    }
  }

  lemma InvokingAdd(callers: seq<Caller>, c: Caller)
    ensures Invoking(callers + [c]) == Invoking(callers) + (if c.Invoke? then 1 else 0)
  {
    assert (callers + [c])[..|callers|] == callers;
  }

  lemma Logged(log: seq<Mark>, m: Mark)
    ensures WinsSince(log + [m]) == if m.Prepared? then 0 else WinsSince(log) + (if m.Won? then 1 else 0)
    ensures FiresSince(log + [m]) == if m.Prepared? then 0 else FiresSince(log) + (if m.Fired? then 1 else 0)
  {
    assert (log + [m])[..|log|] == log;
  }

  // ---- The invariant ----

  /** An id the log has seen end: of a won turn, or of a turn that was done when it was replaced. */
  predicate EndedUnder(m: Mark, id: string) {
    id != "" && ((m.Won? && m.id == id) || (m.Prepared? && m.ended && m.last == id))
  }

  predicate NoLateWin(log: seq<Mark>) {
    forall i, j | 0 <= i < j < |log| && log[j].Won? :: !EndedUnder(log[i], log[j].id)
  }

  ghost predicate PreparedBetween(log: seq<Mark>, i: nat, j: nat)
    requires j <= |log|
  {
    exists m | i < m < j :: log[m].Prepared?
  }

  ghost predicate WinsApart(log: seq<Mark>) {
    forall i, j | 0 <= i < j < |log| && log[i].Won? && log[j].Won? :: PreparedBetween(log, i, j)
  }

  ghost predicate FiresApart(log: seq<Mark>) {
    forall i, j | 0 <= i < j < |log| && log[i].Fired? && log[j].Fired? :: PreparedBetween(log, i, j)
  }

  predicate FailuresAreOwn(log: seq<Mark>) {
    forall m <- log :: m.Won? && !m.done ==> m.turn == "" || m.id == m.turn
  }

  ghost predicate Safe(s: State) {
    && WinsSince(s.log) == (if s.shared.turnDone then 1 else 0)
    && (s.shared.finished.Closed? ==> s.shared.turnDone)
    && (s.shared.finished.Open? ==> !s.shared.turnDone)
    && (forall m <- s.log, id: string | EndedUnder(m, id) :: id in s.shared.completed)
    && NoLateWin(s.log) && WinsApart(s.log)
    && FailuresAreOwn(s.log)
  }

  /** With no win, or no call, since the last prepareTurn, every earlier one lies before it. */
  lemma {:induction false} NoneSince(log: seq<Mark>, i: nat)
    requires i < |log|
    ensures WinsSince(log) == 0 && log[i].Won? ==> PreparedBetween(log, i, |log|)
    ensures FiresSince(log) == 0 && log[i].Fired? ==> PreparedBetween(log, i, |log|)
  {
    var n := |log| - 1;
    if i < n && !log[n].Prepared? {
      NoneSince(log[..n], i);
    }
  }

  lemma ApartAfter(log: seq<Mark>, m: Mark)
    ensures WinsApart(log) && (m.Won? ==> WinsSince(log) == 0) ==> WinsApart(log + [m])
    ensures FiresApart(log) && (m.Fired? ==> FiresSince(log) == 0) ==> FiresApart(log + [m])
  {
    var all := log + [m];
    forall i, j | 0 <= i < j < |all| && j < |log|
      ensures PreparedBetween(log, i, j) ==> PreparedBetween(all, i, j)
    {
      if PreparedBetween(log, i, j) {
        var k :| i < k < j && log[k].Prepared?;
        assert all[k].Prepared?;
      }
    }
    forall i | 0 <= i < |log|
      ensures WinsSince(log) == 0 && log[i].Won? ==> PreparedBetween(all, i, |log|)
      ensures FiresSince(log) == 0 && log[i].Fired? ==> PreparedBetween(all, i, |log|)
    {
      NoneSince(log, i);
      if PreparedBetween(log, i, |log|) {
        var k :| i < k < |log| && log[k].Prepared?;
        assert all[k].Prepared?;
      }
    }
  }

  /** What one section may append, and when. */
  lemma AppendKeepsSafe(s: State, e: State, m: Mark)
    requires Safe(s) && e.log == s.log + [m] && s.shared.completed <= e.shared.completed
    requires e.shared.turnDone == (m.Won? || (!m.Prepared? && s.shared.turnDone))
    requires m.Won? ==> !s.shared.turnDone && (m.id == "" || (m.id !in s.shared.completed && m.id in e.shared.completed))
    requires m.Won? && !m.done ==> m.turn == "" || m.id == m.turn
    requires m.Prepared? && m.ended && m.last != "" ==> m.last in e.shared.completed
    requires e.shared.finished.Closed? ==> e.shared.turnDone
    requires e.shared.finished.Open? ==> !e.shared.turnDone
    ensures Safe(e)
  {
    Logged(s.log, m);
    ApartAfter(s.log, m);
    forall i, j | 0 <= i < j < |e.log| && e.log[j].Won?
      ensures !EndedUnder(e.log[i], e.log[j].id)
    {
      assert e.log[i] in s.log;
    }
  }

  lemma SilentKeepsSafe(s: State, e: State)
    requires Safe(s) && e.log == s.log && s.shared.completed <= e.shared.completed && e.shared.turnDone == s.shared.turnDone
    requires e.shared.finished == s.shared.finished || (e.shared.finished.Open? && !e.shared.turnDone)
    ensures Safe(e)
  {
  }

  lemma DoneKeepsSafe(s: State, t: nat, given: string)
    requires Safe(s) && t < |s.callers|
    ensures Safe(Claim(s, t, ClaimDone(s.shared, given), true, given))
  {
    var claim := ClaimDone(s.shared, given);
    if claim.1 {
      AppendKeepsSafe(s, Claim(s, t, claim, true, given), Won(Resolve(s.shared, given), s.shared.turnID, true));
    } else {
      SilentKeepsSafe(s, Claim(s, t, claim, true, given));
    }
  }

  lemma FailureKeepsSafe(s: State, t: nat, given: string)
    requires Safe(s) && t < |s.callers|
    ensures Safe(Claim(s, t, ClaimFailure(s.shared, given), false, given))
  {
    var claim := ClaimFailure(s.shared, given);
    if claim.1 {
      AppendKeepsSafe(s, Claim(s, t, claim, false, given), Won(Resolve(s.shared, given), s.shared.turnID, false));
    } else {
      SilentKeepsSafe(s, Claim(s, t, claim, false, given));
    }
  }

  /** Claiming and calling back are the sections that leave a mark; the others only move their caller. */
  lemma MoveKeepsSafe(s: State, t: nat)
    requires Safe(s) && t < |s.callers|
    requires s.callers[t].DoneStart? || s.callers[t].Interrupt? || s.callers[t].Waiting? || s.callers[t].Returned?
    ensures Safe(AdvanceCaller(s, t))
  {
    SilentKeepsSafe(s, AdvanceCaller(s, t));
  }

  lemma DoKeepsSafe(s: State, a: Action)
    requires Safe(s)
    ensures Safe(Do(s, a))
  {
    match a
    case PrepareTurn => AppendKeepsSafe(s, Do(s, a), Prepared(s.shared.turnDone, s.shared.turnID));
    case RecordTurnID(id) =>
      if id == "" || s.shared.turnDone {
        SilentKeepsSafe(s, Do(s, a));
      } else {
        AppendKeepsSafe(s, Do(s, a), Recorded(id));
      }
    case Arrive(_) => SilentKeepsSafe(s, Do(s, a));
    case Advance(t) =>
      if t < |s.callers| {
        match s.callers[t]
        case DoneResolved(given) => DoneKeepsSafe(s, t, given);
        case FailStart(given) => FailureKeepsSafe(s, t, given);
        case Invoke(done) => AppendKeepsSafe(s, AdvanceCaller(s, t), Fired(done));
        case _ => MoveKeepsSafe(s, t);
      }
    case Expire(_) => SilentKeepsSafe(s, Do(s, a));
  }

  lemma {:induction false} RunKeepsSafe(s: State, actions: seq<Action>)
    requires Safe(s)
    ensures Safe(Run(s, actions))
    decreases |actions|
  {
    if actions != [] {
      DoKeepsSafe(s, actions[0]);
      RunKeepsSafe(Do(s, actions[0]), actions[1..]);
    }
  }

  // ---- The theorems ----

  /**
   In every run a turn ends at most once, whatever callers race for it; its channel is never
   closed twice; and an id that a turn ended under, or that was current when a finished turn was
   replaced, never ends another turn. A failure ends no turn but its own.
   */
  lemma TurnsEndOnce(actions: seq<Action>, a: Action)
    ensures var s := Run(INITIAL, actions);
            && WinsApart(s.log) && NoLateWin(s.log) && FailuresAreOwn(s.log)
            && (s.shared.turnDone <==> WinsSince(s.log) == 1)
            && (WinsSince(Do(s, a).log) > WinsSince(s.log) ==> !s.shared.finished.Closed?)
  {
    RunKeepsSafe(INITIAL, actions);
    DoKeepsSafe(Run(INITIAL, actions), a);
  }

  lemma {:induction false} CompletedOnlyGrows(s: State, actions: seq<Action>)
    ensures s.shared.completed <= Run(s, actions).shared.completed
    decreases |actions|
  {
    if actions != [] {
      CompletedOnlyGrows(Do(s, actions[0]), actions[1..]);
    }
  }

  // ---- Callbacks ----

  /** prepareTurn only runs when nobody who ended a turn has yet to call back. */
  predicate PreparesQuietly(s: State, actions: seq<Action>)
    decreases |actions|
  {
    actions == [] ||
    ((actions[0].PrepareTurn? ==> Invoking(s.callers) == 0) && PreparesQuietly(Do(s, actions[0]), actions[1..]))
  }

  /** Of the calls owed and made in this turn, extra were owed before it. */
  ghost predicate Owed(s: State, extra: nat) {
    FiresSince(s.log) + Invoking(s.callers) == WinsSince(s.log) + extra
  }

  lemma PutKeepsOwed(s: State, e: State, t: nat, extra: nat)
    requires Owed(s, extra) && t < |s.callers| == |e.callers| && e.callers == s.callers[t := e.callers[t]]
    requires s.callers[t].Invoke? ==> e.log == s.log + [Fired(s.callers[t].done)] && !e.callers[t].Invoke?
    requires !s.callers[t].Invoke? && e.callers[t].Invoke? ==> |e.log| > |s.log| && e.log == s.log + [e.log[|s.log|]] && e.log[|s.log|].Won?
    requires !s.callers[t].Invoke? && !e.callers[t].Invoke? ==> e.log == s.log
    ensures Owed(e, extra)
  {
    InvokingPut(s.callers, t, e.callers[t]);
    if |e.log| > |s.log| {
      Logged(s.log, e.log[|s.log|]);
    }
  }

  lemma AdvanceKeepsOwed(s: State, t: nat, extra: nat)
    requires Owed(s, extra) && t < |s.callers|
    ensures Owed(AdvanceCaller(s, t), extra)
  {
    var e := AdvanceCaller(s, t);
    assert e.callers == s.callers[t := e.callers[t]];
    PutKeepsOwed(s, e, t, extra);
  }

  lemma PrepareOwes(s: State)
    ensures Owed(Do(s, PrepareTurn), Invoking(s.callers))
  {
    Logged(s.log, Prepared(s.shared.turnDone, s.shared.turnID));
  }

  lemma RecordKeepsOwed(s: State, id: string, extra: nat)
    requires Owed(s, extra)
    ensures Owed(Do(s, RecordTurnID(id)), extra)
  {
    Logged(s.log, Recorded(id));
  }

  lemma ArriveKeepsOwed(s: State, c: Caller, extra: nat)
    requires Owed(s, extra)
    ensures Owed(Do(s, Arrive(c)), extra)
  {
    InvokingAdd(s.callers, c);
  }

  lemma DoKeepsOwed(s: State, a: Action, extra: nat)
    requires Owed(s, extra)
    ensures Owed(Do(s, a), if a.PrepareTurn? then Invoking(s.callers) else extra)
  {
    match a
    case PrepareTurn => PrepareOwes(s);
    case RecordTurnID(id) => RecordKeepsOwed(s, id, extra);
    case Arrive(c) => ArriveKeepsOwed(s, c, extra);
    case Advance(t) =>
      if t < |s.callers| {
        AdvanceKeepsOwed(s, t, extra);
      }
    case Expire(t) => ExpireKeepsOwed(s, t, extra);
  }

  lemma ExpireKeepsOwed(s: State, t: nat, extra: nat)
    requires Owed(s, extra)
    ensures Owed(Do(s, Expire(t)), extra)
  {
    if t < |s.callers| && Do(s, Expire(t)) != s {
      PutKeepsOwed(s, Do(s, Expire(t)), t, extra);
    }
  }

  lemma DoKeepsFiresApart(s: State, a: Action)
    requires Safe(s) && Owed(s, 0) && FiresApart(s.log)
    ensures FiresApart(Do(s, a).log)
  {
    var e := Do(s, a);
    if e.log != s.log {
      var m := e.log[|s.log|];
      assert e.log == s.log + [m];
      if m.Fired? {
        SomeInvokingCounts(s.callers, a.t);
      }
      ApartAfter(s.log, m);
    }
  }

  lemma {:induction false} SomeInvokingCounts(callers: seq<Caller>, t: nat)
    requires t < |callers| && callers[t].Invoke?
    ensures Invoking(callers) > 0
  {
    if t < |callers| - 1 {
      SomeInvokingCounts(callers[..|callers| - 1], t);
    }
  }

  lemma {:induction false} RunKeepsOwed(s: State, actions: seq<Action>)
    requires Safe(s) && Owed(s, 0) && FiresApart(s.log) && PreparesQuietly(s, actions)
    ensures Owed(Run(s, actions), 0) && FiresApart(Run(s, actions).log)
    decreases |actions|
  {
    if actions != [] {
      var e := Do(s, actions[0]);
      DoKeepsSafe(s, actions[0]);
      DoKeepsOwed(s, actions[0], 0);
      DoKeepsFiresApart(s, actions[0]);
      RunKeepsOwed(e, actions[1..]);
    }
  }

  /** If prepareTurn waits for the callback of the turn before it, each turn calls back at most once. */
  lemma CallbacksFireOnce(actions: seq<Action>)
    requires PreparesQuietly(INITIAL, actions)
    ensures FiresApart(Run(INITIAL, actions).log)
    ensures FiresSince(Run(INITIAL, actions).log) <= WinsSince(Run(INITIAL, actions).log) <= 1
  {
    RunKeepsSafe(INITIAL, actions);
    RunKeepsOwed(INITIAL, actions);
  }

  predicate SameTurn(actions: seq<Action>) {
    forall a <- actions :: !a.PrepareTurn?
  }

  lemma {:induction false} FiresAreBounded(s: State, actions: seq<Action>, extra: nat)
    requires Safe(s) && Owed(s, extra) && SameTurn(actions)
    ensures FiresSince(Run(s, actions).log) <= 1 + extra
    decreases |actions|
  {
    if actions != [] {
      DoKeepsSafe(s, actions[0]);
      DoKeepsOwed(s, actions[0], extra);
      FiresAreBounded(Do(s, actions[0]), actions[1..], extra);
    }
  }

  /** A caller that still owes a callback makes its call, and then a completion arrives and ends the turn. */
  function Intrusion(t: nat, n: nat): seq<Action> {
    [Advance(t)] + ([Arrive(DoneStart(""))] + ([Advance(n)] + ([Advance(n)] + ([Advance(n)] + []))))
  }

  lemma RunFirst(s: State, a: Action, rest: seq<Action>)
    ensures Run(s, [a] + rest) == Run(Do(s, a), rest)
  {
    assert ([a] + rest)[1..] == rest;
  }

  lemma SecondCall(s: State, t: nat)
    requires t < |s.callers| && s.callers[t].Invoke?
    ensures FiresSince(Run(Do(s, PrepareTurn), Intrusion(t, |s.callers|)).log) == 2
  {
    var n := |s.callers|;
    var s0 := Do(s, PrepareTurn);
    var s1 := Do(s0, Advance(t));
    var s2 := Do(s1, Arrive(DoneStart("")));
    var s3 := Do(s2, Advance(n));
    var s4 := Do(s3, Advance(n));
    var s5 := Do(s4, Advance(n));
    var last := [Advance(n)] + [];
    RunFirst(s0, Advance(t), [Arrive(DoneStart(""))] + ([Advance(n)] + ([Advance(n)] + last)));
    RunFirst(s1, Arrive(DoneStart("")), [Advance(n)] + ([Advance(n)] + last));
    RunFirst(s2, Advance(n), [Advance(n)] + last);
    RunFirst(s3, Advance(n), last);
    RunFirst(s4, Advance(n), []);
    Logged(s.log, Prepared(s.shared.turnDone, s.shared.turnID));
    Logged(s0.log, Fired(s.callers[t].done));
    Logged(s3.log, Won("", "", true));
    Logged(s4.log, Fired(true));
  }

  /** So a prepareTurn is safe, meaning that its turn calls back at most once, exactly when no callback is owed. */
  lemma PrepareIsSafeIff(s: State)
    requires Safe(s)
    ensures Invoking(s.callers) == 0 <==>
            forall more: seq<Action> | SameTurn(more) :: FiresSince(Run(Do(s, PrepareTurn), more).log) <= 1
  {
    DoKeepsSafe(s, PrepareTurn);
    PrepareOwes(s);
    if Invoking(s.callers) == 0 {
      forall more: seq<Action> | SameTurn(more)
        ensures FiresSince(Run(Do(s, PrepareTurn), more).log) <= 1
      {
        FiresAreBounded(Do(s, PrepareTurn), more, 0);
      }
    } else {
      var t := SomeInvoking(s.callers);
      SecondCall(s, t);
      var more := Intrusion(t, |s.callers|);
      assert SameTurn(more) && FiresSince(Run(Do(s, PrepareTurn), more).log) == 2;
    }
  }

  lemma {:induction false} SomeInvoking(callers: seq<Caller>) returns (t: nat)
    requires Invoking(callers) > 0
    ensures t < |callers| && callers[t].Invoke?
  {
    t := |callers| - 1;
    if !callers[t].Invoke? {
      t := SomeInvoking(callers[..t]);
    }
  }

  // ---- Who ends a turn ----

  /**
   The provider keeps one id per turn and only names turns it has announced, and prepareTurn only
   replaces a turn that has ended or was never announced.
   */
  predicate Orderly(s: State, a: Action) {
    match a
    case PrepareTurn => s.shared.turnDone || s.shared.turnID == ""
    case RecordTurnID(id) => s.shared.turnDone || s.shared.turnID == "" || id == s.shared.turnID
    case Arrive(c) => c.DoneStart? || c.FailStart? ==> c.given == "" || Recorded(c.given) in s.log
    case _ => true
  }

  predicate OrderlyRun(s: State, actions: seq<Action>)
    decreases |actions|
  {
    actions == [] || (Orderly(s, actions[0]) && OrderlyRun(Do(s, actions[0]), actions[1..]))
  }

  predicate Known(s: Shared, id: string) {
    id == "" || id == s.turnID || id in s.completed
  }

  predicate OwnWins(log: seq<Mark>) {
    forall m <- log :: m.Won? ==> m.id == m.turn
  }

  predicate Owned(s: State) {
    && (forall m <- s.log :: m.Recorded? ==> Known(s.shared, m.id))
    && (forall c <- s.callers :: c.DoneStart? || c.DoneResolved? || c.FailStart? ==> Known(s.shared, c.given))
    && OwnWins(s.log)
  }

  lemma KnownStays(s: State, a: Action, id: string)
    requires Safe(s) && Orderly(s, a) && Known(s.shared, id)
    ensures Known(Do(s, a).shared, id)
  {
  }

  lemma DoKeepsOwned(s: State, a: Action)
    requires Safe(s) && Orderly(s, a) && Owned(s)
    ensures Owned(Do(s, a))
  {
    var e := Do(s, a);
    forall id | Known(s.shared, id)
      ensures Known(e.shared, id)
    {
      KnownStays(s, a, id);
    }
    forall c | c in e.callers && (c.DoneStart? || c.DoneResolved? || c.FailStart?)
      ensures Known(e.shared, c.given)
    {
      NewCallerKnown(s, a, c);
    }
    if e.log != s.log {
      assert e.log == s.log + [e.log[|s.log|]];
    }
  }

  lemma NewCallerKnown(s: State, a: Action, c: Caller)
    requires Owned(s) && Orderly(s, a) && c in Do(s, a).callers && (c.DoneStart? || c.DoneResolved? || c.FailStart?)
    ensures Known(s.shared, c.given)
  {
    if c !in s.callers && a.Advance? {
      assert s.callers[a.t] in s.callers;
    }
  }

  /** With such a provider every turn ends under its own id, and a late notification of an ended turn ends nothing. */
  lemma {:induction false} TurnsEndUnderTheirId(s: State, actions: seq<Action>)
    requires Safe(s) && Owned(s) && OrderlyRun(s, actions)
    ensures OwnWins(Run(s, actions).log) && NoLateWin(Run(s, actions).log)
    decreases |actions|
  {
    if actions != [] {
      DoKeepsSafe(s, actions[0]);
      DoKeepsOwned(s, actions[0]);
      TurnsEndUnderTheirId(Do(s, actions[0]), actions[1..]);
    }
  }

  /**
   A failure ends the turn, closing its channel and owing the callback, exactly when the turn is not done
   and the failure means no turn by name or the current one, which has not completed; otherwise it does nothing.
   */
  lemma FailureEndsItsTurnIff(s: State, t: nat, given: string)
    requires t < |s.callers| && s.callers[t] == FailStart(given)
    ensures var id := if given == "" then s.shared.turnID else given;
            var e := Do(s, Advance(t));
            if !s.shared.turnDone && (id == "" || (id !in s.shared.completed && (s.shared.turnID == "" || id == s.shared.turnID))) then
              && e.shared.turnDone && e.shared.finished == (if s.shared.finished.Nil? then Nil else Closed)
              && e.callers == s.callers[t := Invoke(false)] && e.log == s.log + [Won(id, s.shared.turnID, false)]
              && e.shared.completed == s.shared.completed + if id == "" then {} else {id}
            else e.shared == s.shared && e.callers == s.callers[t := Returned] && e.log == s.log
  {
  }

  /** A completion ends the turn exactly when the turn is not done and its id, if any, has not completed; it marks its id in any case. */
  lemma CompletionEndsTurnIff(s: State, t: nat, given: string)
    requires t < |s.callers| && s.callers[t] == DoneResolved(given)
    ensures var id := if given == "" then s.shared.turnID else given;
            var e := Do(s, Advance(t));
            && e.shared.completed == s.shared.completed + (if id == "" then {} else {id})
            && if !s.shared.turnDone && (id == "" || id !in s.shared.completed) then
                 && e.shared.turnDone && e.shared.finished == (if s.shared.finished.Nil? then Nil else Closed)
                 && e.callers == s.callers[t := Invoke(true)] && e.log == s.log + [Won(id, s.shared.turnID, true)]
               else
                 && e.shared.turnDone == s.shared.turnDone && e.shared.finished == s.shared.finished
                 && e.callers == s.callers[t := Returned] && e.log == s.log
  {
  }

  /** An interrupt waits exactly for an announced turn that is not done, and gives up waiting by signalling without a name. */
  lemma InterruptWaitsIff(s: State, t: nat)
    requires t < |s.callers|
    ensures s.callers[t] == Interrupt ==>
              Do(s, Advance(t)).callers[t] == if s.shared.turnID != "" && !s.shared.turnDone then Waiting else Returned
    ensures s.callers[t] == Waiting ==>
              && Do(s, Advance(t)).callers[t] == (if s.shared.turnDone then Returned else Waiting)
              && Do(s, Expire(t)).callers[t] == DoneStart("")
    ensures s.callers[t].DoneStart? ==>
              Do(s, Advance(t)).callers[t] == DoneResolved(if s.callers[t].given == "" then s.shared.turnID else s.callers[t].given)
    ensures s.callers[t].Invoke? ==>
              Do(s, Advance(t)).log == s.log + [Fired(s.callers[t].done)] && Do(s, Advance(t)).callers[t] == Returned
  {
  }

  /**
   Without it they need not: a completion that names a foreign turn ends the current one, exactly
   when that id has not completed, while a failure that names it ends nothing.
   */
  lemma ForeignDoneEndsTurn(s: State, t: nat, id: string)
    requires Safe(s) && t < |s.callers| && !s.shared.turnDone && s.shared.turnID != "" && id != "" && id != s.shared.turnID
    ensures s.callers[t] == DoneResolved(id) ==>
              (Do(s, Advance(t)).log == s.log + [Won(id, s.shared.turnID, true)] <==> id !in s.shared.completed)
    ensures s.callers[t] == FailStart(id) ==> Do(s, Advance(t)).log == s.log && Do(s, Advance(t)).shared == s.shared
  {
    assert |s.log| != |s.log + [Won(id, s.shared.turnID, true)]|;
  }

  /** A turn is replaced before it ended, and completes after the next one was announced. */
  function Abandoned(a: string, b: string): seq<Action> {
    [RecordTurnID(a)] + ([PrepareTurn] + ([RecordTurnID(b)] + ([Arrive(DoneStart(a))] + ([Advance(0)] + ([Advance(0)] + [])))))
  }

  lemma RunNext(s: State, a: Action, next: State, rest: seq<Action>)
    requires next == Do(s, a)
    ensures Run(s, [a] + rest) == Run(next, rest)
  {
    RunFirst(s, a, rest);
  }

  /** A turn replaced before it ended leaves its id unmarked, so its late completion ends the turn after it. */
  lemma AbandonedTurnEndsTheNext(a: string, b: string)
    requires a != "" && b != "" && a != b
    ensures !Orderly(Do(INITIAL, RecordTurnID(a)), PrepareTurn)
    ensures var log := Run(INITIAL, Abandoned(a, b)).log;
            log == [Recorded(a), Prepared(false, a), Recorded(b), Won(a, b, true)]
  {
    var s1 := State(Shared(a, false, {}, Nil), [], [Recorded(a)]);
    var s2 := State(Shared("", false, {}, Open), [], s1.log + [Prepared(false, a)]);
    var s3 := State(Shared(b, false, {}, Open), [], s2.log + [Recorded(b)]);
    var s4, s5 := s3.(callers := [DoneStart(a)]), s3.(callers := [DoneResolved(a)]);
    var s6 := State(Shared(b, true, {a}, Closed), [Invoke(true)], s3.log + [Won(a, b, true)]);
    var r5 := [Advance(0)] + [];
    var r4 := [Advance(0)] + r5;
    var r3 := [Arrive(DoneStart(a))] + r4;
    var r2 := [RecordTurnID(b)] + r3;
    RunNext(INITIAL, RecordTurnID(a), s1, [PrepareTurn] + r2);
    RunNext(s1, PrepareTurn, s2, r2);
    RunNext(s2, RecordTurnID(b), s3, r3);
    RunNext(s3, Arrive(DoneStart(a)), s4, r4);
    RunNext(s4, Advance(0), s5, r5);
    RunNext(s5, Advance(0), s6, []);
  }

  // ---- Signals without a name ----

  /** How many turns were prepared, so which turn is the current one. */
  function Turns(log: seq<Mark>): nat {
    if log == [] then 0 else (if log[|log| - 1].Prepared? then 1 else 0) + Turns(log[..|log| - 1])
  }

  lemma TurnsAppend(log: seq<Mark>, m: Mark)
    ensures Turns(log + [m]) == Turns(log) + if m.Prepared? then 1 else 0
  {
    assert (log + [m])[..|log|] == log;
  }

  lemma DoTurns(s: State, a: Action)
    ensures Turns(Do(s, a).log) == Turns(s.log) + if a.PrepareTurn? then 1 else 0
  {
    match a
    case PrepareTurn => TurnsAppend(s.log, Prepared(s.shared.turnDone, s.shared.turnID));
    case RecordTurnID(id) => TurnsAppend(s.log, Recorded(id));
    case Arrive(_) =>
    case Advance(t) =>
      if t < |s.callers| {
        AdvanceTurns(s, t);
      }
    case Expire(_) =>
  }

  lemma NoneAppended(log: seq<Mark>, more: seq<Mark>, m: Mark)
    requires more == log || (more == log + [m] && !m.Prepared?)
    ensures Turns(more) == Turns(log)
  {
    TurnsAppend(log, m);
  }

  lemma AdvanceTurns(s: State, t: nat)
    requires t < |s.callers|
    ensures Turns(AdvanceCaller(s, t).log) == Turns(s.log)
  {
    var log := AdvanceCaller(s, t).log;
    match s.callers[t]
    case DoneResolved(given) => NoneAppended(s.log, log, Won(Resolve(s.shared, given), s.shared.turnID, true));
    case FailStart(given) => NoneAppended(s.log, log, Won(Resolve(s.shared, given), s.shared.turnID, false));
    case Invoke(done) => NoneAppended(s.log, log, Fired(done));
    case _ =>
  }

  lemma {:induction false} TurnsGrow(s: State, actions: seq<Action>)
    ensures Turns(s.log) <= Turns(Run(s, actions).log)
    decreases |actions|
  {
    if actions != [] {
      DoTurns(s, actions[0]);
      TurnsGrow(Do(s, actions[0]), actions[1..]);
    }
  }

  /** A caller that has resolved its id keeps it until it claims, and then never resolves again. */
  predicate Past(c: Caller, given: string) {
    c == DoneResolved(given) || c.Invoke? || c.Returned?
  }

  lemma {:induction false} ResolvedKeeps(s: State, t: nat, given: string, actions: seq<Action>)
    requires t < |s.callers| && Past(s.callers[t], given)
    ensures t < |Run(s, actions).callers| && Past(Run(s, actions).callers[t], given)
    decreases |actions|
  {
    if actions != [] {
      ResolvedKeeps(Do(s, actions[0]), t, given, actions[1..]);
    }
  }

  /** The named turn is the current one, or its id has completed. */
  predicate NamesItsTurn(s: State, given: string, turns: nat) {
    given != "" && ((s.shared.turnID == given && Turns(s.log) == turns) || given in s.shared.completed)
  }

  lemma NameStays(s: State, given: string, turns: nat, a: Action)
    requires NamesItsTurn(s, given, turns) && Orderly(s, a)
    ensures NamesItsTurn(Do(s, a), given, turns)
  {
    DoTurns(s, a);
    if given in s.shared.completed {
      CompletedStays(s, a, given);
    }
  }

  lemma CompletedStays(s: State, a: Action, id: string)
    requires id in s.shared.completed
    ensures id in Do(s, a).shared.completed
  {
  }

  lemma {:induction false} NamedTurnCompletes(s: State, given: string, turns: nat, actions: seq<Action>)
    requires NamesItsTurn(s, given, turns) && OrderlyRun(s, actions)
    ensures NamesItsTurn(Run(s, actions), given, turns)
    decreases |actions|
  {
    if actions != [] {
      NameStays(s, given, turns, actions[0]);
      NamedTurnCompletes(Do(s, actions[0]), given, turns, actions[1..]);
    }
  }

  /** A completion under this id would end the current turn. */
  predicate WouldEnd(s: Shared, given: string) {
    var id := Resolve(s, given);
    !s.turnDone && (id == "" || id !in s.completed)
  }

  /**
   A completion without a name, an interrupt's for example, is issued in s, resolves the id in a later
   state and claims in a state after that. Even with an orderly provider it ends another turn than the
   one it was issued for: exactly when the claim ends a turn and another turn was prepared before the
   signal last read the id. It reads the id again at the claim if it had found none.
   */
  lemma UnnamedEndsAnotherIff(s: State, t: nat, before: seq<Action>, after: seq<Action>)
    requires var resolving := Run(s, before);
             && t < |resolving.callers| && resolving.callers[t] == DoneStart("")
             && OrderlyRun(Do(resolving, Advance(t)), after)
             && t < |Run(Do(resolving, Advance(t)), after).callers|
             && Run(Do(resolving, Advance(t)), after).callers[t].DoneResolved?
    ensures var resolving := Run(s, before);
            var claiming := Run(Do(resolving, Advance(t)), after);
            var given := claiming.callers[t].given;
            (Do(claiming, Advance(t)).log != claiming.log && Turns(claiming.log) != Turns(s.log))
            <==> (WouldEnd(claiming.shared, given) && Turns((if given == "" then claiming else resolving).log) != Turns(s.log))
  {
    var resolving := Run(s, before);
    var resolved := Do(resolving, Advance(t));
    var claiming := Run(resolved, after);
    var given := resolving.shared.turnID;
    ResolvedKeeps(resolved, t, given, after);
    TurnsGrow(s, before);
    TurnsGrow(resolved, after);
    if given != "" {
      NamedTurnCompletes(resolved, given, Turns(resolving.log), after);
    }
    assert |claiming.log| != |claiming.log + [Won(Resolve(claiming.shared, given), claiming.shared.turnID, true)]|;
  }

  /** That can happen: whenever an unnamed signal has not read its id when its turn has ended, it can end the next turn. */
  lemma UnnamedCanEndTheNext(s: State, t: nat, b: string)
    requires t < |s.callers| && s.callers[t] == DoneStart("") && s.shared.turnDone
    requires b != "" && b != s.shared.turnID && b !in s.shared.completed
    ensures var next := Do(Do(s, PrepareTurn), RecordTurnID(b));
            && Orderly(s, PrepareTurn) && Orderly(Do(s, PrepareTurn), RecordTurnID(b))
            && Do(Do(next, Advance(t)), Advance(t)).log == next.log + [Won(b, b, true)]
  {
    var prepared := Do(s, PrepareTurn);
    var next := Do(prepared, RecordTurnID(b));
    assert next.shared == Shared(b, false, prepared.shared.completed, Open) && next.callers == s.callers;
    var resolved := Do(next, Advance(t));
    assert resolved.callers[t] == DoneResolved(b);
  }

  /** An interrupt's timer runs out, and only then its turn completes and calls back. */
  function Overtaken(a: string): seq<Action> {
    [RecordTurnID(a)] + ([Arrive(Interrupt)] + ([Advance(0)] + ([Advance(0)] + ([Expire(0)] + Completes(a)))))
  }

  function Completes(a: string): seq<Action> {
    [Arrive(DoneStart(a))] + ([Advance(1)] + ([Advance(1)] + ([Advance(1)] + [])))
  }

  lemma OrderlyFirst(s: State, a: Action, next: State, rest: seq<Action>)
    requires next == Do(s, a) && Orderly(s, a)
    ensures Run(s, [a] + rest) == Run(next, rest) && (OrderlyRun(s, [a] + rest) <==> OrderlyRun(next, rest))
  {
    assert ([a] + rest)[1..] == rest;
  }

  function Expired(a: string): State {
    State(Shared(a, false, {}, Open), [DoneStart("")], [Recorded(a)])
  }

  lemma InterruptExpires(a: string, rest: seq<Action>)
    requires a != ""
    ensures var actions := [RecordTurnID(a)] + ([Arrive(Interrupt)] + ([Advance(0)] + ([Advance(0)] + ([Expire(0)] + rest))));
            Run(INITIAL, actions) == Run(Expired(a), rest) && (OrderlyRun(INITIAL, actions) <==> OrderlyRun(Expired(a), rest))
  {
    var recorded := State(Shared(a, false, {}, Nil), [], [Recorded(a)]);
    var waiting := Expired(a).(callers := [Waiting]);
    var r4 := [Expire(0)] + rest;
    var r3 := [Advance(0)] + r4;
    var r2 := [Advance(0)] + r3;
    OrderlyFirst(INITIAL, RecordTurnID(a), recorded, [Arrive(Interrupt)] + r2);
    OrderlyFirst(recorded, Arrive(Interrupt), recorded.(callers := [Interrupt]), r2);
    OrderlyFirst(recorded.(callers := [Interrupt]), Advance(0), recorded.(callers := [Waiting]), r3);
    OrderlyFirst(recorded.(callers := [Waiting]), Advance(0), waiting, r4);
    OrderlyFirst(waiting, Expire(0), Expired(a), rest);
  }

  lemma TurnCompletes(a: string)
    requires a != ""
    ensures Run(Expired(a), Completes(a))
            == State(Shared(a, true, {a}, Closed), [DoneStart(""), Returned], [Recorded(a), Won(a, a, true), Fired(true)])
    ensures OrderlyRun(Expired(a), Completes(a))
  {
    var s, log := Expired(a), [Recorded(a), Won(a, a, true)];
    var s1, s2 := s.(callers := [DoneStart(""), DoneStart(a)]), s.(callers := [DoneStart(""), DoneResolved(a)]);
    var s3 := State(Shared(a, true, {a}, Closed), [DoneStart(""), Invoke(true)], log);
    var s4 := s3.(callers := [DoneStart(""), Returned], log := log + [Fired(true)]);
    var r3 := [Advance(1)] + [];
    var r2 := [Advance(1)] + r3;
    assert Recorded(a) in s.log;
    OrderlyFirst(s, Arrive(DoneStart(a)), s1, [Advance(1)] + r2);
    OrderlyFirst(s1, Advance(1), s2, r2);
    OrderlyFirst(s2, Advance(1), s3, r3);
    OrderlyFirst(s3, Advance(1), s4, []);
  }

  /** So even when the turn is held until its result, the interrupt of one turn can end the next. */
  lemma LateInterruptEndsTheNext(a: string, b: string)
    requires a != "" && b != "" && a != b
    ensures var ended := Run(INITIAL, Overtaken(a));
            var next := Do(Do(ended, PrepareTurn), RecordTurnID(b));
            && OrderlyRun(INITIAL, Overtaken(a)) && Orderly(ended, PrepareTurn) && FiresSince(ended.log) > 0
            && Do(Do(next, Advance(0)), Advance(0)).log == next.log + [Won(b, b, true)]
  {
    InterruptExpires(a, Completes(a));
    TurnCompletes(a);
    Logged([Recorded(a), Won(a, a, true)], Fired(true));
    UnnamedCanEndTheNext(Run(INITIAL, Overtaken(a)), 0, b);
  }
}
