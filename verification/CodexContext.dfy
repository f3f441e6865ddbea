/**
 The context part of the Codex client: raw notifications about token usage and contextCompaction
 items become usage, compaction_start and compaction_end events. A compaction_end waits for the
 first usage after the item completed, or for whatever comes first of the next item and the end
 of the turn. The client is a class; each of its handlers is proved against a function on values,
 and the theorems about whole turns are proved about those functions.
 */
module CodexContext {
  import opened Wrappers

  type Token = Option<int>

  datatype ContextEvent =
    | Usage(used: Token, window: Token)
    | CompactionStart(before: Token, window: Token)
    | CompactionEnd(before: Token, after: Token, window: Token)

  datatype Snapshot = Snapshot(thread: string, turn: string, used: Token, window: Token)

  datatype Compaction = Compaction(thread: string, turn: string, item: string, before: Token, window: Token, completed: bool)

  datatype Client = Client(
    threadID: string,
    turnID: string,
    turnDone: bool,
    contextThread: string,
    contextTurn: string,
    snapshot: Option<Snapshot>,
    compaction: Option<Compaction>)

  /** The notifications that matter here; a missing thread id or number is None, other missing strings are empty. */
  datatype Notice =
    | TurnStarted(thread: Option<string>, turn: string)
    | TurnStartResponse(turn: string)
    | TokenUsage(thread: Option<string>, turn: string, used: Token, window: Token)
    | ItemStarted(thread: Option<string>, turn: string, item: string)
    | ItemCompleted(thread: Option<string>, turn: string, item: string)

  function OrEmpty(id: Option<string>): string {
    if id.Some? then id.value else ""
  }

  function Ended(pending: Compaction): ContextEvent {
    CompactionEnd(pending.before, None, pending.window)
  }

  function RecordTurnID(c: Client, turn: string): Client {
    if turn == "" || c.turnDone then c else c.(turnID := turn)
  }

  /** beginContextTurn: a new turn drops the old turn's context, ending a completed compaction. */
  function BeginContext(c: Client, thread: string, turn: string): (Client, seq<ContextEvent>) {
    if thread == "" || turn == "" || c.threadID == "" || thread != c.threadID then (c, [])
    else if c.contextThread == thread && c.contextTurn == turn then (c, [])
    else
      (c.(contextThread := thread, contextTurn := turn, snapshot := None, compaction := None),
       if c.compaction.Some? && c.compaction.value.completed then [Ended(c.compaction.value)] else [])
  }

  predicate Accepts(c: Client, thread: string, turn: string) {
    thread != "" && turn != "" && c.threadID != "" && thread == c.threadID && !c.turnDone && c.turnID == turn
  }

  /** The first accepted event of a fresh client adopts its turn. */
  function Adopt(c: Client, thread: string, turn: string): Client {
    if c.contextThread == "" && c.contextTurn == "" then c.(contextThread := thread, contextTurn := turn) else c
  }

  predicate Mine(pending: Option<Compaction>, thread: string, turn: string) {
    pending.Some? && pending.value.thread == thread && pending.value.turn == turn
  }

  // What the handlers do in their section of the context lock, once they have accepted the event.

  function AddUsage(c: Client, thread: string, turn: string, used: Token, window: Token): (Client, seq<ContextEvent>) {
    var d := Adopt(c, thread, turn);
    if d.contextThread != thread || d.contextTurn != turn then (d, [])
    else
      var settles := used.Some? && Mine(d.compaction, thread, turn) && d.compaction.value.completed;
      var ends := if settles then
                    [CompactionEnd(d.compaction.value.before, used, if window.None? then d.compaction.value.window else window)]
                  else [];
      var e := if settles then d.(compaction := None) else d;
      (if e.compaction.None? then e.(snapshot := Some(Snapshot(thread, turn, used, window))) else e,
       ends + [Usage(used, window)])
  }

  function StartItem(c: Client, thread: string, turn: string, item: string): (Client, seq<ContextEvent>) {
    var d := Adopt(c, thread, turn);
    if d.contextThread != thread || d.contextTurn != turn then (d, [])
    else if Mine(d.compaction, thread, turn) && d.compaction.value.item == item then (d, [])
    else
      var stale := if d.compaction.Some? && d.compaction.value.completed then [Ended(d.compaction.value)] else [];
      var snapshot := if d.compaction.Some? then None else d.snapshot;
      var known := snapshot.Some? && snapshot.value.thread == thread && snapshot.value.turn == turn;
      var before, window := if known then snapshot.value.used else None, if known then snapshot.value.window else None;
      (d.(snapshot := snapshot, compaction := Some(Compaction(thread, turn, item, before, window, false))),
       stale + [CompactionStart(before, window)])
  }

  function CompleteItem(c: Client, thread: string, turn: string, item: string): Client {
    if Mine(c.compaction, thread, turn) && c.compaction.value.item == item then
      c.(compaction := Some(c.compaction.value.(completed := true)), snapshot := None)
    else c
  }

  function OnUsage(c: Client, thread: string, turn: string, used: Token, window: Token): (Client, seq<ContextEvent>) {
    if !Accepts(c, thread, turn) || (used.None? && window.None?) then (c, []) else AddUsage(c, thread, turn, used, window)
  }

  function OnItemStarted(c: Client, thread: string, turn: string, item: string): (Client, seq<ContextEvent>) {
    if item == "" || !Accepts(c, thread, turn) then (c, []) else StartItem(c, thread, turn, item)
  }

  function OnItemCompleted(c: Client, thread: string, turn: string, item: string): Client {
    if item == "" || !Accepts(c, thread, turn) then c else CompleteItem(c, thread, turn, item)
  }

  function FinishContext(c: Client, thread: string, turn: string): (Client, seq<ContextEvent>) {
    if thread == "" || turn == "" then (c, [])
    else
      (if c.contextThread == thread && c.contextTurn == turn then c.(snapshot := None, compaction := None) else c,
       if Mine(c.compaction, thread, turn) && c.compaction.value.completed then [Ended(c.compaction.value)] else [])
  }

  /** A notification that names another thread, even the empty one, is dropped before it is looked at. */
  predicate OtherThread(c: Client, n: Notice) {
    !n.TurnStartResponse? && n.thread.Some? && c.threadID != "" && n.thread.value != c.threadID
  }

  function Handle(c: Client, n: Notice): (Client, seq<ContextEvent>) {
    if OtherThread(c, n) then (c, [])
    else
      match n
      case TurnStarted(thread, turn) => if turn == "" then (c, []) else BeginContext(RecordTurnID(c, turn), OrEmpty(thread), turn)
      case TurnStartResponse(turn) => (RecordTurnID(c, turn), [])
      case TokenUsage(thread, turn, used, window) => OnUsage(c, OrEmpty(thread), turn, used, window)
      case ItemStarted(thread, turn, item) => OnItemStarted(c, OrEmpty(thread), turn, item)
      case ItemCompleted(thread, turn, item) => (OnItemCompleted(c, OrEmpty(thread), turn, item), [])
  }

  /** The client as the program has it: fields that its handlers change in place. */
  class CodexClient {
    var threadID: string
    var turnID: string
    var turnDone: bool
    var contextThread: string
    var contextTurn: string
    var snapshot: Option<Snapshot>
    var compaction: Option<Compaction>
    var emitted: seq<ContextEvent>  // what the chunk callback received

    constructor (threadID: string)
      ensures Now() == Client(threadID, "", false, "", "", None, None) && emitted == []
    {
      this.threadID, turnID, turnDone := threadID, "", false;
      contextThread, contextTurn, snapshot, compaction, emitted := "", "", None, None, [];
    }

    function Now(): Client
      reads this
    {
      Client(threadID, turnID, turnDone, contextThread, contextTurn, snapshot, compaction)
    }

    /** prepareTurn, as far as the context is concerned. */
    method PrepareTurn()
      modifies this
      ensures Now() == old(Now()).(turnDone := false, turnID := "") && emitted == []
    {
      turnDone, turnID, emitted := false, "", [];
    }

    method Emit(event: ContextEvent)
      modifies this`emitted
      ensures emitted == old(emitted) + [event]
    {
      emitted := emitted + [event];
    }

    method BeginContextTurn(thread: string, turn: string)
      modifies this
      ensures Now() == BeginContext(old(Now()), thread, turn).0
      ensures emitted == old(emitted) + BeginContext(old(Now()), thread, turn).1
      ensures threadID == old(threadID) && turnID == old(turnID) && turnDone == old(turnDone)
      ensures thread != "" && turn != "" && thread == threadID && !(old(contextThread) == thread && old(contextTurn) == turn) ==>
                contextThread == thread && contextTurn == turn && snapshot.None? && compaction.None?
      ensures !(thread != "" && turn != "" && thread == threadID) ==> unchanged(this)
    {
      if thread == "" || turn == "" || threadID == "" || thread != threadID {
        return;
      }
      if contextThread == thread && contextTurn == turn {
        return;
      }
      var completed: Option<ContextEvent> := None;
      if compaction.Some? && compaction.value.completed {
        completed := Some(Ended(compaction.value));
      }
      contextThread, contextTurn := thread, turn;
      snapshot, compaction := None, None;
      if completed.Some? {
        Emit(completed.value);
      }
    }

    method HandleContextUsage(thread: string, turn: string, used: Token, window: Token)
      modifies this
      ensures Now() == OnUsage(old(Now()), thread, turn, used, window).0
      ensures emitted == old(emitted) + OnUsage(old(Now()), thread, turn, used, window).1
    {
      if !Accepts(Now(), thread, turn) {
        return;
      }
      if used.None? && window.None? {
        return;
      }
      var completed: Option<ContextEvent> := None;
      if contextThread == "" && contextTurn == "" {
        contextThread, contextTurn := thread, turn;
      }
      if contextThread != thread || contextTurn != turn {
        return;
      }
      if used.Some? && Mine(compaction, thread, turn) && compaction.value.completed {
        var endWindow := window;
        if endWindow.None? {
          endWindow := compaction.value.window;
        }
        completed := Some(CompactionEnd(compaction.value.before, used, endWindow));
        compaction := None;
      }
      if compaction.None? {
        snapshot := Some(Snapshot(thread, turn, used, window));
      }
      if completed.Some? {
        Emit(completed.value);
      }
      Emit(Usage(used, window));
    }

    method HandleItemStarted(thread: string, turn: string, item: string)
      modifies this
      ensures Now() == OnItemStarted(old(Now()), thread, turn, item).0
      ensures emitted == old(emitted) + OnItemStarted(old(Now()), thread, turn, item).1
      ensures threadID == old(threadID) && turnID == old(turnID) && turnDone == old(turnDone)
      ensures compaction != old(compaction) ==>
                && compaction.Some? && compaction.value.item == item && !compaction.value.completed
                && snapshot == if old(compaction).Some? then None else old(snapshot)
      ensures compaction == old(compaction) ==> snapshot == old(snapshot) && emitted == old(emitted)
    {
      if item == "" || !Accepts(Now(), thread, turn) {
        return;
      }
      var stale: Option<ContextEvent> := None;
      if contextThread == "" && contextTurn == "" {
        contextThread, contextTurn := thread, turn;
      }
      if contextThread != thread || contextTurn != turn {
        return;
      }
      if compaction.Some? {
        if Mine(compaction, thread, turn) && compaction.value.item == item {
          return;
        }
        if compaction.value.completed {
          stale := Some(Ended(compaction.value));
        }
        snapshot := None;
      }
      var before: Token, window: Token := None, None;
      if snapshot.Some? && snapshot.value.thread == thread && snapshot.value.turn == turn {
        before, window := snapshot.value.used, snapshot.value.window;
      }
      compaction := Some(Compaction(thread, turn, item, before, window, false));
      if stale.Some? {
        Emit(stale.value);
      }
      Emit(CompactionStart(before, window));
    }

    method HandleItemCompleted(thread: string, turn: string, item: string)
      modifies this
      ensures Now() == OnItemCompleted(old(Now()), thread, turn, item) && emitted == old(emitted)
      ensures if old(Accepts(Now(), thread, turn)) && item != "" && old(compaction).Some?
                 && old(compaction).value.thread == thread && old(compaction).value.turn == turn && old(compaction).value.item == item
              then compaction == Some(old(compaction).value.(completed := true)) && snapshot.None?
              else compaction == old(compaction) && snapshot == old(snapshot)
    {
      if item == "" || !Accepts(Now(), thread, turn) {
        return;
      }
      if Mine(compaction, thread, turn) && compaction.value.item == item {
        compaction := Some(compaction.value.(completed := true));
        snapshot := None;
      }
    }

    method FinishContextTurn(thread: string, turn: string)
      modifies this
      ensures Now() == FinishContext(old(Now()), thread, turn).0
      ensures emitted == old(emitted) + FinishContext(old(Now()), thread, turn).1
      ensures contextThread == old(contextThread) && contextTurn == old(contextTurn) && threadID == old(threadID) && turnID == old(turnID) && turnDone == old(turnDone)
      ensures thread == "" || turn == "" ==> unchanged(this)
      ensures thread != "" && turn != "" && thread == contextThread && turn == contextTurn ==> snapshot.None? && compaction.None?
    {
      if thread == "" || turn == "" {
        return;
      }
      var completed: Option<ContextEvent> := None;
      if Mine(compaction, thread, turn) && compaction.value.completed {
        completed := Some(Ended(compaction.value));
      }
      if contextThread == thread && contextTurn == turn {
        snapshot, compaction := None, None;
      }
      if completed.Some? {
        Emit(completed.value);
      }
    }

    method HandleNotice(n: Notice)
      modifies this
      ensures Now() == Handle(old(Now()), n).0 && emitted == old(emitted) + Handle(old(Now()), n).1
    {
      if OtherThread(Now(), n) {
        return;
      }
      match n
      case TurnStarted(thread, turn) =>
        if turn != "" {
          if !turnDone {
            turnID := turn;
          }
          BeginContextTurn(OrEmpty(thread), turn);
        }
      case TurnStartResponse(turn) =>
        if turn != "" && !turnDone {
          turnID := turn;
        }
      case TokenUsage(thread, turn, used, window) => HandleContextUsage(OrEmpty(thread), turn, used, window);
      case ItemStarted(thread, turn, item) => HandleItemStarted(OrEmpty(thread), turn, item);
      case ItemCompleted(thread, turn, item) => HandleItemCompleted(OrEmpty(thread), turn, item);
    }
  }

  // ---- The daemon's observer ----

  predicate ValidSnapshot(event: ContextEvent) {
    match event
    case Usage(used, window) => window.Some? && window.value > 0 && used.Some? && used.value > 0
    case CompactionStart(_, _) => false
    case CompactionEnd(_, after, window) => window.Some? && window.value > 0 && after.Some? && after.value > 0
  }

  datatype Observed = Observed(compactions: seq<ContextEvent>, final: Option<ContextEvent>, pending: nat)

  const NOTHING_OBSERVED := Observed([], None, 0)

  function Observe(o: Observed, event: ContextEvent): Observed {
    match event
    case CompactionStart(_, _) => Observed(o.compactions, None, o.pending + 1)
    case CompactionEnd(_, _, _) =>
      Observed(o.compactions + [event], if ValidSnapshot(event) then Some(event) else None,
               if o.pending > 0 then o.pending - 1 else o.pending)
    case Usage(_, _) => o.(final := if ValidSnapshot(event) then Some(event) else None)
  }

  function ObserveAll(o: Observed, events: seq<ContextEvent>): Observed
    decreases |events|
  {
    if events == [] then o else ObserveAll(Observe(o, events[0]), events[1..])
  }

  lemma {:induction false} ObserveSplits(o: Observed, first: seq<ContextEvent>, rest: seq<ContextEvent>)
    ensures ObserveAll(o, first + rest) == ObserveAll(ObserveAll(o, first), rest)
    decreases |first|
  {
    if first == [] {
      assert first + rest == rest;
    } else {
      assert (first + rest)[1..] == first[1..] + rest;
      ObserveSplits(Observe(o, first[0]), first[1..], rest);
    }
  }

  function Starts(events: seq<ContextEvent>): nat {
    if events == [] then 0 else (if events[0].CompactionStart? then 1 else 0) + Starts(events[1..])
  }

  function Ends(events: seq<ContextEvent>): nat {
    if events == [] then 0 else (if events[0].CompactionEnd? then 1 else 0) + Ends(events[1..])
  }

  lemma {:induction false} CountsSplit(first: seq<ContextEvent>, rest: seq<ContextEvent>)
    ensures Starts(first + rest) == Starts(first) + Starts(rest)
    ensures Ends(first + rest) == Ends(first) + Ends(rest)
  {
    if first == [] {
      assert first + rest == rest;
    } else {
      assert (first + rest)[1..] == first[1..] + rest;
      CountsSplit(first[1..], rest);
    }
  }

  function EndEvents(events: seq<ContextEvent>): seq<ContextEvent> {
    if events == [] then []
    else
      var before, last := EndEvents(events[..|events| - 1]), events[|events| - 1];
      if last.CompactionEnd? then before + [last] else before
  }

  /** How many more compactions started than ended from event k on. */
  function Surplus(events: seq<ContextEvent>, k: nat): int
    requires k <= |events|
  {
    Starts(events[k..]) - Ends(events[k..])
  }

  lemma SurplusGrows(events: seq<ContextEvent>, e: ContextEvent, k: nat)
    requires k <= |events|
    ensures Surplus(events + [e], k) == Surplus(events, k) + (if e.CompactionStart? then 1 else if e.CompactionEnd? then -1 else 0)
    ensures Surplus(events + [e], |events| + 1) == 0
  {
    assert (events + [e])[k..] == events[k..] + [e];
    CountsSplit(events[k..], [e]);
    assert Starts([e]) == (if e.CompactionStart? then 1 else 0) && Ends([e]) == (if e.CompactionEnd? then 1 else 0);
    assert (events + [e])[|events| + 1..] == [];
  }

  lemma ObserveOneMore(o: Observed, events: seq<ContextEvent>, e: ContextEvent)
    ensures ObserveAll(o, events + [e]) == Observe(ObserveAll(o, events), e)
  {
    ObserveSplits(o, events, [e]);
    assert ObserveAll(Observe(ObserveAll(o, events), e), [e][1..]) == Observe(ObserveAll(o, events), e);
  }

  /** The largest surplus grows with a start and shrinks with an end, down to that of no events at all. */
  lemma PendingGrows(o: Observed, before: seq<ContextEvent>, i: nat, e: ContextEvent) returns (k: nat)
    requires i <= |before| && o.pending == Surplus(before, i) && forall j | 0 <= j <= |before| :: Surplus(before, j) <= o.pending
    ensures k <= |before| + 1 && Observe(o, e).pending == Surplus(before + [e], k)
    ensures forall j | 0 <= j <= |before| + 1 :: Surplus(before + [e], j) <= Observe(o, e).pending
  {
    SurplusGrows(before, e, i);
    forall j | 0 <= j <= |before| + 1
      ensures Surplus(before + [e], j) <= Observe(o, e).pending
    {
      SurplusGrows(before, e, if j <= |before| then j else i);
    }
    k := if e.CompactionEnd? && o.pending == 0 then |before| + 1 else i;
  }

  /** Pending is the largest surplus of starts over ends that any last part of the events has. */
  lemma {:induction false} PendingIsSurplus(events: seq<ContextEvent>) returns (k: nat)
    ensures var pending := ObserveAll(NOTHING_OBSERVED, events).pending;
            k <= |events| && pending == Surplus(events, k) && forall j | 0 <= j <= |events| :: Surplus(events, j) <= pending
  {
    if events == [] {
      k := 0;
    } else {
      var before, e := events[..|events| - 1], events[|events| - 1];
      assert events == before + [e];
      var i := PendingIsSurplus(before);
      ObserveOneMore(NOTHING_OBSERVED, before, e);
      k := PendingGrows(ObserveAll(NOTHING_OBSERVED, before), before, i, e);
    }
  }

  function LastSnapshot(events: seq<ContextEvent>): Option<ContextEvent> {
    if events != [] && ValidSnapshot(events[|events| - 1]) then Some(events[|events| - 1]) else None
  }

  lemma ObservedGrows(o: Observed, before: seq<ContextEvent>, e: ContextEvent)
    requires o.compactions == EndEvents(before)
    ensures Observe(o, e).compactions == EndEvents(before + [e])
  {
    var events := before + [e];
    assert events[|events| - 1] == e && events[..|events| - 1] == before;
  }

  lemma LastIsSnapshot(o: Observed, before: seq<ContextEvent>, e: ContextEvent)
    ensures Observe(o, e).final == LastSnapshot(before + [e])
  {
    assert (before + [e])[|before|] == e;
  }

  /** The compactions are those that ended, in order; the snapshot is the last event of all, if valid. */
  lemma {:induction false} ObservedMeans(events: seq<ContextEvent>)
    ensures ObserveAll(NOTHING_OBSERVED, events).compactions == EndEvents(events)
    ensures ObserveAll(NOTHING_OBSERVED, events).final == LastSnapshot(events)
  {
    if events != [] {
      var before, e := events[..|events| - 1], events[|events| - 1];
      ObservedMeans(before);
      ObserveOneMore(NOTHING_OBSERVED, before, e);
      ObservedGrows(ObserveAll(NOTHING_OBSERVED, before), before, e);
      LastIsSnapshot(ObserveAll(NOTHING_OBSERVED, before), before, e);
      assert events == before + [e];
    }
  }

  predicate Positive(count: Token) {
    count.Some? && count.value > 0
  }

  /** The last event is a usage with positive counts, or the end of a compaction with positive counts after it. */
  predicate EndsWithCounts(events: seq<ContextEvent>) {
    events != [] &&
    match events[|events| - 1]
    case Usage(used, window) => Positive(used) && Positive(window)
    case CompactionStart(_, _) => false
    case CompactionEnd(_, after, window) => Positive(after) && Positive(window)
  }

  /** The final snapshot is the last event, exactly when its counts are known and positive. */
  lemma FinalIsLastEvent(events: seq<ContextEvent>)
    ensures var final := ObserveAll(NOTHING_OBSERVED, events).final;
            && (final.Some? <==> EndsWithCounts(events))
            && (final.Some? ==> final.value == events[|events| - 1])
  {
    ObservedMeans(events);
  }

  /** Some last part of the events starts more compactions than it ends. */
  ghost predicate Unfinished(events: seq<ContextEvent>) {
    exists k | 0 <= k <= |events| :: Surplus(events, k) > 0
  }

  class BackendContextTurn {
    ghost var seen: seq<ContextEvent>  // everything observed so far
    var compactions: seq<ContextEvent>
    var finalSnapshot: Option<ContextEvent>
    var pendingCompactions: nat

    constructor ()
      ensures Valid() && seen == [] && Now() == NOTHING_OBSERVED
    {
      compactions, finalSnapshot, pendingCompactions, seen := [], None, 0, [];
    }

    ghost predicate Valid()
      reads this
    {
      Now() == ObserveAll(NOTHING_OBSERVED, seen)
    }

    function Now(): Observed
      reads this
    {
      Observed(compactions, finalSnapshot, pendingCompactions)
    }

    method ObserveEvent(event: ContextEvent)
      requires Valid()
      modifies this
      ensures Valid() && seen == old(seen) + [event] && Now() == Observe(old(Now()), event)
    {
      ObserveOneMore(NOTHING_OBSERVED, seen, event);
      seen := seen + [event];
      match event
      case CompactionStart(_, _) =>
        pendingCompactions := pendingCompactions + 1;
        finalSnapshot := None;
      case CompactionEnd(_, _, _) =>
        compactions := compactions + [event];
        if pendingCompactions > 0 {
          pendingCompactions := pendingCompactions - 1;
        }
        finalSnapshot := None;
        if ValidSnapshot(event) {
          finalSnapshot := Some(event);
        }
      case Usage(_, _) =>
        finalSnapshot := None;
        if ValidSnapshot(event) {
          finalSnapshot := Some(event);
        }
    }

    /**
     What finalize reports: the compactions that ended, in order; the last event if it is a valid
     snapshot; and whether some last part of the events starts more compactions than it ends.
     */
    method Observation() returns (ended: seq<ContextEvent>, final: Option<ContextEvent>, incomplete: bool)
      requires Valid()
      ensures ended == EndEvents(seen) && (incomplete <==> Unfinished(seen))
      ensures final.Some? ==> seen != [] && final.value == seen[|seen| - 1]
      ensures final.Some? <==> EndsWithCounts(seen)
    {
      ended, final, incomplete := compactions, finalSnapshot, pendingCompactions > 0;
      ObservedMeans(seen);
      FinalIsLastEvent(seen);
      ghost var k := PendingIsSurplus(seen);
    }
  }
}
