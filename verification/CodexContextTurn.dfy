/**
 Whole turns of the context machine, from the raw notifications to what the daemon's observer
 reports. The reference looks forward in the stream: a compaction episode opens at a start, and it
 closes at the first start of another item, or the first usage with a token count after its
 completion, or the end of the turn. The code looks back, keeping one pending compaction.
 */
module CodexContextTurn {
  import opened CodexContext
  import opened Collections
  import opened Wrappers

  // ---- What a turn hears ----

  datatype Signal = Use(used: Token, window: Token) | Start(item: string) | Complete(item: string)

  /** No compaction is pending and no snapshot is kept: how a turn finds the context, and how it leaves it. */
  predicate Settled(c: Client) {
    c.compaction.None? && c.snapshot.None?
  }

  /** The client just after prepareTurn. */
  predicate Prepared(c: Client, thread: string) {
    thread != "" && c.threadID == thread && !c.turnDone && c.turnID == "" && Settled(c)
  }

  /** The context is fresh or already belongs to this turn, so that this turn's events are taken. */
  predicate Open(c: Client, thread: string, turn: string) {
    (c.contextThread == "" && c.contextTurn == "") || (c.contextThread == thread && c.contextTurn == turn)
  }

  predicate Ours(n: Notice, thread: string) {
    n.TurnStartResponse? || n.thread.None? || n.thread.value == thread
  }

  predicate Records(n: Notice, thread: string) {
    Ours(n, thread) && (n.TurnStarted? || n.TurnStartResponse?) && n.turn != ""
  }

  /** The notifications keep one turn id: those that record an id record this one. */
  predicate OneTurn(notices: seq<Notice>, thread: string, turn: string) {
    forall n <- notices :: Records(n, thread) ==> n.turn == turn
  }

  predicate Opens(n: Notice, thread: string) {
    Records(n, thread) && n.TurnStarted? && n.thread.Some?
  }

  function HeardIn(n: Notice, thread: string, turn: string): seq<Signal> {
    if n.TurnStarted? || n.TurnStartResponse? || n.thread != Some(thread) || n.turn != turn then []
    else
      match n
      case TokenUsage(_, _, used, window) => if used.Some? || window.Some? then [Use(used, window)] else []
      case ItemStarted(_, _, item) => if item != "" then [Start(item)] else []
      case ItemCompleted(_, _, item) => if item != "" then [Complete(item)] else []
  }

  /** The signals of this turn that arrive once its id is recorded and the context is open. */
  function Heard(notices: seq<Notice>, thread: string, turn: string, recorded: bool, open: bool): seq<Signal>
    decreases |notices|
  {
    if notices == [] then []
    else
      var n := notices[0];
      (if recorded && open then HeardIn(n, thread, turn) else []) +
      Heard(notices[1..], thread, turn, recorded || Records(n, thread), open || Opens(n, thread))
  }

  // ---- The reference: episodes ----

  datatype Episode = Episode(before: Token, window: Token, ended: bool, after: Token, endWindow: Token)

  predicate Closes(sigs: seq<Signal>, item: string, n: nat)
    requires n < |sigs|
  {
    || (sigs[n].Start? && sigs[n].item != item)
    || (sigs[n].Use? && sigs[n].used.Some? && Complete(item) in sigs[..n])
  }

  /** The first position from n on that closes the episode of item, or the end of the turn. */
  function CloseAt(sigs: seq<Signal>, item: string, n: nat): (close: nat)
    requires n <= |sigs|
    ensures n <= close <= |sigs|
    ensures close < |sigs| ==> Closes(sigs, item, close)
    ensures forall k :: n <= k < close ==> !Closes(sigs, item, k)
    decreases |sigs| - n
  {
    if n == |sigs| || Closes(sigs, item, n) then n else CloseAt(sigs, item, n + 1)
  }

  function EpisodeOf(sigs: seq<Signal>, item: string, before: Token, window: Token): Episode {
    var close := CloseAt(sigs, item, 0);
    var settled := close < |sigs| && sigs[close].Use?;
    Episode(before, window, Complete(item) in sigs[..close],
            if settled then sigs[close].used else None,
            if settled && sigs[close].window.Some? then sigs[close].window else window)
  }

  /** The episodes of a turn; known is the last usage heard since the last episode. */
  function Episodes(sigs: seq<Signal>, known: Option<(Token, Token)>): seq<Episode>
    decreases |sigs|
  {
    if sigs == [] then []
    else
      match sigs[0]
      case Use(used, window) => Episodes(sigs[1..], Some((used, window)))
      case Complete(_) => Episodes(sigs[1..], known)
      case Start(item) =>
        var rest := sigs[1..];
        var before, window := if known.Some? then known.value.0 else None, if known.Some? then known.value.1 else None;
        [EpisodeOf(rest, item, before, window)] + Episodes(rest[CloseAt(rest, item, 0)..], None)
  }

  function Reports(episodes: seq<Episode>): seq<ContextEvent> {
    if episodes == [] then []
    else
      var e := episodes[0];
      (if e.ended then [CompactionEnd(e.before, e.after, e.endWindow)] else []) + Reports(episodes[1..])
  }

  function Abandoned(episodes: seq<Episode>): nat {
    if episodes == [] then 0 else (if episodes[0].ended then 0 else 1) + Abandoned(episodes[1..])
  }

  // ---- A run of the client ----

  function Run(c: Client, notices: seq<Notice>): (Client, seq<ContextEvent>)
    decreases |notices|
  {
    if notices == [] then (c, [])
    else
      var (d, events) := Handle(c, notices[0]);
      var (last, more) := Run(d, notices[1..]);
      (last, events + more)
  }

  /** Every context event of a turn that ends under the given id. */
  function TurnEvents(c: Client, notices: seq<Notice>, id: string): seq<ContextEvent> {
    var (d, events) := Run(c, notices);
    events + FinishContext(d, c.threadID, id).1
  }

  // ---- The client without its ids ----

  datatype Track = Idle(known: Option<(Token, Token)>) | Busy(item: string, before: Token, window: Token, completed: bool)

  function Next(t: Track, s: Signal): (Track, seq<ContextEvent>) {
    match t
    case Idle(known) => (
      match s
      case Use(used, window) => (Idle(Some((used, window))), [Usage(used, window)])
      case Complete(_) => (t, [])
      case Start(item) =>
        var before, window := if known.Some? then known.value.0 else None, if known.Some? then known.value.1 else None;
        (Busy(item, before, window, false), [CompactionStart(before, window)]))
    case Busy(item, before, window, completed) => (
      match s
      case Use(used, at) =>
        if completed && used.Some? then
          (Idle(Some((used, at))), [CompactionEnd(before, used, if at.None? then window else at), Usage(used, at)])
        else (t, [Usage(used, at)])
      case Complete(other) => (if other == item then t.(completed := true) else t, [])
      case Start(other) =>
        if other == item then (t, [])
        else (Busy(other, None, None, false),
              (if completed then [CompactionEnd(before, None, window)] else []) + [CompactionStart(None, None)]))
  }

  function Follow(t: Track, sigs: seq<Signal>): seq<ContextEvent>
    decreases |sigs|
  {
    if sigs == [] then if t.Busy? && t.completed then [CompactionEnd(t.before, None, t.window)] else []
    else Next(t, sigs[0]).1 + Follow(Next(t, sigs[0]).0, sigs[1..])
  }

  /** What the context keeps of the turn. */
  predicate Holds(c: Client, thread: string, turn: string, t: Track) {
    var mine := c.contextThread == thread && c.contextTurn == turn;
    match t
    case Idle(known) =>
      && c.compaction.None?
      && (known.Some? ==> mine && c.snapshot == Some(Snapshot(thread, turn, known.value.0, known.value.1)))
      && (known.None? ==> c.snapshot.None?)
    case Busy(item, before, window, completed) =>
      mine && c.compaction == Some(Compaction(thread, turn, item, before, window, completed))
  }

  predicate Tracks(c: Client, thread: string, turn: string, recorded: bool, open: bool, t: Track) {
    && thread != "" && turn != "" && c.threadID == thread && !c.turnDone
    && c.turnID == (if recorded then turn else "") && open == Open(c, thread, turn)
    && Holds(c, thread, turn, t) && (recorded || t == Idle(None))
  }

  /** What at most one signal does. */
  function Respond(t: Track, heard: seq<Signal>): (Track, seq<ContextEvent>) {
    if heard == [] then (t, []) else Next(t, heard[0])
  }

  lemma FollowResponds(t: Track, heard: seq<Signal>, rest: seq<Signal>)
    requires |heard| <= 1
    ensures Follow(t, heard + rest) == Respond(t, heard).1 + Follow(Respond(t, heard).0, rest)
  {
    assert (heard + rest)[|heard|..] == rest;
    if heard == [] {
      assert heard + rest == rest;
      assert [] + Follow(t, rest) == Follow(t, rest);
    }
  }

  lemma UsageFollows(c: Client, n: Notice, thread: string, turn: string, recorded: bool, open: bool, t: Track)
    requires Tracks(c, thread, turn, recorded, open, t) && n.TokenUsage?
    ensures var next := Respond(t, if recorded && open then HeardIn(n, thread, turn) else []);
            Tracks(Handle(c, n).0, thread, turn, recorded, open, next.0) && Handle(c, n).1 == next.1
  {
  }

  lemma StartFollows(c: Client, n: Notice, thread: string, turn: string, recorded: bool, open: bool, t: Track)
    requires Tracks(c, thread, turn, recorded, open, t) && n.ItemStarted?
    ensures var next := Respond(t, if recorded && open then HeardIn(n, thread, turn) else []);
            Tracks(Handle(c, n).0, thread, turn, recorded, open, next.0) && Handle(c, n).1 == next.1
  {
  }

  lemma CompleteFollows(c: Client, n: Notice, thread: string, turn: string, recorded: bool, open: bool, t: Track)
    requires Tracks(c, thread, turn, recorded, open, t) && n.ItemCompleted?
    ensures var next := Respond(t, if recorded && open then HeardIn(n, thread, turn) else []);
            Tracks(Handle(c, n).0, thread, turn, recorded, open, next.0) && Handle(c, n).1 == next.1
  {
  }

  lemma HandleFollows(c: Client, n: Notice, thread: string, turn: string, recorded: bool, open: bool, t: Track)
    requires Tracks(c, thread, turn, recorded, open, t) && OneTurn([n], thread, turn)
    ensures var next := Respond(t, if recorded && open then HeardIn(n, thread, turn) else []);
            && Tracks(Handle(c, n).0, thread, turn, recorded || Records(n, thread), open || Opens(n, thread), next.0)
            && Handle(c, n).1 == next.1
  {
    assert n in [n];
    match n
    case TokenUsage(_, _, _, _) => UsageFollows(c, n, thread, turn, recorded, open, t);
    case ItemStarted(_, _, _) => StartFollows(c, n, thread, turn, recorded, open, t);
    case ItemCompleted(_, _, _) => CompleteFollows(c, n, thread, turn, recorded, open, t);
    case TurnStarted(_, _) =>
    case TurnStartResponse(_) =>
  }

  lemma TurnEventsStep(c: Client, notices: seq<Notice>, id: string)
    requires notices != [] && Handle(c, notices[0]).0.threadID == c.threadID
    ensures Run(c, notices).0 == Run(Handle(c, notices[0]).0, notices[1..]).0
    ensures TurnEvents(c, notices, id) == Handle(c, notices[0]).1 + TurnEvents(Handle(c, notices[0]).0, notices[1..], id)
  {
  }

  lemma {:induction false} RunFollows(c: Client, notices: seq<Notice>, thread: string, turn: string,
                                      recorded: bool, open: bool, t: Track, id: string)
    requires Tracks(c, thread, turn, recorded, open, t) && OneTurn(notices, thread, turn)
    requires id == turn || id == Run(c, notices).0.turnID
    ensures TurnEvents(c, notices, id) == Follow(t, Heard(notices, thread, turn, recorded, open))
    ensures Settled(FinishContext(Run(c, notices).0, thread, id).0)
    decreases |notices|
  {
    if notices == [] {
      EndFollows(c, thread, turn, recorded, open, t, id);
    } else {
      var n, rest := notices[0], notices[1..];
      HandleFollows(c, n, thread, turn, recorded, open, t);
      TurnEventsStep(c, notices, id);
      var heard := if recorded && open then HeardIn(n, thread, turn) else [];
      var r, o := recorded || Records(n, thread), open || Opens(n, thread);
      FollowResponds(t, heard, Heard(rest, thread, turn, r, o));
      RunFollows(Handle(c, n).0, rest, thread, turn, r, o, Respond(t, heard).0, id);
    }
  }

  lemma EndFollows(c: Client, thread: string, turn: string, recorded: bool, open: bool, t: Track, id: string)
    requires Tracks(c, thread, turn, recorded, open, t) && (id == turn || id == c.turnID)
    ensures TurnEvents(c, [], id) == Follow(t, []) && Settled(FinishContext(c, thread, id).0)
  {
  }

  // ---- The track and the episodes ----

  /**
   From o to seen the observer saw these episodes; live counts the episode that had started
   before, and left the one that started but is not among them.
   */
  predicate Saw(o: Observed, seen: Observed, episodes: seq<Episode>, live: nat, left: nat) {
    && seen.compactions == o.compactions + Reports(episodes)
    && seen.pending + live == o.pending + Abandoned(episodes) + left
  }

  lemma {:induction false} ReportsSplit(first: seq<Episode>, rest: seq<Episode>)
    ensures Reports(first + rest) == Reports(first) + Reports(rest)
    ensures Abandoned(first + rest) == Abandoned(first) + Abandoned(rest)
  {
    if first == [] {
      assert first + rest == rest;
    } else {
      assert (first + rest)[0] == first[0] && (first + rest)[1..] == first[1..] + rest;
      ReportsSplit(first[1..], rest);
      Reassociate(Reports([first[0]]), Reports(first[1..]), Reports(rest));
    }
  }

  lemma SawBoth(o: Observed, between: Observed, seen: Observed, first: seq<Episode>, rest: seq<Episode>, live: nat, middle: nat, left: nat)
    requires Saw(o, between, first, live, middle) && Saw(between, seen, rest, middle, left)
    ensures Saw(o, seen, first + rest, live, left)
  {
    ReportsSplit(first, rest);
  }

  lemma ObserveStep(o: Observed, t: Track, sigs: seq<Signal>)
    requires sigs != []
    ensures ObserveAll(o, Follow(t, sigs)) == ObserveAll(ObserveAll(o, Next(t, sigs[0]).1), Follow(Next(t, sigs[0]).0, sigs[1..]))
  {
    ObserveSplits(o, Next(t, sigs[0]).1, Follow(Next(t, sigs[0]).0, sigs[1..]));
  }

  /** What the observer sees of the signal that closes an episode, and of the start in it. */
  lemma CloseSees(o: Observed, t: Track, s: Signal, ep: Episode)
    requires t.Busy? && o.pending > 0
    requires (s.Start? && s.item != t.item) || (s.Use? && s.used.Some? && t.completed)
    requires ep == Episode(t.before, t.window, t.completed, if s.Use? then s.used else None,
                           if s.Use? && s.window.Some? then s.window else t.window)
    ensures Saw(o, ObserveAll(o, Next(t, s).1), [ep], 1, if s.Start? then 1 else 0)
    ensures s.Start? ==> ObserveAll(o, Next(t, s).1).pending > 0
  {
    var events := Next(t, s).1;
    var last := events[|events| - 1];
    assert |events| == 1 ==> events == [last];
    assert |events| == 2 ==> events == [events[0], last];
    ObserveOneOrTwo(o, events[0], last);
    assert Reports([ep]) == if ep.ended then [CompactionEnd(ep.before, ep.after, ep.endWindow)] else [];
  }

  lemma ObserveOneOrTwo(o: Observed, a: ContextEvent, b: ContextEvent)
    ensures ObserveAll(o, [b]) == Observe(o, b) && ObserveAll(o, [a, b]) == Observe(Observe(o, a), b)
  {
    assert [a, b][1..] == [b];
    assert ObserveAll(Observe(o, a), [b]) == Observe(Observe(o, a), b);
  }

  lemma {:induction false} IdleSees(o: Observed, sigs: seq<Signal>, known: Option<(Token, Token)>)
    ensures Saw(o, ObserveAll(o, Follow(Idle(known), sigs)), Episodes(sigs, known), 0, 0)
    decreases |sigs|
  {
    if sigs != [] {
      ObserveStep(o, Idle(known), sigs);
      var next := Next(Idle(known), sigs[0]);
      var seen := ObserveAll(o, next.1);
      match sigs[0]
      case Use(used, window) => IdleSees(seen, sigs[1..], Some((used, window)));
      case Complete(_) => IdleSees(seen, sigs[1..], known);
      case Start(item) =>
        BusySees(seen, sigs[1..], 0, item, next.0.before, next.0.window);
    }
  }

  /** The episode of item began just before sigs, and nothing before position n closed it. */
  lemma {:induction false} BusySees(o: Observed, sigs: seq<Signal>, n: nat, item: string, before: Token, window: Token)
    requires n <= |sigs| && o.pending > 0
    requires forall k :: 0 <= k < n ==> !Closes(sigs, item, k)
    ensures Saw(o, ObserveAll(o, Follow(Busy(item, before, window, Complete(item) in sigs[..n]), sigs[n..])),
                [EpisodeOf(sigs, item, before, window)] + Episodes(sigs[CloseAt(sigs, item, 0)..], None), 1, 0)
    decreases |sigs| - n, 1
  {
    var t := Busy(item, before, window, Complete(item) in sigs[..n]);
    if n == |sigs| {
      BusyEnds(o, sigs, t);
    } else if Closes(sigs, item, n) {
      BusyCloses(o, sigs, n, t);
    } else {
      var s := sigs[n];
      assert sigs[n..][0] == s && sigs[n..][1..] == sigs[n + 1..];
      ObserveStep(o, t, sigs[n..]);
      BusyGoesOn(o, sigs, n, t);
      BusySees(ObserveAll(o, Next(t, s).1), sigs, n + 1, item, before, window);
    }
  }

  /** The turn ends before anything closed the episode. */
  lemma BusyEnds(o: Observed, sigs: seq<Signal>, t: Track)
    requires t.Busy? && o.pending > 0 && t.completed == (Complete(t.item) in sigs) && CloseAt(sigs, t.item, 0) == |sigs|
    ensures Saw(o, ObserveAll(o, Follow(t, sigs[|sigs|..])),
                [EpisodeOf(sigs, t.item, t.before, t.window)] + Episodes(sigs[CloseAt(sigs, t.item, 0)..], None), 1, 0)
    ensures sigs[..|sigs|] == sigs
  {
    assert sigs[..|sigs|] == sigs && sigs[|sigs|..] == [];
    var ep := EpisodeOf(sigs, t.item, t.before, t.window);
    EndSees(o, t, ep);
    assert [ep] + [] == [ep];
  }

  lemma EndSees(o: Observed, t: Track, ep: Episode)
    requires t.Busy? && o.pending > 0 && ep == Episode(t.before, t.window, t.completed, None, t.window)
    ensures Saw(o, ObserveAll(o, Follow(t, [])), [ep], 1, 0)
  {
    var end := CompactionEnd(t.before, None, t.window);
    ObserveOneOrTwo(o, end, end);
    assert Reports([ep]) == if ep.ended then [end] else [];
  }

  /** A signal that does not close the episode shows the observer at most a usage. */
  lemma BusyGoesOn(o: Observed, sigs: seq<Signal>, n: nat, t: Track)
    requires t.Busy? && n < |sigs| && t.completed == (Complete(t.item) in sigs[..n]) && !Closes(sigs, t.item, n)
    ensures Next(t, sigs[n]).0 == t.(completed := Complete(t.item) in sigs[..n + 1])
    ensures var seen := ObserveAll(o, Next(t, sigs[n]).1); seen.compactions == o.compactions && seen.pending == o.pending
  {
    assert sigs[..n + 1] == sigs[..n] + [sigs[n]];
  }

  lemma {:induction false} BusyCloses(o: Observed, sigs: seq<Signal>, n: nat, t: Track)
    requires t.Busy? && n < |sigs| && o.pending > 0 && t.completed == (Complete(t.item) in sigs[..n])
    requires CloseAt(sigs, t.item, 0) == n
    ensures Saw(o, ObserveAll(o, Follow(t, sigs[n..])), [EpisodeOf(sigs, t.item, t.before, t.window)] + Episodes(sigs[n..], None), 1, 0)
    decreases |sigs| - n, 0
  {
    var s, rest := sigs[n], sigs[n..][1..];
    var ep := EpisodeOf(sigs, t.item, t.before, t.window);
    ObserveStep(o, t, sigs[n..]);
    CloseSees(o, t, s, ep);
    var seen := ObserveAll(o, Next(t, s).1);
    match s
    case Use(used, at) =>
      IdleSees(seen, rest, Some((used, at)));
      SawBoth(o, seen, ObserveAll(o, Follow(t, sigs[n..])), [ep], Episodes(sigs[n..], None), 1, 0, 0);
    case Start(other) =>
      BusySees(seen, rest, 0, other, None, None);
      SawBoth(o, seen, ObserveAll(o, Follow(t, sigs[n..])), [ep], Episodes(sigs[n..], None), 1, 1, 0);
  }

  // ---- Starts and ends, at every moment ----

  lemma {:induction false} FollowBalances(o: Observed, t: Track, sigs: seq<Signal>, k: nat)
    requires k <= |Follow(t, sigs)| && (t.Busy? ==> o.pending > 0)
    ensures var seen := Follow(t, sigs)[..k];
            ObserveAll(o, seen).pending + Ends(seen) == o.pending + Starts(seen)
    decreases |sigs|
  {
    var all := Follow(t, sigs);
    if sigs == [] {
      assert k == 1 ==> all[..k] == all;
    } else {
      var events, next := Next(t, sigs[0]).1, Next(t, sigs[0]).0;
      NextBalances(o, t, sigs[0], if k < |events| then k else |events|);
      if k < |events| {
        assert all[..k] == events[..k];
      } else {
        assert events[..|events|] == events;
        var rest := Follow(next, sigs[1..])[..k - |events|];
        assert all[..k] == events + rest;
        ObserveSplits(o, events, rest);
        CountsSplit(events, rest);
        FollowBalances(ObserveAll(o, events), next, sigs[1..], k - |events|);
      }
    }
  }

  lemma NextBalances(o: Observed, t: Track, s: Signal, k: nat)
    requires k <= |Next(t, s).1| && (t.Busy? ==> o.pending > 0)
    ensures var seen := Next(t, s).1[..k];
            ObserveAll(o, seen).pending + Ends(seen) == o.pending + Starts(seen)
    ensures k == |Next(t, s).1| && Next(t, s).0.Busy? ==> ObserveAll(o, Next(t, s).1).pending > 0
  {
    var events := Next(t, s).1;
    assert k == |events| ==> events[..k] == events;
    if |events| > 0 {
      var last := events[|events| - 1];
      assert |events| == 1 ==> events == [last];
      assert |events| == 2 ==> events == [events[0], last] && events[..1] == [events[0]] && [events[0], last][1..] == [last];
      ObserveOneOrTwo(o, events[0], last);
      ObserveOneOrTwo(o, last, events[0]);
      assert Starts([last]) == if last.CompactionStart? then 1 else 0;
      assert Ends([last]) == if last.CompactionEnd? then 1 else 0;
    }
  }

  // ---- The final snapshot ----

  lemma NextFinal(o: Observed, t: Track, s: Signal)
    requires o.final.Some? ==> ValidSnapshot(o.final.value)
    ensures var final := ObserveAll(o, Next(t, s).1).final;
            && (final.Some? ==> ValidSnapshot(final.value))
            && (s.Use? ==> final == if ValidSnapshot(Usage(s.used, s.window)) then Some(Usage(s.used, s.window)) else None)
            && (!s.Use? && final.Some? ==> final == o.final)
            && (s.Use? && s.used.Some? ==> !(Next(t, s).0.Busy? && Next(t, s).0.completed))
  {
    var events := Next(t, s).1;
    if events != [] {
      var last := events[|events| - 1];
      assert |events| == 1 ==> events == [last];
      assert |events| == 2 ==> events == [events[0], last];
      ObserveOneOrTwo(o, events[0], last);
    }
  }

  function After(t: Track, sigs: seq<Signal>): Track
    decreases |sigs|
  {
    if sigs == [] then t else After(Next(t, sigs[0]).0, sigs[1..])
  }

  predicate NoUse(sigs: seq<Signal>) {
    forall s <- sigs :: !s.Use?
  }

  /** None of the signals means anything to the client: no start of another item, no completion of the pending one. */
  predicate Unmoved(t: Track, sigs: seq<Signal>) {
    forall s <- sigs :: Next(t, s) == (t, [])
  }

  /** Without a usage no final snapshot appears, and a completed compaction ends without one. */
  lemma {:induction false} NoneWithoutUse(o: Observed, t: Track, sigs: seq<Signal>)
    requires NoUse(sigs) && (o.final.None? || (t.Busy? && t.completed))
    ensures ObserveAll(o, Follow(t, sigs)).final.None?
    decreases |sigs|
  {
    if sigs == [] {
      if t.Busy? {
        ObserveOneOrTwo(o, Usage(None, None), CompactionEnd(t.before, None, t.window));
      }
    } else {
      ObserveStep(o, t, sigs);
      StartFinal(o, t, sigs[0]);
      NoneWithoutUse(ObserveAll(o, Next(t, sigs[0]).1), Next(t, sigs[0]).0, sigs[1..]);
    }
  }

  lemma StartFinal(o: Observed, t: Track, s: Signal)
    requires !s.Use?
    ensures ObserveAll(o, Next(t, s).1).final == if s.Start? && Next(t, s).0 != t then None else o.final
  {
    var events := Next(t, s).1;
    if events != [] {
      var last := events[|events| - 1];
      assert |events| == 1 ==> events == [last];
      assert |events| == 2 ==> events == [events[0], last];
      ObserveOneOrTwo(o, events[0], last);
    }
  }

  lemma {:induction false} FinalAfterUse(o: Observed, t: Track, sigs: seq<Signal>)
    requires NoUse(sigs) && o.final.Some? && (t.Busy? ==> !t.completed)
    ensures ObserveAll(o, Follow(t, sigs)).final == if Unmoved(t, sigs) then o.final else None
    decreases |sigs|
  {
    if sigs != [] {
      ObserveStep(o, t, sigs);
      StartFinal(o, t, sigs[0]);
      var seen, next := ObserveAll(o, Next(t, sigs[0]).1), Next(t, sigs[0]).0;
      if next == t && Next(t, sigs[0]).1 == [] {
        FinalAfterUse(seen, t, sigs[1..]);
        assert Unmoved(t, sigs) <==> Unmoved(t, sigs[1..]);
      } else {
        NoneWithoutUse(seen, next, sigs[1..]);
      }
    }
  }

  lemma {:induction false} FollowsLastUse(o: Observed, t: Track, before: seq<Signal>, use: Signal, rest: seq<Signal>)
    requires use.Use? && NoUse(rest) && (o.final.Some? ==> ValidSnapshot(o.final.value))
    ensures var event := Usage(use.used, use.window);
            ObserveAll(o, Follow(t, before + [use] + rest)).final ==
            if ValidSnapshot(event) && Unmoved(After(t, before + [use]), rest) then Some(event) else None
    decreases |before|
  {
    var sigs := before + [use] + rest;
    ObserveStep(o, t, sigs);
    NextFinal(o, t, sigs[0]);
    var seen, next := ObserveAll(o, Next(t, sigs[0]).1), Next(t, sigs[0]).0;
    if before == [] {
      assert sigs[1..] == rest && (before + [use])[1..] == [];
      if seen.final.Some? {
        FinalAfterUse(seen, next, rest);
      } else {
        NoneWithoutUse(seen, next, rest);
      }
    } else {
      assert sigs[1..] == before[1..] + [use] + rest && (before + [use])[1..] == before[1..] + [use];
      FollowsLastUse(seen, next, before[1..], use, rest);
    }
  }

  // ---- The theorems ----

  /**
   What a turn reports is what its episodes say: one compaction for each episode that ended, in order
   and with its token counts, and an incomplete compaction exactly when some episode was abandoned,
   that is replaced or cut off before its item completed. The context is settled again afterwards.
   The turn may end under its id or under whatever id the client recorded.
   */
  lemma TurnIsReported(c: Client, notices: seq<Notice>, thread: string, turn: string, id: string)
    requires turn != "" && Prepared(c, thread) && OneTurn(notices, thread, turn)
    requires id == turn || id == Run(c, notices).0.turnID
    ensures var seen := ObserveAll(NOTHING_OBSERVED, TurnEvents(c, notices, id));
            var episodes := Episodes(Heard(notices, thread, turn, false, Open(c, thread, turn)), None);
            seen.compactions == Reports(episodes) && seen.pending == Abandoned(episodes)
    ensures Settled(FinishContext(Run(c, notices).0, thread, id).0)
  {
    RunFollows(c, notices, thread, turn, false, Open(c, thread, turn), Idle(None), id);
    IdleSees(NOTHING_OBSERVED, Heard(notices, thread, turn, false, Open(c, thread, turn)), None);
  }

  /** At every moment of a turn no more compactions have ended than started, and pending is the difference. */
  lemma EndsNeverExceedStarts(c: Client, notices: seq<Notice>, thread: string, turn: string, id: string, k: nat)
    requires turn != "" && Prepared(c, thread) && OneTurn(notices, thread, turn)
    requires id == turn || id == Run(c, notices).0.turnID
    requires k <= |TurnEvents(c, notices, id)|
    ensures var seen := TurnEvents(c, notices, id)[..k];
            Ends(seen) <= Starts(seen) && ObserveAll(NOTHING_OBSERVED, seen).pending == Starts(seen) - Ends(seen)
  {
    RunFollows(c, notices, thread, turn, false, Open(c, thread, turn), Idle(None), id);
    FollowBalances(NOTHING_OBSERVED, Idle(None), Heard(notices, thread, turn, false, Open(c, thread, turn)), k);
  }

  /**
   The final snapshot is the last usage heard, exactly when it has both counts, both are positive, and
   nothing after it started another compaction or completed the pending one.
   */
  lemma FinalSnapshotIsLastUse(c: Client, notices: seq<Notice>, thread: string, turn: string, id: string,
                               before: seq<Signal>, used: Token, window: Token, rest: seq<Signal>)
    requires turn != "" && Prepared(c, thread) && OneTurn(notices, thread, turn)
    requires id == turn || id == Run(c, notices).0.turnID
    requires Heard(notices, thread, turn, false, Open(c, thread, turn)) == before + [Use(used, window)] + rest && NoUse(rest)
    ensures var final := ObserveAll(NOTHING_OBSERVED, TurnEvents(c, notices, id)).final;
            && (final == Some(Usage(used, window)) <==>
                  && used.Some? && used.value > 0 && window.Some? && window.value > 0
                  && Unmoved(After(Idle(None), before + [Use(used, window)]), rest))
            && (final.Some? ==> final == Some(Usage(used, window)))
  {
    RunFollows(c, notices, thread, turn, false, Open(c, thread, turn), Idle(None), id);
    FollowsLastUse(NOTHING_OBSERVED, Idle(None), before, Use(used, window), rest);
  }

  /** A turn that hears no usage has no final snapshot. */
  lemma NoFinalWithoutUse(c: Client, notices: seq<Notice>, thread: string, turn: string, id: string)
    requires turn != "" && Prepared(c, thread) && OneTurn(notices, thread, turn)
    requires id == turn || id == Run(c, notices).0.turnID
    requires NoUse(Heard(notices, thread, turn, false, Open(c, thread, turn)))
    ensures ObserveAll(NOTHING_OBSERVED, TurnEvents(c, notices, id)).final.None?
  {
    RunFollows(c, notices, thread, turn, false, Open(c, thread, turn), Idle(None), id);
    NoneWithoutUse(NOTHING_OBSERVED, Idle(None), Heard(notices, thread, turn, false, Open(c, thread, turn)));
  }

  /** Notifications after the turn is done are quiet, so the next prepareTurn finds the context settled. */
  lemma {:induction false} LateNoticesAreQuiet(c: Client, notices: seq<Notice>)
    requires c.turnDone && Settled(c)
    ensures Run(c, notices).1 == [] && Settled(Run(c, notices).0)
    ensures Run(c, notices).0.threadID == c.threadID && Run(c, notices).0.turnDone
    decreases |notices|
  {
    if notices != [] {
      LateNoticesAreQuiet(Handle(c, notices[0]).0, notices[1..]);
    }
  }
}
