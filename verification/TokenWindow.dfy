/**
 The Codex session scanner: one pass over a session file turns cumulative token counters into the
 usage of one time window. Over windows that tile the time line the usages telescope.
 Timestamps are integers; a missing (zero) timestamp or bound is None.
 */
module TokenWindow {
  import opened Wrappers

  datatype Raw = Raw(input: int, output: int, cachedInput: int, cacheReadInput: int)

  datatype Usage = Usage(input: int, output: int, cacheRead: int, cacheWrite: int)

  /** A line of the file: a turn_context naming a model, a token_count with info, or anything else. */
  datatype Entry =
    | Context(model: string)
    | Count(at: Option<int>, total: Option<Raw>, last: Option<Raw>, model: string)
    | Other

  datatype SessionUsage = SessionUsage(usage: Usage, model: string)

  const ZERO := Usage(0, 0, 0, 0)

  function Max(a: int, b: int): int {
    if a >= b then a else b
  }

  /** Codex totals include the cached input; the cached amount has two spellings. */
  function UsageOf(raw: Raw): Usage {
    var cached := if raw.cachedInput == 0 then raw.cacheReadInput else raw.cachedInput;
    Usage(Max(0, raw.input - cached), raw.output, cached, 0)
  }

  /** The parts of a usage: the cached input under whichever name it came, and what of the input was not cached. */
  lemma UsageAddsUp(raw: Raw)
    ensures var usage, cached := UsageOf(raw), if raw.cachedInput != 0 then raw.cachedInput else raw.cacheReadInput;
            && usage.cacheRead == cached && usage.output == raw.output && usage.cacheWrite == 0
            && (cached <= raw.input ==> usage.input + usage.cacheRead == raw.input)
            && (cached > raw.input ==> usage.input == 0)
  {
  }

  function Subtract(current: Usage, previous: Usage): Usage {
    Usage(Max(0, current.input - previous.input), Max(0, current.output - previous.output),
          Max(0, current.cacheRead - previous.cacheRead), Max(0, current.cacheWrite - previous.cacheWrite))
  }

  // ---- What the scan is meant to find ----

  /** A count without a timestamp is ignored as soon as the window has a start. */
  predicate Timed(e: Entry, started: Option<int>) {
    e.Count? && (started.None? || e.at.Some?)
  }

  predicate InWindow(e: Entry, started: Option<int>, finished: Option<int>) {
    Timed(e, started) &&
    (started.None? || e.at.None? || e.at.value >= started.value) &&
    (finished.None? || e.at.None? || e.at.value <= finished.value)
  }

  predicate IsBefore(e: Entry, started: Option<int>) {
    e.Count? && started.Some? && e.at.Some? && e.at.value < started.value
  }

  function TotalIn(e: Entry, started: Option<int>, finished: Option<int>): Option<Usage> {
    if InWindow(e, started, finished) && e.total.Some? then Some(UsageOf(e.total.value)) else None
  }

  /** The total if there is one, otherwise the usage of the last request. */
  function ReportedIn(e: Entry, started: Option<int>, finished: Option<int>): Option<Usage> {
    if !InWindow(e, started, finished) then None
    else if e.total.Some? then Some(UsageOf(e.total.value))
    else if e.last.Some? then Some(UsageOf(e.last.value))
    else None
  }

  function TotalBefore(e: Entry, started: Option<int>): Option<Usage> {
    if IsBefore(e, started) && e.total.Some? then Some(UsageOf(e.total.value)) else None
  }

  function ModelIn(e: Entry, started: Option<int>, finished: Option<int>): Option<string> {
    match e
    case Context(model) => if model != "" then Some(model) else None
    case Count(_, _, _, model) => if ReportedIn(e, started, finished).Some? && model != "" then Some(model) else None
    case Other => None
  }

  /** The last entry, in file order, that yields something. */
  function Last<T>(entries: seq<Entry>, pick: Entry -> Option<T>): Option<T> {
    if entries == [] then None
    else
      var found := pick(entries[|entries| - 1]);
      if found.Some? then found else Last(entries[..|entries| - 1], pick)
  }

  function LastTotalIn(entries: seq<Entry>, started: Option<int>, finished: Option<int>): Option<Usage> {
    Last(entries, e => TotalIn(e, started, finished))
  }

  function LastReportedIn(entries: seq<Entry>, started: Option<int>, finished: Option<int>): Option<Usage> {
    Last(entries, e => ReportedIn(e, started, finished))
  }

  function LastTotalBefore(entries: seq<Entry>, started: Option<int>): Option<Usage> {
    Last(entries, e => TotalBefore(e, started))
  }

  function LastModelIn(entries: seq<Entry>, started: Option<int>, finished: Option<int>): Option<string> {
    Last(entries, e => ModelIn(e, started, finished))
  }

  /** The usage of a window: the last total in it minus the last total before it, or, when either
      is missing, the last usage reported in it; nothing when nothing was reported in it. */
  function WindowUsage(entries: seq<Entry>, started: Option<int>, finished: Option<int>): Option<SessionUsage> {
    var reported := LastReportedIn(entries, started, finished);
    var within, before := LastTotalIn(entries, started, finished), LastTotalBefore(entries, started);
    var model := LastModelIn(entries, started, finished);
    if reported.None? then None
    else
      Some(SessionUsage(if within.Some? && before.Some? then Subtract(within.value, before.value) else reported.value,
                        if model.Some? then model.value else ""))
  }

  // ---- The scan ----

  method ParseWindow(entries: seq<Entry>, started: Option<int>, finished: Option<int>) returns (r: Option<SessionUsage>)
    ensures r == WindowUsage(entries, started, finished)
  {
    var usage, model, found := ZERO, "", false;
    var totalBefore: Option<Usage>, totalInWindow: Option<Usage> := None, None;
    for i := 0 to |entries|
      invariant totalBefore == LastTotalBefore(entries[..i], started)
      invariant totalInWindow == LastTotalIn(entries[..i], started, finished)
      invariant found == LastReportedIn(entries[..i], started, finished).Some?
      invariant usage == OrZero(LastReportedIn(entries[..i], started, finished))
      invariant LastModelIn(entries[..i], started, finished) == if model == "" then None else Some(model)
    {
      var e := entries[i];
      assert entries[..i + 1][..i] == entries[..i];
      if e.Context? && e.model != "" {
        model := e.model;
        continue;
      }
      if e.Count? {
        if started.Some? && e.at.None? {
          continue;
        }
        var inWindow := (started.None? || e.at.None? || !(e.at.value < started.value)) &&
                        (finished.None? || e.at.None? || !(e.at.value > finished.value));
        if !inWindow {
          if started.Some? && e.at.Some? && e.at.value < started.value && e.total.Some? {
            totalBefore := Some(UsageOf(e.total.value));
          }
          continue;
        }
        var raw := e.total;
        if raw.None? {
          raw := e.last;
        }
        if raw.Some? {
          usage := UsageOf(raw.value);
          if e.total.Some? {
            totalInWindow := Some(usage);
          }
          if e.model != "" {
            model := e.model;
          }
          found := true;
        }
      }
    }
    assert entries[..|entries|] == entries;
    if totalInWindow.Some? && totalBefore.Some? {
      usage := Subtract(totalInWindow.value, totalBefore.value);
    }
    return if found then Some(SessionUsage(usage, model)) else None;
  }

  function OrZero(usage: Option<Usage>): Usage {
    if usage.Some? then usage.value else ZERO
  }

  // ---- Windows that tile the time line ----

  /** Every count carries a timestamp and a cumulative total, and timestamps do not go back. */
  ghost predicate Cumulative(entries: seq<Entry>) {
    && (forall i | 0 <= i < |entries| && entries[i].Count? :: entries[i].at.Some? && entries[i].total.Some?)
    && (forall i, j | 0 <= i < j < |entries| && entries[i].Count? && entries[j].Count? ::
          entries[i].at.value <= entries[j].at.value)
  }

  /** The cumulative usage just before time t. */
  function UpTo(entries: seq<Entry>, t: int): Option<Usage> {
    LastTotalBefore(entries, Some(t))
  }

  /** The usage reported for the window from lo up to, not including, hi. */
  function UsedBetween(entries: seq<Entry>, lo: int, hi: int): Usage {
    var r := WindowUsage(entries, Some(lo), Some(hi - 1));
    if r.Some? then r.value.usage else ZERO
  }

  /** In a sorted file the last total of the window is the cumulative usage at its end, unless the
      window is empty and the cumulative usage has not moved. */
  lemma {:induction false} WindowEnd(entries: seq<Entry>, lo: int, hi: int)
    requires Cumulative(entries) && lo <= hi
    ensures var within := LastTotalIn(entries, Some(lo), Some(hi - 1));
            && within == LastReportedIn(entries, Some(lo), Some(hi - 1))
            && (within.Some? ==> UpTo(entries, hi) == within)
            && (within.None? ==> UpTo(entries, hi) == UpTo(entries, lo))
  {
    if entries != [] {
      var front, e := entries[..|entries| - 1], entries[|entries| - 1];
      assert Cumulative(front);
      WindowEnd(front, lo, hi);
      if e.Count? && e.at.value < lo {
        NothingInWindow(front, lo, hi);
      }
    }
  }

  lemma {:induction false} NothingInWindow(entries: seq<Entry>, lo: int, hi: int)
    requires forall i | 0 <= i < |entries| && entries[i].Count? :: entries[i].at.Some? && entries[i].at.value < lo
    ensures LastTotalIn(entries, Some(lo), Some(hi - 1)) == None
    ensures LastReportedIn(entries, Some(lo), Some(hi - 1)) == None
  {
    if entries != [] {
      NothingInWindow(entries[..|entries| - 1], lo, hi);
    }
  }

  datatype Field = Input | Output | CacheRead

  function Amount(usage: Usage, field: Field): int {
    match field
    case Input => usage.input
    case Output => usage.output
    case CacheRead => usage.cacheRead
  }

  /** The counter did not go down between lo and hi (a first total counts from nothing). */
  predicate NoReset(entries: seq<Entry>, field: Field, lo: int, hi: int) {
    UpTo(entries, lo).Some? ==> Amount(UpTo(entries, lo).value, field) <= Amount(OrZero(UpTo(entries, hi)), field)
  }

  /** One window counts exactly the growth of the counter, or more when the counter went down. */
  lemma WindowCountsGrowth(entries: seq<Entry>, field: Field, lo: int, hi: int)
    requires Cumulative(entries) && lo <= hi
    ensures var growth := Amount(OrZero(UpTo(entries, hi)), field) - Amount(OrZero(UpTo(entries, lo)), field);
            var used := Amount(UsedBetween(entries, lo, hi), field);
            used >= growth && (used == growth <==> NoReset(entries, field, lo, hi))
  {
    WindowEnd(entries, lo, hi);
  }

  /** The usages of the windows between consecutive cuts, added up. */
  function TotalUsed(entries: seq<Entry>, field: Field, cuts: seq<int>): int {
    if |cuts| < 2 then 0
    else
      TotalUsed(entries, field, cuts[..|cuts| - 1])
      + Amount(UsedBetween(entries, cuts[|cuts| - 2], cuts[|cuts| - 1]), field)
  }

  /**
   Conservation: over windows that tile the time from the first cut to the last, the usages add up
   to the growth of the counter over the whole time if and only if no window saw it go down;
   otherwise they add up to more.
   */
  lemma {:induction false} TilesTelescope(entries: seq<Entry>, field: Field, cuts: seq<int>)
    requires Cumulative(entries) && cuts != [] && forall i, j | 0 <= i < j < |cuts| :: cuts[i] <= cuts[j]
    ensures var growth := Amount(OrZero(UpTo(entries, cuts[|cuts| - 1])), field) - Amount(OrZero(UpTo(entries, cuts[0])), field);
            && TotalUsed(entries, field, cuts) >= growth
            && (TotalUsed(entries, field, cuts) == growth <==>
                  forall i, j | 0 <= i && j == i + 1 < |cuts| :: NoReset(entries, field, cuts[i], cuts[j]))
  {
    if |cuts| > 1 {
      var n := |cuts| - 1;
      var front := cuts[..n];
      TilesTelescope(entries, field, front);
      WindowCountsGrowth(entries, field, cuts[n - 1], cuts[n]);
      assert forall i, j | 0 <= i && j == i + 1 < n ::
          NoReset(entries, field, front[i], front[j]) <==> NoReset(entries, field, cuts[i], cuts[j]);
    }
  }
}
