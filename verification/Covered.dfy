/**
 The duration oracle: the length of the union of half-open intervals by one sweep over the sorted
 list. The length of a union is defined independently of any sweep: cut the union into its
 components, which are unique, and add up their lengths.
 */
module Covered {
  import opened Wrappers

  datatype Interval = Interval(start: real, end: real)

  /** The point x is covered by one of the intervals. */
  ghost predicate Inside(x: real, intervals: seq<Interval>) {
    exists i | i in intervals :: i.start <= x < i.end
  }

  ghost predicate SamePoints(a: seq<Interval>, b: seq<Interval>) {
    forall x: real :: Inside(x, a) <==> Inside(x, b)
  }

  /** Nonempty intervals in order with a gap between any two of them. */
  ghost predicate Components(parts: seq<Interval>) {
    && (forall i | 0 <= i < |parts| :: parts[i].start < parts[i].end)
    && (forall i, j | 0 <= i < j < |parts| :: parts[i].end < parts[j].start)
  }

  function Length(parts: seq<Interval>): real {
    if parts == [] then 0.0 else Length(parts[..|parts| - 1]) + (parts[|parts| - 1].end - parts[|parts| - 1].start)
  }

  /** The length of the union: the union has components whose lengths add up to it. */
  ghost predicate IsMeasure(total: real, intervals: seq<Interval>) {
    exists parts: seq<Interval> :: Components(parts) && SamePoints(parts, intervals) && total == Length(parts)
  }

  // ---- The components of a union are unique ----

  lemma FirstPoint(parts: seq<Interval>, x: real)
    requires Components(parts) && Inside(x, parts)
    ensures parts != [] && parts[0].start <= x && Inside(parts[0].start, parts)
    ensures x < parts[0].end || Inside(x, parts[1..])
  {
    var part :| part in parts && part.start <= x < part.end;
    var k :| 0 <= k < |parts| && parts[k] == part;
    assert parts[0] in parts;
    assert k > 0 ==> parts[1..][k - 1] == part;
  }

  lemma GapAfterFirst(parts: seq<Interval>)
    requires Components(parts) && parts != []
    ensures !Inside(parts[0].end, parts)
  {
    forall part | part in parts
      ensures !(part.start <= parts[0].end < part.end)
    {
      var k :| 0 <= k < |parts| && parts[k] == part;
    }
  }

  lemma RestStartsLater(parts: seq<Interval>, x: real)
    requires Components(parts) && parts != []
    ensures Inside(x, parts[1..]) <==> Inside(x, parts) && parts[0].end <= x
  {
    if Inside(x, parts[1..]) {
      var part :| part in parts[1..] && part.start <= x < part.end;
      assert part in parts;
    } else if Inside(x, parts) {
      FirstPoint(parts, x);
    }
  }

  lemma FirstCovers(parts: seq<Interval>, x: real)
    requires Components(parts)
    ensures parts != [] ==> Inside(parts[0].start, parts) && (parts[0].start <= x < parts[0].end ==> Inside(x, parts))
  {
    if parts != [] {
      assert parts[0] in parts;
    }
  }

  lemma SameFirst(p: seq<Interval>, q: seq<Interval>)
    requires Components(p) && Components(q) && SamePoints(p, q) && p != [] && q != []
    ensures p[0] == q[0]
  {
    FirstCovers(p, q[0].end);
    FirstCovers(q, p[0].end);
    FirstPoint(q, p[0].start);
    FirstPoint(p, q[0].start);
    GapAfterFirst(p);
    GapAfterFirst(q);
  }

  lemma SameRest(p: seq<Interval>, q: seq<Interval>)
    requires Components(p) && Components(q) && SamePoints(p, q) && p != [] && q != [] && p[0] == q[0]
    ensures Components(p[1..]) && Components(q[1..]) && SamePoints(p[1..], q[1..])
  {
    forall x: real
      ensures Inside(x, p[1..]) <==> Inside(x, q[1..])
    {
      RestStartsLater(p, x);
      RestStartsLater(q, x);
    }
  }

  lemma {:induction false} ComponentsAreUnique(p: seq<Interval>, q: seq<Interval>)
    requires Components(p) && Components(q) && SamePoints(p, q)
    ensures p == q
  {
    if p == [] || q == [] {
      FirstCovers(p, 0.0);
      FirstCovers(q, 0.0);
    } else {
      SameFirst(p, q);
      SameRest(p, q);
      ComponentsAreUnique(p[1..], q[1..]);
      assert p == [p[0]] + p[1..] && q == [q[0]] + q[1..];
    }
  }

  /** The length of a union is well defined, and depends on the covered points alone. */
  lemma MeasureIsUnique(a: seq<Interval>, b: seq<Interval>, total: real, total': real)
    requires SamePoints(a, b) && IsMeasure(total, a) && IsMeasure(total', b)
    ensures total == total'
  {
    var p :| Components(p) && SamePoints(p, a) && total == Length(p);
    var q :| Components(q) && SamePoints(q, b) && total' == Length(q);
    assert forall x: real :: Inside(x, p) <==> Inside(x, a);
    assert forall x: real :: Inside(x, q) <==> Inside(x, b);
    ComponentsAreUnique(p, q);
  }

  // ---- Sorting ----

  predicate LexLess(a: Interval, b: Interval) {
    a.start < b.start || (a.start == b.start && a.end <= b.end)
  }

  function Insert(sorted: seq<Interval>, i: Interval): (r: seq<Interval>)
    requires forall a, b | 0 <= a < b < |sorted| :: LexLess(sorted[a], sorted[b])
    ensures forall a, b | 0 <= a < b < |r| :: LexLess(r[a], r[b])
    ensures forall j :: j in r <==> j in sorted || j == i
  {
    if sorted == [] then [i]
    else
      var front, last := sorted[..|sorted| - 1], sorted[|sorted| - 1];
      assert forall j :: j in sorted <==> j in front || j == last;
      if LexLess(last, i) then
        assert forall a | 0 <= a < |front| :: LexLess(sorted[a], last);
        sorted + [i]
      else
        var r := Insert(front, i);
        assert forall a | 0 <= a < |r| :: LexLess(r[a], last) by {
          forall a | 0 <= a < |r|
            ensures LexLess(r[a], last)
          {
            assert r[a] in front || r[a] == i;
          }
        }
        r + [last]
  }

  /** The intervals by start, then by end. */
  function Sort(intervals: seq<Interval>): (r: seq<Interval>)
    ensures forall a, b | 0 <= a < b < |r| :: LexLess(r[a], r[b])
    ensures forall j :: j in r <==> j in intervals
  {
    if intervals == [] then []
    else
      var front, last := intervals[..|intervals| - 1], intervals[|intervals| - 1];
      assert intervals == front + [last];
      Insert(Sort(front), last)
  }

  // ---- The sweep ----

  datatype Error = Reversed

  /** The first i intervals cover the closed components and the open one from lo to end. */
  ghost predicate Swept(sorted: seq<Interval>, i: nat, closed: seq<Interval>, lo: real, end: real)
    requires i <= |sorted|
  {
    && Components(closed) && lo <= end
    && (forall k | 0 <= k < |closed| :: closed[k].end < lo)
    && SweptPoints(sorted[..i], closed, lo, end)
  }

  ghost predicate SweptPoints(prefix: seq<Interval>, closed: seq<Interval>, lo: real, end: real) {
    forall x: real :: Inside(x, prefix) <==> Inside(x, closed) || lo <= x < end
  }

  method UnionLength(intervals: seq<Interval>) returns (r: Result<real, Error>)
    ensures r == Err(Reversed) <==> exists i | i in intervals :: i.end < i.start
    ensures r.Ok? ==> IsMeasure(r.value, intervals)
  {
    if exists i | i in intervals :: i.end < i.start {
      return Err(Reversed);
    }
    var sorted := Sort(intervals);
    forall k | 0 <= k < |sorted|
      ensures sorted[k].start <= sorted[k].end
    {
      assert sorted[k] in sorted;
    }
    var total := Sweep(sorted);
    SameMeasure(total, sorted, intervals);
    return Ok(total);
  }

  /** The loop of the oracle. */
  method Sweep(sorted: seq<Interval>) returns (total: real)
    requires forall k | 0 <= k < |sorted| :: sorted[k].start <= sorted[k].end
    requires forall j, k | 0 <= j < k < |sorted| :: sorted[j].start <= sorted[k].start
    ensures IsMeasure(total, sorted)
  {
    var end: Option<real> := None;
    total := 0.0;
    ghost var closed: seq<Interval>, lo := [], 0.0;
    for i := 0 to |sorted|
      invariant Sweeping(sorted, i, end, total, closed, lo)
    {
      var a, b := sorted[i].start, sorted[i].end;
      if end.None? || a > end.value {
        SweepOpens(sorted, i, end, total, closed, lo);
        closed := if end.Some? then Closed(closed, lo, end.value) else [];
        lo := a;
        total := total + (b - a);
        end := Some(b);
      } else if b > end.value {
        SweepExtends(sorted, i, end.value, total, closed, lo, b);
        total := total + (b - end.value);
        end := Some(b);
      } else {
        SweepExtends(sorted, i, end.value, total, closed, lo, end.value);
      }
    }
    AllSwept(sorted, end, total, closed, lo);
  }

  lemma SameMeasure(total: real, sorted: seq<Interval>, intervals: seq<Interval>)
    requires IsMeasure(total, sorted) && (forall j :: j in sorted <==> j in intervals)
    ensures IsMeasure(total, intervals)
  {
    var parts :| Components(parts) && SamePoints(parts, sorted) && total == Length(parts);
    assert SamePoints(sorted, intervals);
    assert SamePoints(parts, intervals);
  }

  /** The sweep before interval i: the closed components, the open one from lo to end, and the length so far. */
  ghost predicate Sweeping(sorted: seq<Interval>, i: nat, end: Option<real>, total: real, closed: seq<Interval>, lo: real) {
    i <= |sorted| &&
    if end.None? then i == 0 && total == 0.0 && closed == []
    else i > 0 && Swept(sorted, i, closed, lo, end.value) && lo <= sorted[i - 1].start && total == Length(closed) + (end.value - lo)
  }

  lemma SweepOpens(sorted: seq<Interval>, i: nat, end: Option<real>, total: real, closed: seq<Interval>, lo: real)
    requires i < |sorted| && sorted[i].start <= sorted[i].end && Sweeping(sorted, i, end, total, closed, lo)
    requires end.Some? ==> sorted[i].start > end.value
    ensures Sweeping(sorted, i + 1, Some(sorted[i].end), total + (sorted[i].end - sorted[i].start),
                     if end.Some? then Closed(closed, lo, end.value) else [], sorted[i].start)
  {
    if end.Some? {
      NextComponent(sorted, i, closed, lo, end.value);
    } else {
      OpenComponent(sorted, i, closed);
    }
  }

  lemma SweepExtends(sorted: seq<Interval>, i: nat, end: real, total: real, closed: seq<Interval>, lo: real, later: real)
    requires i < |sorted| && Sweeping(sorted, i, Some(end), total, closed, lo)
    requires sorted[i].start <= end && later == (if sorted[i].end > end then sorted[i].end else end)
    requires i > 0 ==> sorted[i - 1].start <= sorted[i].start
    ensures Sweeping(sorted, i + 1, Some(later), total + (later - end), closed, lo)
  {
    ExtendComponent(sorted, i, closed, lo, end, later);
  }

  /** The sweep passes a gap: the open component closes and the next interval opens one. */
  lemma NextComponent(sorted: seq<Interval>, i: nat, closed: seq<Interval>, lo: real, end: real)
    requires i < |sorted| && Swept(sorted, i, closed, lo, end) && end < sorted[i].start <= sorted[i].end
    ensures Swept(sorted, i + 1, Closed(closed, lo, end), sorted[i].start, sorted[i].end)
    ensures Length(Closed(closed, lo, end)) == Length(closed) + (end - lo)
  {
    CloseComponent(sorted, i, closed, lo, end, sorted[i].start);
    OpenComponent(sorted, i, Closed(closed, lo, end));
  }

  lemma AllSwept(sorted: seq<Interval>, end: Option<real>, total: real, closed: seq<Interval>, lo: real)
    requires Sweeping(sorted, |sorted|, end, total, closed, lo)
    ensures IsMeasure(total, sorted)
  {
    if end.Some? {
      CloseComponent(sorted, |sorted|, closed, lo, end.value, end.value + 1.0);
      assert sorted[..|sorted|] == sorted;
      assert SamePoints(Closed(closed, lo, end.value), sorted);
    } else {
      assert Components([]) && SamePoints([], sorted) && total == Length([]);
    }
  }

  lemma OpenComponent(sorted: seq<Interval>, i: nat, closed: seq<Interval>)
    requires i < |sorted| && sorted[i].start <= sorted[i].end && Components(closed)
    requires forall k | 0 <= k < |closed| :: closed[k].end < sorted[i].start
    requires SamePoints(sorted[..i], closed)
    ensures Swept(sorted, i + 1, closed, sorted[i].start, sorted[i].end)
  {
    assert sorted[..i + 1] == sorted[..i] + [sorted[i]];
    OpenPoints(sorted[..i], sorted[..i + 1], sorted[i], closed);
  }

  lemma OpenPoints(prefix: seq<Interval>, longer: seq<Interval>, next: Interval, closed: seq<Interval>)
    requires longer == prefix + [next] && SamePoints(prefix, closed)
    ensures SweptPoints(longer, closed, next.start, next.end)
  {
    forall x: real
      ensures Inside(x, longer) <==> Inside(x, closed) || next.start <= x < next.end
    {
      PointNext(prefix, longer, next, x);
    }
  }

  lemma ExtendComponent(sorted: seq<Interval>, i: nat, closed: seq<Interval>, lo: real, end: real, later: real)
    requires i < |sorted| && Swept(sorted, i, closed, lo, end) && lo <= sorted[i].start <= end
    requires later == if sorted[i].end > end then sorted[i].end else end
    ensures Swept(sorted, i + 1, closed, lo, later)
  {
    assert sorted[..i + 1] == sorted[..i] + [sorted[i]];
    ExtendPoints(sorted[..i], sorted[..i + 1], sorted[i], closed, lo, end, later);
  }

  lemma ExtendPoints(prefix: seq<Interval>, longer: seq<Interval>, next: Interval, closed: seq<Interval>, lo: real, end: real, later: real)
    requires longer == prefix + [next] && SweptPoints(prefix, closed, lo, end) && lo <= next.start <= end
    requires later == if next.end > end then next.end else end
    ensures SweptPoints(longer, closed, lo, later)
  {
    forall x: real
      ensures Inside(x, longer) <==> Inside(x, closed) || lo <= x < later
    {
      PointNext(prefix, longer, next, x);
      assert Inside(x, prefix) <==> Inside(x, closed) || lo <= x < end;
    }
  }

  lemma PointNext(prefix: seq<Interval>, longer: seq<Interval>, next: Interval, x: real)
    requires longer == prefix + [next]
    ensures Inside(x, longer) <==> Inside(x, prefix) || next.start <= x < next.end
  {
    assert next in longer;
  }

  /** The components once the open one, unless it is empty, is closed. */
  ghost function Closed(closed: seq<Interval>, lo: real, end: real): seq<Interval> {
    if lo == end then closed else closed + [Interval(lo, end)]
  }

  lemma LastInside(closed: seq<Interval>, lo: real, end: real, x: real)
    ensures Inside(x, closed + [Interval(lo, end)]) <==> Inside(x, closed) || lo <= x < end
  {
    var parts := closed + [Interval(lo, end)];
    assert parts[|closed|] in parts;
    assert forall part | part in parts :: part in closed || part == Interval(lo, end);
  }

  lemma ClosedLength(closed: seq<Interval>, lo: real, end: real)
    ensures Length(Closed(closed, lo, end)) == Length(closed) + (end - lo)
  {
    assert (closed + [Interval(lo, end)])[..|closed|] == closed;
  }

  lemma ClosedInside(closed: seq<Interval>, lo: real, end: real, x: real)
    requires lo <= end
    ensures Inside(x, Closed(closed, lo, end)) <==> Inside(x, closed) || lo <= x < end
  {
    LastInside(closed, lo, end, x);
  }

  lemma ClosedComponents(closed: seq<Interval>, lo: real, end: real, next: real)
    requires Components(closed) && lo <= end < next && forall k | 0 <= k < |closed| :: closed[k].end < lo
    ensures Components(Closed(closed, lo, end))
    ensures forall k | 0 <= k < |Closed(closed, lo, end)| :: Closed(closed, lo, end)[k].end < next
  {
  }

  lemma CloseComponent(sorted: seq<Interval>, i: nat, closed: seq<Interval>, lo: real, end: real, next: real)
    requires i <= |sorted| && Swept(sorted, i, closed, lo, end) && end < next
    ensures Components(Closed(closed, lo, end)) && Length(Closed(closed, lo, end)) == Length(closed) + (end - lo)
    ensures forall k | 0 <= k < |Closed(closed, lo, end)| :: Closed(closed, lo, end)[k].end < next
    ensures SamePoints(sorted[..i], Closed(closed, lo, end))
  {
    ClosedLength(closed, lo, end);
    ClosedComponents(closed, lo, end, next);
    ClosePoints(sorted[..i], closed, Closed(closed, lo, end), lo, end);
  }

  lemma ClosePoints(prefix: seq<Interval>, closed: seq<Interval>, more: seq<Interval>, lo: real, end: real)
    requires SweptPoints(prefix, closed, lo, end) && lo <= end && more == Closed(closed, lo, end)
    ensures SamePoints(prefix, more)
  {
    forall x: real
      ensures Inside(x, prefix) <==> Inside(x, more)
    {
      ClosedInside(closed, lo, end, x);
    }
  }
}
