/**
 The batching oracle: split a list of strings, in order, into batches that respect a count limit
 and a UTF-8 byte limit. The greedy split is proved to use the fewest batches of any such split.
 */
module Batches {
  import opened Collections
  import opened Wrappers

  /** The number of bytes of a character in UTF-8. */
  function CharBytes(c: char): nat {
    if c as int < 0x80 then 1 else if c as int < 0x800 then 2 else if c as int < 0x1_0000 then 3 else 4
  }

  function Bytes(item: string): nat {
    if item == "" then 0 else CharBytes(item[0]) + Bytes(item[1..])
  }

  /** UTF-8 as section 3 of RFC 3629 has it, and the bytes of a string add up. */
  lemma BytesMeans(c: char, rest: string)
    ensures var code := c as int;
            Bytes([c] + rest) == Bytes(rest) +
              if code <= 0x7F then 1 else if code <= 0x7FF then 2 else if code <= 0xFFFF then 3 else 4
  {
    assert ([c] + rest)[1..] == rest;
  }

  function Size(batch: seq<string>): nat {
    if batch == [] then 0 else Size(batch[..|batch| - 1]) + Bytes(batch[|batch| - 1])
  }

  function Concat(split: seq<seq<string>>): seq<string> {
    if split == [] then [] else Concat(split[..|split| - 1]) + split[|split| - 1]
  }

  /** A batch that may be emitted. */
  predicate Fits(batch: seq<string>, maxItems: int, maxBytes: int) {
    batch != [] && |batch| <= maxItems && Size(batch) <= maxBytes
  }

  /** An order-preserving split of items into nonempty batches within both limits. */
  ghost predicate IsSplit(split: seq<seq<string>>, items: seq<string>, maxItems: int, maxBytes: int) {
    Concat(split) == items && forall batch | batch in split :: Fits(batch, maxItems, maxBytes)
  }

  /** Taking the first item of the next batch into this one would break a limit. */
  predicate Full(batch: seq<string>, next: seq<string>, maxItems: int, maxBytes: int) {
    next != [] && !Fits(batch + [next[0]], maxItems, maxBytes)
  }

  /** Every batch but the last is full. */
  ghost predicate Greedy(split: seq<seq<string>>, maxItems: int, maxBytes: int) {
    forall i, j | 0 <= i && j == i + 1 < |split| :: Full(split[i], split[j], maxItems, maxBytes)
  }

  datatype Error = Limits | Oversized

  /** The oracle; Python raises ValueError in both error cases. */
  method SplitIntoBatches(items: seq<string>, maxItems: int, maxBytes: int) returns (r: Result<seq<seq<string>>, Error>)
    ensures r == Err(Limits) <==> maxItems <= 0 || maxBytes < 0
    ensures r == Err(Oversized) <==> maxItems > 0 && maxBytes >= 0 && exists item | item in items :: Bytes(item) > maxBytes
    ensures r.Ok? ==> IsSplit(r.value, items, maxItems, maxBytes)
    ensures r.Ok? ==> forall other | IsSplit(other, items, maxItems, maxBytes) :: |r.value| <= |other|
  {
    if maxItems <= 0 || maxBytes < 0 {
      return Err(Limits);
    }
    var oversized, result, group := Gather(items, maxItems, maxBytes);
    if oversized {
      return Err(Oversized);
    }
    if group != [] {
      LastGroup(result, group, items, maxItems, maxBytes);
      result := result + [group];
    }
    FewestOfAll(result, items, maxItems, maxBytes);
    return Ok(result);
  }

  /** The loop of the oracle: the emitted batches and the open one, unless an item is too large. */
  method Gather(items: seq<string>, maxItems: int, maxBytes: int)
    returns (oversized: bool, result: seq<seq<string>>, group: seq<string>)
    requires maxItems > 0 && maxBytes >= 0
    ensures oversized <==> exists item | item in items :: Bytes(item) > maxBytes
    ensures !oversized ==> Grouped(result, group, items, maxItems, maxBytes)
  {
    oversized, result, group := false, [], [];
    var size := 0;
    for i := 0 to |items|
      invariant forall j | 0 <= j < i :: Bytes(items[j]) <= maxBytes
      invariant Grouped(result, group, items[..i], maxItems, maxBytes) && size == Size(group)
    {
      var item := items[i];
      var n := Bytes(item);
      if n > maxBytes {
        return true, result, group;
      }
      assert items[..i + 1] == items[..i] + [item];
      if group != [] && (|group| >= maxItems || size + n > maxBytes) {
        StartGroup(result, group, items[..i], item, maxItems, maxBytes);
        result := result + [group];
        group := [];
        size := 0;
      } else {
        ExtendGroup(result, group, items[..i], item, maxItems, maxBytes);
      }
      group := group + [item];
      size := size + n;
    }
    assert items[..|items|] == items;
  }

  /** The groups so far: result holds the emitted ones, group the open one. */
  ghost predicate Grouped(result: seq<seq<string>>, group: seq<string>, taken: seq<string>, maxItems: int, maxBytes: int) {
    && Concat(result) + group == taken
    && Size(group) <= maxBytes && |group| <= maxItems && (group == [] ==> result == [])
    && (forall batch | batch in result :: Fits(batch, maxItems, maxBytes))
    && Greedy(result + [group], maxItems, maxBytes)
  }

  lemma StartGroup(result: seq<seq<string>>, group: seq<string>, taken: seq<string>, item: string, maxItems: int, maxBytes: int)
    requires Grouped(result, group, taken, maxItems, maxBytes) && group != []
    requires maxItems > 0 && Bytes(item) <= maxBytes && (|group| >= maxItems || Size(group) + Bytes(item) > maxBytes)
    ensures Grouped(result + [group], [] + [item], taken + [item], maxItems, maxBytes)
    ensures Size([] + [item]) == Bytes(item)
  {
    SizeGrows(group, item);
    SizeGrows([], item);
    GreedyStarts(result, group, item, maxItems, maxBytes);
    ConcatGrows(result, group);
    assert [] + [item] == [item];
  }

  lemma ExtendGroup(result: seq<seq<string>>, group: seq<string>, taken: seq<string>, item: string, maxItems: int, maxBytes: int)
    requires Grouped(result, group, taken, maxItems, maxBytes)
    requires |group| < maxItems && Size(group) + Bytes(item) <= maxBytes
    ensures Grouped(result, group + [item], taken + [item], maxItems, maxBytes)
    ensures Size(group + [item]) == Size(group) + Bytes(item)
  {
    SizeGrows(group, item);
    GreedyExtends(result, group, item, maxItems, maxBytes);
    Reassociate(Concat(result), group, [item]);
  }

  lemma LastGroup(result: seq<seq<string>>, group: seq<string>, items: seq<string>, maxItems: int, maxBytes: int)
    requires Grouped(result, group, items, maxItems, maxBytes) && group != []
    ensures IsSplit(result + [group], items, maxItems, maxBytes)
  {
    ConcatGrows(result, group);
  }

  lemma FewestOfAll(result: seq<seq<string>>, items: seq<string>, maxItems: int, maxBytes: int)
    requires IsSplit(result, items, maxItems, maxBytes) && Greedy(result, maxItems, maxBytes)
    ensures forall other | IsSplit(other, items, maxItems, maxBytes) :: |result| <= |other|
  {
    forall other | IsSplit(other, items, maxItems, maxBytes)
      ensures |result| <= |other|
    {
      GreedyIsFewest(result, other, items, maxItems, maxBytes);
    }
  }

  /** The last batch of a greedy split may grow. */
  lemma GreedyExtends(result: seq<seq<string>>, group: seq<string>, item: string, maxItems: int, maxBytes: int)
    requires Greedy(result + [group], maxItems, maxBytes) && (group == [] ==> result == [])
    ensures Greedy(result + [group + [item]], maxItems, maxBytes)
  {
    var before, after := result + [group], result + [group + [item]];
    forall i, j | 0 <= i && j == i + 1 < |after|
      ensures Full(after[i], after[j], maxItems, maxBytes)
    {
      assert Full(before[i], before[j], maxItems, maxBytes);
    }
  }

  /** When the next item does not fit the last batch, it may start a batch of its own. */
  lemma GreedyStarts(result: seq<seq<string>>, group: seq<string>, item: string, maxItems: int, maxBytes: int)
    requires Greedy(result + [group], maxItems, maxBytes) && !Fits(group + [item], maxItems, maxBytes)
    ensures Greedy(result + [group] + [[] + [item]], maxItems, maxBytes)
  {
    var before, after := result + [group], result + [group] + [[] + [item]];
    forall i, j | 0 <= i && j == i + 1 < |after|
      ensures Full(after[i], after[j], maxItems, maxBytes)
    {
      if j < |before| {
        assert Full(before[i], before[j], maxItems, maxBytes);
      }
    }
  }

  lemma SizeGrows(batch: seq<string>, item: string)
    ensures Size(batch + [item]) == Size(batch) + Bytes(item)
  {
    assert (batch + [item])[..|batch|] == batch;
  }

  lemma ConcatGrows(split: seq<seq<string>>, batch: seq<string>)
    ensures Concat(split + [batch]) == Concat(split) + batch
  {
    assert (split + [batch])[..|split|] == split;
  }

  lemma PartWithoutLast(batch: seq<string>, lo: nat)
    requires lo < |batch|
    ensures batch[lo..|batch|][..|batch| - lo - 1] == batch[..|batch| - 1][lo..|batch| - 1]
  {
    SliceOfSlice(batch, lo, |batch|, lo, |batch| - 1);
    SliceOfSlice(batch, 0, |batch| - 1, lo, |batch| - 1);
    assert batch[0..|batch| - 1] == batch[..|batch| - 1];
  }

  /** A slice of the slice lo..hi is a slice of the whole. */
  lemma SliceOfSlice(items: seq<string>, lo: nat, hi: nat, from: nat, to: nat)
    requires lo <= from <= to <= hi <= |items|
    ensures items[lo..hi][from - lo..to - lo] == items[from..to]
  {
    var inner, outer := items[lo..hi][from - lo..to - lo], items[from..to];
    forall i | 0 <= i < to - from
      ensures inner[i] == outer[i]
    {
      assert items[lo..hi][from - lo + i] == items[from + i];
    }
  }

  lemma {:induction false} SizeOfPart(batch: seq<string>, lo: nat, hi: nat)
    requires lo <= hi <= |batch|
    ensures Size(batch[lo..hi]) <= Size(batch)
    decreases |batch|
  {
    if |batch| > 0 {
      var front := batch[..|batch| - 1];
      if hi < |batch| {
        SizeOfPart(front, lo, hi);
        assert front[lo..hi] == batch[lo..hi];
      } else if lo < hi {
        SizeOfPart(front, lo, |front|);
        PartWithoutLast(batch, lo);
        assert batch[lo..hi][hi - lo - 1] == batch[|batch| - 1];
      }
    }
  }

  /** A part of a batch that may be emitted may itself be emitted. */
  lemma PartFits(batch: seq<string>, lo: nat, hi: nat, maxItems: int, maxBytes: int)
    requires Fits(batch, maxItems, maxBytes) && lo < hi <= |batch|
    ensures Fits(batch[lo..hi], maxItems, maxBytes)
  {
    SizeOfPart(batch, lo, hi);
  }

  /** How many items the first j batches cover. */
  function Covered(split: seq<seq<string>>, j: nat): nat
    requires j <= |split|
  {
    |Concat(split[..j])|
  }

  lemma {:induction false} PrefixOfConcat(split: seq<seq<string>>, j: nat)
    requires j <= |split|
    ensures Concat(split[..j]) <= Concat(split)
    decreases |split|
  {
    if j < |split| {
      var front := split[..|split| - 1];
      PrefixOfConcat(front, j);
      assert front[..j] == split[..j];
    } else {
      assert split[..j] == split;
    }
  }

  /** Batch j is the stretch of the items between what j and what j + 1 batches cover. */
  lemma BatchIsStretch(split: seq<seq<string>>, items: seq<string>, j: nat)
    requires Concat(split) == items && j < |split|
    ensures Covered(split, j) + |split[j]| == Covered(split, j + 1) <= |items|
    ensures split[j] == items[Covered(split, j)..Covered(split, j + 1)]
  {
    PrefixOfConcat(split, j + 1);
    assert split[..j + 1][..j] == split[..j];
    var upTo := Concat(split[..j + 1]);
    assert upTo == Concat(split[..j]) + split[j];
    assert upTo == items[..|upTo|];
  }

  /** Greedy stays ahead: j greedy batches cover at least as many items as j batches of any other split. */
  lemma {:induction false} GreedyStaysAhead(greedy: seq<seq<string>>, other: seq<seq<string>>, items: seq<string>, j: nat,
                                            maxItems: int, maxBytes: int)
    requires IsSplit(greedy, items, maxItems, maxBytes) && IsSplit(other, items, maxItems, maxBytes)
    requires Greedy(greedy, maxItems, maxBytes) && j < |greedy| && j <= |other|
    ensures Covered(other, j) <= Covered(greedy, j)
  {
    if j > 0 {
      GreedyStaysAhead(greedy, other, items, j - 1, maxItems, maxBytes);
      BatchIsStretch(greedy, items, j - 1);
      BatchIsStretch(greedy, items, j);
      BatchIsStretch(other, items, j - 1);
      var from, to := Covered(greedy, j - 1), Covered(greedy, j);
      var lo, hi := Covered(other, j - 1), Covered(other, j);
      assert other[j - 1] in other && greedy[j] in greedy && Full(greedy[j - 1], greedy[j], maxItems, maxBytes);
      FullStopsNoLater(items, from, to, Covered(greedy, j + 1), lo, hi, maxItems, maxBytes);
    }
  }

  /** A full batch from..to, followed by one up to end, stops no earlier than a fitting one lo..hi that starts no later. */
  lemma FullStopsNoLater(items: seq<string>, from: nat, to: nat, end: nat, lo: nat, hi: nat, maxItems: int, maxBytes: int)
    requires lo <= from <= to < end <= |items| && lo <= hi <= |items|
    requires Fits(items[lo..hi], maxItems, maxBytes) && Full(items[from..to], items[to..end], maxItems, maxBytes)
    ensures hi <= to
  {
    if hi > to {
      PartFits(items[lo..hi], from - lo, to + 1 - lo, maxItems, maxBytes);
      SliceOfSlice(items, lo, hi, from, to + 1);
      StretchGrows(items, from, to, end);
    }
  }

  lemma StretchGrows(items: seq<string>, from: nat, to: nat, end: nat)
    requires from <= to < end <= |items|
    ensures items[from..to] + [items[to..end][0]] == items[from..to + 1]
  {
  }

  /** Optimality: no order-preserving split within the limits has fewer batches than a greedy one. */
  lemma GreedyIsFewest(greedy: seq<seq<string>>, other: seq<seq<string>>, items: seq<string>, maxItems: int, maxBytes: int)
    requires IsSplit(greedy, items, maxItems, maxBytes) && IsSplit(other, items, maxItems, maxBytes)
    requires Greedy(greedy, maxItems, maxBytes)
    ensures |greedy| <= |other|
  {
    if |other| < |greedy| {
      var j := |other|;
      assert other[..j] == other && greedy[j] in greedy;
      BatchIsStretch(greedy, items, j);
      GreedyStaysAhead(greedy, other, items, j, maxItems, maxBytes);
    }
  }
}
