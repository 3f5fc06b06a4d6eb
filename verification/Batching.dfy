/**
  packWorldLocked (relay/world.go): a world split over as few complete messages as keep within a byte budget. size
  measures the line a batch makes; it only grows when entries are added.
 */
module Batching {
  import opened Lists
  import opened Wire

  /** One entity's state on the wire: its blob, or that it is gone. */
  datatype WorldEntry = WorldEntry(key: string, blob: Option<Text>)

  ghost predicate Grows(size: seq<WorldEntry> -> int) {
    forall a: seq<WorldEntry>, b: seq<WorldEntry>, c: seq<WorldEntry> :: size(b) <= size(a + b + c)
  }

  /** A batch may be sent: one entry goes whatever its size, more only within the budget. */
  predicate Fits(batch: seq<WorldEntry>, size: seq<WorldEntry> -> int, budget: int) {
    |batch| == 1 || (|batch| > 1 && size(batch) <= budget)
  }

  function Concat(batches: seq<seq<WorldEntry>>): seq<WorldEntry> {
    if batches == [] then [] else Concat(Front(batches)) + Last(batches)
  }

  predicate AllFit(batches: seq<seq<WorldEntry>>, size: seq<WorldEntry> -> int, budget: int) {
    forall i | 0 <= i < |batches| :: Fits(batches[i], size, budget)
  }

  /** How many of s the first batch takes: entries join it until the next one would overflow it. */
  function Cut(s: seq<WorldEntry>, n: nat, size: seq<WorldEntry> -> int, budget: int): (c: nat)
    requires 1 <= n <= |s|
    ensures n <= c <= |s|
    ensures c < |s| ==> size(s[..c + 1]) > budget
    ensures forall k | n < k <= c :: size(s[..k]) <= budget
    decreases |s| - n
  {
    if n == |s| || size(s[..n + 1]) > budget then n else Cut(s, n + 1, size, budget)
  }

  function Packed(s: seq<WorldEntry>, size: seq<WorldEntry> -> int, budget: int): (batches: seq<seq<WorldEntry>>)
    ensures |batches| <= |s|
    decreases |s|
  {
    if s == [] then []
    else
      var c := Cut(s, 1, size, budget);
      [s[..c]] + Packed(s[c..], size, budget)
  }

  lemma ConcatFirst(b: seq<WorldEntry>, bs: seq<seq<WorldEntry>>)
    ensures Concat([b] + bs) == b + Concat(bs)
  {
    if bs == [] {
      assert Front([b]) == [] && Concat([b]) == [] + b;
      assert [b] + bs == [b];
    } else {
      FrontOfAppend([b], bs);
      ConcatFirst(b, Front(bs));
      AppendAssociates(b, Concat(Front(bs)), Last(bs));
    }
  }

  /** Nothing is lost, reordered or split, and every batch may be sent. */
  lemma {:induction false} PackedIsComplete(s: seq<WorldEntry>, size: seq<WorldEntry> -> int, budget: int)
    ensures Concat(Packed(s, size, budget)) == s
    ensures AllFit(Packed(s, size, budget), size, budget)
    decreases |s|
  {
    if s != [] {
      var c := Cut(s, 1, size, budget);
      PackedIsComplete(s[c..], size, budget);
      ConcatFirst(s[..c], Packed(s[c..], size, budget));
      assert s == s[..c] + s[c..];
      assert Fits(s[..c], size, budget);
    }
  }

  lemma PartFits(s: seq<WorldEntry>, i: nat, j: nat, size: seq<WorldEntry> -> int, budget: int)
    requires Grows(size) && i < j <= |s| && Fits(s, size, budget)
    ensures Fits(s[i..j], size, budget)
  {
    assert s[..i] + s[i..j] + s[j..] == s;
  }

  lemma CutPasses(s: seq<WorldEntry>, n: nat, a: nat, size: seq<WorldEntry> -> int, budget: int)
    requires 1 <= n <= a <= |s| && forall k | n < k <= a :: size(s[..k]) <= budget
    ensures Cut(s, n, size, budget) >= a
    decreases a - n
  {
    if n < a {
      CutPasses(s, n + 1, a, size, budget);
    }
  }

  /** The first batch reaches as far as any batch that may be sent. */
  lemma CutReaches(s: seq<WorldEntry>, a: nat, size: seq<WorldEntry> -> int, budget: int)
    requires Grows(size) && 1 <= a <= |s| && Fits(s[..a], size, budget)
    ensures Cut(s, 1, size, budget) >= a
  {
    forall k | 1 < k <= a
      ensures size(s[..k]) <= budget
    {
      PartFits(s[..a], 0, k, size, budget);
      assert s[..a][0..k] == s[..k];
    }
    CutPasses(s, 1, a, size, budget);
  }

  /** Two ways of cutting one sequence in two: the longer first part contains the shorter. */
  lemma Overlap(a: seq<WorldEntry>, b: seq<WorldEntry>, c: seq<WorldEntry>, d: seq<WorldEntry>)
    returns (m: seq<WorldEntry>)
    requires a + b == c + d && |a| >= |c|
    ensures a == c + m && d == m + b
  {
    m := a[|c|..];
    assert a == (a + b)[..|a|] && c == (c + d)[..|c|];
    assert d == (c + d)[|c|..];
  }

  /** s cut after its first batch. */
  lemma FirstBatch(s: seq<WorldEntry>, size: seq<WorldEntry> -> int, budget: int)
    returns (first: seq<WorldEntry>, rest: seq<WorldEntry>)
    requires s != []
    ensures s == first + rest && first != [] && Fits(first, size, budget)
    ensures |Packed(s, size, budget)| == 1 + |Packed(rest, size, budget)|
    ensures |first| == Cut(s, 1, size, budget)
  {
    var c := Cut(s, 1, size, budget);
    first, rest := s[..c], s[c..];
    assert Fits(first, size, budget);
  }

  lemma PartOfFits(a: seq<WorldEntry>, b: seq<WorldEntry>, size: seq<WorldEntry> -> int, budget: int)
    requires Grows(size) && b != [] && Fits(a + b, size, budget)
    ensures Fits(b, size, budget)
  {
    PartFits(a + b, |a|, |a + b|, size, budget);
    assert (a + b)[|a|..|a + b|] == b;
  }

  lemma StartReaches(f: seq<WorldEntry>, r: seq<WorldEntry>, size: seq<WorldEntry> -> int, budget: int)
    requires Grows(size) && f != [] && Fits(f, size, budget)
    ensures Cut(f + r, 1, size, budget) >= |f|
  {
    assert (f + r)[..|f|] == f;
    CutReaches(f + r, |f|, size, budget);
  }

  /** A shorter tail never needs more batches. */
  lemma {:induction false} TailNeedsNoMore(p: seq<WorldEntry>, t: seq<WorldEntry>, size: seq<WorldEntry> -> int,
                                           budget: int)
    requires Grows(size)
    ensures |Packed(t, size, budget)| <= |Packed(p + t, size, budget)|
    decreases |p + t|
  {
    if t != [] {
      hide Grows, Packed, Cut, Fits;
      var first, rest := FirstBatch(p + t, size, budget);
      if |p| >= |first| {
        var m := Overlap(p, t, first, rest);
        TailNeedsNoMore(m, t, size, budget);
      } else {
        var f := Overlap(first, rest, p, t);
        PartOfFits(p, f, size, budget);
        StartReaches(f, rest, size, budget);
        var g, after := FirstBatch(t, size, budget);
        var m := Overlap(g, after, f, rest);
        TailNeedsNoMore(m, after, size, budget);
      }
    }
  }

  lemma RestFits(other: seq<seq<WorldEntry>>, size: seq<WorldEntry> -> int, budget: int)
    requires other != [] && AllFit(other, size, budget)
    ensures Fits(other[0], size, budget) && AllFit(other[1..], size, budget)
  {
    forall i | 0 <= i < |other[1..]|
      ensures Fits(other[1..][i], size, budget)
    {
      assert other[1..][i] == other[i + 1];
    }
  }

  lemma PackedFirst(first: seq<WorldEntry>, rest: seq<WorldEntry>, size: seq<WorldEntry> -> int, budget: int)
    requires Grows(size) && first != [] && Fits(first, size, budget)
    ensures |Packed(first + rest, size, budget)| <= 1 + |Packed(rest, size, budget)|
  {
    hide Grows, Packed, Cut, Fits;
    StartReaches(first, rest, size, budget);
    var g, after := FirstBatch(first + rest, size, budget);
    var m := Overlap(g, after, first, rest);
    TailNeedsNoMore(m, after, size, budget);
  }

  /** No other way of cutting the same entries into batches that may be sent uses fewer. */
  lemma {:induction false} PackedIsMinimal(s: seq<WorldEntry>, other: seq<seq<WorldEntry>>,
                                           size: seq<WorldEntry> -> int, budget: int)
    requires Grows(size) && Concat(other) == s && AllFit(other, size, budget)
    ensures |Packed(s, size, budget)| <= |other|
    decreases |other|
  {
    if other != [] {
      hide Grows, Packed, AllFit, Concat;
      assert other == [other[0]] + other[1..];
      ConcatFirst(other[0], other[1..]);
      RestFits(other, size, budget);
      PackedFirst(other[0], Concat(other[1..]), size, budget);
      PackedIsMinimal(Concat(other[1..]), other[1..], size, budget);
    }
  }

  // ----- The loop -----

  /** A batch still growing: each of its starts past the first entry is within the budget. */
  ghost predicate Growing(batch: seq<WorldEntry>, size: seq<WorldEntry> -> int, budget: int) {
    forall j | 1 < j <= |batch| :: size(batch[..j]) <= budget
  }

  lemma CutStops(s: seq<WorldEntry>, n: nat, k: nat, size: seq<WorldEntry> -> int, budget: int)
    requires 1 <= n <= k <= |s|
    requires forall j | n < j <= k :: size(s[..j]) <= budget
    requires k == |s| || size(s[..k + 1]) > budget
    ensures Cut(s, n, size, budget) == k
    decreases k - n
  {
    if n < k {
      CutStops(s, n + 1, k, size, budget);
    }
  }

  /** A batch is complete when there is no next entry or the next one overflows it. */
  lemma Emitted(batch: seq<WorldEntry>, rest: seq<WorldEntry>, size: seq<WorldEntry> -> int, budget: int)
    requires batch != [] && Growing(batch, size, budget)
    requires rest == [] || size(batch + [rest[0]]) > budget
    ensures Packed(batch + rest, size, budget) == [batch] + Packed(rest, size, budget)
  {
    var s := batch + rest;
    forall j | 1 < j <= |batch|
      ensures size(s[..j]) <= budget
    {
      assert s[..j] == batch[..j];
    }
    assert rest != [] ==> s[..|batch| + 1] == batch + [rest[0]];
    CutStops(s, 1, |batch|, size, budget);
    assert s[..|batch|] == batch && s[|batch|..] == rest;
  }

  lemma StillGrowing(batch: seq<WorldEntry>, e: WorldEntry, size: seq<WorldEntry> -> int, budget: int)
    requires Growing(batch, size, budget)
    requires batch == [] || size(batch + [e]) <= budget
    ensures Growing(batch + [e], size, budget)
  {
    forall j | 1 < j <= |batch + [e]|
      ensures size((batch + [e])[..j]) <= budget
    {
      if j <= |batch| {
        assert (batch + [e])[..j] == batch[..j];
      } else {
        assert (batch + [e])[..j] == batch + [e];
      }
    }
  }

  lemma TakeOne(batch: seq<WorldEntry>, rest: seq<WorldEntry>)
    requires rest != []
    ensures batch + [rest[0]] + rest[1..] == batch + rest
    ensures [rest[0]] + rest[1..] == rest
  {
  }

  /** A batch grows entry by entry and is emitted when the next entry would overflow it; an empty list makes one. */
  method Pack(entries: seq<WorldEntry>, size: seq<WorldEntry> -> int, budget: int) returns (outs: seq<seq<WorldEntry>>)
    ensures outs == if entries == [] then [[]] else Packed(entries, size, budget)
  {
    hide Packed, Growing;
    outs := [];
    var batch: seq<WorldEntry> := [];
    var rest := entries;
    NothingPacked(size, budget);
    assert [] + entries == entries;
    while rest != []
      invariant batch == [] ==> rest == entries && outs == []
      invariant Growing(batch, size, budget)
      invariant outs + Packed(batch + rest, size, budget) == Packed(entries, size, budget)
      decreases |rest|
    {
      var e := rest[0];
      TakeOne(batch, rest);
      var candidate := batch + [e];
      if |batch| > 0 && size(candidate) > budget {
        Emitted(batch, rest, size, budget);
        AppendAssociates(outs, [batch], Packed(rest, size, budget));
        StillGrowingAlone(e, size, budget);
        outs := outs + [batch];
        batch := [e];
      } else {
        StillGrowing(batch, e, size, budget);
        batch := candidate;
      }
      rest := rest[1..];
    }
    if |batch| > 0 || |entries| == 0 {
      if |batch| > 0 {
        Emitted(batch, [], size, budget);
        assert batch + [] == batch + rest && [batch] + [] == [batch];
      }
      outs := outs + [batch];
    }
  }

  lemma StillGrowingAlone(e: WorldEntry, size: seq<WorldEntry> -> int, budget: int)
    ensures Growing([e], size, budget)
  {
  }

  lemma NothingPacked(size: seq<WorldEntry> -> int, budget: int)
    ensures Packed([], size, budget) == [] && Growing([], size, budget)
  {
  }
}
