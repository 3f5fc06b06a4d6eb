/**
  skip_gaps surgery on a replay clip: on its samples in place (applySkipGaps in core/replay.go) and, edge by edge, on
  the input track beside it (attachTrack in core/replayinputs.go). Times are in milliseconds.
 */
module ReplayCuts {
  import opened Lists
  import opened Wire

  const MAX_EDGES: nat := 500_000

  /** Time strictly between from and to is cut; shift is what is cut up to and including it. */
  datatype Cut = Cut(from: int, to: int, shift: int)

  predicate Sorted(ts: seq<int>) {
    forall i, j | 0 <= i <= j < |ts| :: ts[i] <= ts[j]
  }

  // ----- The samples -----

  function Gap(ts: seq<int>, i: nat): int
    requires 0 < i < |ts|
  {
    ts[i] - ts[i - 1]
  }

  /** What is cut before sample i. */
  function Shift(ts: seq<int>, i: nat, limit: int): int
    requires i < |ts|
  {
    if i == 0 then 0
    else Shift(ts, i - 1, limit) + if Gap(ts, i) > limit then Gap(ts, i) - 1 else 0
  }

  function Moved(ts: seq<int>, i: nat, limit: int): int
    requires i < |ts|
  {
    ts[i] - Shift(ts, i, limit)
  }

  /** The cuts before sample n. */
  function Cuts(ts: seq<int>, n: nat, limit: int): seq<Cut>
    requires n < |ts|
  {
    if n == 0 then []
    else if Gap(ts, n) > limit then Cuts(ts, n - 1, limit) + [Cut(ts[n - 1], ts[n], Shift(ts, n, limit))]
    else Cuts(ts, n - 1, limit)
  }

  /** The samples where a seam is forced: those after a cut. */
  function Seams(ts: seq<int>, n: nat, limit: int): set<nat>
    requires n < |ts|
  {
    set i: nat | 0 < i <= n && Gap(ts, i) > limit
  }

  /** Each cut gap becomes exactly one millisecond, the rest stay as they were, and time does not run backwards. */
  lemma GapsAreCut(ts: seq<int>, i: nat, limit: int)
    requires Sorted(ts) && 0 < i < |ts| && limit >= 0
    ensures Moved(ts, i, limit) - Moved(ts, i - 1, limit) == if Gap(ts, i) > limit then 1 else Gap(ts, i)
    ensures Moved(ts, i - 1, limit) <= Moved(ts, i, limit)
  {
  }

  lemma {:induction false} MovedInOrder(ts: seq<int>, i: nat, j: nat, limit: int)
    requires Sorted(ts) && i <= j < |ts| && limit >= 0
    ensures Moved(ts, i, limit) <= Moved(ts, j, limit)
    decreases j
  {
    if i < j {
      MovedInOrder(ts, i, j - 1, limit);
      GapsAreCut(ts, j, limit);
    }
  }

  const MILLISECOND: int := 1_000_000

  /** The loop of the source, in place. gaps is the skip_gaps setting, a duration in nanoseconds; none is off. */
  method ApplySkipGaps(a: array<int>, gaps: int) returns (cuts: seq<Cut>, seams: set<nat>)
    modifies a
    ensures gaps <= 0 || a.Length < 2 ==> a[..] == old(a[..]) && cuts == [] && seams == {}
    ensures gaps > 0 && a.Length > 0 ==>
              && (forall i | 0 <= i < a.Length :: a[i] == Moved(old(a[..]), i, gaps / MILLISECOND))
              && cuts == Cuts(old(a[..]), a.Length - 1, gaps / MILLISECOND)
              && seams == Seams(old(a[..]), a.Length - 1, gaps / MILLISECOND)
  {
    cuts, seams := [], {};
    if gaps <= 0 || a.Length < 2 {
      return;
    }
    ghost var ts := a[..];
    var limit := gaps / MILLISECOND;
    var shift := 0;
    var prev := a[0];
    var i := 1;
    while i < a.Length
      invariant 1 <= i <= a.Length
      invariant prev == ts[i - 1] && shift == Shift(ts, i - 1, limit)
      invariant cuts == Cuts(ts, i - 1, limit) && seams == Seams(ts, i - 1, limit)
      invariant forall k | 0 <= k < i :: a[k] == Moved(ts, k, limit)
      invariant forall k | i <= k < a.Length :: a[k] == ts[k]
    {
      var orig := a[i];
      var gap := orig - prev;
      prev := orig;
      if gap > limit {
        shift := shift + (gap - 1);
        seams := seams + {i};
        cuts := cuts + [Cut(orig - gap, orig, shift)];
      }
      a[i] := orig - shift;
      i := i + 1;
    }
  }

  // ----- One edge, by searching every cut -----

  predicate Inside(cuts: seq<Cut>, t: int) {
    exists k | 0 <= k < |cuts| :: cuts[k].from < t < cuts[k].to
  }

  /** The shift of the last cut that ended at or before t. */
  function ShiftAt(cuts: seq<Cut>, t: int): int {
    if cuts == [] then 0 else if Last(cuts).to <= t then Last(cuts).shift else ShiftAt(Front(cuts), t)
  }

  function Mapped(cuts: seq<Cut>, t: int): Option<int> {
    if Inside(cuts, t) then None else Some(t - ShiftAt(cuts, t))
  }

  /** Cuts in time order, each adding its length less the millisecond it leaves. */
  predicate WellFormed(cuts: seq<Cut>) {
    cuts == [] ||
    (&& WellFormed(Front(cuts))
     && Last(cuts).from < Last(cuts).to
     && (Front(cuts) != [] ==> Last(Front(cuts)).to <= Last(cuts).from)
     && Last(cuts).shift ==
        (if Front(cuts) == [] then 0 else Last(Front(cuts)).shift) + Last(cuts).to - Last(cuts).from - 1)
  }

  /** The first n cuts end by bound, and the shift so far is the last one's. */
  lemma {:induction false} CutsAreWellFormed(ts: seq<int>, n: nat, limit: int)
    requires Sorted(ts) && n < |ts| && limit >= 0
    ensures var cuts := Cuts(ts, n, limit);
            && WellFormed(cuts)
            && (cuts != [] ==> Last(cuts).to <= ts[n])
            && Shift(ts, n, limit) == if cuts == [] then 0 else Last(cuts).shift
  {
    if n > 0 {
      CutsAreWellFormed(ts, n - 1, limit);
      var cuts := Cuts(ts, n - 1, limit);
      assert Front(cuts + [Cut(ts[n - 1], ts[n], Shift(ts, n, limit))]) == cuts;
    }
  }

  lemma {:induction false} WellFormedEnds(cuts: seq<Cut>, k: nat)
    requires WellFormed(cuts) && k < |cuts|
    ensures cuts[k].from < cuts[k].to <= Last(cuts).to && (k < |cuts| - 1 ==> cuts[k].to <= Last(cuts).from)
  {
    if k < |cuts| - 1 {
      WellFormedEnds(Front(cuts), k);
    }
  }

  /** Past the last cut, its shift is the one that counts. */
  lemma PastTheEnd(cuts: seq<Cut>, t: int)
    requires WellFormed(cuts) && (cuts != [] ==> Last(cuts).to <= t)
    ensures Mapped(cuts, t) == Some(t - if cuts == [] then 0 else Last(cuts).shift)
  {
    forall k | 0 <= k < |cuts|
      ensures cuts[k].to <= t
    {
      WellFormedEnds(cuts, k);
    }
  }

  lemma {:induction false} BeforeTheLast(cuts: seq<Cut>, t: int)
    requires cuts != [] && WellFormed(cuts) && t <= Last(cuts).from
    ensures Mapped(cuts, t) == Mapped(Front(cuts), t)
  {
    var front := Front(cuts);
    forall k | 0 <= k < |cuts| && cuts[k].from < t < cuts[k].to
      ensures Inside(front, t)
    {
      assert front[k] == cuts[k];
    }
    if Inside(front, t) {
      var k :| 0 <= k < |front| && front[k].from < t < front[k].to;
      assert cuts[k] == front[k];
    }
  }

  /** An edge stamped with a sample's original time goes to that sample's new time. */
  lemma {:induction false} EdgeFollowsSample(ts: seq<int>, i: nat, n: nat, limit: int)
    requires Sorted(ts) && i <= n < |ts| && limit >= 0
    ensures Mapped(Cuts(ts, n, limit), ts[i]) == Some(Moved(ts, i, limit))
    decreases n
  {
    hide Mapped, WellFormed;
    CutsAreWellFormed(ts, n, limit);
    if i == n {
      PastTheEnd(Cuts(ts, n, limit), ts[n]);
    } else {
      EdgeFollowsSample(ts, i, n - 1, limit);
      if Gap(ts, n) > limit {
        var cuts := Cuts(ts, n, limit);
        assert Front(cuts) == Cuts(ts, n - 1, limit);
        BeforeTheLast(cuts, ts[i]);
      }
    }
  }

  /** Edges keep their order, and their distance only shrinks. */
  lemma {:induction false} MappedInOrder(cuts: seq<Cut>, s: int, t: int)
    requires WellFormed(cuts) && s <= t && Mapped(cuts, s).Some? && Mapped(cuts, t).Some?
    ensures 0 <= Mapped(cuts, t).value - Mapped(cuts, s).value <= t - s
  {
    if cuts != [] {
      var c, front := Last(cuts), Front(cuts);
      assert cuts[|cuts| - 1] == c;
      if t >= c.to {
        PastTheEnd(cuts, t);
        if s >= c.to {
          PastTheEnd(cuts, s);
        } else {
          BeforeTheLast(cuts, s);
          if front != [] {
            BeforeTheLast(cuts, c.from);
            PastTheEnd(front, c.from);
            MappedInOrder(front, s, c.from);
          } else {
            assert !Inside(front, s);
          }
        }
      } else {
        assert !(c.from < t < c.to);
        BeforeTheLast(cuts, t);
        BeforeTheLast(cuts, s);
        MappedInOrder(front, s, t);
      }
    }
  }

  /** Exactly the edges strictly inside a cut are dropped; the others stay between the clip's first and last sample. */
  lemma EdgesStayInTheClip(ts: seq<int>, t: int, limit: int)
    requires |ts| > 0 && Sorted(ts) && limit >= 0 && ts[0] <= t <= Last(ts)
    ensures var cuts := Cuts(ts, |ts| - 1, limit);
            && (Mapped(cuts, t).None? <==> Inside(cuts, t))
            && (Mapped(cuts, t).Some? ==>
                  Moved(ts, 0, limit) <= Mapped(cuts, t).value <= Moved(ts, |ts| - 1, limit))
  {
    var cuts := Cuts(ts, |ts| - 1, limit);
    CutsAreWellFormed(ts, |ts| - 1, limit);
    EdgeFollowsSample(ts, 0, |ts| - 1, limit);
    EdgeFollowsSample(ts, |ts| - 1, |ts| - 1, limit);
    if Mapped(cuts, t).Some? {
      MappedInOrder(cuts, ts[0], t);
      MappedInOrder(cuts, t, Last(ts));
    }
  }

  // ----- The whole track -----

  datatype Edge = Edge(ts: int, input: Text)

  predicate InTime(edges: seq<Edge>) {
    forall i, j | 0 <= i <= j < |edges| :: edges[i].ts <= edges[j].ts
  }

  /** Every edge on its own: kept when it is inside the trim window and outside every cut, up to the cap. */
  function Attached(edges: seq<Edge>, cuts: seq<Cut>, first: int, last: int): (r: seq<Edge>)
    ensures |r| <= MAX_EDGES
  {
    if edges == [] then []
    else
      var kept, e := Attached(Front(edges), cuts, first, last), Last(edges);
      var at := Mapped(cuts, e.ts);
      if |kept| < MAX_EDGES && first <= e.ts <= last && at.Some? then kept + [e.(ts := at.value)] else kept
  }

  /** cuts[..cut] are the cuts that ended at or before t. */
  predicate CursorAt(cuts: seq<Cut>, cut: nat, t: int) {
    && cut <= |cuts|
    && (forall k | 0 <= k < cut :: cuts[k].to <= t)
    && (forall k | cut <= k < |cuts| :: cuts[k].to > t)
  }

  /** The cursor finds the one cut t can be inside of, and the shift before it. */
  lemma {:induction false} CursorFinds(cuts: seq<Cut>, cut: nat, t: int)
    requires WellFormed(cuts) && CursorAt(cuts, cut, t)
    ensures Inside(cuts, t) <==> cut < |cuts| && t > cuts[cut].from
    ensures ShiftAt(cuts, t) == if cut == 0 then 0 else cuts[cut - 1].shift
  {
    if Inside(cuts, t) {
      var k :| 0 <= k < |cuts| && cuts[k].from < t < cuts[k].to;
      if k > cut {
        CutsInOrder(cuts, cut, k);
      }
    }
    ShiftBefore(cuts, cut, t);
  }

  lemma {:induction false} CutsInOrder(cuts: seq<Cut>, j: nat, k: nat)
    requires WellFormed(cuts) && j < k < |cuts|
    ensures cuts[j].to <= cuts[k].from
  {
    if k < |cuts| - 1 {
      CutsInOrder(Front(cuts), j, k);
    } else {
      WellFormedEnds(cuts, j);
    }
  }

  lemma {:induction false} ShiftBefore(cuts: seq<Cut>, cut: nat, t: int)
    requires CursorAt(cuts, cut, t)
    ensures ShiftAt(cuts, t) == if cut == 0 then 0 else cuts[cut - 1].shift
  {
    if cut < |cuts| {
      assert CursorAt(Front(cuts), cut, t);
      ShiftBefore(Front(cuts), cut, t);
    }
  }

  lemma {:induction false} CutsEndInOrder(cuts: seq<Cut>)
    requires WellFormed(cuts)
    ensures forall j, k | 0 <= j <= k < |cuts| :: cuts[j].to <= cuts[k].to
  {
    forall j, k | 0 <= j <= k < |cuts|
      ensures cuts[j].to <= cuts[k].to
    {
      WellFormedEnds(cuts, k);
      if j < k {
        CutsInOrder(cuts, j, k);
      }
    }
  }

  /** Every cut before the cursor has ended by t. */
  predicate EndedBy(cuts: seq<Cut>, cut: nat, t: int) {
    cut <= |cuts| && forall k | 0 <= k < cut :: cuts[k].to <= t
  }

  /** Skips every cut that ended at or before t. */
  method Advance(cuts: seq<Cut>, from: nat, t: int) returns (cut: nat)
    requires WellFormed(cuts) && EndedBy(cuts, from, t)
    ensures EndedBy(cuts, cut, t) && CursorAt(cuts, cut, t)
  {
    cut := from;
    while cut < |cuts| && cuts[cut].to <= t
      invariant EndedBy(cuts, cut, t)
    {
      cut := cut + 1;
    }
    CutsEndInOrder(cuts);
  }

  lemma AttachedOneMore(done: seq<Edge>, e: Edge, cuts: seq<Cut>, first: int, last: int)
    ensures var kept, at := Attached(done, cuts, first, last), Mapped(cuts, e.ts);
            Attached(done + [e], cuts, first, last) ==
            if |kept| < MAX_EDGES && first <= e.ts <= last && at.Some? then kept + [e.(ts := at.value)] else kept
  {
    assert Front(done + [e]) == done;
  }

  /** One pass over the edges with one cursor over the cuts does what the search would for each edge. */
  method AttachTrack(edges: seq<Edge>, cuts: seq<Cut>, first: int, last: int) returns (kept: seq<Edge>)
    requires WellFormed(cuts) && InTime(edges)
    ensures kept == Attached(edges, cuts, first, last)
  {
    hide Attached, WellFormed, CursorAt;
    kept := [];
    NothingAttached(cuts, first, last);
    var cut: nat, i: nat := 0, 0;
    while i < |edges|
      invariant 0 <= i <= |edges|
      invariant if i == 0 then cut == 0 else EndedBy(cuts, cut, edges[i - 1].ts)
      invariant kept == Attached(edges[..i], cuts, first, last)
      invariant |kept| < MAX_EDGES
    {
      var e := edges[i];
      assert edges[..i + 1] == edges[..i] + [e];
      AttachedOneMore(edges[..i], e, cuts, first, last);
      assert i > 0 ==> edges[i - 1].ts <= e.ts;
      i := i + 1;
      if e.ts < first || e.ts > last {
        continue;
      }
      cut := Advance(cuts, cut, e.ts);
      CursorFinds(cuts, cut, e.ts);
      if cut < |cuts| && e.ts > cuts[cut].from {
        continue;
      }
      var shift := if cut > 0 then cuts[cut - 1].shift else 0;
      kept := kept + [e.(ts := e.ts - shift)];
      if |kept| >= MAX_EDGES {
        FullTrackStays(edges, i, cuts, first, last);
        return;
      }
    }
    assert edges[..i] == edges;
  }

  lemma NothingAttached(cuts: seq<Cut>, first: int, last: int)
    ensures Attached([], cuts, first, last) == []
  {
  }

  lemma {:induction false} FullTrackStays(edges: seq<Edge>, i: nat, cuts: seq<Cut>, first: int, last: int)
    requires i <= |edges| && |Attached(edges[..i], cuts, first, last)| == MAX_EDGES
    ensures Attached(edges, cuts, first, last) == Attached(edges[..i], cuts, first, last)
  {
    if i < |edges| {
      assert Front(edges)[..i] == edges[..i];
      FullTrackStays(Front(edges), i, cuts, first, last);
    } else {
      assert edges[..i] == edges;
    }
  }

  /** The edges inside the trim window and strictly inside no cut. */
  function Kept(edges: seq<Edge>, cuts: seq<Cut>, first: int, last: int): seq<Edge> {
    if edges == [] then []
    else
      var e := Last(edges);
      Kept(Front(edges), cuts, first, last) +
      if first <= e.ts <= last && !Inside(cuts, e.ts) then [e] else []
  }

  /** The attached track is exactly the kept edges, in order and moved, or the first 500000 of them. */
  lemma {:induction false} AttachedIsExact(edges: seq<Edge>, cuts: seq<Cut>, first: int, last: int)
    ensures var kept, a := Kept(edges, cuts, first, last), Attached(edges, cuts, first, last);
            && |a| == (if |kept| < 500_000 then |kept| else 500_000)
            && forall i | 0 <= i < |a| :: a[i].input == kept[i].input && Some(a[i].ts) == Mapped(cuts, kept[i].ts)
  {
    hide Mapped, Inside;
    if edges != [] {
      AttachedIsExact(Front(edges), cuts, first, last);
      OutsideIsMapped(cuts, Last(edges).ts);
    }
  }

  lemma OutsideIsMapped(cuts: seq<Cut>, t: int)
    ensures Mapped(cuts, t).Some? <==> !Inside(cuts, t)
  {
  }

  /** A seam is exactly where a gap was cut: there the samples end up one millisecond apart, elsewhere as they were. */
  lemma SeamsAreCuts(ts: seq<int>, n: nat, i: nat, limit: int)
    requires 0 < i <= n < |ts|
    ensures i in Seams(ts, n, limit) <==> ts[i] - ts[i - 1] > limit
    ensures Moved(ts, i, limit) - Moved(ts, i - 1, limit) == if i in Seams(ts, n, limit) then 1 else ts[i] - ts[i - 1]
  {
  }

  /** The attached track is in time order. */
  lemma {:induction false} AttachedInTime(edges: seq<Edge>, cuts: seq<Cut>, first: int, last: int)
    requires WellFormed(cuts) && InTime(edges)
    ensures var kept := Attached(edges, cuts, first, last);
            && InTime(kept)
            && (kept != [] ==> exists e | e in edges :: Mapped(cuts, e.ts) == Some(Last(kept).ts))
  {
    if edges != [] {
      hide Mapped, WellFormed;
      var before, e := Front(edges), Last(edges);
      AttachedInTime(before, cuts, first, last);
      var kept := Attached(before, cuts, first, last);
      if kept != [] {
        var l :| l in before && Mapped(cuts, l.ts) == Some(Last(kept).ts);
        assert l in edges;
        if Mapped(cuts, e.ts).Some? {
          MappedInOrder(cuts, l.ts, e.ts);
        }
      }
      assert e in edges;
    }
  }

  // ----- Trimming -----

  datatype TrimStart = Auto | After(ms: nat)

  /** A stretch of samples without its head and tail. */
  predicate IsTrimmed(ts: seq<int>, still: seq<bool>, start: TrimStart, end: nat, lo: nat, hi: nat)
    requires |ts| > 0 && |still| == |ts|
  {
    && lo <= hi <= |ts|
    && (forall k | hi <= k < |ts| :: end > 0 && ts[k] > Last(ts) - end)
    && (hi > lo && end > 0 ==> ts[hi - 1] <= Last(ts) - end)
    && match start
       case Auto => lo < |ts| && (forall k | 0 <= k < lo :: still[k]) && (lo + 1 < |ts| ==> !still[lo])
       case After(ms) =>
         && (forall k | 0 <= k < lo :: ms > 0 && ts[k] < ts[0] + ms)
         && (lo < |ts| && ms > 0 ==> ts[lo] >= ts[0] + ms)
  }

  /** still[k] says that sample k + 1 is where sample k is. */
  method ApplyTrim(ts: seq<int>, still: seq<bool>, start: TrimStart, end: nat) returns (lo: nat, hi: nat)
    requires |ts| > 0 && |still| == |ts|
    ensures IsTrimmed(ts, still, start, end, lo, hi)
  {
    var n := |ts|;
    lo := 0;
    if start.Auto? {
      while lo + 1 < n && still[lo]
        invariant lo < n && forall k | 0 <= k < lo :: still[k]
      {
        lo := lo + 1;
      }
    } else if start.ms > 0 {
      var cut := ts[0] + start.ms;
      while lo < n && ts[lo] < cut
        invariant lo <= n && forall k | 0 <= k < lo :: ts[k] < cut
      {
        lo := lo + 1;
      }
    }
    hi := n;
    if end > 0 {
      var cut := ts[n - 1] - end;
      while hi > lo && ts[hi - 1] > cut
        invariant lo <= hi <= n && forall k | hi <= k < n :: ts[k] > cut
      {
        hi := hi - 1;
      }
    }
  }
}
