/**
  The remote player's snapshot buffer (core/interp.go): samples kept in timestamp order, trimmed by
  age, and rendered from. `Added` is what one arrival does; `History` is the untrimmed reference.
 */
module SnapshotBuffer {
  import opened Lists
  import opened Wire

  const MAX_SNAPSHOTS: nat := 1024
  const DEFAULT_SNAPSHOT_AGE_MS := 600

  predicate Sorted(b: seq<State>) {
    forall i, j | 0 <= i < j < |b| :: b[i].timestamp <= b[j].timestamp
  }

  /** Stable insertion in timestamp order: after every sample with the same timestamp. */
  function Inserted(b: seq<State>, s: State): (r: seq<State>)
    ensures |r| == |b| + 1
  {
    if b == [] || Last(b).timestamp <= s.timestamp then b + [s]
    else Inserted(Front(b), s) + [Last(b)]
  }

  function Capped(b: seq<State>): seq<State> {
    if |b| > MAX_SNAPSHOTS then b[|b| - MAX_SNAPSHOTS..] else b
  }

  /** Drops the oldest samples while they lie before cutoff, never the newest two. */
  function Trimmed(b: seq<State>, cutoff: int): seq<State> {
    if |b| > 2 && b[0].timestamp < cutoff then Trimmed(b[1..], cutoff) else b
  }

  function Added(b: seq<State>, s: State, window: int): seq<State> {
    if |b| >= MAX_SNAPSHOTS && s.timestamp < b[0].timestamp && s.timestamp < Last(b).timestamp then b
    else
      var c := Capped(Inserted(b, s));
      Trimmed(c, Last(c).timestamp - window)
  }

  function Window(historyMs: int): int {
    if historyMs <= 0 then DEFAULT_SNAPSHOT_AGE_MS else historyMs
  }

  // ----- The reference: every sample ever received, stably sorted by timestamp -----

  function History(arrivals: seq<State>): seq<State> {
    if arrivals == [] then [] else Inserted(History(Front(arrivals)), Last(arrivals))
  }

  function Buffered(arrivals: seq<State>, window: int): seq<State> {
    if arrivals == [] then [] else Added(Buffered(Front(arrivals), window), Last(arrivals), window)
  }

  /** The memory bound never drops a sample: before each arrival fewer than MAX_SNAPSHOTS are held. */
  predicate UnderCap(arrivals: seq<State>, window: int) {
    arrivals == [] ||
    (UnderCap(Front(arrivals), window) && |Buffered(Front(arrivals), window)| < MAX_SNAPSHOTS)
  }

  /** dropped may stand in front of b: it holds only samples older than the window, and b is still a pair. */
  ghost predicate OnlyStale(dropped: seq<State>, b: seq<State>, window: int) {
    dropped != [] ==> |b| >= 2 && forall x | x in dropped :: x.timestamp < Last(b).timestamp - window
  }

  lemma {:induction false} InsertedSorted(b: seq<State>, s: State)
    requires Sorted(b)
    ensures Sorted(Inserted(b, s))
    ensures Last(Inserted(b, s)) == if b == [] || Last(b).timestamp <= s.timestamp then s else Last(b)
  {
    if b != [] && s.timestamp < Last(b).timestamp {
      InsertedSorted(Front(b), s);
      assert Front(b) != [] ==> Last(Front(b)).timestamp <= Last(b).timestamp;
    }
  }

  lemma {:induction false} InsertedContents(b: seq<State>, s: State)
    ensures multiset(Inserted(b, s)) == multiset(b) + multiset{s}
  {
    if b != [] && s.timestamp < Last(b).timestamp {
      InsertedContents(Front(b), s);
      FrontLastContents(b);
    }
  }

  /** Insertion leaves alone a prefix whose newest sample is not newer than s. */
  lemma {:induction false} InsertAfterPrefix(d: seq<State>, b: seq<State>, s: State)
    requires d == [] || Last(d).timestamp <= s.timestamp
    ensures Inserted(d + b, s) == d + Inserted(b, s)
  {
    if b == [] {
      assert d + b == d;
    } else {
      FrontOfAppend(d, b);
      if s.timestamp < Last(b).timestamp {
        InsertAfterPrefix(d, Front(b), s);
      }
    }
  }

  /** Insertion leaves alone a suffix entirely newer than s. */
  lemma {:induction false} InsertBeforeSuffix(d: seq<State>, b: seq<State>, s: State)
    requires forall i | 0 <= i < |b| :: s.timestamp < b[i].timestamp
    ensures Inserted(d + b, s) == Inserted(d, s) + b
  {
    if b == [] {
      assert d + b == d;
    } else {
      FrontOfAppend(d, b);
      InsertBeforeSuffix(d, Front(b), s);
      assert Front(b) + [Last(b)] == b;
    }
  }

  lemma {:induction false} TrimmedSplits(b: seq<State>, cutoff: int) returns (e: seq<State>)
    ensures b == e + Trimmed(b, cutoff)
    ensures forall x | x in e :: x.timestamp < cutoff
    ensures e != [] ==> |Trimmed(b, cutoff)| >= 2
    ensures b != [] ==> Trimmed(b, cutoff) != [] && Last(Trimmed(b, cutoff)) == Last(b)
  {
    e := [];
    if |b| > 2 && b[0].timestamp < cutoff {
      e := TrimmedSplits(b[1..], cutoff);
      e := [b[0]] + e;
    }
  }

  /** One arrival keeps the buffer sorted, within its memory bound, and never loses the newest sample. */
  lemma AddedKeepsOrder(b: seq<State>, s: State, window: int)
    requires Sorted(b) && |b| <= MAX_SNAPSHOTS
    ensures Sorted(Added(b, s, window)) && 1 <= |Added(b, s, window)| <= MAX_SNAPSHOTS
    ensures Last(Added(b, s, window)) == if b == [] || Last(b).timestamp <= s.timestamp then s else Last(b)
  {
    InsertedSorted(b, s);
    CappedKeepsOrder(Inserted(b, s));
    var c := Capped(Inserted(b, s));
    TrimmedKeepsOrder(c, Last(c).timestamp - window);
  }

  lemma TrimmedKeepsOrder(b: seq<State>, cutoff: int)
    requires Sorted(b) && b != []
    ensures Sorted(Trimmed(b, cutoff)) && 1 <= |Trimmed(b, cutoff)| <= |b|
    ensures Last(Trimmed(b, cutoff)) == Last(b)
  {
    var e := TrimmedSplits(b, cutoff);
    SortedParts(e, Trimmed(b, cutoff));
  }

  lemma CappedKeepsOrder(b: seq<State>)
    requires Sorted(b) && b != []
    ensures Sorted(Capped(b)) && 1 <= |Capped(b)| <= MAX_SNAPSHOTS && Last(Capped(b)) == Last(b)
  {
    if |b| > MAX_SNAPSHOTS {
      var n := |b| - MAX_SNAPSHOTS;
      assert b == b[..n] + b[n..];
      SortedParts(b[..n], b[n..]);
    }
  }

  lemma SortedParts(a: seq<State>, b: seq<State>)
    requires Sorted(a + b)
    ensures Sorted(a) && Sorted(b)
    ensures a != [] ==> forall i | 0 <= i < |b| :: Last(a).timestamp <= b[i].timestamp
    ensures forall x | x in a && a != [] :: x.timestamp <= Last(a).timestamp
  {
    assert forall i | 0 <= i < |a| :: a[i] == (a + b)[i];
    assert forall i | 0 <= i < |b| :: b[i] == (a + b)[|a| + i];
  }

  /** A sample that belongs after everything already dropped. */
  lemma AddLate(d: seq<State>, b: seq<State>, s: State, window: int) returns (e: seq<State>)
    requires d == [] || Last(d).timestamp <= s.timestamp
    requires Sorted(b) && OnlyStale(d, b, window) && |b| < MAX_SNAPSHOTS
    ensures Inserted(d + b, s) == d + (e + Added(b, s, window)) && OnlyStale(d + e, Added(b, s, window), window)
  {
    InsertAfterPrefix(d, b, s);
    InsertedSorted(b, s);
    var c := Inserted(b, s);
    e := TrimmedSplits(c, Last(c).timestamp - window);
  }

  lemma InsertedMembers(d: seq<State>, s: State, cutoff: int)
    requires s.timestamp < cutoff && forall x | x in d :: x.timestamp < cutoff
    ensures forall x | x in Inserted(d, s) :: x.timestamp < cutoff
  {
    InsertedContents(d, s);
    forall x | x in Inserted(d, s) ensures x.timestamp < cutoff {
      assert x in multiset(Inserted(d, s));
      assert x in d || x == s;
    }
  }

  lemma InsertedInFront(b: seq<State>, s: State)
    requires forall i | 0 <= i < |b| :: s.timestamp < b[i].timestamp
    ensures Inserted(b, s) == [s] + b
  {
    InsertBeforeSuffix([], b, s);
    assert [] + b == b;
  }

  /** A sample older than one already dropped. */
  lemma AddEarly(d: seq<State>, b: seq<State>, s: State, window: int) returns (e: seq<State>)
    requires d != [] && s.timestamp < Last(d).timestamp && forall i | 0 <= i < |b| :: s.timestamp < b[i].timestamp
    requires OnlyStale(d, b, window) && |b| < MAX_SNAPSHOTS
    ensures Inserted(d + b, s) == Inserted(d, s) + (e + Added(b, s, window))
    ensures OnlyStale(Inserted(d, s) + e, Added(b, s, window), window)
  {
    InsertBeforeSuffix(d, b, s);
    var cutoff := Last(b).timestamp - window;
    assert Last(d) in d;
    InsertedMembers(d, s, cutoff);
    e := StaleFrontGoes(b, s, cutoff);
    InsertedInFront(b, s);
    assert Last([s] + b) == Last(b);
  }

  /** The simulation step: what the history holds beyond the buffer stays stale. */
  lemma AddRetains(d: seq<State>, b: seq<State>, s: State, window: int) returns (d': seq<State>)
    requires Sorted(d + b) && OnlyStale(d, b, window) && |b| < MAX_SNAPSHOTS
    ensures Inserted(d + b, s) == d' + Added(b, s, window) && OnlyStale(d', Added(b, s, window), window)
  {
    SortedParts(d, b);
    if d == [] || Last(d).timestamp <= s.timestamp {
      var e := AddLate(d, b, s, window);
      AppendAssociates(d, e, Added(b, s, window));
      d' := d + e;
    } else {
      var e := AddEarly(d, b, s, window);
      AppendAssociates(Inserted(d, s), e, Added(b, s, window));
      d' := Inserted(d, s) + e;
    }
  }

  /** A sample older than the cutoff, put in front of a pair or more, goes at once. */
  lemma StaleFrontGoes(b: seq<State>, s: State, cutoff: int) returns (e: seq<State>)
    requires |b| >= 2 && s.timestamp < cutoff
    ensures b == e + Trimmed([s] + b, cutoff)
    ensures forall x | x in e :: x.timestamp < cutoff
    ensures |Trimmed([s] + b, cutoff)| >= 2 && Last(Trimmed([s] + b, cutoff)) == Last(b)
  {
    assert ([s] + b)[1..] == b;
    e := TrimmedSplits(b, cutoff);
  }

  /** The history holds exactly the samples that arrived. */
  lemma {:induction false} HistoryIsComplete(arrivals: seq<State>)
    ensures Sorted(History(arrivals)) && multiset(History(arrivals)) == multiset(arrivals)
  {
    if arrivals != [] {
      HistoryIsComplete(Front(arrivals));
      InsertedSorted(History(Front(arrivals)), Last(arrivals));
      InsertedContents(History(Front(arrivals)), Last(arrivals));
      FrontLastContents(arrivals);
    }
  }

  /**
    Under the memory bound, the buffer after any arrivals in any order is a suffix of their stable
    timestamp-sorted history, and what it lacks is older than the window.
   */
  lemma {:induction false} BufferRefinesHistory(arrivals: seq<State>, window: int) returns (dropped: seq<State>)
    requires window > 0 && UnderCap(arrivals, window)
    ensures History(arrivals) == dropped + Buffered(arrivals, window)
    ensures OnlyStale(dropped, Buffered(arrivals, window), window)
  {
    dropped := [];
    if arrivals != [] {
      dropped := BufferRefinesHistory(Front(arrivals), window);
      HistoryIsComplete(Front(arrivals));
      dropped := AddRetains(dropped, Buffered(Front(arrivals), window), Last(arrivals), window);
    }
  }

  // ----- Rendering -----

  function Lerp(older: State, newer: State, t: int): State {
    var span := newer.timestamp - older.timestamp;
    if span <= 0 || |older.position| != |newer.position| || older.areaId != newer.areaId then older
    else
      var f := (t - older.timestamp) as real / span as real;
      older.(position := seq(|older.position|, i requires 0 <= i < |older.position| =>
                               older.position[i] + (newer.position[i] - older.position[i]) * f),
             timestamp := t)
  }

  /** The blend over the first pair whose newer end is not before t. */
  function Between(b: seq<State>, t: int): State
    requires b != [] && t < Last(b).timestamp
  {
    if |b| == 1 then b[0]
    else if t <= b[1].timestamp then Lerp(b[0], b[1], t)
    else Between(b[1..], t)
  }

  /** The state drawn at time t: linear between samples, holding the edges. */
  function At(b: seq<State>, t: int): State
    requires b != []
  {
    if |b| == 1 || t <= b[0].timestamp then b[0]
    else if t >= Last(b).timestamp then Last(b)
    else Between(b, t)
  }

  lemma {:induction false} BetweenSkipsOlder(d: seq<State>, b: seq<State>, t: int)
    requires |b| >= 2 && b[0].timestamp < t < Last(b).timestamp
    requires forall x | x in d :: x.timestamp < t
    ensures Between(d + b, t) == Between(b, t)
  {
    if d == [] {
      assert d + b == b;
    } else {
      assert (d + b)[1..] == d[1..] + b;
      BetweenSkipsOlder(d[1..], b, t);
    }
  }

  /**
    Trimming is invisible: at every render time strictly after the oldest retained sample, the buffer
    draws what the full history would.
   */
  lemma TrimmingIsInvisible(arrivals: seq<State>, window: int, t: int)
    requires window > 0 && UnderCap(arrivals, window) && arrivals != []
    requires Buffered(arrivals, window) != [] && Buffered(arrivals, window)[0].timestamp < t
    ensures At(Buffered(arrivals, window), t) == At(History(arrivals), t)
  {
    var d := BufferRefinesHistory(arrivals, window);
    HistoryIsComplete(arrivals);
    var b := Buffered(arrivals, window);
    SortedParts(d, b);
    FrontOfAppend(d, b);
    if d == [] {
      assert d + b == b;
    } else if t < Last(b).timestamp {
      assert forall x | x in d :: x.timestamp <= b[0].timestamp;
      BetweenSkipsOlder(d, b, t);
    }
  }

  // ----- What an arrival leaves -----

  /** The samples of one timestamp, in their order. */
  function AtTime(samples: seq<State>, ts: int): seq<State> {
    if samples == [] then []
    else AtTime(Front(samples), ts) + if Last(samples).timestamp == ts then [Last(samples)] else []
  }

  lemma {:induction false} AtTimeSum(a: seq<State>, b: seq<State>, ts: int)
    ensures AtTime(a + b, ts) == AtTime(a, ts) + AtTime(b, ts)
  {
    if b == [] {
      assert a + b == a && AtTime(a, ts) + [] == AtTime(a, ts);
    } else {
      FrontOfAppend(a, b);
      AtTimeSum(a, Front(b), ts);
      AppendAssociates(AtTime(a, ts), AtTime(Front(b), ts), if Last(b).timestamp == ts then [Last(b)] else []);
    }
  }

  lemma {:induction false} NoneAtTime(samples: seq<State>, ts: int)
    requires forall i | 0 <= i < |samples| :: samples[i].timestamp != ts
    ensures AtTime(samples, ts) == []
  {
    if samples != [] {
      assert Last(samples) == samples[|samples| - 1];
      NoneAtTime(Front(samples), ts);
    }
  }

  lemma {:induction false} InsertedIsStable(b: seq<State>, s: State, ts: int)
    ensures AtTime(Inserted(b, s), ts) == AtTime(b, ts) + if s.timestamp == ts then [s] else []
  {
    if b == [] || Last(b).timestamp <= s.timestamp {
      assert Front(b + [s]) == b;
    } else {
      var f, l := Inserted(Front(b), s), Last(b);
      InsertedIsStable(Front(b), s, ts);
      assert Front(f + [l]) == f;
      assert s.timestamp == ts ==> l.timestamp != ts;
      assert AtTime(b, ts) + [] == AtTime(b, ts) && AtTime(f, ts) + [] == AtTime(f, ts);
      assert AtTime(Front(b), ts) + [] == AtTime(Front(b), ts);
    }
  }

  /** The history is stable: samples of one timestamp stand in the order they arrived in. */
  lemma {:induction false} HistoryIsStable(arrivals: seq<State>, ts: int)
    ensures AtTime(History(arrivals), ts) == AtTime(arrivals, ts)
  {
    if arrivals != [] {
      HistoryIsStable(Front(arrivals), ts);
      InsertedIsStable(History(Front(arrivals)), Last(arrivals), ts);
    }
  }

  /** A buffer may stay as it is: within the memory bound, and nothing past the newest two older than the window. */
  predicate Settled(b: seq<State>, window: int) {
    |b| <= 1024 && (|b| <= 2 || b[0].timestamp >= Last(b).timestamp - window)
  }

  lemma {:induction false} TrimmedIsLongest(c: seq<State>, cutoff: int) returns (k: nat)
    ensures k <= |c| && Trimmed(c, cutoff) == c[k..]
    ensures |c| - k <= 2 || c[k].timestamp >= cutoff
    ensures forall j | 0 <= j < k :: c[j].timestamp < cutoff
    ensures k > 0 ==> |c| - k >= 2
  {
    k := 0;
    if |c| > 2 && c[0].timestamp < cutoff {
      k := TrimmedIsLongest(c[1..], cutoff);
      k := k + 1;
    }
  }

  lemma LastOfTail(all: seq<State>, j: nat)
    requires j < |all|
    ensures Last(all[j..]) == Last(all) && all[j..][0] == all[j]
  {
  }

  /** A longer tail of a capped and trimmed one breaks the bound or the window. */
  lemma LongerIsUnsettled(all: seq<State>, n: nat, k: nat, j: nat, window: int)
    requires n <= |all| && (n > 0 ==> |all| - n == 1024)
    requires k <= |all| - n && j < n + k && (k > 0 ==> |all| - n - k >= 2)
    requires forall i | 0 <= i < k :: all[n..][i].timestamp < Last(all).timestamp - window
    ensures !Settled(all[j..], window)
  {
    LastOfTail(all, j);
    if j >= n {
      assert all[n..][j - n] == all[j];
    }
  }

  /** k starts the longest tail that may stay as it is. */
  ghost predicate LongestTail(all: seq<State>, k: nat, window: int) {
    && k < |all| && Settled(all[k..], window)
    && forall j | 0 <= j < k :: !Settled(all[j..], window)
  }

  lemma CappedIsTail(all: seq<State>, n: nat)
    requires |all| <= 1025 && n == if |all| > 1024 then 1 else 0
    ensures Capped(all) == all[n..]
  {
  }

  lemma CutIsLongest(all: seq<State>, window: int) returns (k: nat)
    requires all != [] && |all| <= 1025
    ensures k < |all| && Trimmed(Capped(all), Last(Capped(all)).timestamp - window) == all[k..]
    ensures LongestTail(all, k, window)
  {
    var n := if |all| > 1024 then 1 else 0;
    var c, cutoff := all[n..], Last(all).timestamp - window;
    LastOfTail(all, n);
    CappedIsTail(all, n);
    hide Trimmed, Capped, Settled;
    k := TrimmedIsLongest(c, cutoff);
    TailOfTail(all, n, k);
    forall j | 0 <= j < n + k
      ensures !Settled(all[j..], window)
    {
      LongerIsUnsettled(all, n, k, j, window);
    }
    TailIsSettled(all, n, k, window);
    k := n + k;
  }

  /**
    An arrival older than everything in a full buffer changes nothing. Any other leaves the longest tail of the samples,
    the new one among them, that is within the bound and the window.
   */
  lemma AddedIsLongestTail(b: seq<State>, s: State, window: int) returns (k: nat)
    requires Sorted(b) && |b| <= 1024
    ensures |b| == 1024 && s.timestamp < b[0].timestamp ==> Added(b, s, window) == b
    ensures !(|b| == 1024 && s.timestamp < b[0].timestamp) ==>
              && LongestTail(Inserted(b, s), k, window) && Added(b, s, window) == Inserted(b, s)[k..]
  {
    k := 0;
    hide LongestTail, Inserted, Capped, Trimmed;
    if !(|b| == 1024 && s.timestamp < b[0].timestamp) {
      k := CutIsLongest(Inserted(b, s), window);
    }
  }

  lemma TailIsSettled(all: seq<State>, n: nat, k: nat, window: int)
    requires n <= |all| && |all| - n <= 1024 && k <= |all| - n && n + k < |all|
    requires |all| - n - k <= 2 || all[n..][k].timestamp >= Last(all).timestamp - window
    ensures Settled(all[n + k..], window)
  {
    LastOfTail(all, n + k);
  }

  lemma TailOfTail(all: seq<State>, n: nat, k: nat)
    requires n + k <= |all|
    ensures all[n..][k..] == all[n + k..]
  {
  }

  // ----- What is drawn between samples -----

  lemma {:induction false} BetweenNeighbours(b: seq<State>, k: nat, t: int)
    requires k + 1 < |b| && t < Last(b).timestamp && t <= b[k + 1].timestamp
    requires forall i | 1 <= i <= k :: b[i].timestamp < t
    ensures Between(b, t) == Lerp(b[k], b[k + 1], t)
  {
    if k > 0 {
      assert forall i | 1 <= i <= k - 1 :: b[1..][i] == b[i + 1];
      BetweenNeighbours(b[1..], k - 1, t);
    }
  }

  /**
    Before the first sample the first is drawn and from the last on the last. Between two neighbours of one area, each
    coordinate stands where its line between them has it; across areas, or where the positions differ in length, the
    older sample is drawn unchanged.
   */
  lemma RenderIsLinear(b: seq<State>, k: nat, t: int, i: nat)
    requires Sorted(b) && k + 1 < |b| && b[k].timestamp < t <= b[k + 1].timestamp && t < Last(b).timestamp
    ensures var older, newer, drawn := b[k], b[k + 1], At(b, t);
            if older.areaId != newer.areaId || |older.position| != |newer.position| then drawn == older
            else
              && drawn == older.(position := drawn.position, timestamp := t) && |drawn.position| == |older.position|
              && (i < |older.position| ==>
                    (drawn.position[i] - older.position[i]) * (newer.timestamp - older.timestamp) as real ==
                    (newer.position[i] - older.position[i]) * (t - older.timestamp) as real)
  {
    BetweenNeighbours(b, k, t);
    var older, newer := b[k], b[k + 1];
    if older.areaId == newer.areaId && |older.position| == |newer.position| && i < |older.position| {
      LerpIsLinear(older, newer, t, i);
    }
  }

  lemma LerpIsLinear(older: State, newer: State, t: int, i: nat)
    requires older.timestamp < newer.timestamp && older.areaId == newer.areaId
    requires i < |older.position| == |newer.position|
    ensures (Lerp(older, newer, t).position[i] - older.position[i]) * (newer.timestamp - older.timestamp) as real ==
            (newer.position[i] - older.position[i]) * (t - older.timestamp) as real
  {
    var span, since := (newer.timestamp - older.timestamp) as real, (t - older.timestamp) as real;
    var d := newer.position[i] - older.position[i];
    assert Lerp(older, newer, t).position[i] - older.position[i] == d * (since / span);
    Rescales(d, since, span);
  }

  lemma Rescales(d: real, since: real, span: real)
    requires span > 0.0
    ensures d * (since / span) * span == d * since
  {
    assert since / span * span == since;
    assert d * (since / span) * span == d * (since / span * span);
  }

  /** The edges are held: the first sample until its time, the last from its time on. */
  lemma EdgesAreHeld(b: seq<State>, t: int)
    requires b != [] && Sorted(b)
    ensures t <= b[0].timestamp ==> At(b, t) == b[0]
    ensures t > b[0].timestamp && t >= Last(b).timestamp ==> At(b, t) == Last(b)
  {
  }

  // ----- Exactly when trimming shows -----

  /** No two samples carry one sequence number. */
  predicate DistinctSeqs(samples: seq<State>) {
    forall i, j | 0 <= i < j < |samples| :: samples[i].seqNo != samples[j].seqNo
  }

  lemma {:induction false} InsertedSplits(b: seq<State>, s: State) returns (n: nat)
    ensures n <= |b| && Inserted(b, s) == b[..n] + [s] + b[n..]
  {
    n := |b|;
    if b == [] || Last(b).timestamp <= s.timestamp {
      assert b[..n] == b && b[n..] == [];
    } else {
      n := InsertedSplits(Front(b), s);
      assert Front(b)[n..] + [Last(b)] == b[n..];
      AppendAssociates(b[..n] + [s], Front(b)[n..], [Last(b)]);
    }
  }

  lemma InsertedDistinct(b: seq<State>, s: State)
    requires DistinctSeqs(b) && forall x | x in b :: x.seqNo != s.seqNo
    ensures DistinctSeqs(Inserted(b, s))
  {
    var n := InsertedSplits(b, s);
    var r := b[..n] + [s] + b[n..];
    forall i, j | 0 <= i < j < |r|
      ensures r[i].seqNo != r[j].seqNo
    {
      assert r[i] == if i < n then b[i] else if i == n then s else b[i - 1];
      assert r[j] == if j < n then b[j] else if j == n then s else b[j - 1];
    }
  }

  lemma {:induction false} HistoryDistinct(arrivals: seq<State>)
    requires DistinctSeqs(arrivals)
    ensures DistinctSeqs(History(arrivals))
  {
    if arrivals != [] {
      var before, s := History(Front(arrivals)), Last(arrivals);
      HistoryDistinct(Front(arrivals));
      HistoryIsComplete(Front(arrivals));
      forall x | x in before
        ensures x.seqNo != s.seqNo
      {
        assert x in multiset(before) && x in multiset(Front(arrivals));
        var i :| 0 <= i < |Front(arrivals)| && Front(arrivals)[i] == x;
        assert arrivals[i].seqNo != arrivals[|arrivals| - 1].seqNo;
      }
      InsertedDistinct(before, s);
    }
  }

  /** At or before sample n, an earlier sample's opaque fields are drawn. */
  lemma {:induction false} DrawnFromEarlier(h: seq<State>, n: nat, t: int) returns (k: nat)
    requires 0 < n < |h| && t <= h[n].timestamp && t < Last(h).timestamp
    ensures k < n && Between(h, t).seqNo == h[k].seqNo
  {
    k := 0;
    if h[1].timestamp < t {
      k := DrawnFromEarlier(h[1..], n - 1, t);
      k := k + 1;
    }
  }

  /** In front of the buffer the history draws one of the samples the buffer lacks. */
  lemma LackedIsDrawn(d: seq<State>, b: seq<State>, window: int, t: int)
    requires window > 0 && d != [] && OnlyStale(d, b, window)
    requires Sorted(d + b) && DistinctSeqs(d + b) && t <= b[0].timestamp
    ensures At(d + b, t).seqNo != At(b, t).seqNo
  {
    var h := d + b;
    assert h[|d|] == b[0] && Last(h) == Last(b) && h[|h| - 1] == Last(b);
    assert At(b, t) == b[0];
    if t <= h[0].timestamp {
      assert h[0].seqNo != h[|d|].seqNo;
    } else if t >= Last(h).timestamp {
      assert h[|h| - 1].seqNo != h[|d|].seqNo;
    } else {
      var k := DrawnFromEarlier(h, |d|, t);
      assert h[k].seqNo != h[|d|].seqNo;
    }
  }

  /**
    Trimming is invisible exactly where the buffer allows: of a stream that numbers its samples, the buffer draws what
    the whole history would if and only if the time is after the oldest sample held, or every sample is still held.
   */
  lemma TrimmingShowsExactly(arrivals: seq<State>, window: int, t: int)
    requires window > 0 && UnderCap(arrivals, window) && arrivals != [] && DistinctSeqs(arrivals)
    ensures Buffered(arrivals, window) != []
    ensures At(Buffered(arrivals, window), t) == At(History(arrivals), t) <==>
            Buffered(arrivals, window)[0].timestamp < t || |Buffered(arrivals, window)| == |arrivals|
  {
    var d := BufferRefinesHistory(arrivals, window);
    var b := Buffered(arrivals, window);
    HistoryIsComplete(arrivals);
    HistoryDistinct(arrivals);
    BufferNotEmpty(arrivals, window);
    assert |History(arrivals)| == |multiset(History(arrivals))| == |multiset(arrivals)| == |arrivals|;
    if d == [] {
      assert d + b == b;
    } else if b[0].timestamp < t {
      TrimmingIsInvisible(arrivals, window, t);
    } else {
      LackedIsDrawn(d, b, window, t);
    }
  }

  lemma BufferNotEmpty(arrivals: seq<State>, window: int)
    requires arrivals != []
    ensures Buffered(arrivals, window) != []
  {
    var b, s := Buffered(Front(arrivals), window), Last(arrivals);
    var c := Capped(Inserted(b, s));
    var e := TrimmedSplits(c, Last(c).timestamp - window);
  }

  /** One drop that shows: at the oldest held sample's own time even the animation is another sample's. */
  lemma TrimmingShowsAtTheOldest(window: int)
    requires window > 0
    ensures exists arrivals: seq<State> ::
              && UnderCap(arrivals, window) && DistinctSeqs(arrivals) && Buffered(arrivals, window) != []
              && At(Buffered(arrivals, window), Buffered(arrivals, window)[0].timestamp).anim
                 != At(History(arrivals), Buffered(arrivals, window)[0].timestamp).anim
  {
    var w := window;
    var a := State("p", 1, 0, [], [0.0], [], [1], None, None);
    var b := State("p", 2, w + 1, [], [1.0], [], [2], None, None);
    var c := State("p", 3, 2 * w + 2, [], [2.0], [], [2], None, None);
    assert Front([a, b, c]) == [a, b] && Front([a, b]) == [a] && Front([a]) == [];
    assert [a, b, c][1..] == [b, c];
    assert Inserted([a], b) == [a, b] && Inserted([a, b], c) == [a, b, c];
    assert Added([], a, w) == [a] && Added([a], b, w) == [a, b];
    assert Trimmed([a, b, c], w + 2) == [b, c];
    assert Added([a, b], c, w) == [b, c];
    assert Buffered([a], w) == [a] && Buffered([a, b], w) == [a, b] && Buffered([a, b, c], w) == [b, c];
    assert History([]) == [] && Inserted([], a) == [a];
    assert History([a]) == [a];
    assert History([a, b]) == [a, b];
    assert History([a, b, c]) == [a, b, c];
    assert UnderCap([a], w) && UnderCap([a, b], w) && UnderCap([a, b, c], w);
    assert DistinctSeqs([a, b, c]);
    assert At([b, c], w + 1).anim != At([a, b, c], w + 1).anim;
  }

  /** The blend starts exactly on the older sample and ends exactly on the newer one. */
  lemma LerpEnds(older: State, newer: State)
    requires older.timestamp < newer.timestamp
    requires |older.position| == |newer.position| && older.areaId == newer.areaId
    ensures Lerp(older, newer, older.timestamp) == older
    ensures Lerp(older, newer, newer.timestamp) == older.(position := newer.position, timestamp := newer.timestamp)
  {
    var span := (newer.timestamp - older.timestamp) as real;
    var p, q := older.position, newer.position;
    var first, last := Lerp(older, newer, older.timestamp).position, Lerp(older, newer, newer.timestamp).position;
    var f, g := 0 as real / span, span / span;
    assert f == 0.0 && g == 1.0;
    forall i | 0 <= i < |p|
      ensures first[i] == p[i] && last[i] == q[i]
    {
      assert first[i] == p[i] + (q[i] - p[i]) * f && last[i] == p[i] + (q[i] - p[i]) * g;
      BlendEnds(p[i], q[i], f, g);
    }
    assert first == p && last == q;
  }

  lemma BlendEnds(a: real, b: real, f: real, g: real)
    requires f == 0.0 && g == 1.0
    ensures a + (b - a) * f == a && a + (b - a) * g == b
  {
  }

  /** Drawn exactly at a held sample's time, the ghost stands exactly where a sample with that time puts it. */
  lemma {:induction false} RenderMeetsSamples(b: seq<State>, t: int, i: nat)
    requires Sorted(b) && i < |b| && b[i].timestamp == t && b[0].timestamp < t < Last(b).timestamp
    requires forall k | 0 <= k < |b| :: b[k].areaId == b[0].areaId && |b[k].position| == |b[0].position|
    ensures exists k | 0 <= k < |b| :: b[k].timestamp == t && Between(b, t).position == b[k].position
  {
    if t <= b[1].timestamp {
      assert b[1].timestamp == t;
      LerpEnds(b[0], b[1]);
    } else {
      RenderMeetsSamples(b[1..], t, i - 1);
      var k :| 0 <= k < |b| - 1 && b[1..][k].timestamp == t && Between(b[1..], t).position == b[1..][k].position;
      assert b[k + 1].timestamp == t && Between(b, t).position == b[k + 1].position;
    }
  }

  lemma InsertionStep(b: seq<State>, i: nat, s: State)
    requires 0 < i <= |b| && s.timestamp < b[i - 1].timestamp
    ensures Inserted(b[..i], s) + b[i..] == Inserted(b[..i - 1], s) + b[i - 1..]
  {
    assert Front(b[..i]) == b[..i - 1] && Last(b[..i]) == b[i - 1];
    assert [b[i - 1]] + b[i..] == b[i - 1..];
    AppendAssociates(Inserted(b[..i - 1], s), [b[i - 1]], b[i..]);
  }

  // ----- The buffer itself -----

  class RemoteBuffer {
    var snapshots: seq<State>
    var historyMs: int

    ghost predicate Valid()
      reads this
    {
      Sorted(snapshots) && |snapshots| <= MAX_SNAPSHOTS
    }

    constructor ()
      ensures Valid() && snapshots == [] && historyMs == 0
    {
      snapshots, historyMs := [], 0;
    }

    method Add(s: State)
      requires Valid()
      modifies this`snapshots
      ensures Valid()
      ensures snapshots == Added(old(snapshots), s, Window(historyMs))
    {
      AddedKeepsOrder(snapshots, s, Window(historyMs));
      snapshots := AddTo(snapshots, s, historyMs);
    }

    static method AddTo(held: seq<State>, s: State, historyMs: int) returns (b: seq<State>)
      ensures b == Added(held, s, Window(historyMs))
    {
      var n := |held|;
      if n > 0 && s.timestamp < held[n - 1].timestamp && s.timestamp < held[0].timestamp && n >= MAX_SNAPSHOTS {
        return held;
      }
      b := InsertionPoint(held, s);
      if |b| > MAX_SNAPSHOTS {
        b := b[|b| - MAX_SNAPSHOTS..];
      }
      var window := historyMs;
      if window <= 0 {
        window := DEFAULT_SNAPSHOT_AGE_MS;
      }
      b := DropStale(b, b[|b| - 1].timestamp - window);
    }

    static method InsertionPoint(b: seq<State>, s: State) returns (r: seq<State>)
      ensures r == Inserted(b, s)
    {
      var i := |b|;
      if i == 0 || s.timestamp >= b[i - 1].timestamp {
        return b + [s];
      }
      assert b[..i] == b && b[i..] == [];
      while i > 0 && b[i - 1].timestamp > s.timestamp
        invariant 0 <= i <= |b|
        invariant Inserted(b, s) == Inserted(b[..i], s) + b[i..]
      {
        InsertionStep(b, i, s);
        i := i - 1;
      }
      r := b[..i] + [s] + b[i..];
    }

    static method DropStale(b: seq<State>, cutoff: int) returns (r: seq<State>)
      ensures r == Trimmed(b, cutoff)
    {
      var drop := 0;
      assert b[0..] == b;
      while drop < |b| - 2 && b[drop].timestamp < cutoff
        invariant 0 <= drop <= |b|
        invariant Trimmed(b, cutoff) == Trimmed(b[drop..], cutoff)
      {
        assert b[drop..][1..] == b[drop + 1..];
        drop := drop + 1;
      }
      r := b[drop..];
    }

    /** Binary search to the run sharing ts, then a scan of that run: exactly membership. */
    method HasSample(seqNo: nat, ts: int) returns (found: bool)
      requires Valid()
      ensures found <==> exists i | 0 <= i < |snapshots| :: snapshots[i].seqNo == seqNo && snapshots[i].timestamp == ts
    {
      var i, j := 0, |snapshots|;
      while i < j
        invariant 0 <= i <= j <= |snapshots|
        invariant forall k | 0 <= k < i :: snapshots[k].timestamp < ts
        invariant forall k | j <= k < |snapshots| :: snapshots[k].timestamp >= ts
      {
        var mid := (i + j) / 2;
        if snapshots[mid].timestamp >= ts {
          j := mid;
        } else {
          i := mid + 1;
        }
      }
      while i < |snapshots| && snapshots[i].timestamp == ts
        invariant 0 <= i <= |snapshots|
        invariant forall k | 0 <= k < i :: snapshots[k].seqNo != seqNo || snapshots[k].timestamp != ts
        invariant forall k | i <= k < |snapshots| :: snapshots[k].timestamp >= ts
      {
        if snapshots[i].seqNo == seqNo {
          return true;
        }
        i := i + 1;
      }
      return false;
    }

    method RenderAt(t: int) returns (st: Option<State>)
      requires Valid()
      ensures st == if snapshots == [] then None else Some(At(snapshots, t))
    {
      var n := |snapshots|;
      if n == 0 {
        return None;
      }
      if n == 1 || t <= snapshots[0].timestamp {
        return Some(snapshots[0]);
      }
      var last := snapshots[n - 1];
      if t >= last.timestamp {
        return Some(last);
      }
      var i := 0;
      assert snapshots[0..] == snapshots;
      while i < n - 1
        invariant 0 <= i <= n - 1 && snapshots[i].timestamp < t
        invariant Between(snapshots, t) == Between(snapshots[i..], t)
      {
        var older, newer := snapshots[i], snapshots[i + 1];
        if t >= older.timestamp && t <= newer.timestamp {
          return Some(Lerp(older, newer, t));
        }
        assert snapshots[i..][1..] == snapshots[i + 1..];
        i := i + 1;
      }
      assert false;
      return Some(last);
    }
  }
}
