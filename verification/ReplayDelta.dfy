/**
  A recording that writes each sample's extras as what changed (core/recorder.go), and the reader that carries them
  forward again (core/replay.go). A nil map is None; nil and empty are told apart only where the code can.
 */
module ReplayDelta {
  import opened Lists
  import opened Wire

  type Carried = Option<Extras>

  function Fields(x: Carried): Extras {
    if x.Some? then x.value else map[]
  }

  // ----- The writer -----

  /** Reading a missing key of a map gives nil, so a null there and a missing key compare equal. */
  predicate SameExtra(a: Json, b: Json)
    decreases a
  {
    match a
    case Null => b == Null
    case Bool(_) => a == b
    case Num(_) => a == b
    case Str(_) => a == b
    case Arr(x) => b.Arr? && |x| == |b.items| && forall i | 0 <= i < |x| :: SameExtra(x[i], b.items[i])
    case Obj(x) =>
      b.Obj? && |x| == |b.fields| && forall k | k in x :: SameExtra(x[k], if k in b.fields then b.fields[k] else Null)
  }

  predicate Unchanged(prev: Extras, cur: Extras, k: Text)
    requires k in cur
  {
    k in prev && SameExtra(prev[k], cur[k])
  }

  function Delta(prev: Carried, cur: Carried): Carried {
    var p, c := Fields(prev), Fields(cur);
    if p == map[] then cur
    else Some(map k | k in c.Keys + p.Keys && (k in c ==> !Unchanged(p, c, k)) :: if k in c then c[k] else Null)
  }

  /** An empty map is not written, and reads back as nil. */
  function OnDisk(x: Carried): Carried {
    if Fields(x) == map[] then None else x
  }

  // ----- The reader -----

  function Merged(carried: Carried, delta: Carried): Carried {
    var c, d := Fields(carried), Fields(delta);
    if c == map[] then delta
    else if d == map[] then carried
    else
      var m: Extras := map k | k in c.Keys + d.Keys && (k in d ==> d[k] != Null) :: if k in d then d[k] else c[k];
      if m == map[] then None else Some(m)
  }

  // ----- Structural equality -----

  lemma SameAsNull(a: Json)
    ensures SameExtra(a, Null) <==> a == Null
  {
  }

  lemma {:induction false} SameItems(a: Json, b: Json)
    requires a.Arr? && b.Arr? && NullFree(a) && NullFree(b)
    ensures SameExtra(a, b) <==> a == b
    decreases a, 0
  {
    var x, y := a.items, b.items;
    if |x| == |y| {
      forall i | 0 <= i < |x|
        ensures SameExtra(x[i], y[i]) <==> x[i] == y[i]
      {
        SameIsEqual(x[i], y[i]);
      }
    }
  }

  lemma {:induction false} SameFields(a: Json, b: Json)
    requires a.Obj? && b.Obj? && NullFree(a) && NullFree(b)
    ensures SameExtra(a, b) <==> a == b
    decreases a, 0
  {
    var x, y := a.fields, b.fields;
    if |x| == |y| {
      forall k | k in x
        ensures SameExtra(x[k], if k in y then y[k] else Null) <==> (k in y && x[k] == y[k])
      {
        if k in y {
          SameIsEqual(x[k], y[k]);
        } else {
          SameAsNull(x[k]);
        }
      }
      if x.Keys <= y.Keys {
        SubsetSize(x.Keys, y.Keys);
      }
    }
  }

  /** On values without a null at any depth, sameExtra is equality. */
  lemma {:induction false} SameIsEqual(a: Json, b: Json)
    requires NullFree(a) && NullFree(b)
    ensures SameExtra(a, b) <==> a == b
    decreases a, 1
  {
    if a.Arr? && b.Arr? {
      SameItems(a, b);
    } else if a.Obj? && b.Obj? {
      SameFields(a, b);
    }
  }

  /** A null under a key and another key's null look the same to it, although the maps differ. */
  lemma NestedNullsLookTheSame(j: Text, k: Text)
    requires j != k
    ensures SameExtra(Obj(map[j := Null]), Obj(map[k := Null])) && Obj(map[j := Null]) != Obj(map[k := Null])
  {
    assert |map[j := Null]| == |map[k := Null]|;
    assert k in map[k := Null] && k !in map[j := Null];
  }

  // ----- One sample -----

  /** What writing cur after prev and reading it back over prev loses nothing of. */
  predicate Survives(prev: Extras, cur: Extras, k: Text)
    requires k in cur
  {
    if k in prev && SameExtra(prev[k], cur[k]) then prev[k] == cur[k] else cur[k] != Null
  }

  predicate AllSurvive(prev: Extras, cur: Extras) {
    prev == map[] || forall k | k in cur :: Survives(prev, cur, k)
  }

  /**
    Written after prev and read over the same prev, cur comes back, up to nil against empty, if and only if prev was
    empty, or no changed value is a null and no two different values look the same.
   */
  lemma DeltaReadsBack(prev: Carried, cur: Carried)
    ensures Fields(Merged(OnDisk(prev), OnDisk(Delta(prev, cur)))) == Fields(cur) <==>
            AllSurvive(Fields(prev), Fields(cur))
  {
    var p, c := Fields(prev), Fields(cur);
    if p != map[] {
      var d := Fields(Delta(prev, cur));
      var m: Extras := map k | k in p.Keys + d.Keys && (k in d ==> d[k] != Null) :: if k in d then d[k] else p[k];
      var r := Fields(Merged(OnDisk(prev), OnDisk(Delta(prev, cur))));
      assert r == m by {
        if d == map[] {
          assert m == p;
        }
      }
      MergedKeys(p, c, d, m);
    }
  }

  lemma MergedKeys(p: Extras, c: Extras, d: Extras, m: Extras)
    requires d == map k | k in c.Keys + p.Keys && (k in c ==> !Unchanged(p, c, k)) :: if k in c then c[k] else Null
    requires m == map k | k in p.Keys + d.Keys && (k in d ==> d[k] != Null) :: if k in d then d[k] else p[k]
    ensures m == c <==> forall k | k in c :: Survives(p, c, k)
  {
    hide SameExtra;
    forall k
      ensures k in m <==> k in c && (Unchanged(p, c, k) || c[k] != Null)
      ensures k in m ==> m[k] == if Unchanged(p, c, k) then p[k] else c[k]
    {
    }
    if m == c {
      forall k | k in c
        ensures Survives(p, c, k)
      {
        assert k in m;
      }
    }
    if forall k | k in c :: Survives(p, c, k) {
      assert forall k :: k in c <==> k in m;
      assert m == c;
    }
  }

  lemma NullFreeSurvives(prev: Extras, cur: Extras)
    requires ExtrasNullFree(prev) && ExtrasNullFree(cur)
    ensures AllSurvive(prev, cur)
  {
    forall k | k in cur
      ensures Survives(prev, cur, k)
    {
      if k in prev {
        SameIsEqual(prev[k], cur[k]);
      }
    }
  }

  // ----- Whole recordings -----

  /** The lines of a recording whose previous sample had prev. */
  function Recorded(prev: Carried, samples: seq<Carried>): seq<Carried>
    decreases |samples|
  {
    if samples == [] then [] else [OnDisk(Delta(prev, samples[0]))] + Recorded(samples[0], samples[1..])
  }

  /** What the reader makes of lines, carrying from carried. */
  function ReadBack(carried: Carried, lines: seq<Carried>): seq<Carried>
    decreases |lines|
  {
    if lines == [] then []
    else
      var x := Merged(carried, lines[0]);
      [x] + ReadBack(x, lines[1..])
  }

  predicate SameFieldsAll(a: seq<Carried>, b: seq<Carried>) {
    |a| == |b| && forall i | 0 <= i < |a| :: Fields(a[i]) == Fields(b[i])
  }

  lemma MergedByFields(carried: Carried, prev: Carried, line: Carried)
    requires Fields(carried) == Fields(prev)
    ensures Fields(Merged(carried, line)) == Fields(Merged(OnDisk(prev), line))
  {
  }

  /** The sample before the i-th of a recording that started from prev. */
  function Before(prev: Carried, samples: seq<Carried>, i: nat): Carried
    requires i < |samples|
  {
    if i == 0 then prev else samples[i - 1]
  }

  /** Every sample survives being written after the one before it. */
  ghost predicate EachSurvives(prev: Carried, samples: seq<Carried>) {
    forall i | 0 <= i < |samples| :: AllSurvive(Fields(Before(prev, samples, i)), Fields(samples[i]))
  }

  lemma EachSurvivesFrom(prev: Carried, samples: seq<Carried>)
    requires samples != []
    ensures EachSurvives(prev, samples) <==>
            AllSurvive(Fields(prev), Fields(samples[0])) && EachSurvives(samples[0], samples[1..])
  {
    hide AllSurvive;
    var rest := samples[1..];
    forall i | 0 <= i < |rest|
      ensures Before(samples[0], rest, i) == Before(prev, samples, i + 1) && rest[i] == samples[i + 1]
    {
    }
    if EachSurvives(prev, samples) {
      assert Before(prev, samples, 0) == prev;
    }
    if AllSurvive(Fields(prev), Fields(samples[0])) && EachSurvives(samples[0], rest) {
      forall i | 0 <= i < |samples|
        ensures AllSurvive(Fields(Before(prev, samples, i)), Fields(samples[i]))
      {
        if i > 0 {
          assert Before(samples[0], rest, i - 1) == Before(prev, samples, i) && rest[i - 1] == samples[i];
        }
      }
    }
  }

  lemma SameFieldsFrom(a: seq<Carried>, b: seq<Carried>)
    requires a != [] && b != []
    ensures SameFieldsAll(a, b) <==> Fields(a[0]) == Fields(b[0]) && SameFieldsAll(a[1..], b[1..])
  {
    hide Fields;
    if Fields(a[0]) == Fields(b[0]) && SameFieldsAll(a[1..], b[1..]) {
      forall i | 0 <= i < |a|
        ensures Fields(a[i]) == Fields(b[i])
      {
        if i > 0 {
          assert a[i] == a[1..][i - 1] && b[i] == b[1..][i - 1];
        }
      }
    }
    if SameFieldsAll(a, b) {
      assert forall i | 0 <= i < |a| - 1 :: a[1..][i] == a[i + 1] && b[1..][i] == b[i + 1];
    }
  }

  /** The reader needs only a carry with the same fields as the writer's previous sample. */
  lemma {:induction false} ReadsBackFrom(carried: Carried, prev: Carried, samples: seq<Carried>)
    requires Fields(carried) == Fields(prev)
    ensures SameFieldsAll(ReadBack(carried, Recorded(prev, samples)), samples) <==> EachSurvives(prev, samples)
    decreases |samples|
  {
    if samples != [] {
      var line := OnDisk(Delta(prev, samples[0]));
      var rest := Recorded(samples[0], samples[1..]);
      var x := Merged(carried, line);
      assert ([line] + rest)[1..] == rest;
      var read := [x] + ReadBack(x, rest);
      assert read[1..] == ReadBack(x, rest);
      MergedByFields(carried, prev, line);
      DeltaReadsBack(prev, samples[0]);
      hide Delta, Merged, OnDisk, AllSurvive;
      EachSurvivesFrom(prev, samples);
      SameFieldsFrom(read, samples);
      if Fields(x) == Fields(samples[0]) {
        ReadsBackFrom(x, samples[0], samples[1..]);
      }
    }
  }

  /**
    A recording reads back as the samples' extras, up to nil against empty, if and only if every sample survives being
    written after the one before it: that was empty, or no changed value is a null and no two different values look
    the same.
   */
  lemma RecordingReadsBack(samples: seq<Carried>)
    ensures SameFieldsAll(ReadBack(None, Recorded(None, samples)), samples) <==> EachSurvives(None, samples)
  {
    ReadsBackFrom(None, None, samples);
  }

  /** So does every recording whose extras hold no null at any depth. */
  lemma NullFreeReadsBack(samples: seq<Carried>)
    requires forall i | 0 <= i < |samples| :: ExtrasNullFree(Fields(samples[i]))
    ensures SameFieldsAll(ReadBack(None, Recorded(None, samples)), samples)
  {
    hide AllSurvive, Recorded, ReadBack;
    RecordingReadsBack(samples);
    forall i | 0 <= i < |samples|
      ensures AllSurvive(Fields(Before(None, samples, i)), Fields(samples[i]))
    {
      NullFreeSurvives(Fields(Before(None, samples, i)), Fields(samples[i]));
    }
  }

  /** With nested nulls a recording can read back wrong: the second sample's value is never written. */
  lemma NestedNullsAreLost(key: Text, j: Text, k: Text)
    requires j != k
    ensures var a: Extras, b: Extras := map[key := Obj(map[j := Null])], map[key := Obj(map[k := Null])];
            a != b && ReadBack(None, Recorded(None, [Some(a), Some(b)])) == [Some(a), Some(a)]
  {
    var a: Extras, b: Extras := map[key := Obj(map[j := Null])], map[key := Obj(map[k := Null])];
    NestedNullsLookTheSame(j, k);
    assert a[key] != b[key];
    assert Fields(Delta(Some(a), Some(b))) == map[];
    var samples := [Some(a), Some(b)];
    assert samples[1..] == [Some(b)] && [Some(b)][1..] == [];
    assert Recorded(Some(a), [Some(b)]) == [None];
    assert Recorded(None, samples) == [Some(a)] + [None];
    var rest: seq<Carried> := [None];
    assert ([Some(a)] + rest)[1..] == rest && rest[1..] == [];
    assert ReadBack(Some(a), [None]) == [Some(a)];
  }

  // ----- The imperative form -----

  method ExtrasDelta(prev: Carried, cur: Carried) returns (r: Carried)
    ensures r == Delta(prev, cur)
  {
    var p, c := Fields(prev), Fields(cur);
    if |p| == 0 {
      assert p == map[];
      return cur;
    }
    var changed := Changed(p, c);
    var out := WithVanished(changed, p, c);
    DeltaParts(p, c, changed, out);
    r := Some(out);
  }

  lemma DeltaParts(p: Extras, c: Extras, changed: Extras, out: Extras)
    requires forall k :: k in changed <==> k in c && !Unchanged(p, c, k)
    requires forall k | k in changed :: changed[k] == c[k]
    requires forall k :: k in out <==> k in changed || (k in p && k !in c)
    requires forall k | k in out :: out[k] == if k in changed then changed[k] else Null
    ensures out == map k | k in c.Keys + p.Keys && (k in c ==> !Unchanged(p, c, k)) :: if k in c then c[k] else Null
  {
    hide Unchanged;
  }

  /** The keys of cur that are new or have changed. */
  method Changed(p: Extras, c: Extras) returns (out: Extras)
    ensures forall k :: k in out <==> k in c && !Unchanged(p, c, k)
    ensures forall k | k in out :: out[k] == c[k]
  {
    hide SameExtra;
    out := map[];
    var todo := c.Keys;
    while todo != {}
      invariant todo <= c.Keys
      invariant forall k :: k in out <==> k in c && k !in todo && !Unchanged(p, c, k)
      invariant forall k | k in out :: out[k] == c[k]
      decreases todo
    {
      var k :| k in todo;
      todo := todo - {k};
      if k !in p || !SameExtra(p[k], c[k]) {
        out := out[k := c[k]];
      }
    }
  }

  /** An explicit null for each key that disappeared. */
  method WithVanished(changed: Extras, p: Extras, c: Extras) returns (out: Extras)
    requires changed.Keys <= c.Keys
    ensures forall k :: k in out <==> k in changed || (k in p && k !in c)
    ensures forall k | k in out :: out[k] == if k in changed then changed[k] else Null
  {
    out := changed;
    var todo := p.Keys;
    while todo != {}
      invariant todo <= p.Keys
      invariant forall k :: k in out <==> k in changed || (k in p && k !in c && k !in todo)
      invariant forall k | k in out :: out[k] == if k in changed then changed[k] else Null
      decreases todo
    {
      var k :| k in todo;
      todo := todo - {k};
      if k !in c {
        out := out[k := Null];
      }
    }
  }

  method MergeCarried(carried: Carried, delta: Carried) returns (r: Carried)
    ensures r == Merged(carried, delta)
  {
    var c, d := Fields(carried), Fields(delta);
    if |c| == 0 {
      assert c == map[];
      return delta;
    }
    if |d| == 0 {
      assert d == map[];
      return carried;
    }
    var out := c;
    var todo := d.Keys;
    while todo != {}
      invariant todo <= d.Keys
      invariant forall k :: k in out <==> (k in d && k !in todo && d[k] != Null) || (k in c && (k !in d || k in todo))
      invariant forall k | k in out :: out[k] == if k in d && k !in todo then d[k] else c[k]
      decreases todo
    {
      var k :| k in todo;
      todo := todo - {k};
      if d[k] == Null {
        out := out - {k};
      } else {
        out := out[k := d[k]];
      }
    }
    assert out == map k | k in c.Keys + d.Keys && (k in d ==> d[k] != Null) :: if k in d then d[k] else c[k];
    assert |out| == 0 <==> out == map[];
    r := if |out| == 0 then None else Some(out);
  }

  /** The writer's half of a sample: its delta goes to the file, and the full value becomes the previous one. */
  class Recorder {
    var prevExtras: Carried
    ghost var samples: seq<Carried>
    ghost var lines: seq<Carried>

    ghost predicate Valid()
      reads this
    {
      lines == Recorded(None, samples) && prevExtras == if samples == [] then None else Last(samples)
    }

    constructor ()
      ensures Valid() && samples == []
    {
      prevExtras, samples, lines := None, [], [];
    }

    method Write(full: Carried)
      requires Valid()
      modifies this
      ensures Valid() && samples == old(samples) + [full]
    {
      var out := ExtrasDelta(prevExtras, full);
      RecordedOneMore(None, samples, full);
      prevExtras := full;
      samples := samples + [full];
      lines := lines + [OnDisk(out)];
    }
  }

  lemma {:induction false} RecordedOneMore(prev: Carried, samples: seq<Carried>, full: Carried)
    ensures Recorded(prev, samples + [full]) ==
            Recorded(prev, samples) + [OnDisk(Delta(if samples == [] then prev else Last(samples), full))]
    decreases |samples|
  {
    hide Delta, OnDisk;
    if samples == [] {
      assert [] + [full] == [full] && [full][1..] == [];
    } else {
      assert (samples + [full])[1..] == samples[1..] + [full];
      RecordedOneMore(samples[0], samples[1..], full);
    }
  }

  /** The reader's loop over the lines of a file. */
  method ReadSamples(lines: seq<Carried>) returns (extras: seq<Carried>)
    ensures extras == ReadBack(None, lines)
  {
    extras := [];
    var carried: Carried := None;
    var rest := lines;
    assert [] + ReadBack(None, lines) == ReadBack(None, lines);
    while rest != []
      invariant extras + ReadBack(carried, rest) == ReadBack(None, lines)
      decreases |rest|
    {
      var x := MergeCarried(carried, rest[0]);
      AppendAssociates(extras, [x], ReadBack(x, rest[1..]));
      carried := x;
      extras := extras + [x];
      rest := rest[1..];
    }
  }
}
