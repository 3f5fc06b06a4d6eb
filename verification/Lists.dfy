/** Small facts about sequences and finite sets shared by the other modules. */
module Lists {
  datatype Option<+T> = None | Some(value: T)

  function Last<T>(s: seq<T>): T
    requires s != []
  {
    s[|s| - 1]
  }

  function Front<T>(s: seq<T>): seq<T>
    requires s != []
  {
    s[..|s| - 1]
  }

  lemma FrontOfAppend<T>(a: seq<T>, b: seq<T>)
    requires b != []
    ensures Front(a + b) == a + Front(b) && Last(a + b) == Last(b)
  {
  }

  lemma AppendAssociates<T>(a: seq<T>, b: seq<T>, c: seq<T>)
    ensures a + (b + c) == a + b + c
  {
  }

  lemma FrontLastContents<T>(s: seq<T>)
    requires s != []
    ensures multiset(s) == multiset(Front(s)) + multiset{Last(s)}
  {
    assert s == Front(s) + [Last(s)];
  }

  lemma SubsetSize<T>(a: set<T>, b: set<T>)
    requires a <= b
    ensures |a| <= |b|
    ensures |a| == |b| ==> a == b
  {
    assert b == a + (b - a);
    assert |b| == |a| + |b - a|;
    if |a| == |b| {
      assert b - a == {};
    }
  }

  lemma NothingLeft<T>(a: set<T>, b: set<T>)
    requires b <= a && a - b == {}
    ensures a == b
  {
    forall x | x in a
      ensures x in b
    {
      assert x !in a - b;
    }
  }

  // ----- A count per member, kept without zero entries -----

  function Count(tally: map<string, int>, p: string): int {
    if p in tally then tally[p] else 0
  }

  function Raised(tally: map<string, int>, p: string): map<string, int> {
    tally[p := Count(tally, p) + 1]
  }

  function Lowered(tally: map<string, int>, p: string): map<string, int> {
    if Count(tally, p) - 1 > 0 then tally[p := Count(tally, p) - 1] else tally - {p}
  }
}
