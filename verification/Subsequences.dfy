/** Subsequences: what is left of a sequence when some of its elements are dropped and the rest keep their order. */
module Subsequences {
  import opened Lists

  predicate Sub<T(==)>(a: seq<T>, b: seq<T>) {
    a == [] || (b != [] && (if Last(a) == Last(b) then Sub(Front(a), Front(b)) else Sub(a, Front(b))))
  }

  lemma {:induction false} SubSelf<T>(a: seq<T>)
    ensures Sub(a, a)
  {
    if a != [] {
      SubSelf(Front(a));
    }
  }

  lemma {:induction false} SubSkip<T>(a: seq<T>, b: seq<T>, x: T)
    requires Sub(a, b)
    ensures Sub(a, b + [x])
    decreases |b|, 1
  {
    assert Front(b + [x]) == b;
    if a != [] && Last(a) == x {
      SubDropLast(a, b);
    }
  }

  lemma {:induction false} SubDropLast<T>(a: seq<T>, b: seq<T>)
    requires Sub(a, b) && a != []
    ensures Sub(Front(a), b)
    decreases |b|, 0
  {
    if Last(a) == Last(b) {
      assert b == Front(b) + [Last(b)];
      SubSkip(Front(a), Front(b), Last(b));
    } else {
      SubDropLast(a, Front(b));
      assert b == Front(b) + [Last(b)];
      SubSkip(Front(a), Front(b), Last(b));
    }
  }

  lemma {:induction false} SubTake<T>(a: seq<T>, b: seq<T>, x: T)
    requires Sub(a, b)
    ensures Sub(a + [x], b + [x])
  {
    assert Front(a + [x]) == a && Front(b + [x]) == b;
  }

  lemma {:induction false} SubTrans<T>(a: seq<T>, b: seq<T>, c: seq<T>)
    requires Sub(a, b) && Sub(b, c)
    ensures Sub(a, c)
    decreases |c|
  {
    if a != [] {
      assert c == Front(c) + [Last(c)];
      if Last(b) == Last(c) {
        if Last(a) == Last(b) {
          SubTrans(Front(a), Front(b), Front(c));
        } else {
          SubTrans(a, Front(b), Front(c));
        }
      } else {
        SubTrans(a, b, Front(c));
        SubSkip(a, Front(c), Last(c));
      }
    }
  }

  lemma {:induction false} SubSum<T>(a: seq<T>, b: seq<T>, c: seq<T>)
    requires Sub(a, b)
    ensures Sub(a + c, b + c)
  {
    if c == [] {
      assert a + c == a && b + c == b;
    } else {
      FrontOfAppend(a, c);
      FrontOfAppend(b, c);
      SubSum(a, b, Front(c));
    }
  }

  lemma {:induction false} SubUnder<T>(c: seq<T>, a: seq<T>, b: seq<T>)
    requires Sub(a, b)
    ensures Sub(c + a, c + b)
    decreases |b|
  {
    if b == [] {
      SubSelf(c + a);
    } else if a == [] {
      assert c + a == c;
      FrontOfAppend(c, b);
      assert c + b == (c + Front(b)) + [Last(b)];
      assert Sub(a, Front(b));
      SubUnder(c, a, Front(b));
      SubSkip(c + a, c + Front(b), Last(b));
    } else {
      FrontOfAppend(c, b);
      FrontOfAppend(c, a);
      assert c + b == (c + Front(b)) + [Last(b)];
      if Last(a) == Last(b) {
        SubUnder(c, Front(a), Front(b));
      } else {
        SubUnder(c, a, Front(b));
        SubSkip(c + a, c + Front(b), Last(b));
      }
    }
  }

  function Without<T>(q: seq<T>, k: nat): (r: seq<T>)
    requires k < |q|
    ensures |r| == |q| - 1
  {
    q[..k] + q[k + 1..]
  }

  lemma SplitAt<T>(q: seq<T>, k: nat)
    requires k < |q|
    ensures q == q[..k] + [q[k]] + q[k + 1..]
  {
  }

  lemma SubBetween<T>(a: seq<T>, x: T, b: seq<T>)
    ensures Sub(a + b, a + [x] + b)
  {
    SubSelf(a);
    SubSkip(a, a, x);
    SubSum(a, a + [x], b);
  }

  lemma SubWithout<T>(q: seq<T>, k: nat)
    requires k < |q|
    ensures Sub(Without(q, k), q)
  {
    hide Sub;
    SplitAt(q, k);
    SubBetween(q[..k], q[k], q[k + 1..]);
  }

  lemma SubNone<T>(b: seq<T>)
    ensures Sub([], b)
  {
  }

  lemma {:induction false} SubContents<T>(a: seq<T>, b: seq<T>, x: T)
    requires Sub(a, b) && x in a
    ensures x in b
    decreases |b|
  {
    assert b == Front(b) + [Last(b)];
    assert a == Front(a) + [Last(a)];
    if Last(a) == Last(b) {
      if x != Last(a) {
        SubContents(Front(a), Front(b), x);
      }
    } else {
      SubContents(a, Front(b), x);
    }
  }

  lemma {:induction false} SubTail<T>(a: seq<T>, b: seq<T>)
    ensures Sub(b, a + b)
  {
    SubNone(a);
    SubSum([], a, b);
    assert [] + b == b;
  }

  lemma {:induction false} SubHead<T>(a: seq<T>, b: seq<T>)
    ensures Sub(a, a + b)
  {
    SubNone(b);
    SubUnder(a, [], b);
    assert a + [] == a;
  }
}
