/**
  SanitizeDisplayName (protocol/displayname.go). A rune is its class, its width in UTF-8 and its code point; which
  code points are in which class is Unicode's business, not this model's.
 */
module DisplayName {
  import opened Lists
  import opened Subsequences

  const MAX_RUNES: nat := 24
  const MAX_BYTES: nat := 64
  const MAX_MARKS: nat := 2

  /** Disallowed covers invalid input, controls, format characters, private use and everything not graphic. */
  datatype Kind = Disallowed | Space | Mark | Base

  datatype Rune = Rune(kind: Kind, width: nat, code: nat)

  const BLANK := Rune(Space, 1, 0x20)

  // ----- What the documentation promises, stage by stage -----

  /** Disallowed runes go. */
  function Allowed(s: seq<Rune>): seq<Rune> {
    if s == [] then []
    else if Last(s).kind.Disallowed? then Allowed(Front(s)) else Allowed(Front(s)) + [Last(s)]
  }

  /** How many marks s ends with. */
  function MarkRun(s: seq<Rune>): nat {
    if s == [] || !Last(s).kind.Mark? then 0 else MarkRun(Front(s)) + 1
  }

  /** Marks are capped per base character. */
  function Capped(s: seq<Rune>): seq<Rune> {
    if s == [] then []
    else if Last(s).kind.Mark? && MarkRun(Front(s)) >= MAX_MARKS then Capped(Front(s)) else Capped(Front(s)) + [Last(s)]
  }

  /** Whitespace becomes single blanks, none of them first. */
  function Collapsed(s: seq<Rune>): seq<Rune> {
    if s == [] then []
    else
      var c := Collapsed(Front(s));
      if !Last(s).kind.Space? then c + [Last(s)]
      else if c == [] || Last(c) == BLANK then c else c + [BLANK]
  }

  function Bytes(s: seq<Rune>): nat {
    if s == [] then 0 else Bytes(Front(s)) + Last(s).width
  }

  predicate Within(s: seq<Rune>) {
    |s| <= MAX_RUNES && Bytes(s) <= MAX_BYTES
  }

  /** The longest prefix within both limits. */
  function Truncated(s: seq<Rune>): seq<Rune> {
    if s == [] || Within(s) then s else Truncated(Front(s))
  }

  function Trimmed(s: seq<Rune>): seq<Rune> {
    if s != [] && Last(s) == BLANK then Trimmed(Front(s)) else s
  }

  function Normal(s: seq<Rune>): seq<Rune> {
    Collapsed(Capped(Allowed(s)))
  }

  function Sanitized(s: seq<Rune>): seq<Rune> {
    Trimmed(Truncated(Normal(s)))
  }

  // ----- What a sanitized name is -----

  predicate Tidy(s: seq<Rune>) {
    s == [] ||
    (&& Tidy(Front(s))
     && !Last(s).kind.Disallowed?
     && (Last(s).kind.Space? ==> Last(s) == BLANK && Front(s) != [] && Last(Front(s)) != BLANK)
     && MarkRun(s) <= MAX_MARKS)
  }

  /** No disallowed rune, no leading, doubled or trailing blank, at most two marks in a row, within both limits. */
  predicate Clean(s: seq<Rune>) {
    Tidy(s) && Within(s) && (s != [] ==> Last(s) != BLANK)
  }

  // ----- One pass -----

  lemma AllowedOne(s: seq<Rune>, r: Rune)
    ensures Allowed(s + [r]) == if r.kind.Disallowed? then Allowed(s) else Allowed(s) + [r]
  {
    assert Front(s + [r]) == s;
  }

  lemma CappedOne(s: seq<Rune>, r: Rune)
    ensures Capped(s + [r]) == if r.kind.Mark? && MarkRun(s) >= MAX_MARKS then Capped(s) else Capped(s) + [r]
    ensures MarkRun(s + [r]) == if r.kind.Mark? then MarkRun(s) + 1 else 0
  {
    assert Front(s + [r]) == s;
  }

  lemma CollapsedOne(s: seq<Rune>, r: Rune)
    ensures var c := Collapsed(s);
            Collapsed(s + [r]) ==
            if !r.kind.Space? then c + [r] else if c == [] || Last(c) == BLANK then c else c + [BLANK]
  {
    assert Front(s + [r]) == s;
  }

  /** What one more rune does to the normal form, in terms of what the loop remembers. */
  lemma NormalOne(s: seq<Rune>, r: Rune)
    ensures var n := Normal(s);
            Normal(s + [r]) ==
            if r.kind.Disallowed? then n
            else if r.kind.Space? then if n == [] || Last(n) == BLANK then n else n + [BLANK]
            else if r.kind.Mark? && MarkRun(Allowed(s)) >= MAX_MARKS then n
            else n + [r]
  {
    AllowedOne(s, r);
    if !r.kind.Disallowed? {
      CappedOne(Allowed(s), r);
      CollapsedOne(Capped(Allowed(s)), r);
    }
  }

  lemma BytesOne(s: seq<Rune>, r: Rune)
    ensures Bytes(s + [r]) == Bytes(s) + r.width
  {
    assert Front(s + [r]) == s;
  }

  /** More input only adds to the normal form. */
  lemma {:induction false} NormalGrows(s: seq<Rune>, more: seq<Rune>)
    ensures Normal(s) <= Normal(s + more)
  {
    if more == [] {
      assert s + more == s;
    } else {
      FrontOfAppend(s, more);
      assert s + more == s + Front(more) + [Last(more)];
      NormalGrows(s, Front(more));
      NormalOne(s + Front(more), Last(more));
    }
  }

  /** The longest fitting prefix of anything that continues w past the limits. */
  lemma {:induction false} TruncatedStops(w: seq<Rune>, all: seq<Rune>)
    requires w <= all && Within(w)
    requires |all| > |w| ==> !Within(w + [all[|w|]])
    ensures Truncated(all) == w
    decreases |all|
  {
    if |all| > |w| {
      assert all[..|w| + 1] == w + [all[|w|]];
      TooLong(all, |w| + 1);
      assert w <= Front(all);
      assert |Front(all)| > |w| ==> Front(all)[|w|] == all[|w|];
      TruncatedStops(w, Front(all));
    } else {
      assert all == w;
    }
  }

  lemma {:induction false} TooLong(all: seq<Rune>, n: nat)
    requires n <= |all| && !Within(all[..n])
    ensures !Within(all)
  {
    if n < |all| {
      assert Front(all)[..n] == all[..n];
      TooLong(Front(all), n);
      assert Bytes(all) >= Bytes(Front(all));
    } else {
      assert all[..n] == all;
    }
  }

  lemma TrimBlank(w: seq<Rune>)
    ensures Trimmed(w + [BLANK]) == Trimmed(w)
  {
    assert Front(w + [BLANK]) == w;
  }

  /** What the loop holds: within the limits, or one trailing blank past them. */
  ghost predicate Holding(out: seq<Rune>) {
    Within(out) || (out != [] && Last(out) == BLANK && Within(Front(out)))
  }

  /** When the next kept rune does not fit, or there is none, trimming what the loop holds is the answer. */
  lemma LoopEnds(out: seq<Rune>, all: seq<Rune>)
    requires out <= all && Holding(out)
    requires |all| > |out| ==> !Within(out + [all[|out|]])
    ensures Trimmed(out) == Trimmed(Truncated(all))
  {
    hide Truncated, Trimmed, Bytes;
    if Within(out) {
      TruncatedStops(out, all);
    } else {
      hide Within;
      var w := Front(out);
      assert out == w + [BLANK];
      assert all[|w|] == out[|w|];
      TruncatedStops(w, all);
      TrimBlank(w);
    }
  }

  lemma NothingYet()
    ensures Normal([]) == [] && Bytes([]) == 0 && Holding([]) && MarkRun(Allowed([])) == 0
  {
  }

  method TrimBlanks(s: seq<Rune>) returns (r: seq<Rune>)
    ensures r == Trimmed(s)
  {
    r := s;
    while r != [] && Last(r) == BLANK
      invariant Trimmed(r) == Trimmed(s)
      decreases |r|
    {
      r := Front(r);
    }
  }

  /** The longest run of marks a name may hold has been reached, or how long it is. */
  function MarkCount(s: seq<Rune>): nat {
    if MarkRun(Allowed(s)) > MAX_MARKS then MAX_MARKS else MarkRun(Allowed(s))
  }

  /** The loop of the source: one pass, three counters. */
  method Sanitize(s: seq<Rune>) returns (name: seq<Rune>)
    ensures name == Sanitized(s)
  {
    hide Normal, Truncated, Trimmed, Bytes, Allowed, MarkRun;
    var out: seq<Rune> := [];
    var len, runes, marks := 0, 0, 0;
    var lastWasSpace := false;
    var i := 0;
    NothingYet();
    while i < |s|
      invariant 0 <= i <= |s|
      invariant out == Normal(s[..i]) && len == Bytes(out) && runes == |out|
      invariant marks == MarkCount(s[..i])
      invariant marks > 0 ==> out != [] && Last(out).kind.Mark?
      invariant lastWasSpace <==> out != [] && Last(out) == BLANK
      invariant Holding(out)
    {
      var r := s[i];
      assert s[..i + 1] == s[..i] + [r];
      NormalOne(s[..i], r);
      AllowedOne(s[..i], r);
      CappedOne(Allowed(s[..i]), r);
      i := i + 1;
      if r.kind.Disallowed? {
        continue;
      }
      if r.kind.Space? {
        marks := 0;
        if !lastWasSpace && runes != 0 {
          lastWasSpace := true;
          BytesOne(out, BLANK);
          assert Front(out + [BLANK]) == out;
          out, len, runes := out + [BLANK], len + 1, runes + 1;
        }
        continue;
      }
      lastWasSpace := false;
      if r.kind.Mark? {
        if marks >= MAX_MARKS {
          continue;
        }
        marks := marks + 1;
      } else {
        marks := 0;
      }
      BytesOne(out, r);
      if runes >= MAX_RUNES || len + r.width > MAX_BYTES {
        NormalGrows(s[..i], s[i..]);
        assert s[..i] + s[i..] == s;
        LoopEnds(out, Normal(s));
        name := TrimBlanks(out);
        return;
      }
      out, len, runes := out + [r], len + r.width, runes + 1;
    }
    assert s[..i] == s;
    LoopEnds(out, Normal(s));
    name := TrimBlanks(out);
  }

  // ----- The promises -----

  lemma TidyOne(s: seq<Rune>, r: Rune)
    requires Tidy(s) && !r.kind.Disallowed?
    requires r.kind.Space? ==> r == BLANK && s != [] && Last(s) != BLANK
    requires MarkRun(s + [r]) <= MAX_MARKS
    ensures Tidy(s + [r])
  {
    assert Front(s + [r]) == s;
  }

  /** The normal form is tidy, and ends with as many marks as its input, up to two. */
  lemma {:induction false} NormalIsTidy(s: seq<Rune>)
    ensures Tidy(Normal(s))
    ensures MarkRun(Normal(s)) == MarkCount(s)
  {
    if s != [] {
      var f, r := Front(s), Last(s);
      assert s == f + [r];
      NormalIsTidy(f);
      NormalOne(f, r);
      AllowedOne(f, r);
      CappedOne(Allowed(f), r);
      hide Normal, Allowed, Tidy, Collapsed;
      var n := Normal(f);
      CappedOne(n, r);
      CappedOne(n, BLANK);
      if r.kind.Space? {
        if n != [] && Last(n) != BLANK {
          TidyOne(n, BLANK);
        } else {
          BlankEndsNoMarks(n);
        }
      } else if !r.kind.Disallowed? && !(r.kind.Mark? && MarkRun(Allowed(f)) >= MAX_MARKS) {
        TidyOne(n, r);
      }
    }
  }

  lemma BlankEndsNoMarks(n: seq<Rune>)
    ensures n == [] || Last(n) == BLANK ==> MarkRun(n) == 0
  {
  }

  lemma {:induction false} TruncatedIsTidy(s: seq<Rune>)
    requires Tidy(s)
    ensures Tidy(Truncated(s)) && Within(Truncated(s)) && Truncated(s) <= s
  {
    if s != [] && !Within(s) {
      TruncatedIsTidy(Front(s));
    }
  }

  lemma {:induction false} TrimmedIsClean(s: seq<Rune>)
    requires Tidy(s) && Within(s)
    ensures Clean(Trimmed(s)) && Trimmed(s) <= s
  {
    if s != [] && Last(s) == BLANK {
      assert Within(Front(s));
      TrimmedIsClean(Front(s));
    }
  }

  /** Every result is a clean name. */
  lemma SanitizedIsClean(s: seq<Rune>)
    ensures Clean(Sanitized(s))
  {
    NormalIsTidy(s);
    TruncatedIsTidy(Normal(s));
    TrimmedIsClean(Truncated(Normal(s)));
  }

  /** A tidy name is its own normal form. */
  lemma {:induction false} TidyIsNormal(s: seq<Rune>)
    requires Tidy(s)
    ensures Normal(s) == s && Allowed(s) == s
  {
    if s != [] {
      var f, r := Front(s), Last(s);
      assert s == f + [r];
      TidyIsNormal(f);
      NormalOne(f, r);
      AllowedOne(f, r);
      CappedOne(f, r);
    }
  }

  /** A clean name passes through unchanged, so what the relay sanitizes no client changes again. */
  lemma CleanIsKept(s: seq<Rune>)
    requires Clean(s)
    ensures Sanitized(s) == s
  {
    TidyIsNormal(s);
  }

  lemma SanitizingTwice(s: seq<Rune>)
    ensures Sanitized(Sanitized(s)) == Sanitized(s)
  {
    SanitizedIsClean(s);
    CleanIsKept(Sanitized(s));
  }

  // ----- Nothing else is lost -----

  /** The base runes of s. */
  function Bases(s: seq<Rune>): seq<Rune> {
    if s == [] then [] else if Last(s).kind.Base? then Bases(Front(s)) + [Last(s)] else Bases(Front(s))
  }

  /** Whether there is white space after the last base rune of s. */
  predicate OpenBreak(s: seq<Rune>) {
    s != [] && !Last(s).kind.Base? && (Last(s).kind.Space? || OpenBreak(Front(s)))
  }

  /** For every base rune of s but the first, whether white space separates it from the one before. */
  function Breaks(s: seq<Rune>): seq<bool> {
    if s == [] then []
    else if Last(s).kind.Base? && Bases(Front(s)) != [] then Breaks(Front(s)) + [OpenBreak(Front(s))]
    else Breaks(Front(s))
  }

  lemma BasesOne(s: seq<Rune>, r: Rune)
    ensures Bases(s + [r]) == if r.kind.Base? then Bases(s) + [r] else Bases(s)
    ensures OpenBreak(s + [r]) == (!r.kind.Base? && (r.kind.Space? || OpenBreak(s)))
    ensures Breaks(s + [r]) ==
            if r.kind.Base? && Bases(s) != [] then Breaks(s) + [OpenBreak(s)] else Breaks(s)
  {
    assert Front(s + [r]) == s;
  }

  lemma {:induction false} BlankIsBreak(s: seq<Rune>)
    ensures s != [] && Last(s) == BLANK ==> OpenBreak(s)
    ensures Bases(s) != [] ==> s != []
  {
  }

  /** Before the limits are applied every base rune is kept, and with it every break between two of them. */
  lemma {:induction false} NormalKeepsWords(s: seq<Rune>)
    ensures Bases(Normal(s)) == Bases(s) && Breaks(Normal(s)) == Breaks(s)
    ensures Bases(s) != [] ==> (OpenBreak(Normal(s)) <==> OpenBreak(s))
  {
    if s != [] {
      var f, r := Front(s), Last(s);
      var n := Normal(f);
      assert s == f + [r];
      NormalKeepsWords(f);
      NormalOne(f, r);
      BasesOne(f, r);
      BasesOne(n, r);
      BasesOne(n, BLANK);
      BlankIsBreak(n);
      hide Normal, Bases, Breaks, OpenBreak;
    }
  }

  /**
    The limits cut only the tail: a sanitized name is its normal form up to where the next rune would not fit, without
    the blank it may end with.
   */
  lemma SanitizedIsLongest(s: seq<Rune>) returns (w: seq<Rune>)
    ensures w <= Normal(s) && Within(w)
    ensures w == Normal(s) || !Within(Normal(s)[..|w| + 1])
    ensures Sanitized(s) == w || Sanitized(s) + [BLANK] == w
  {
    w := Truncated(Normal(s));
    TruncatedIsLongest(Normal(s));
    NormalIsTidy(s);
    TruncatedIsTidy(Normal(s));
    if w != [] && Last(w) == BLANK {
      assert w == Front(w) + [BLANK];
      OneBlankAtMost(w);
    }
  }

  lemma OneBlankAtMost(w: seq<Rune>)
    requires Tidy(w) && w != [] && Last(w) == BLANK
    ensures Trimmed(w) == Front(w)
  {
  }

  lemma {:induction false} TruncatedIsLongest(s: seq<Rune>)
    ensures Truncated(s) <= s && (Truncated(s) == s || !Within(s[..|Truncated(s)| + 1]))
  {
    if s != [] && !Within(s) {
      TruncatedIsLongest(Front(s));
      if Truncated(Front(s)) == Front(s) {
        assert s[..|s|] == s;
      } else {
        assert Front(s)[..|Truncated(s)| + 1] == s[..|Truncated(s)| + 1];
      }
    }
  }

  /** What is left of the input is left in order: the name's runes other than blanks are a subsequence of it. */
  lemma {:induction false} NormalIsFromInput(s: seq<Rune>)
    ensures Sub(Visible(Normal(s)), Visible(s))
  {
    if s != [] {
      var f, r := Front(s), Last(s);
      assert s == f + [r];
      NormalIsFromInput(f);
      NormalOne(f, r);
      hide Normal, Sub;
      var n := Normal(f);
      VisibleOne(f, r);
      VisibleOne(n, r);
      VisibleOne(n, BLANK);
      if !r.kind.Space? {
        SubSkip(Visible(n), Visible(f), r);
        SubTake(Visible(n), Visible(f), r);
      }
    }
  }

  function Visible(s: seq<Rune>): seq<Rune> {
    if s == [] then [] else if Last(s).kind.Space? then Visible(Front(s)) else Visible(Front(s)) + [Last(s)]
  }

  lemma VisibleOne(s: seq<Rune>, r: Rune)
    ensures Visible(s + [r]) == if r.kind.Space? then Visible(s) else Visible(s) + [r]
  {
    assert Front(s + [r]) == s;
  }
}
