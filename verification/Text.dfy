/** Strings as the controller uses them: ordered as `sort.Strings` orders them
    and searched one character at a time. */
module Text {

  /** Lexicographic order on character codes. */
  predicate Less(a: string, b: string) {
    b != [] && (a == [] || a[0] < b[0] || (a[0] == b[0] && Less(a[1..], b[1..])))
  }

  lemma {:induction false} LessIrreflexive(a: string)
    ensures !Less(a, a)
  {
    if a != [] { LessIrreflexive(a[1..]); }
  }

  lemma {:induction false} LessTransitive(a: string, b: string, c: string)
    requires Less(a, b) && Less(b, c)
    ensures Less(a, c)
  {
    if a != [] && a[0] == b[0] == c[0] {
      LessTransitive(a[1..], b[1..], c[1..]);
    }
  }

  /** The first difference decides, and a prefix comes first. */
  lemma {:induction false} FirstDifferenceDecides(p: string, c: char, x: string, d: char, y: string)
    requires c != d
    ensures Less(p + [c] + x, p + [d] + y) <==> c < d
    ensures Less(p, p + [c] + x)
  {
    if p == [] {
      assert ([] + [c] + x)[0] == c && ([] + [d] + y)[0] == d;
    } else {
      var a, b := p + [c] + x, p + [d] + y;
      assert a[1..] == p[1..] + [c] + x && b[1..] == p[1..] + [d] + y && a[0] == b[0] == p[0];
      FirstDifferenceDecides(p[1..], c, x, d, y);
    }
  }

  lemma {:induction false} LessTotal(a: string, b: string)
    ensures Less(a, b) || a == b || Less(b, a)
  {
    if a != [] && b != [] && a[0] == b[0] {
      LessTotal(a[1..], b[1..]);
      assert a[1..] == b[1..] ==> [a[0]] + a[1..] == [b[0]] + b[1..];
    }
  }

  /** Index of the first `c` in `s`, or `|s|` when there is none. */
  function IndexOf(s: string, c: char): (i: nat)
    ensures i <= |s|
    ensures c !in s[..i]
    ensures i < |s| ==> s[i] == c
  {
    if s == [] || s[0] == c then 0
    else
      var j := IndexOf(s[1..], c);
      assert s[..j + 1] == [s[0]] + s[1..][..j];
      j + 1
  }

  /** The first `c` of `a + [c] + b` ends `a` when `a` holds no `c`. */
  lemma IndexOfSplit(a: string, c: char, b: string)
    requires c !in a
    ensures IndexOf(a + [c] + b, c) == |a|
  {
    var s := a + [c] + b;
    var i := IndexOf(s, c);
    assert s[|a|] == c && s[..|a|] == a;
    assert forall j :: 0 <= j < |a| ==> s[j] == a[j] && a[j] in a;
    assert forall j :: 0 <= j < i ==> s[j] in s[..i];
  }

  /** Result of cutting a string at a separator. */
  datatype Cut = Whole | Parts(before: string, after: string)

  /** `sep` stands at some character of `s`; the end of `s` is no character. */
  predicate OccursAt(s: string, sep: string, i: int) {
    0 <= i < |s| && i + |sep| <= |s| && s[i..i + |sep|] == sep
  }

  /** `before` and `after` surround the last occurrence of `sep` in `s`. */
  ghost predicate CutsAtLast(s: string, sep: string, cut: Cut) {
    match cut
    case Whole => forall i :: !OccursAt(s, sep, i)
    case Parts(before, after) =>
      && s == before + sep + after && OccursAt(s, sep, |before|)
      && forall i :: OccursAt(s, sep, i) ==> i <= |before|
  }

  /** `splitLast`: the backward index loop. */
  method SplitLast(s: string, sep: string) returns (cut: Cut)
    ensures CutsAtLast(s, sep, cut)
  {
    var i := |s| - 1;
    while i >= 0
      invariant -1 <= i < |s|
      invariant forall k :: OccursAt(s, sep, k) ==> k <= i
    {
      if i + |sep| <= |s| && s[i..i + |sep|] == sep {
        assert OccursAt(s, sep, i);
        assert s == s[..i] + sep + s[i + |sep|..] && |s[..i]| == i;
        return Parts(s[..i], s[i + |sep|..]);
      }
      assert !OccursAt(s, sep, i);
      i := i - 1;
    }
    return Whole;
  }

  /** At most one cut meets the contract of `SplitLast`. */
  lemma CutIsUnique(s: string, sep: string, c: Cut, d: Cut)
    requires CutsAtLast(s, sep, c) && CutsAtLast(s, sep, d)
    ensures c == d
  {
    if c.Parts? && d.Parts? {
      assert c.before == s[..|c.before|] && c.after == s[|c.before| + |sep|..];
      assert d.before == s[..|d.before|] && d.after == s[|d.before| + |sep|..];
    }
  }

  /** What follows the last `c`. */
  function AfterLast(s: string, c: char): string
    requires c in s
  {
    if c in s[1..] then AfterLast(s[1..], c) else s[1..]
  }

  lemma {:induction false} AfterLastSplits(s: string, c: char) returns (before: string)
    requires c in s
    ensures s == before + [c] + AfterLast(s, c) && c !in AfterLast(s, c)
  {
    assert s == [s[0]] + s[1..];
    if c in s[1..] {
      var rest := AfterLastSplits(s[1..], c);
      before := [s[0]] + rest;
    } else {
      before := [];
    }
  }

  lemma {:induction false} AfterLastOfParts(before: string, c: char, after: string)
    requires c !in after
    ensures AfterLast(before + [c] + after, c) == after
  {
    var s := before + [c] + after;
    if before == [] {
      assert s[1..] == after;
    } else {
      assert s[1..] == before[1..] + [c] + after;
      AfterLastOfParts(before[1..], c, after);
    }
  }

  /** What `SplitLast` finds for a one-character separator. */
  lemma CutAtCharacter(s: string, c: char, cut: Cut)
    requires CutsAtLast(s, [c], cut)
    ensures cut.Whole? <==> c !in s
    ensures cut.Parts? ==> AfterLast(s, c) == cut.after
  {
    forall i | 0 <= i < |s| && s[i] == c ensures OccursAt(s, [c], i) {
      assert s[i..i + 1] == [c];
    }
    if cut.Parts? {
      var n := |cut.before|;
      assert s[n] == c;
      assert forall i :: 0 <= i < |cut.after| ==> cut.after[i] == s[n + 1 + i];
      assert c !in cut.after;
      AfterLastOfParts(cut.before, c, cut.after);
    }
  }
}
