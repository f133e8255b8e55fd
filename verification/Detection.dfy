/** Exactly which configurations the printed text pins down, among all data with
    clean keys and arbitrary (multi-line) values. */
module Detection {
  import opened Text
  import opened Fingerprint

  /** A later line of `v` reads like an entry for a key after `k`. */
  ghost predicate SplitsAt(k: string, v: string, i: nat, k2: string) {
    && i + 1 + |k2| < |v| && v[i] == '\n' && v[i + 1..i + 1 + |k2|] == k2 && v[i + 1 + |k2|] == '='
    && CleanKey(k2) && Less(k, k2)
  }

  /** At most one entry, none of whose later lines reads like a later entry. */
  ghost predicate PinnedDown(d: Data) {
    d == map[] || exists k :: d.Keys == {k} && forall i: nat, k2 :: !SplitsAt(k, d[k], i, k2)
  }

  /** No other clean-keyed data prints like `d`. */
  ghost predicate EveryOtherDiffers(d: Data) {
    forall e: Data :: CleanKeys(e) && Printed(e) == Printed(d) ==> e == d
  }

  lemma FirstEntry(d: Data) returns (k: string, rest: seq<string>)
    requires d != map[]
    ensures Sorted(d.Keys) == [k] + rest && k in d && k !in rest
    ensures forall j :: j in rest ==> j in d && Less(k, j)
    ensures Printed(d) == Line(k, d[k]) + Print(rest, d)
    ensures Increasing(rest) && (d.Keys == {k} <==> rest == [])
  {
    var keys := Sorted(d.Keys);
    var x :| x in d;
    assert x in keys;
    FirstIsLeast(keys, d.Keys);
    TailEnumerates(keys, d.Keys);
    k, rest := keys[0], keys[1..];
    LessIrreflexive(k);
    assert rest != [] ==> rest[0] in rest;
  }

  lemma SingletonPrints(k: string, v: string)
    ensures Printed(map[k := v]) == Line(k, v)
  {
    var d := map[k := v];
    EnumerationIsUnique([k], Sorted(d.Keys), d.Keys);
    assert Print([k], d) == Line(k, v) + "";
  }

  lemma SameFirstKey(k: string, v: string, j: string, w: string, tail: string)
    requires CleanKey(k) && CleanKey(j) && Line(k, v) == Line(j, w) + tail
    ensures k == j && v + "\n" == (w + "\n") + tail
  {
    var text := Line(k, v);
    assert text == k + ['='] + (v + "\n");
    assert text == j + ['='] + ((w + "\n") + tail);
    IndexOfSplit(k, '=', v + "\n");
    IndexOfSplit(j, '=', (w + "\n") + tail);
    assert k == text[..|k|] && j == text[..|j|];
    assert v + "\n" == text[|k| + 1..] && (w + "\n") + tail == text[|j| + 1..];
  }

  lemma ContinuationSplits(k: string, v: string, w: string, k2: string, w2: string, more: string)
    requires v + "\n" == (w + "\n") + (Line(k2, w2) + more)
    requires CleanKey(k2) && Less(k, k2)
    ensures SplitsAt(k, v, |w|, k2)
  {
    var s := v + "\n";
    assert s == w + "\n" + k2 + "=" + (w2 + "\n" + more);
    assert |v| == |w| + |k2| + |w2| + 2 + |more|;
    assert s[..|v|] == v && s[|w|] == '\n';
    assert s[|w| + 1..|w| + 1 + |k2|] == k2 && s[|w| + 1 + |k2|] == '=';
  }

  lemma OneEntrySuffices(k: string, v: string, e: Data)
    requires CleanKey(k) && CleanKeys(e) && e != map[] && Printed(e) == Line(k, v)
    requires forall i: nat, k2 :: !SplitsAt(k, v, i, k2)
    ensures e == map[k := v]
  {
    var j, rest := FirstEntry(e);
    SameFirstKey(k, v, j, e[j], Print(rest, e));
    if rest == [] {
      assert v == (v + "\n")[..|v|] && e[j] == (e[j] + "\n")[..|e[j]|];
      assert (e[j] + "\n") + "" == e[j] + "\n";
    } else {
      assert rest[0] in rest;
      ContinuationSplits(k, v, e[j], rest[0], e[rest[0]], Print(rest[1..], e));
    }
  }

  lemma PinnedDownSuffices(d: Data, e: Data)
    requires CleanKeys(d) && CleanKeys(e) && PinnedDown(d) && Printed(e) == Printed(d)
    ensures e == d
  {
    if d == map[] {
      if e != map[] { var j, rest := FirstEntry(e); }
    } else {
      var k :| d.Keys == {k} && forall i: nat, k2 :: !SplitsAt(k, d[k], i, k2);
      assert d == map[k := d[k]];
      SingletonPrints(k, d[k]);
      OneEntrySuffices(k, d[k], e);
    }
  }

  lemma {:induction false} PrintEndsLine(keys: seq<string>, d: Data)
    requires keys != [] && forall k :: k in keys ==> k in d
    ensures var p := Print(keys, d); p != "" && p[|p| - 1] == '\n'
    decreases |keys|
  {
    if |keys| > 1 { PrintEndsLine(keys[1..], d); }
    else { assert keys[1..] == []; }
  }

  lemma LineAbsorbs(k: string, v: string, p: string)
    requires p != "" && p[|p| - 1] == '\n'
    ensures Line(k, v + "\n" + p[..|p| - 1]) == Line(k, v) + p
  {
    assert p == p[..|p| - 1] + "\n";
  }

  lemma SeveralKeys(d: Data, k: string)
    requires |d| >= 2
    ensures d.Keys != {k}
  {
    assert |d| == |d.Keys|;
  }

  /** Folding all later entries into the first value prints the same text. */
  lemma FoldedTwin(d: Data) returns (e: Data)
    requires CleanKeys(d) && |d| >= 2
    ensures CleanKeys(e) && e != d && Printed(e) == Printed(d)
  {
    assert d != map[];
    var k, rest := FirstEntry(d);
    SeveralKeys(d, k);
    PrintEndsLine(rest, d);
    var p := Print(rest, d);
    var v := d[k] + "\n" + p[..|p| - 1];
    e := map[k := v];
    SingletonPrints(k, v);
    LineAbsorbs(k, d[k], p);
    assert e.Keys == {k};
  }

  lemma SplitIsJoined(k: string, v: string, i: nat, k2: string)
    requires SplitsAt(k, v, i, k2)
    ensures v == Joined(v[..i], k2, v[i + 2 + |k2|..])
  {
    var rest := v[i + 1..];
    assert v == v[..i] + "\n" + rest;
    assert rest == k2 + "=" + v[i + 2 + |k2|..];
  }

  /** Cutting a value at a line that reads like an entry prints the same text. */
  lemma SplitTwin(k: string, v: string, i: nat, k2: string) returns (e: Data)
    requires CleanKey(k) && SplitsAt(k, v, i, k2)
    ensures CleanKeys(e) && e != map[k := v] && Printed(e) == Printed(map[k := v])
  {
    var v1, v2 := v[..i], v[i + 2 + |k2|..];
    e := map[k := v1, k2 := v2];
    PairPrints(k, v1, k2, v2);
    SingletonPrints(k, v);
    assert k2 in e && k2 !in map[k := v];
    SplitIsJoined(k, v, i, k2);
    JoinedPrintsTwoLines(k, v1, k2, v2);
  }

  /** The text identifies the data exactly when the data is pinned down. */
  lemma ExactDetection(d: Data)
    requires CleanKeys(d)
    ensures EveryOtherDiffers(d) <==> PinnedDown(d)
  {
    if PinnedDown(d) {
      forall e: Data | CleanKeys(e) && Printed(e) == Printed(d) ensures e == d {
        PinnedDownSuffices(d, e);
      }
    } else if |d| >= 2 {
      var e := FoldedTwin(d);
    } else {
      var k :| k in d;
      assert d.Keys == {k} by { assert |d.Keys - {k}| == 0; }
      assert d == map[k := d[k]];
      var i: nat, k2 :| SplitsAt(k, d[k], i, k2);
      var e := SplitTwin(k, d[k], i, k2);
    }
  }
}
