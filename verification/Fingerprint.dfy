/** The configuration fingerprint of `computeConfigMapHash`: sorted keys printed
    as `key=value` lines into a digest.  Results are about the printed text; the
    digest is a parameter, so no property of a hash is assumed. */
module Fingerprint {
  import opened Text

  type Data = map<string, string>

  // ---------------------------------------------------------------- sorted keys

  ghost predicate Increasing(keys: seq<string>) {
    forall i, j :: 0 <= i < j < |keys| ==> Less(keys[i], keys[j])
  }

  ghost predicate Enumerates(keys: seq<string>, s: set<string>) {
    Increasing(keys) && forall k :: k in keys <==> k in s
  }

  ghost predicate IsLeast(k: string, s: set<string>) {
    k in s && forall j :: j in s && j != k ==> Less(k, j)
  }

  lemma {:induction false} LeastOf(s: set<string>) returns (k: string)
    requires s != {}
    ensures IsLeast(k, s)
    decreases |s|
  {
    var x :| x in s;
    k := x;
    if s != {x} {
      var y := LeastOf(s - {x});
      LessTotal(x, y);
      k := if Less(x, y) then x else y;
      forall j | j in s && j != k ensures Less(k, j) {
        if k == x && j != y { LessTransitive(x, y, j); }
      }
    }
  }

  ghost function Least(s: set<string>): (k: string)
    requires s != {}
    ensures IsLeast(k, s)
  {
    assert exists k :: IsLeast(k, s) by { var k := LeastOf(s); }
    var k :| IsLeast(k, s);
    k
  }

  /** The keys in increasing order. */
  ghost function Sorted(s: set<string>): (keys: seq<string>)
    ensures Enumerates(keys, s)
  {
    if s == {} then []
    else
      var k := Least(s);
      var rest := Sorted(s - {k});
      assert forall i :: 0 <= i < |rest| ==> rest[i] in rest && Less(k, rest[i]);
      [k] + rest
  }

  lemma IncreasingSlice(keys: seq<string>, lo: nat, hi: nat)
    requires Increasing(keys) && lo <= hi <= |keys|
    ensures Increasing(keys[lo..hi])
  {
  }

  lemma IncreasingIsDuplicateFree(keys: seq<string>, i: nat, j: nat)
    requires Increasing(keys) && i < j < |keys|
    ensures keys[i] != keys[j]
  {
    LessIrreflexive(keys[i]);
  }

  /** There is exactly one increasing enumeration of a key set, so no order in
      which a range loop yields the keys can show in the result. */
  lemma {:induction false} EnumerationIsUnique(a: seq<string>, b: seq<string>, s: set<string>)
    requires Enumerates(a, s) && Enumerates(b, s)
    ensures a == b
    decreases |a|
  {
    if a == [] {
      if b != [] { FirstIsLeast(b, s); }
    } else {
      assert a[0] in b;
      FirstIsLeast(a, s);
      FirstIsLeast(b, s);
      LessIrreflexive(a[0]);
      if a[0] != b[0] { LessTransitive(a[0], b[0], a[0]); }
      TailEnumerates(a, s);
      TailEnumerates(b, s);
      EnumerationIsUnique(a[1..], b[1..], s - {a[0]});
      assert a == [a[0]] + a[1..] && b == [b[0]] + b[1..];
    }
  }

  lemma FirstIsLeast(a: seq<string>, s: set<string>)
    requires Enumerates(a, s) && a != []
    ensures a[0] in s && forall k :: k in s && k != a[0] ==> Less(a[0], k)
  {
    assert a[0] in a;
    forall k | k in s && k != a[0] ensures Less(a[0], k) {
      assert k in a;
      var i :| 0 <= i < |a| && a[i] == k;
    }
  }

  lemma TailEnumerates(a: seq<string>, s: set<string>)
    requires Enumerates(a, s) && a != []
    ensures Enumerates(a[1..], s - {a[0]})
  {
    IncreasingSlice(a, 1, |a|);
    forall k ensures k in a[1..] <==> k in s - {a[0]} {
      if k in a[1..] {
        var i :| 0 <= i < |a| - 1 && a[1..][i] == k;
        IncreasingIsDuplicateFree(a, 0, i + 1);
        assert k in a;
      }
      if k in s - {a[0]} { assert k in a; }
    }
  }

  // ---------------------------------------------------------------- printing

  function Line(k: string, v: string): (s: string)
    ensures |s| == |k| + |v| + 2
  {
    k + "=" + v + "\n"
  }

  function Print(keys: seq<string>, data: Data): string
    requires forall k :: k in keys ==> k in data
  {
    if keys == [] then "" else Line(keys[0], data[keys[0]]) + Print(keys[1..], data)
  }

  /** The text that reaches the digest. */
  ghost function Printed(data: Data): string {
    Print(Sorted(data.Keys), data)
  }

  /** The fingerprint; the empty map is the special case with no digest. */
  ghost function Fingerprint(digest: string -> string, data: Data): string {
    if data == map[] then "" else digest(Printed(data))
  }

  /** Insertion sort with the contract of `sort.Strings`. */
  method SortStrings(keys: seq<string>) returns (sorted: seq<string>)
    requires forall i, j :: 0 <= i < j < |keys| ==> keys[i] != keys[j]
    ensures Increasing(sorted) && forall k :: k in sorted <==> k in keys
  {
    sorted := [];
    for n := 0 to |keys|
      invariant Increasing(sorted)
      invariant forall k :: k in sorted <==> k in keys[..n]
    {
      var x := keys[n];
      assert x !in keys[..n];
      var p := |sorted|;
      while p > 0 && !Less(sorted[p - 1], x)
        invariant 0 <= p <= |sorted|
        invariant forall i :: p <= i < |sorted| ==> Less(x, sorted[i])
      {
        LessTotal(sorted[p - 1], x);
        assert sorted[p - 1] in sorted;
        p := p - 1;
      }
      forall i | 0 <= i < p ensures Less(sorted[i], x) {
        if i < p - 1 { LessTransitive(sorted[i], sorted[p - 1], x); }
      }
      var next := sorted[..p] + [x] + sorted[p..];
      forall k ensures k in next <==> k in keys[..n + 1] {
        assert keys[..n + 1] == keys[..n] + [x];
        assert sorted == sorted[..p] + sorted[p..];
      }
      sorted := next;
    }
    assert keys[..|keys|] == keys;
  }

  /** The range loop over the map, whatever order it yields the keys in. */
  method CollectKeys(data: Data) returns (keys: seq<string>)
    ensures forall k :: k in keys <==> k in data
    ensures forall i, j :: 0 <= i < j < |keys| ==> keys[i] != keys[j]
  {
    keys := [];
    var remaining := data.Keys;
    while remaining != {}
      invariant remaining <= data.Keys
      invariant forall k :: k in keys <==> k in data.Keys - remaining
      invariant forall i, j :: 0 <= i < j < |keys| ==> keys[i] != keys[j]
      decreases |remaining|
    {
      var k :| k in remaining;
      assert k !in keys;
      keys := keys + [k];
      remaining := remaining - {k};
    }
  }

  /** The loop that writes one line a key into the digest's input. */
  method WriteLines(keys: seq<string>, data: Data) returns (printed: string)
    requires forall k :: k in keys ==> k in data
    ensures printed == Print(keys, data)
  {
    printed := "";
    for i := 0 to |keys|
      invariant printed + Print(keys[i..], data) == Print(keys, data)
    {
      var k := keys[i];
      assert keys[i..][0] == k && keys[i..][1..] == keys[i + 1..];
      assert printed + (Line(k, data[k]) + Print(keys[i + 1..], data))
          == (printed + Line(k, data[k])) + Print(keys[i + 1..], data);
      printed := printed + (k + "=" + data[k] + "\n");
    }
  }

  /** `computeConfigMapHash`: collect, sort, print.  The contract is that the
      loops compute one function of the map. */
  method ComputeConfigMapHash(data: Data, digest: string -> string) returns (hash: string)
    ensures hash == Fingerprint(digest, data)
    ensures data == map[] ==> hash == ""
    ensures data != map[] ==> exists keys :: Enumerates(keys, data.Keys) && hash == digest(Print(keys, data))
  {
    if |data| == 0 {
      return "";
    }
    var keys := CollectKeys(data);
    keys := SortStrings(keys);
    EnumerationIsUnique(keys, Sorted(data.Keys), data.Keys);
    var printed := WriteLines(keys, data);
    hash := digest(printed);
  }

  lemma Associates(a: string, b: string, c: string)
    ensures (a + b) + c == a + (b + c)
  {
  }

  lemma {:induction false} PrintConcat(a: seq<string>, b: seq<string>, data: Data)
    requires forall k :: k in a + b ==> k in data
    ensures Print(a + b, data) == Print(a, data) + Print(b, data)
  {
    assert forall k :: k in a ==> k in a + b;
    assert forall k :: k in b ==> k in a + b;
    if a == [] {
      assert a + b == b;
    } else {
      assert (a + b)[0] == a[0] && (a + b)[1..] == a[1..] + b;
      assert forall k :: k in a[1..] + b ==> k in a + b;
      PrintConcat(a[1..], b, data);
      Associates(Line(a[0], data[a[0]]), Print(a[1..], data), Print(b, data));
    }
  }

  lemma {:induction false} PrintDependsOnItsKeys(keys: seq<string>, d: Data, e: Data)
    requires forall k :: k in keys ==> k in d && k in e && d[k] == e[k]
    ensures Print(keys, d) == Print(keys, e)
  {
    if keys != [] {
      PrintDependsOnItsKeys(keys[1..], d, e);
    }
  }

  // ---------------------------------------------------------------- round trip

  ghost predicate CleanKey(k: string) { '=' !in k && '\n' !in k }

  ghost predicate CleanKeys(data: Data) { forall k :: k in data ==> CleanKey(k) }

  ghost predicate SingleLineValues(data: Data) { forall k :: k in data ==> '\n' !in data[k] }

  /** Splits at newlines and each line at its first equals sign. */
  function Parse(text: string): Data
    decreases |text|
  {
    var n := IndexOf(text, '\n');
    if n == |text| then map[]
    else
      var line := text[..n];
      var e := IndexOf(line, '=');
      if e == |line| then Parse(text[n + 1..])
      else Parse(text[n + 1..])[line[..e] := line[e + 1..]]
  }

  lemma FirstLine(k: string, v: string, rest: string)
    requires CleanKey(k) && '\n' !in v
    ensures var text := Line(k, v) + rest; var n := |k| + 1 + |v|;
            IndexOf(text, '\n') == n && n < |text| && text[..n] == k + "=" + v && text[n + 1..] == rest
  {
    var text := Line(k, v) + rest;
    assert text == (k + "=" + v) + ['\n'] + rest;
    IndexOfSplit(k + "=" + v, '\n', rest);
  }

  /** The parser reads one printed line back. */
  lemma ParseLine(k: string, v: string, rest: string)
    requires CleanKey(k) && '\n' !in v
    ensures Parse(Line(k, v) + rest) == Parse(rest)[k := v]
  {
    FirstLine(k, v, rest);
    var line := k + "=" + v;
    IndexOfSplit(k, '=', v);
    assert line[..|k|] == k && line[|k| + 1..] == v;
  }

  lemma {:induction false} ParsePrint(keys: seq<string>, data: Data)
    requires forall k :: k in keys ==> k in data
    requires CleanKeys(data) && SingleLineValues(data)
    ensures Parse(Print(keys, data)) == map k | k in keys :: data[k]
  {
    if keys != [] {
      ParseLine(keys[0], data[keys[0]], Print(keys[1..], data));
      ParsePrint(keys[1..], data);
      assert forall j :: j in keys <==> j == keys[0] || j in keys[1..];
    }
  }

  /** The parser recovers every map with clean keys and single-line values. */
  lemma RoundTrip(data: Data)
    requires CleanKeys(data) && SingleLineValues(data)
    ensures Parse(Printed(data)) == data
  {
    ParsePrint(Sorted(data.Keys), data);
  }

  lemma PrintedIsInjectiveOnSingleLines(d: Data, e: Data)
    requires CleanKeys(d) && SingleLineValues(d) && CleanKeys(e) && SingleLineValues(e)
    requires Printed(d) == Printed(e)
    ensures d == e
  {
    RoundTrip(d);
    RoundTrip(e);
  }

  // ---------------------------------------------------------------- single-key edits

  lemma OthersDiffer(keys: seq<string>, i: nat)
    requires Increasing(keys) && i < |keys|
    ensures keys == keys[..i] + [keys[i]] + keys[i + 1..]
    ensures keys[i] !in keys[..i] && keys[i] !in keys[i + 1..]
    ensures forall j :: j in keys[..i] || j in keys[i + 1..] ==> j in keys
  {
    LessIrreflexive(keys[i]);
  }

  lemma PrintAround(before: seq<string>, k: string, after: seq<string>, data: Data)
    requires forall j :: j in before || j in after ==> j in data
    requires k in data
    ensures Print(before + [k] + after, data) == Print(before, data) + Line(k, data[k]) + Print(after, data)
  {
    PrintConcat(before + [k], after, data);
    PrintConcat(before, [k], data);
    assert Print([k], data) == Line(k, data[k]) + "";
  }

  /** Where `k` stands in the sorted keys, and what is printed around its line. */
  lemma PrintedAround(data: Data, k: string) returns (before: seq<string>, after: seq<string>)
    requires k in data
    ensures Sorted(data.Keys) == before + [k] + after
    ensures k !in before && k !in after
    ensures forall j :: j in before || j in after ==> j in data
    ensures Printed(data) == Print(before, data) + Line(k, data[k]) + Print(after, data)
  {
    var keys := Sorted(data.Keys);
    assert k in keys;
    var i :| 0 <= i < |keys| && keys[i] == k;
    before, after := keys[..i], keys[i + 1..];
    OthersDiffer(keys, i);
    PrintAround(before, k, after, data);
  }

  lemma CancelContext(p: string, x: string, y: string, q: string)
    requires p + x + q == p + y + q
    ensures x == y
  {
    assert |p + x + q| == |p + y + q|;
    assert x == (p + x + q)[|p|..|p| + |x|];
    assert y == (p + y + q)[|p|..|p| + |y|];
  }

  lemma LineDeterminesValue(k: string, v: string, w: string)
    ensures Line(k, v) == Line(k, w) ==> v == w
  {
    if Line(k, v) == Line(k, w) {
      assert v == Line(k, v)[|k| + 1..|k| + 1 + |v|];
      assert w == Line(k, w)[|k| + 1..|k| + 1 + |w|];
    }
  }

  /** Changing one value, however many lines it has, changes the printed text. */
  lemma ChangedValueIsSeen(data: Data, k: string, v: string)
    requires k in data && data[k] != v
    ensures Printed(data) != Printed(data[k := v])
  {
    var next := data[k := v];
    assert next.Keys == data.Keys;
    var before, after := PrintedAround(data, k);
    var before', after' := PrintedAround(next, k);
    SameSplit(before, after, before', after', k, data);
    PrintDependsOnItsKeys(before, data, next);
    PrintDependsOnItsKeys(after, data, next);
    LineDeterminesValue(k, data[k], v);
    if Printed(data) == Printed(next) {
      CancelContext(Print(before, data), Line(k, data[k]), Line(k, v), Print(after, data));
    }
  }

  lemma SameSplit(a: seq<string>, b: seq<string>, c: seq<string>, d: seq<string>, k: string, data: Data)
    requires a + [k] + b == c + [k] + d
    requires k !in a && k !in b && k !in c && k !in d
    ensures a == c && b == d
  {
    var s := a + [k] + b;
    assert s[|a|] == k && s[|c|] == k;
    assert forall i :: 0 <= i < |a| ==> s[i] == a[i] && a[i] in a;
    assert forall i :: 0 <= i < |c| ==> s[i] == c[i] && c[i] in c;
    assert a == s[..|a|] && c == s[..|c|] && b == s[|a| + 1..] && d == s[|c| + 1..];
  }

  lemma EnumerationWithout(before: seq<string>, k: string, after: seq<string>, s: set<string>)
    requires Enumerates(before + [k] + after, s) && k !in before && k !in after
    ensures Enumerates(before + after, s - {k})
  {
    var all, keys := before + [k] + after, before + after;
    forall i, j | 0 <= i < j < |keys| ensures Less(keys[i], keys[j]) {
      var i' := if i < |before| then i else i + 1;
      var j' := if j < |before| then j else j + 1;
      assert all[i'] == keys[i] && all[j'] == keys[j];
    }
    forall j ensures j in keys <==> j in s - {k} {
      assert j in all <==> j in before || j == k || j in after;
    }
  }

  /** Each entry accounts for its key, its value and two separators, so adding
      or removing a key always changes the printed text, down to the empty map. */
  lemma AddedKeyLengthens(data: Data, k: string, v: string)
    requires k !in data
    ensures |Printed(data[k := v])| == |Printed(data)| + |k| + |v| + 2
    ensures Printed(data[k := v]) != Printed(data)
  {
    var next := data[k := v];
    var before, after := PrintedAround(next, k);
    EnumerationWithout(before, k, after, next.Keys);
    assert next.Keys - {k} == data.Keys;
    EnumerationIsUnique(before + after, Sorted(data.Keys), data.Keys);
    assert forall j :: j in before ==> j in before + after;
    assert forall j :: j in after ==> j in before + after;
    PrintDependsOnItsKeys(before, data, next);
    PrintDependsOnItsKeys(after, data, next);
    PrintConcat(before, after, data);
  }

  datatype Edit = Put(key: string, value: string) | Remove(key: string)

  function Apply(data: Data, edit: Edit): Data {
    match edit
    case Put(k, v) => data[k := v]
    case Remove(k) => data - {k}
  }

  lemma RemovedKeyShortens(data: Data, k: string)
    requires k in data
    ensures Printed(data - {k}) != Printed(data)
  {
    assert (data - {k})[k := data[k]] == data;
    AddedKeyLengthens(data - {k}, k, data[k]);
  }

  /** Every real edit of a single key is seen in the printed text. */
  lemma EditIsSeen(data: Data, edit: Edit)
    requires Apply(data, edit) != data
    ensures Printed(Apply(data, edit)) != Printed(data)
  {
    match edit
    case Put(k, v) => if k in data { ChangedValueIsSeen(data, k, v); } else { AddedKeyLengthens(data, k, v); }
    case Remove(k) => if k in data { RemovedKeyShortens(data, k); }
  }

  /** A single-key edit that leaves the fingerprint alone either changes nothing
      or exhibits two different texts with one digest. */
  lemma UnseenEditIsACollision(digest: string -> string, data: Data, edit: Edit)
    requires forall s: string :: digest(s) != ""
    requires Fingerprint(digest, data) == Fingerprint(digest, Apply(data, edit))
    ensures data == Apply(data, edit)
         || (Printed(data) != Printed(Apply(data, edit))
             && digest(Printed(data)) == digest(Printed(Apply(data, edit))))
  {
    if data != Apply(data, edit) { EditIsSeen(data, edit); }
  }

  lemma PairPrints(k: string, v: string, k2: string, v2: string)
    requires Less(k, k2)
    ensures k != k2 && Printed(map[k := v, k2 := v2]) == Line(k, v) + Line(k2, v2)
  {
    LessIrreflexive(k);
    var e := map[k := v, k2 := v2];
    EnumerationIsUnique([k, k2], Sorted(e.Keys), e.Keys);
    PrintConcat([k], [k2], e);
    assert [k] + [k2] == [k, k2];
    assert Print([k], e) == Line(k, v) + "" && Print([k2], e) == Line(k2, v2) + "";
  }

  /** A value with one more line, which reads like an entry. */
  function Joined(v: string, j: string, w: string): string { v + "\n" + j + "=" + w }

  lemma JoinedPrintsTwoLines(k: string, v: string, j: string, w: string)
    ensures Line(k, Joined(v, j, w)) == Line(k, v) + Line(j, w)
  {
    var a, b := k + "=" + v + "\n", j + "=" + w + "\n";
    assert Line(k, Joined(v, j, w)) == a + b;
  }

  /** Moving a line from the end of one value to the front of the next one is
      not seen when the line reads like that next entry. */
  lemma MovedLineIsMissed(k: string, v: string, j: string, w: string, u: string)
    requires Less(k, j)
    ensures Printed(map[k := Joined(v, j, w), j := u]) == Printed(map[k := v, j := Joined(w, j, u)])
  {
    PairPrints(k, Joined(v, j, w), j, u);
    PairPrints(k, v, j, Joined(w, j, u));
    JoinedPrintsTwoLines(k, v, j, w);
    JoinedPrintsTwoLines(j, w, j, u);
    Associates(Line(k, v), Line(j, w), Line(j, u));
  }

  lemma TwoLetters(d: Data)
    requires d.Keys == {"a", "b"}
    ensures CleanKeys(d)
  {
    forall k | k in d ensures CleanKey(k) { assert k in d.Keys; }
  }

  lemma JoinedDigits()
    ensures Joined("1", "b", "2") == "1\nb=2" && Joined("2", "b", "3") == "2\nb=3"
  {
  }

  /** So edits of several keys at once can be missed, even with equal key sets. */
  lemma SeveralEditsCanBeMissed()
    ensures var d := map["a" := "1\nb=2", "b" := "3"];
            var e := map["a" := "1", "b" := "2\nb=3"];
            d != e && d.Keys == e.Keys && CleanKeys(d) && CleanKeys(e) && Printed(d) == Printed(e)
  {
    MovedLineIsMissed("a", "1", "b", "2", "3");
    JoinedDigits();
    var d := map["a" := "1\nb=2", "b" := "3"];
    var e := map["a" := "1", "b" := "2\nb=3"];
    assert d["a"] != e["a"];
    TwoLetters(d);
    TwoLetters(e);
  }
}
