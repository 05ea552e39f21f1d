/** JSonObject.toString read back by new JSonObject(String): a map whose
    values are all Strings, and whose names and texts hold neither `"` nor
    `\`, prints as flat `"name":"text"` entries that the object parser reads
    back to the same map, whatever order the entries are printed in. */
module RoundTrip {
  import opened JSon
  import opened Converter
  import opened ConverterProperties

  /** Text that neither ends a quoted run nor starts an escape. */
  predicate Plain(s: string) {
    forall k :: 0 <= k < |s| ==> s[k] != '"' && s[k] != '\\'
  }

  /** A map that prints as flat `"name":"text"` entries. */
  predicate FlatStrings(m: map<string, Value>) {
    forall k :: k in m ==> Plain(k) && m[k].Str? && Plain(m[k].s)
  }

  /** The `(name, text)` pairs of a flat map, in the order `keys` gives. */
  function PairsOf(m: map<string, Value>, keys: seq<string>): (r: seq<(string, string)>)
    requires FlatStrings(m)
    requires forall i :: 0 <= i < |keys| ==> keys[i] in m
    ensures |r| == |keys|
    ensures forall i :: 0 <= i < |r| ==> r[i].0 == keys[i] && Str(r[i].1) == m[keys[i]]
    ensures forall i :: 0 <= i < |r| ==> Plain(r[i].0) && Plain(r[i].1)
  {
    if keys == [] then [] else [(keys[0], m[keys[0]].s)] + PairsOf(m, keys[1..])
  }

  /** `props` after the pairs are stored on top of it, one by one, in order. */
  function StoredPairs(props: map<string, Value>, pairs: seq<(string, string)>): map<string, Value>
    decreases |pairs|
  {
    if pairs == [] then props else StoredPairs(props[pairs[0].0 := Str(pairs[0].1)], pairs[1..])
  }

  /** The entries of `m` whose names `keys` lists. */
  ghost function Picked(m: map<string, Value>, keys: seq<string>): map<string, Value>
  {
    map k | k in m && k in keys :: m[k]
  }

  /** Picking the first name first, then the rest, picks them all. */
  lemma PickedCons(props: map<string, Value>, m: map<string, Value>, keys: seq<string>)
    requires keys != [] && keys[0] in m
    ensures props[keys[0] := m[keys[0]]] + Picked(m, keys[1..]) == props + Picked(m, keys)
  {
    assert forall k :: k in keys <==> k == keys[0] || k in keys[1..];
  }

  /** Storing the pairs of `m` for `keys` onto `props` overrides `props` with
      those entries of `m`, whatever the repetitions in `keys`. */
  lemma {:induction false} StoredFrom(props: map<string, Value>, m: map<string, Value>, keys: seq<string>)
    requires FlatStrings(m)
    requires forall i :: 0 <= i < |keys| ==> keys[i] in m
    ensures StoredPairs(props, PairsOf(m, keys)) == props + Picked(m, keys)
    decreases |keys|
  {
    if keys == [] {
      assert Picked(m, keys) == map[];
    } else {
      var k0 := keys[0];
      var pairs := PairsOf(m, keys);
      assert pairs[1..] == PairsOf(m, keys[1..]);
      assert Str(pairs[0].1) == m[k0];
      StoredFrom(props[k0 := m[k0]], m, keys[1..]);
      PickedCons(props, m, keys);
    }
  }

  /** How a map entry with a String value prints. */
  function FlatEntry(k: string, v: string): string {
    "\"" + k + "\":" + ("\"" + v + "\"")
  }

  /** A piece of a piece of the text is a piece of the text. */
  lemma SliceOfSlice(t: string, p: nat, e: string, a: nat, b: nat)
    requires p + |e| <= |t| && t[p..p + |e|] == e && a <= b <= |e|
    ensures t[p + a..p + b] == e[a..b]
  {
    forall j | 0 <= j < b - a
      ensures t[p + a..p + b][j] == e[a..b][j]
    {
      assert t[p + a + j] == t[p..p + |e|][a + j];
    }
  }

  /** A plain run followed by a quote reads as itself. */
  lemma PlainRun(t: string, a: nat, s: string)
    requires Plain(s) && a + |s| < |t|
    requires t[a..a + |s|] == s && t[a + |s|] == '"'
    ensures ReadQuoted(t, a, "") == Ok((s, a + |s|))
  {
    forall j | a <= j < a + |s|
      ensures t[j] != '"' && t[j] != '\\'
    {
      assert t[j] == t[a..a + |s|][j - a];
    }
    QuotedVerbatim(t, a, a + |s|, "");
    assert "" + t[a..a + |s|] == s;
  }

  /** The pieces of a flat entry. */
  lemma FlatEntryParts(k: string, v: string)
    ensures |FlatEntry(k, v)| == |k| + |v| + 5
    ensures FlatEntry(k, v)[0..1] == "\"" && FlatEntry(k, v)[1..1 + |k|] == k
    ensures FlatEntry(k, v)[1 + |k|..4 + |k|] == "\":\""
    ensures FlatEntry(k, v)[4 + |k|..4 + |k| + |v|] == v
    ensures FlatEntry(k, v)[4 + |k| + |v|..5 + |k| + |v|] == "\""
  {
  }

  /** Where the parts of an entry lie in the text. */
  lemma EntrySpans(t: string, p: nat, k: string, v: string)
    requires p + |FlatEntry(k, v)| <= |t|
    requires t[p..p + |FlatEntry(k, v)|] == FlatEntry(k, v)
    ensures |FlatEntry(k, v)| == |k| + |v| + 5
    ensures t[p..p + 1] == "\"" && t[p + 1..p + 1 + |k|] == k
    ensures t[p + 1 + |k|..p + 4 + |k|] == "\":\""
    ensures t[p + 4 + |k|..p + 4 + |k| + |v|] == v
    ensures t[p + 4 + |k| + |v|..p + 5 + |k| + |v|] == "\""
  {
    var e := FlatEntry(k, v);
    FlatEntryParts(k, v);
    SliceOfSlice(t, p, e, 0, 1);
    SliceOfSlice(t, p, e, 1, 1 + |k|);
    SliceOfSlice(t, p, e, 1 + |k|, 4 + |k|);
    SliceOfSlice(t, p, e, 4 + |k|, 4 + |k| + |v|);
    SliceOfSlice(t, p, e, 4 + |k| + |v|, 5 + |k| + |v|);
  }

  /** What the characters of an entry are, and what its two quoted runs read
      as. */
  lemma EntryLayout(t: string, p: nat, k: string, v: string)
    requires Plain(k) && Plain(v)
    requires p + |FlatEntry(k, v)| <= |t|
    requires t[p..p + |FlatEntry(k, v)|] == FlatEntry(k, v)
    ensures |FlatEntry(k, v)| == |k| + |v| + 5
    ensures t[p] == '"' && t[p + 2 + |k|] == ':' && t[p + 3 + |k|] == '"'
    ensures ReadQuoted(t, p + 1, "") == Ok((k, p + 1 + |k|))
    ensures ReadQuoted(t, p + 4 + |k|, "") == Ok((v, p + 4 + |k| + |v|))
  {
    EntrySpans(t, p, k, v);
    var q := p + 1 + |k|;
    var z := p + 4 + |k| + |v|;
    assert t[p] == t[p..p + 1][0];
    assert t[q] == t[q..q + 3][0] && t[q + 1] == t[q..q + 3][1] && t[q + 2] == t[q..q + 3][2];
    assert t[z] == t[z..z + 1][0];
    PlainRun(t, p + 1, k);
    PlainRun(t, q + 3, v);
  }

  /** The name: the key is read and nothing is stored yet. */
  lemma NameStep(t: string, p: nat, k: string, q: nat, props: map<string, Value>)
    requires 1 <= p < |t| && t[p] == '"'
    requires ReadQuoted(t, p + 1, "") == Ok((k, q))
    ensures ObjectStep(t, ObjectScan(p, "", true, props)) == Ok(ObjectScan(q + 1, k, true, props))
  {
    NamePhases(t, p, "", None, k, q);
    ObjectKeyCarried(t, p, "", true, props, q, k, true);
  }

  /** The colon: value mode, and the key waits. */
  lemma ColonStep(t: string, i: nat, k: string, props: map<string, Value>)
    requires 1 <= i < |t| && t[i] == ':'
    ensures ObjectStep(t, ObjectScan(i, k, true, props)) == Ok(ObjectScan(i + 1, k, false, props))
  {
    InertPhases(t, Cursor(i, k, true, None));
    ObjectCommit(t, ObjectScan(i, k, true, props), Cursor(i, k, true, None));
  }

  /** The text: stored under the key in the same iteration, and the key is
      reset. */
  lemma TextStep(t: string, r: nat, k: string, v: string, z: nat, props: map<string, Value>)
    requires 1 <= r < |t| && t[r] == '"'
    requires ReadQuoted(t, r + 1, "") == Ok((v, z))
    ensures ObjectStep(t, ObjectScan(r, k, false, props)) == Ok(ObjectScan(z + 1, "", false, props[k := Str(v)]))
  {
    TextPhases(t, r, k, None, v, z);
    ObjectValueStored(t, r, k, false, props, z, k, false, Str(v));
  }

  /** The three iterations an entry takes, each as a step of the loop. */
  lemma NameLoop(t: string, p: nat, k: string, q: nat, props: map<string, Value>)
    requires 1 <= p < |t| - 1 && t[p] == '"'
    requires ReadQuoted(t, p + 1, "") == Ok((k, q))
    ensures ObjectLoop(t, ObjectScan(p, "", true, props)) == ObjectLoop(t, ObjectScan(q + 1, k, true, props))
  {
    NameStep(t, p, k, q, props);
    ObjectLoopContinues(t, ObjectScan(p, "", true, props), ObjectScan(q + 1, k, true, props));
  }

  lemma ColonLoop(t: string, i: nat, k: string, props: map<string, Value>)
    requires 1 <= i < |t| - 1 && t[i] == ':'
    ensures ObjectLoop(t, ObjectScan(i, k, true, props)) == ObjectLoop(t, ObjectScan(i + 1, k, false, props))
  {
    ColonStep(t, i, k, props);
    ObjectLoopContinues(t, ObjectScan(i, k, true, props), ObjectScan(i + 1, k, false, props));
  }

  lemma TextLoop(t: string, r: nat, k: string, v: string, z: nat, props: map<string, Value>)
    requires 1 <= r < |t| - 1 && t[r] == '"'
    requires ReadQuoted(t, r + 1, "") == Ok((v, z))
    ensures ObjectLoop(t, ObjectScan(r, k, false, props))
            == ObjectLoop(t, ObjectScan(z + 1, "", false, props[k := Str(v)]))
  {
    TextStep(t, r, k, v, z, props);
    ObjectLoopContinues(t, ObjectScan(r, k, false, props), ObjectScan(z + 1, "", false, props[k := Str(v)]));
  }

  /** One `"name":"text"` entry, read from its opening quote with an empty
      key in key mode: three iterations store the text under the name, and
      the scan resumes right after the entry, in value mode. */
  lemma EntryParses(t: string, p: nat, k: string, v: string, props: map<string, Value>)
    requires 1 <= p && p + |k| + |v| + 5 < |t|
    requires t[p] == '"' && t[p + 2 + |k|] == ':' && t[p + 3 + |k|] == '"'
    requires ReadQuoted(t, p + 1, "") == Ok((k, p + 1 + |k|))
    requires ReadQuoted(t, p + 4 + |k|, "") == Ok((v, p + 4 + |k| + |v|))
    ensures ObjectLoop(t, ObjectScan(p, "", true, props))
            == ObjectLoop(t, ObjectScan(p + |k| + |v| + 5, "", false, props[k := Str(v)]))
  {
    var q := p + 1 + |k|;
    var r := q + 2;
    var z := r + 1 + |v|;
    NameLoop(t, p, k, q, props);
    ColonLoop(t, q + 1, k, props);
    TextLoop(t, r, k, v, z, props);
  }

  /** A comma between entries switches back to key mode. */
  lemma CommaStartsName(t: string, q: nat, props: map<string, Value>)
    requires 1 <= q < |t| - 1 && t[q] == ','
    ensures ObjectLoop(t, ObjectScan(q, "", false, props)) == ObjectLoop(t, ObjectScan(q + 1, "", true, props))
  {
    InertPhases(t, Cursor(q, "", false, None));
    ObjectCommit(t, ObjectScan(q, "", false, props), Cursor(q, "", false, None));
    ObjectLoopContinues(t, ObjectScan(q, "", false, props), ObjectScan(q + 1, "", true, props));
  }

  /** Text that starts with `e` at `p` holds `e` there, and the rest after. */
  lemma FrontSplit(t: string, p: nat, e: string, tail: string)
    requires p <= |t| && t[p..] == e + tail
    ensures p + |e| <= |t| && t[p..p + |e|] == e && t[p + |e|..] == tail
  {
    assert t[p..p + |e|] == t[p..][..|e|];
    assert t[p + |e|..] == t[p..][|e|..];
  }

  /** The last entry is followed by the closing brace, the last character. */
  lemma LastEntry(t: string, p: nat, e: string)
    requires p <= |t| && t[p..] == e + "}"
    ensures p + |e| == |t| - 1 && t[p..p + |e|] == e
  {
    FrontSplit(t, p, e, "}");
  }

  /** The closing brace: the loop stops before it. */
  lemma LoopStops(t: string, i: nat, props: map<string, Value>)
    requires 1 <= i == |t| - 1
    ensures ObjectLoop(t, ObjectScan(i, "", false, props)) == Ok(props)
  {
  }

  /** A later entry is preceded by a comma. */
  lemma NextEntry(t: string, p: nat, e: string, rest: string)
    requires p <= |t| && t[p..] == e + "," + rest + "}"
    ensures p + |e| + 1 < |t| && t[p..p + |e|] == e && t[p + |e|] == ','
    ensures t[p + |e| + 1..] == rest + "}"
  {
    var w := e + "," + rest + "}";
    assert |w| == |e| + |rest| + 2;
    assert w[..|e|] == e;
    assert w[|e|] == ',';
    assert w[|e| + 1..] == rest + "}";
    assert t[p..p + |e|] == w[..|e|];
    assert t[p + |e|] == w[|e|];
    assert t[p + |e| + 1..] == w[|e| + 1..];
  }

  /** The only entry left, then the closing brace: where its parts lie. */
  lemma OnlyEntryText(t: string, p: nat, k: string, v: string)
    requires Plain(k) && Plain(v) && 1 <= p <= |t|
    requires t[p..] == FlatEntry(k, v) + "}"
    ensures p + |k| + |v| + 5 == |t| - 1
    ensures t[p] == '"' && t[p + 2 + |k|] == ':' && t[p + 3 + |k|] == '"'
    ensures ReadQuoted(t, p + 1, "") == Ok((k, p + 1 + |k|))
    ensures ReadQuoted(t, p + 4 + |k|, "") == Ok((v, p + 4 + |k| + |v|))
  {
    LastEntry(t, p, FlatEntry(k, v));
    EntryLayout(t, p, k, v);
  }

  /** An entry, a comma and more: where the parts lie. */
  lemma HeadEntryText(t: string, p: nat, k: string, v: string, tail: string)
    requires Plain(k) && Plain(v) && 1 <= p <= |t|
    requires t[p..] == FlatEntry(k, v) + "," + tail + "}"
    ensures p + |k| + |v| + 6 < |t| && t[p + |k| + |v| + 5] == ','
    ensures t[p + |k| + |v| + 6..] == tail + "}"
    ensures t[p] == '"' && t[p + 2 + |k|] == ':' && t[p + 3 + |k|] == '"'
    ensures ReadQuoted(t, p + 1, "") == Ok((k, p + 1 + |k|))
    ensures ReadQuoted(t, p + 4 + |k|, "") == Ok((v, p + 4 + |k| + |v|))
  {
    NextEntry(t, p, FlatEntry(k, v), tail);
    EntryLayout(t, p, k, v);
  }

  /** An entry followed by a comma: stored, and back in key mode after the
      comma. */
  lemma EntryThenComma(t: string, p: nat, k: string, v: string, props: map<string, Value>)
    requires 1 <= p && p + |k| + |v| + 6 < |t| && t[p + |k| + |v| + 5] == ','
    requires t[p] == '"' && t[p + 2 + |k|] == ':' && t[p + 3 + |k|] == '"'
    requires ReadQuoted(t, p + 1, "") == Ok((k, p + 1 + |k|))
    requires ReadQuoted(t, p + 4 + |k|, "") == Ok((v, p + 4 + |k| + |v|))
    ensures ObjectLoop(t, ObjectScan(p, "", true, props))
            == ObjectLoop(t, ObjectScan(p + |k| + |v| + 6, "", true, props[k := Str(v)]))
  {
    EntryParses(t, p, k, v, props);
    CommaStartsName(t, p + |k| + |v| + 5, props[k := Str(v)]);
  }

  /** The only entry left is stored and ends the loop. */
  lemma OnlyPair(t: string, p: nat, k: string, v: string, props: map<string, Value>)
    requires Plain(k) && Plain(v) && 1 <= p <= |t|
    requires t[p..] == FlatEntry(k, v) + "}"
    ensures ObjectLoop(t, ObjectScan(p, "", true, props)) == Ok(props[k := Str(v)])
  {
    OnlyEntryText(t, p, k, v);
    EntryParses(t, p, k, v, props);
    LoopStops(t, p + |k| + |v| + 5, props[k := Str(v)]);
  }

  /** An entry followed by a comma is stored, and the loop goes on in key
      mode on what follows the comma. */
  lemma HeadPair(t: string, p: nat, k: string, v: string, tail: string, props: map<string, Value>)
    returns (q: nat)
    requires Plain(k) && Plain(v) && 1 <= p <= |t|
    requires t[p..] == FlatEntry(k, v) + "," + tail + "}"
    ensures 1 <= q <= |t| && t[q..] == tail + "}"
    ensures ObjectLoop(t, ObjectScan(p, "", true, props))
            == ObjectLoop(t, ObjectScan(q, "", true, props[k := Str(v)]))
  {
    HeadEntryText(t, p, k, v, tail);
    EntryThenComma(t, p, k, v, props);
    q := p + |k| + |v| + 6;
  }

  /** How a list of pairs prints: one flat entry each. */
  function PairTexts(pairs: seq<(string, string)>): (r: seq<string>)
    ensures |r| == |pairs|
  {
    if pairs == [] then [] else [FlatEntry(pairs[0].0, pairs[0].1)] + PairTexts(pairs[1..])
  }

  /** Plain pairs, joined by commas and followed by `}`, are read one after
      another onto `props`. */
  lemma {:induction false} PairsParse(t: string, p: nat, pairs: seq<(string, string)>, props: map<string, Value>)
    requires forall i :: 0 <= i < |pairs| ==> Plain(pairs[i].0) && Plain(pairs[i].1)
    requires 1 <= p <= |t| && |pairs| >= 1
    requires t[p..] == Join(PairTexts(pairs), ",") + "}"
    ensures ObjectLoop(t, ObjectScan(p, "", true, props)) == Ok(StoredPairs(props, pairs))
    decreases |pairs|
  {
    var k := pairs[0].0;
    var v := pairs[0].1;
    var e := FlatEntry(k, v);
    var rest := PairTexts(pairs[1..]);
    assert PairTexts(pairs) == [e] + rest;
    if |pairs| == 1 {
      assert [e] + rest == [e];
      OnlyPair(t, p, k, v, props);
    } else {
      JoinCons(e, rest, ",");
      var q := HeadPair(t, p, k, v, Join(rest, ","), props);
      assert forall i :: 0 <= i < |pairs[1..]| ==> pairs[1..][i] == pairs[i + 1];
      PairsParse(t, q, pairs[1..], props[k := Str(v)]);
    }
  }

  /** A flat map's entries print as its pairs. */
  lemma {:induction false} EntryTextsArePairs(m: map<string, Value>, keys: seq<string>, order: KeyOrder)
    requires ValidOrder(order) && FlatStrings(m)
    requires forall i :: 0 <= i < |keys| ==> keys[i] in m
    ensures EntryTexts(m, keys, order) == PairTexts(PairsOf(m, keys))
    decreases |keys|
  {
    if keys != [] {
      EntryTextsArePairs(m, keys[1..], order);
      assert EntryText(keys[0], m[keys[0]], order) == FlatEntry(keys[0], m[keys[0]].s);
    }
  }

  /** Storing the pairs of every entry of `m` onto nothing gives `m`. */
  lemma StoredAll(m: map<string, Value>, keys: seq<string>)
    requires FlatStrings(m) && Enumerates(keys, m.Keys)
    ensures StoredPairs(map[], PairsOf(m, keys)) == m
  {
    StoredFrom(map[], m, keys);
    assert map[] + Picked(m, keys) == m;
  }

  /** A braced text whose loop succeeds parses to what the loop stored. */
  lemma ParseFromLoop(t: string, m: map<string, Value>)
    requires |t| >= 2 && t[0] == '{' && t[|t| - 1] == '}'
    requires ObjectLoop(t, ObjectScan(1, "", true, map[])) == Ok(m)
    ensures ParseObject(t) == Ok(m)
  {
    assert t[0] > ' ' && t[|t| - 1] > ' ';
    assert Trim(t) == t;
    var loop := ObjectLoop(t, ObjectScan(1, "", true, map[]));
    assert loop.Ok? && loop.value == m;
  }

  /** How the printed text of a non-empty map is laid out. */
  lemma ObjectTextShape(m: map<string, Value>, order: KeyOrder)
    requires ValidOrder(order)
    ensures forall i :: 0 <= i < |order(m.Keys)| ==> order(m.Keys)[i] in m
    ensures |ObjectText(m, order)| >= 2
    ensures ObjectText(m, order)[0] == '{' && ObjectText(m, order)[|ObjectText(m, order)| - 1] == '}'
    ensures ObjectText(m, order)[1..] == Join(EntryTexts(m, order(m.Keys), order), ",") + "}"
  {
    assert Enumerates(order(m.Keys), m.Keys);
    var j := Join(EntryTexts(m, order(m.Keys), order), ",");
    var t := ObjectText(m, order);
    assert t == "{" + j + "}";
    assert |t| == |j| + 2;
    assert t[1..] == j + "}";
  }

  /** The round trip: the printed text parses back to the map. */
  lemma ObjectTextParsesBack(m: map<string, Value>, order: KeyOrder)
    requires ValidOrder(order) && FlatStrings(m)
    ensures ParseObject(ObjectText(m, order)) == Ok(m)
    ensures ObjectOrEmpty(ObjectText(m, order)) == Ok(m)
  {
    var t := ObjectText(m, order);
    var keys := order(m.Keys);
    assert Enumerates(keys, m.Keys);
    ObjectTextShape(m, order);
    if keys == [] {
      assert m.Keys == {};
      assert |t| == 2;
    } else {
      EntryTextsArePairs(m, keys, order);
      PairsParse(t, 1, PairsOf(m, keys), map[]);
      StoredAll(m, keys);
    }
    ParseFromLoop(t, m);
  }
}
