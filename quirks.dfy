/** What the converter does with texts that a JSON reader would read
    differently: a literal `null` or a capitalised boolean is skipped and the
    name waiting for it runs into the next one, a repeated name keeps its last
    value, and numbers inside brackets that are not followed by a space run
    off the end of the text. */
module Quirks {
  import opened JSon
  import opened Converter
  import opened ConverterProperties
  import opened RoundTrip

  /** A one-character quoted run. */
  lemma OneLetter(t: string, i: nat, acc: string)
    requires i + 1 < |t| && t[i] != '"' && t[i] != '\\' && t[i + 1] == '"'
    ensures ReadQuoted(t, i, acc) == Ok((acc + [t[i]], i + 1))
  {
    assert ReadQuoted(t, i + 1, acc + [t[i]]) == Ok((acc + [t[i]], i + 1));
  }

  /** Characters that start no value and switch no mode are skipped one
      iteration each; the name and the mode wait unchanged. */
  lemma {:induction false} SkippedRun(t: string, i: nat, j: nat, key: string, mode: bool,
                                      props: map<string, Value>)
    requires 1 <= i <= j < |t|
    requires forall k :: i <= k < j ==> Inert(t[k]) && t[k] != ':' && t[k] != ','
    ensures ObjectLoop(t, ObjectScan(i, key, mode, props)) == ObjectLoop(t, ObjectScan(j, key, mode, props))
    decreases j - i
  {
    if i < j {
      InertPhases(t, Cursor(i, key, mode, None));
      ObjectKeyCarried(t, i, key, mode, props, i, key, mode);
      ObjectLoopContinues(t, ObjectScan(i, key, mode, props), ObjectScan(i + 1, key, mode, props));
      SkippedRun(t, i + 1, j, key, mode, props);
    }
  }

  /** A quoted name read while a name is still waiting: it is appended. */
  lemma NameAppended(t: string, p: nat, key: string, k: string, q: nat, props: map<string, Value>)
    requires 1 <= p < |t| - 1 && t[p] == '"'
    requires ReadQuoted(t, p + 1, key) == Ok((k, q))
    ensures ObjectLoop(t, ObjectScan(p, key, true, props)) == ObjectLoop(t, ObjectScan(q + 1, k, true, props))
  {
    NamePhases(t, p, key, None, k, q);
    ObjectKeyCarried(t, p, key, true, props, q, k, true);
    ObjectLoopContinues(t, ObjectScan(p, key, true, props), ObjectScan(q + 1, k, true, props));
  }

  /** A comma switches to key mode and leaves a waiting name in place. */
  lemma CommaKeepsName(t: string, q: nat, key: string, props: map<string, Value>)
    requires 1 <= q < |t| - 1 && t[q] == ','
    ensures ObjectLoop(t, ObjectScan(q, key, false, props)) == ObjectLoop(t, ObjectScan(q + 1, key, true, props))
  {
    InertPhases(t, Cursor(q, key, false, None));
    ObjectCommit(t, ObjectScan(q, key, false, props), Cursor(q, key, false, None));
    ObjectLoopContinues(t, ObjectScan(q, key, false, props), ObjectScan(q + 1, key, true, props));
  }

  /** A one-letter name and its colon: the name waits in value mode. */
  lemma LetterNameColon(t: string, p: nat, props: map<string, Value>)
    requires 1 <= p && p + 4 < |t| && t[p] == '"' && t[p + 2] == '"' && t[p + 3] == ':'
    requires t[p + 1] != '"' && t[p + 1] != '\\'
    ensures ObjectLoop(t, ObjectScan(p, "", true, props)) == ObjectLoop(t, ObjectScan(p + 4, [t[p + 1]], false, props))
  {
    OneLetter(t, p + 1, "");
    assert "" + [t[p + 1]] == [t[p + 1]];
    NameLoop(t, p, [t[p + 1]], p + 2, props);
    ColonLoop(t, p + 3, [t[p + 1]], props);
  }

  /** The first entry of the text below: `null` leaves the name `a`
      waiting, and the comma puts the scan back in key mode. */
  lemma NullLeavesName(t: string)
    requires t == "{\"a\":null,\"b\":\"x\"}"
    ensures ObjectLoop(t, ObjectScan(1, "", true, map[])) == ObjectLoop(t, ObjectScan(10, "a", true, map[]))
  {
    var none: map<string, Value> := map[];
    LetterNameColon(t, 1, none);
    assert [t[2]] == "a";
    SkippedRun(t, 5, 9, "a", false, none);
    CommaKeepsName(t, 9, "a", none);
  }

  /** The second entry of the text below is stored under both names. */
  lemma WaitingNameJoined(t: string)
    requires t == "{\"a\":null,\"b\":\"x\"}"
    ensures ObjectLoop(t, ObjectScan(10, "a", true, map[])) == Ok(map["ab" := Str("x")])
  {
    var none: map<string, Value> := map[];
    OneLetter(t, 11, "a");
    assert "a" + [t[11]] == "ab";
    NameAppended(t, 10, "a", "ab", 12, none);
    ColonLoop(t, 13, "ab", none);
    OneLetter(t, 15, "");
    assert "" + [t[15]] == "x";
    TextLoop(t, 14, "ab", "x", 16, none);
    LoopStops(t, 17, none["ab" := Str("x")]);
  }

  /** `null` produces no value, so its name is not reset and the next name
      is appended to it: the object gets one entry, named `ab`. */
  lemma NullJoinsNames(t: string)
    requires t == "{\"a\":null,\"b\":\"x\"}"
    ensures ParseObject(t) == Ok(map["ab" := Str("x")])
  {
    NullLeavesName(t);
    WaitingNameJoined(t);
    ParseFromLoop(t, map["ab" := Str("x")]);
  }

  /** A name given twice keeps the value of its last entry. */
  lemma LastDuplicateWins(t: string)
    requires t == "{\"a\":\"x\",\"a\":\"y\"}"
    ensures ParseObject(t) == Ok(map["a" := Str("y")])
  {
    var pairs := [("a", "x"), ("a", "y")];
    var texts := PairTexts(pairs);
    assert texts == [FlatEntry("a", "x"), FlatEntry("a", "y")];
    JoinCons(FlatEntry("a", "x"), [FlatEntry("a", "y")], ",");
    assert t[1..] == Join(texts, ",") + "}";
    PairsParse(t, 1, pairs, map[]);
    assert StoredPairs(map[], pairs) == map["a" := Str("y")];
    ParseFromLoop(t, map["a" := Str("y")]);
  }

  /** A boolean must start with a lowercase letter: `True` is skipped and
      its name is dropped when the object ends. */
  lemma CapitalTrueDropped(t: string)
    requires t == "{\"a\":True}"
    ensures ParseObject(t) == Ok(map[])
  {
    var none: map<string, Value> := map[];
    LetterNameColon(t, 1, none);
    assert [t[2]] == "a";
    SkippedRun(t, 5, 9, "a", false, none);
    assert ObjectLoop(t, ObjectScan(9, "a", false, none)) == Ok(none);
    ParseFromLoop(t, none);
  }

  /** After the first letter the case does not matter: `tRUE` is true. */
  lemma MixedCaseTrueRead(t: string)
    requires t == "{\"a\":tRUE}"
    ensures ParseObject(t) == Ok(map["a" := Bool(true)])
  {
    var none: map<string, Value> := map[];
    LetterNameColon(t, 1, none);
    assert [t[2]] == "a";
    BooleanTrue(t, 5);
    BooleanPhases(t, Cursor(5, "a", false, None), true);
    ObjectValueStored(t, 5, "a", false, none, 5, "a", false, Bool(true));
    ObjectLoopContinues(t, ObjectScan(5, "a", false, none), ObjectScan(6, "", false, none["a" := Bool(true)]));
    SkippedRun(t, 6, 9, "", false, none["a" := Bool(true)]);
    LoopStops(t, 9, none["a" := Bool(true)]);
    ParseFromLoop(t, map["a" := Bool(true)]);
  }

  /** A number that is ended is appended, and the scan goes on after the
      character that ended it. */
  lemma NumberAppended(t: string, i: nat, e: nat, items: seq<Value>)
    requires 1 <= i < |t| - 1 && IsDigit(t[i]) && NumberEnd(t, i) == Ok(e)
    ensures ArrayLoop(t, ArrayScan(i, items)) == ArrayLoop(t, ArrayScan(e + 1, items + [Num(t[i..e])]))
  {
    NumberPhases(t, Cursor(i, "", false, None), e);
    ArrayAppend(t, ArrayScan(i, items), Cursor(e, "", false, Some(Num(t[i..e]))));
    ArrayLoopContinues(t, ArrayScan(i, items), ArrayScan(e + 1, items + [Num(t[i..e])]));
  }

  /** A number that nothing ends fails the whole parse. */
  lemma NumberOverruns(t: string, i: nat, items: seq<Value>)
    requires 1 <= i < |t| - 1 && IsDigit(t[i])
    requires forall k :: i <= k < |t| ==> !EndsNumber(t[k])
    ensures ArrayLoop(t, ArrayScan(i, items)) == RuntimeError(IndexOutOfBounds)
  {
    NumberRunsOff(t, Cursor(i, "", false, None));
    ArrayLoopFails(t, ArrayScan(i, items));
  }

  /** A character that starts no value is skipped. */
  lemma ArraySkips(t: string, i: nat, items: seq<Value>)
    requires 1 <= i < |t| - 1 && Inert(t[i])
    ensures ArrayLoop(t, ArrayScan(i, items)) == ArrayLoop(t, ArrayScan(i + 1, items))
  {
    InertPhases(t, Cursor(i, "", false, None));
    ArrayAppend(t, ArrayScan(i, items), Cursor(i, "", false, None));
    ArrayLoopContinues(t, ArrayScan(i, items), ArrayScan(i + 1, items));
  }

  /** A bracketed text whose loop ends parses to what the loop produced. */
  lemma ParseFromArrayLoop(t: string, r: Outcome<seq<Value>>)
    requires |t| >= 2 && t[0] == '[' && t[|t| - 1] == ']'
    requires ArrayLoop(t, ArrayScan(1, [])) == r && !r.ParseException?
    ensures ParseArray(t) == r
  {
    assert t[0] > ' ' && t[|t| - 1] > ' ';
    assert Trim(t) == t;
  }

  /** A number ends only at `,`, space or `}`: the last number of `[1,2,3]`
      is never ended, and the scan runs off the text. */
  lemma PackedNumbersOverrun(t: string)
    requires t == "[1,2,3]"
    ensures ParseArray(t) == RuntimeError(IndexOutOfBounds)
    ensures ArrayOrEmpty(t) == RuntimeError(IndexOutOfBounds)
  {
    assert NumberEnd(t, 1) == Ok(2);
    NumberAppended(t, 1, 2, []);
    assert NumberEnd(t, 3) == Ok(4);
    NumberAppended(t, 3, 4, [] + [Num(t[1..2])]);
    NumberOverruns(t, 5, [] + [Num(t[1..2])] + [Num(t[3..4])]);
    ParseFromArrayLoop(t, RuntimeError(IndexOutOfBounds));
  }

  /** With a space after each number the same list is read. */
  lemma SpacedNumbersRead(t: string)
    requires t == "[1, 2 ]"
    ensures ParseArray(t) == Ok([Num("1"), Num("2")])
  {
    assert NumberEnd(t, 1) == Ok(2);
    NumberAppended(t, 1, 2, []);
    ArraySkips(t, 3, [] + [Num(t[1..2])]);
    assert NumberEnd(t, 4) == Ok(5);
    NumberAppended(t, 4, 5, [] + [Num(t[1..2])]);
    assert t[1..2] == "1" && t[4..5] == "2";
    assert [] + [Num(t[1..2])] + [Num(t[4..5])] == [Num("1"), Num("2")];
    ParseFromArrayLoop(t, Ok([Num("1"), Num("2")]));
  }

  /** The Doubles 1.0 and 2.0 print, through Double.toString, as
      `[1.0, 2.0]`. */
  lemma NumbersPrinted(order: KeyOrder)
    requires ValidOrder(order)
    ensures ArrayText([Num("1.0"), Num("2.0")], order) == "[1.0, 2.0]"
  {
    assert ElementTexts([Num("1.0"), Num("2.0")], 0, order) == ["1.0", "2.0"];
    assert Join(["1.0", "2.0"], ", ") == "1.0, 2.0" by {
      assert ["1.0", "2.0"][..1] == ["1.0"];
    }
  }

  /** `[1.0, 2.0]` does not read back: nothing ends the 2.0. */
  lemma LastNumberOverruns(t: string)
    requires t == "[1.0, 2.0]"
    ensures ParseArray(t) == RuntimeError(IndexOutOfBounds)
  {
    assert NumberEnd(t, 3) == Ok(4);
    assert NumberEnd(t, 1) == Ok(4);
    NumberAppended(t, 1, 4, []);
    ArraySkips(t, 5, [] + [Num(t[1..4])]);
    NumberOverruns(t, 6, [] + [Num(t[1..4])]);
    ParseFromArrayLoop(t, RuntimeError(IndexOutOfBounds));
  }

  /** So a list of numbers printed by toString cannot be read back by
      new JSonArray(String), which throws. */
  lemma PrintedNumbersDoNotReadBack(order: KeyOrder)
    requires ValidOrder(order)
    ensures ArrayOrEmpty(ArrayText([Num("1.0"), Num("2.0")], order)) == RuntimeError(IndexOutOfBounds)
  {
    NumbersPrinted(order);
    LastNumberOverruns("[1.0, 2.0]");
  }

  /** A quoted element of a list is kept as the StringBuilder it was read
      into, not turned into a String as an object's value is. */
  lemma QuotedElementIsBuilder(t: string)
    requires t == "[\"x\"]"
    ensures ParseArray(t) == Ok([Builder("x")])
  {
    OneLetter(t, 2, "");
    assert "" + [t[2]] == "x";
    TextPhases(t, 1, "", None, "x", 3);
    ArrayAppend(t, ArrayScan(1, []), Cursor(3, "", false, Some(Str("x"))));
    ArrayLoopContinues(t, ArrayScan(1, []), ArrayScan(4, [Builder("x")]));
    ParseFromArrayLoop(t, Ok([Builder("x")]));
  }

  /** The body of the nested object below parses on its own. */
  lemma InnerObjectRead(u: string)
    requires u == "{\"i\":1}"
    ensures ParseObject(u) == Ok(map["i" := Num("1")])
  {
    var none: map<string, Value> := map[];
    LetterNameColon(u, 1, none);
    assert [u[2]] == "i";
    assert NumberEnd(u, 5) == Ok(6);
    NumberPhases(u, Cursor(5, "i", false, None), 6);
    assert u[5..6] == "1";
    ObjectValueStored(u, 5, "i", false, none, 6, "i", false, Num("1"));
    ObjectLoopContinues(u, ObjectScan(5, "i", false, none), ObjectScan(7, "", false, none["i" := Num("1")]));
    ParseFromLoop(u, map["i" := Num("1")]);
  }

  /** The scanner cuts the inner object of `{"o":{"i":1}}` out of the text
      from its opening brace: seven characters, up to the matching brace. */
  lemma NestedObjectCut(t: string)
    requires t == "{\"o\":{\"i\":1}}"
    ensures JSonSubstring(t[5..], '{') == Some(t[5..12])
    ensures t[5..12] == "{\"i\":1}"
  {
    var s := t[5..];
    assert BalancedFrom(s, '{', 6, 1) == Some(s[..7]);
    assert BalancedFrom(s, '{', 5, 1) == Some(s[..7]);
    assert BalancedFrom(s, '{', 4, 1) == Some(s[..7]);
    assert BalancedFrom(s, '{', 3, 1) == Some(s[..7]);
    assert BalancedFrom(s, '{', 2, 1) == Some(s[..7]);
    assert BalancedFrom(s, '{', 1, 1) == Some(s[..7]);
    assert s[..7] == t[5..12];
  }

  /** A nested object is cut out by the scanner, parsed by its own
      constructor and stored under the waiting name; the scan resumes after
      its closing brace. */
  lemma NestedObjectRead(t: string)
    requires t == "{\"o\":{\"i\":1}}"
    ensures ParseObject(t) == Ok(map["o" := Obj(map["i" := Num("1")])])
  {
    var none: map<string, Value> := map[];
    var inner := map["i" := Num("1")];
    var stored := none["o" := Obj(inner)];
    assert ObjectLoop(t, ObjectScan(5, "o", false, none)) == Ok(stored) by {
      NestedObjectCut(t);
      InnerObjectRead(t[5..12]);
      NestedObjectPhases(t, Cursor(5, "o", false, None), t[5..12], inner);
      ObjectValueMoved(t, 5, "o", false, none, 11, Obj(inner));
      ObjectLoopContinues(t, ObjectScan(5, "o", false, none), ObjectScan(12, "", false, stored));
      LoopStops(t, 12, stored);
    }
    assert ObjectLoop(t, ObjectScan(1, "", true, none)) == Ok(stored) by {
      LetterNameColon(t, 1, none);
      assert [t[2]] == "o";
    }
    ParseFromLoop(t, map["o" := Obj(inner)]);
  }
}
