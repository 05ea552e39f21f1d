/** What the converter promises, stated over the functions that specify its
    loops: the delimiter checks, the balanced-substring scanner, quoted text,
    booleans, and how the two loops build their results. */
module ConverterProperties {
  import opened JSon
  import opened Converter

  // ---------------------------------------------------------------------
  // Delimiters
  // ---------------------------------------------------------------------

  /** The object parser throws at offset 0 exactly when the trimmed text is
      non-empty and does not start with `{`. */
  lemma ObjectLeadingDelimiter(s: string)
    ensures ParseObject(s) == ParseException(NoOpeningBrace, 0)
            <==> Trim(s) != [] && Trim(s)[0] != '{'
  {
    assert NoOpeningBrace != NoClosingBrace by {
      assert NoOpeningBrace[|NoOpeningBrace| - 1] != NoClosingBrace[|NoClosingBrace| - 1];
    }
  }

  /** The object parser throws at the last offset exactly when the scan ran
      to its end without a runtime error and the last character is not `}`. */
  lemma ObjectTrailingDelimiter(s: string)
    ensures ParseObject(s) == ParseException(NoClosingBrace, |Trim(s)| - 1)
            <==> (var t := Trim(s);
                  && t != [] && t[0] == '{'
                  && ObjectLoop(t, ObjectScan(1, "", true, map[])).Ok?
                  && t[|t| - 1] != '}')
  {
    assert NoOpeningBrace != NoClosingBrace by {
      assert NoOpeningBrace[|NoOpeningBrace| - 1] != NoClosingBrace[|NoClosingBrace| - 1];
    }
  }

  /** A text whose first and last characters differ has at least two. */
  lemma DistinctEnds(t: string, first: char, last: char)
    requires t != [] && t[0] == first && t[|t| - 1] == last && first != last
    ensures |t| >= 2
  {
  }

  /** A parsed object came from a trimmed text of at least two characters
      that starts with `{` and ends with `}`. */
  lemma ParsedObjectIsDelimited(s: string)
    ensures ParseObject(s).Ok? ==> |Trim(s)| >= 2 && Trim(s)[0] == '{' && Trim(s)[|Trim(s)| - 1] == '}'
  {
    if ParseObject(s).Ok? {
      ParsedObjectEnds(s);
      DistinctEnds(Trim(s), '{', '}');
    }
  }

  lemma ParsedObjectEnds(s: string)
    ensures ParseObject(s).Ok? ==> Trim(s) != [] && Trim(s)[0] == '{' && Trim(s)[|Trim(s)| - 1] == '}'
  {
  }

  lemma ArrayLeadingDelimiter(s: string)
    ensures ParseArray(s) == ParseException(NoOpeningBracket, 0)
            <==> Trim(s) != [] && Trim(s)[0] != '['
  {
    assert NoOpeningBracket != NoClosingBracket by {
      assert NoOpeningBracket[|NoOpeningBracket| - 1] != NoClosingBracket[|NoClosingBracket| - 1];
    }
  }

  lemma ArrayTrailingDelimiter(s: string)
    ensures ParseArray(s) == ParseException(NoClosingBracket, |Trim(s)| - 1)
            <==> (var t := Trim(s);
                  && t != [] && t[0] == '['
                  && ArrayLoop(t, ArrayScan(1, [])).Ok?
                  && t[|t| - 1] != ']')
  {
    assert NoOpeningBracket != NoClosingBracket by {
      assert NoOpeningBracket[|NoOpeningBracket| - 1] != NoClosingBracket[|NoClosingBracket| - 1];
    }
  }

  lemma ParsedArrayIsDelimited(s: string)
    ensures ParseArray(s).Ok? ==> |Trim(s)| >= 2 && Trim(s)[0] == '[' && Trim(s)[|Trim(s)| - 1] == ']'
  {
    if ParseArray(s).Ok? {
      ParsedArrayEnds(s);
      DistinctEnds(Trim(s), '[', ']');
    }
  }

  lemma ParsedArrayEnds(s: string)
    ensures ParseArray(s).Ok? ==> Trim(s) != [] && Trim(s)[0] == '[' && Trim(s)[|Trim(s)| - 1] == ']'
  {
  }

  /** `{}` and `[]`: the loop guard fails at once, so nothing is read. */
  lemma EmptyContainers(s: string)
    ensures Trim(s) == "{}" ==> ParseObject(s) == Ok(map[])
    ensures Trim(s) == "[]" ==> ParseArray(s) == Ok([])
  {
  }

  // ---------------------------------------------------------------------
  // getJSonSubstring
  // ---------------------------------------------------------------------

  /** The scanner from index i, started with the depth the text really has
      there, stops at the first later index where the depth reaches zero. */
  lemma {:induction false} BalancedFromFirstZero(s: string, open: char, i: nat)
    requires 1 <= i <= |s| && Depth(s, open, i) >= 1
    ensures var r := BalancedFrom(s, open, i, Depth(s, open, i));
            && (r.Some? ==> Depth(s, open, |r.value|) == 0
                            && forall m :: i <= m < |r.value| ==> Depth(s, open, m) > 0)
            && (r.None? <==> forall m :: i <= m <= |s| ==> Depth(s, open, m) > 0)
    decreases |s| - i
  {
    if i < |s| {
      assert Depth(s, open, i + 1)
          == Depth(s, open, i) + (if s[i] == open then 1 else if s[i] == Closing(open) then -1 else 0);
      if Depth(s, open, i + 1) != 0 {
        BalancedFromFirstZero(s, open, i + 1);
      }
    }
  }

  /** getJSonSubstring gives the shortest prefix at which the opening
      characters minus the closing ones reach zero, and null exactly when no
      prefix does. Quotes are counted like anything else. */
  lemma ScannerShortestBalancedPrefix(s: string, open: char)
    ensures JSonSubstring(s, open).Some? ==>
              (var n := |JSonSubstring(s, open).value|;
               Depth(s, open, n) == 0 && forall m :: 1 <= m < n ==> Depth(s, open, m) > 0)
    ensures JSonSubstring(s, open).None? <==> forall m :: 1 <= m <= |s| ==> Depth(s, open, m) > 0
  {
    if |s| >= 1 {
      BalancedFromFirstZero(s, open, 1);
    }
  }

  // ---------------------------------------------------------------------
  // Quoted text
  // ---------------------------------------------------------------------

  /** The text a quoted run stands for: `\` `/` read as `/`, pairs taken
      from the left, every other character kept as it is. */
  function Unslash(u: string): (r: string)
    ensures |r| <= |u|
  {
    if u == [] then []
    else if |u| >= 2 && u[0] == '\\' && u[1] == '/' then "/" + Unslash(u[2..])
    else [u[0]] + Unslash(u[1..])
  }

  /** A quoted run ends at the first `"` whatever comes before it (so `\"`
      ends the text and keeps its backslash), and stands for the run with
      only `\/` decoded. */
  lemma {:induction false} QuotedText(t: string, i: nat, j: nat, acc: string)
    requires i <= j < |t| && t[j] == '"'
    requires forall k :: i <= k < j ==> t[k] != '"'
    ensures ReadQuoted(t, i, acc) == Ok((acc + Unslash(t[i..j]), j))
    decreases j - i
  {
    if i < j {
      var u := t[i..j];
      if t[i] == '\\' && t[i + 1] == '/' {
        assert i + 1 < j;
        assert u[2..] == t[i + 2..j];
        assert Unslash(u) == "/" + Unslash(u[2..]);
        QuotedText(t, i + 2, j, acc + ['/']);
        assert acc + ['/'] + Unslash(u[2..]) == acc + Unslash(u);
      } else {
        assert u[1..] == t[i + 1..j];
        assert Unslash(u) == [t[i]] + Unslash(u[1..]);
        QuotedText(t, i + 1, j, acc + [t[i]]);
        assert acc + [t[i]] + Unslash(u[1..]) == acc + Unslash(u);
      }
    } else {
      assert t[i..j] == [];
      assert acc + Unslash([]) == acc;
    }
  }

  /** A text without backslashes stands for itself. */
  lemma {:induction false} UnslashPlain(u: string)
    requires forall k :: 0 <= k < |u| ==> u[k] != '\\'
    ensures Unslash(u) == u
  {
    if u != [] {
      UnslashPlain(u[1..]);
    }
  }

  /** So quoted text without backslashes is copied verbatim. */
  lemma QuotedVerbatim(t: string, i: nat, j: nat, acc: string)
    requires i <= j < |t| && t[j] == '"'
    requires forall k :: i <= k < j ==> t[k] != '"' && t[k] != '\\'
    ensures ReadQuoted(t, i, acc) == Ok((acc + t[i..j], j))
  {
    QuotedText(t, i, j, acc);
    UnslashPlain(t[i..j]);
  }

  /** `\"` is not an escape: the text `a\"b"` reads as `a\` and stops at the
      quote after the backslash. */
  lemma EscapedQuoteEndsText()
    ensures ReadQuoted("a\\\"b\"", 0, "") == Ok(("a\\", 2))
  {
    var t := "a\\\"b\"";
    assert t[0] == 'a' && t[1] == '\\' && t[2] == '"';
    QuotedText(t, 0, 2, "");
    var u := t[0..2];
    assert u == "a\\";
    assert u[1..][1..] == [];
    assert Unslash(u[1..]) == "\\";
    assert Unslash(u) == "a" + Unslash(u[1..]);
    assert "" + Unslash(u) == "a\\";
  }

  /** A quote that is never closed runs off the end of the text. */
  lemma {:induction false} UnclosedQuote(t: string, i: nat, acc: string)
    requires forall k :: i <= k < |t| ==> t[k] != '"'
    ensures ReadQuoted(t, i, acc) == RuntimeError(IndexOutOfBounds)
    decreases |t| - i
  {
    if i < |t| {
      if t[i] == '\\' && i + 1 < |t| && t[i + 1] == '/' {
        UnclosedQuote(t, i + 2, acc + ['/']);
      } else if t[i] != '\\' || i + 1 < |t| {
        UnclosedQuote(t, i + 1, acc + [t[i]]);
      }
    }
  }

  // ---------------------------------------------------------------------
  // Booleans
  // ---------------------------------------------------------------------

  /** `true` is read when the first letter is a lowercase `t`, the text has
      room for four letters, and the other three are `r`, `u`, `e` in either
      case. */
  lemma BooleanTrue(t: string, i: nat)
    requires i < |t|
    ensures BooleanAt(t, i) == Some(true)
            <==> t[i] == 't' && i + 3 < |t|
                 && LowerAscii(t[i + 1]) == 'r' && LowerAscii(t[i + 2]) == 'u' && LowerAscii(t[i + 3]) == 'e'
  {
    if t[i] == 't' && i + 3 < |t| {
      var w := Lower(t[i..i + 4]);
      assert w == [LowerAscii(t[i]), LowerAscii(t[i + 1]), LowerAscii(t[i + 2]), LowerAscii(t[i + 3])];
    }
  }

  /** The same for `false`, which needs five letters of room. */
  lemma BooleanFalse(t: string, i: nat)
    requires i < |t|
    ensures BooleanAt(t, i) == Some(false)
            <==> t[i] == 'f' && i + 4 < |t|
                 && LowerAscii(t[i + 1]) == 'a' && LowerAscii(t[i + 2]) == 'l'
                 && LowerAscii(t[i + 3]) == 's' && LowerAscii(t[i + 4]) == 'e'
  {
    if t[i] == 'f' && i + 4 < |t| {
      var w := Lower(t[i..i + 5]);
      assert w == [LowerAscii(t[i]), LowerAscii(t[i + 1]), LowerAscii(t[i + 2]),
                   LowerAscii(t[i + 3]), LowerAscii(t[i + 4])];
    }
  }

  /** A capital first letter is never a boolean. */
  lemma CapitalIsNotBoolean(t: string, i: nat)
    requires i < |t| && (t[i] == 'T' || t[i] == 'F')
    ensures BooleanAt(t, i) == None
  {
  }

  // ---------------------------------------------------------------------
  // One iteration's value tests
  // ---------------------------------------------------------------------

  /** A character that starts none of the value scans. */
  predicate Inert(ch: char) {
    !(ch == '"' || IsDigit(ch) || ch == '-' || ch == 't' || ch == 'f' || ch == '{' || ch == '[')
  }

  /** On such a character an iteration produces nothing and stays put. */
  lemma InertPhases(t: string, c: Cursor)
    requires 1 <= c.i < |t| && Inert(t[c.i])
    ensures ValuePhases(t, c) == Ok(c)
  {
    assert QuotedPhase(t, c) == Ok(c);
    assert NumberPhase(t, c) == Ok(c);
    assert BooleanPhase(t, c) == c;
    assert NestedObjectPhase(t, c) == Ok(c);
  }

  /** Once the quoted test has left the index on the closing quote, no later
      test reacts to it. */
  lemma AfterQuote(t: string, c: Cursor, c1: Cursor)
    requires 1 <= c.i < |t| && QuotedPhase(t, c) == Ok(c1)
    requires t[c1.i] == '"'
    ensures ValuePhases(t, c) == Ok(c1)
  {
    assert NumberPhase(t, c1) == Ok(c1);
    assert BooleanAt(t, c1.i) == None;
    assert NestedObjectPhase(t, c1) == Ok(c1);
    assert NestedArrayPhase(t, c1) == Ok(c1);
  }

  /** The quote phase in key mode, for any cursor: the read text extends
      the name and the cursor moves to the closing quote. */
  lemma QuotedKeyRead(t: string, c: Cursor, q: (string, nat))
    requires c.i < |t| && t[c.i] == '"' && c.creatingKey
    requires ReadQuoted(t, c.i + 1, c.key) == Ok(q)
    ensures QuotedPhase(t, c) == Ok(c.(i := q.1, key := q.0))
  {
  }

  /** The quote phase in value mode, for any cursor: the read text becomes
      a String value and the cursor moves to the closing quote. */
  lemma QuotedValueRead(t: string, c: Cursor, q: (string, nat))
    requires c.i < |t| && t[c.i] == '"' && !c.creatingKey
    requires ReadQuoted(t, c.i + 1, "") == Ok(q)
    ensures QuotedPhase(t, c) == Ok(c.(i := q.1, value := Some(Str(q.0))))
  {
  }

  /** A quote in key mode: the quoted text is appended to the key, and the
      iteration ends on the closing quote. */
  lemma NamePhases(t: string, i: nat, key: string, value: Option<Value>, text: string, close: nat)
    requires 1 <= i < |t| && t[i] == '"'
    requires ReadQuoted(t, i + 1, key) == Ok((text, close))
    ensures close < |t| && t[close] == '"'
    ensures ValuePhases(t, Cursor(i, key, true, value)) == Ok(Cursor(close, text, true, value))
  {
    var c := Cursor(i, key, true, value);
    QuotedKeyRead(t, c, (text, close));
    AfterQuote(t, c, Cursor(close, text, true, value));
  }

  /** A quote in value mode: the quoted text becomes a String value, and the
      iteration ends on the closing quote. */
  lemma TextPhases(t: string, i: nat, key: string, value: Option<Value>, text: string, close: nat)
    requires 1 <= i < |t| && t[i] == '"'
    requires ReadQuoted(t, i + 1, "") == Ok((text, close))
    ensures close < |t| && t[close] == '"'
    ensures ValuePhases(t, Cursor(i, key, false, value)) == Ok(Cursor(close, key, false, Some(Str(text))))
  {
    var c := Cursor(i, key, false, value);
    QuotedValueRead(t, c, (text, close));
    AfterQuote(t, c, Cursor(close, key, false, Some(Str(text))));
  }

  /** A digit or `-`: the value is the span up to the first `,`, space or
      `}`, and the iteration ends on that character. */
  lemma NumberPhases(t: string, c: Cursor, e: nat)
    requires 1 <= c.i < |t| && (IsDigit(t[c.i]) || t[c.i] == '-')
    requires NumberEnd(t, c.i) == Ok(e)
    ensures ValuePhases(t, c) == Ok(c.(i := e, value := Some(Num(t[c.i..e]))))
  {
    assert QuotedPhase(t, c) == Ok(c);
    var c2 := c.(i := e, value := Some(Num(t[c.i..e])));
    assert NumberPhase(t, c) == Ok(c2);
    assert BooleanPhase(t, c2) == c2;
    assert NestedObjectPhase(t, c2) == Ok(c2);
  }

  /** With none of those characters left, the iteration fails at the end of
      the text. */
  lemma NumberRunsOff(t: string, c: Cursor)
    requires 1 <= c.i < |t| && (IsDigit(t[c.i]) || t[c.i] == '-')
    requires forall k :: c.i <= k < |t| ==> !EndsNumber(t[k])
    ensures ValuePhases(t, c) == RuntimeError(IndexOutOfBounds)
  {
    assert QuotedPhase(t, c) == Ok(c);
    assert NumberEnd(t, c.i) == RuntimeError(IndexOutOfBounds);
    assert NumberPhase(t, c) == RuntimeError(IndexOutOfBounds);
  }

  /** A boolean: the value is set and the index stays on its first letter. */
  lemma BooleanPhases(t: string, c: Cursor, b: bool)
    requires 1 <= c.i < |t| && BooleanAt(t, c.i) == Some(b)
    ensures ValuePhases(t, c) == Ok(c.(value := Some(Bool(b))))
  {
    assert QuotedPhase(t, c) == Ok(c);
    assert NumberPhase(t, c) == Ok(c);
    var c3 := c.(value := Some(Bool(b)));
    assert BooleanPhase(t, c) == c3;
    assert NestedObjectPhase(t, c3) == Ok(c3);
  }

  /** The scanner's substring, cut at `i`, ends inside the text on its
      closing character. */
  lemma CutEnds(t: string, i: nat, open: char, sub: string)
    requires i < |t| && JSonSubstring(t[i..], open) == Some(sub)
    ensures 2 <= |sub| && i + |sub| - 1 < |t| && t[i + |sub| - 1] == Closing(open)
  {
    assert t[i + |sub| - 1] == t[i..][..|sub|][|sub| - 1];
  }

  /** `r` is the cursor `c` moved to index `i` with `v` as its value; name
      and mode are untouched. */
  predicate MovedTo(r: Outcome<Cursor>, c: Cursor, i: nat, v: Value) {
    && r.Ok? && r.value.i == i && r.value.value == Some(v)
    && r.value.key == c.key && r.value.creatingKey == c.creatingKey
  }

  /** `{` with no balancing `}` in the rest of the text: the scanner's null
      is dereferenced. */
  lemma NestedObjectUnbalanced(t: string, c: Cursor)
    requires 1 <= c.i < |t| && t[c.i] == '{' && JSonSubstring(t[c.i..], '{').None?
    ensures NestedObjectPhase(t, c) == RuntimeError(NullSubstring)
  {
  }

  /** `{`: the value is the substring the scanner cuts, parsed as
      new JSonObject(String) parses it, and the index moves to that
      substring's closing `}`. A runtime exception inside the nested parse
      escapes. */
  lemma NestedObjectStored(t: string, c: Cursor, sub: string)
    requires 1 <= c.i < |t| && t[c.i] == '{' && JSonSubstring(t[c.i..], '{') == Some(sub)
    ensures c.i + |sub| - 1 < |t| && t[c.i + |sub| - 1] == '}'
    ensures ObjectOrEmpty(sub).Ok? ==>
              MovedTo(NestedObjectPhase(t, c), c, c.i + |sub| - 1, Obj(ObjectOrEmpty(sub).value))
    ensures ObjectOrEmpty(sub).RuntimeError? ==> NestedObjectPhase(t, c) == RuntimeError(ObjectOrEmpty(sub).fault)
  {
    CutEnds(t, c.i, '{', sub);
  }

  /** `[` with no balancing `]`: the same null dereference. */
  lemma NestedArrayUnbalanced(t: string, c: Cursor)
    requires 1 <= c.i < |t| && t[c.i] == '[' && JSonSubstring(t[c.i..], '[').None?
    ensures NestedArrayPhase(t, c) == RuntimeError(NullSubstring)
  {
  }

  /** `[`: the same, through new JSonArray(String), ending on `]`. */
  lemma NestedArrayStored(t: string, c: Cursor, sub: string)
    requires 1 <= c.i < |t| && t[c.i] == '[' && JSonSubstring(t[c.i..], '[') == Some(sub)
    ensures c.i + |sub| - 1 < |t| && t[c.i + |sub| - 1] == ']'
    ensures ArrayOrEmpty(sub).Ok? ==>
              MovedTo(NestedArrayPhase(t, c), c, c.i + |sub| - 1, Arr(ArrayOrEmpty(sub).value))
    ensures ArrayOrEmpty(sub).RuntimeError? ==> NestedArrayPhase(t, c) == RuntimeError(ArrayOrEmpty(sub).fault)
  {
    CutEnds(t, c.i, '[', sub);
  }

  /** At `{` only the object test acts, as long as it leaves the index off
      a `[`. */
  lemma ObjectPhaseDecides(t: string, c: Cursor, r: Outcome<Cursor>)
    requires 1 <= c.i < |t| && t[c.i] == '{' && NestedObjectPhase(t, c) == r
    requires r.Ok? ==> t[r.value.i] != '['
    ensures ValuePhases(t, c) == r
  {
    assert QuotedPhase(t, c) == Ok(c);
    assert NumberPhase(t, c) == Ok(c);
    assert BooleanPhase(t, c) == c;
  }

  /** At `[` only the array test acts. */
  lemma ArrayPhaseDecides(t: string, c: Cursor, r: Outcome<Cursor>)
    requires 1 <= c.i < |t| && t[c.i] == '[' && NestedArrayPhase(t, c) == r
    ensures ValuePhases(t, c) == r
  {
    assert QuotedPhase(t, c) == Ok(c);
    assert NumberPhase(t, c) == Ok(c);
    assert BooleanPhase(t, c) == c;
    assert NestedObjectPhase(t, c) == Ok(c);
  }

  /** A nested object that parses: the iteration ends on its closing `}`
      with the object as its value. */
  lemma NestedObjectPhases(t: string, c: Cursor, sub: string, m: map<string, Value>)
    requires 1 <= c.i < |t| && t[c.i] == '{'
    requires JSonSubstring(t[c.i..], '{') == Some(sub) && ObjectOrEmpty(sub) == Ok(m)
    ensures MovedTo(ValuePhases(t, c), c, c.i + |sub| - 1, Obj(m))
  {
    var r := NestedObjectPhase(t, c);
    var j := c.i + |sub| - 1;
    assert MovedTo(r, c, j, Obj(m)) && t[j] == '}' by {
      NestedObjectStored(t, c, sub);
    }
    ObjectPhaseDecides(t, c, r);
  }

  /** A nested array that parses: the iteration ends on its closing `]` with
      the list as its value. */
  lemma NestedArrayPhases(t: string, c: Cursor, sub: string, a: seq<Value>)
    requires 1 <= c.i < |t| && t[c.i] == '['
    requires JSonSubstring(t[c.i..], '[') == Some(sub) && ArrayOrEmpty(sub) == Ok(a)
    ensures MovedTo(ValuePhases(t, c), c, c.i + |sub| - 1, Arr(a))
  {
    var r := NestedArrayPhase(t, c);
    assert MovedTo(r, c, c.i + |sub| - 1, Arr(a)) by {
      NestedArrayStored(t, c, sub);
    }
    ArrayPhaseDecides(t, c, r);
  }

  // ---------------------------------------------------------------------
  // One iteration of each loop
  // ---------------------------------------------------------------------

  /** Ending an iteration with no value, away from `:` and `,`. */
  lemma CommittedCarries(t: string, s: ObjectScan, j: nat, key: string, mode: bool)
    requires j < |t| && t[j] != ':' && t[j] != ','
    ensures Committed(t, s, Cursor(j, key, mode, None)) == ObjectScan(j + 1, key, mode, s.props)
  {
  }

  /** Ending an iteration with a value, away from `:` and `,`. */
  lemma CommittedStores(t: string, s: ObjectScan, j: nat, key: string, mode: bool, v: Value)
    requires j < |t| && t[j] != ':' && t[j] != ','
    ensures Committed(t, s, Cursor(j, key, mode, Some(v))) == ObjectScan(j + 1, "", mode, s.props[key := v])
  {
  }

  /** An iteration that produced no value and did not stop on `:` or `,`
      carries the key, and the mode, over to the next one. */
  lemma ObjectKeyCarried(t: string, i: nat, key: string, mode: bool, props: map<string, Value>,
                         j: nat, key': string, mode': bool)
    requires 1 <= i < |t| && j < |t| && t[j] != ':' && t[j] != ','
    requires ValuePhases(t, Cursor(i, key, mode, None)) == Ok(Cursor(j, key', mode', None))
    ensures ObjectStep(t, ObjectScan(i, key, mode, props)) == Ok(ObjectScan(j + 1, key', mode', props))
  {
    StepCommits(t, ObjectScan(i, key, mode, props), Cursor(j, key', mode', None));
    CommittedCarries(t, ObjectScan(i, key, mode, props), j, key', mode');
  }

  /** An iteration that produced a value and did not stop on `:` or `,`
      stores it under the key and resets the key. */
  lemma ObjectValueStored(t: string, i: nat, key: string, mode: bool, props: map<string, Value>,
                          j: nat, key': string, mode': bool, v: Value)
    requires 1 <= i < |t| && j < |t| && t[j] != ':' && t[j] != ','
    requires ValuePhases(t, Cursor(i, key, mode, None)) == Ok(Cursor(j, key', mode', Some(v)))
    ensures ObjectStep(t, ObjectScan(i, key, mode, props)) == Ok(ObjectScan(j + 1, "", mode', props[key' := v]))
  {
    StepCommits(t, ObjectScan(i, key, mode, props), Cursor(j, key', mode', Some(v)));
    CommittedStores(t, ObjectScan(i, key, mode, props), j, key', mode', v);
  }

  /** The same, for value tests stated field by field. */
  lemma ObjectValueMoved(t: string, i: nat, key: string, mode: bool, props: map<string, Value>, j: nat, v: Value)
    requires 1 <= i < |t| && j < |t| && t[j] != ':' && t[j] != ','
    requires MovedTo(ValuePhases(t, Cursor(i, key, mode, None)), Cursor(i, key, mode, None), j, v)
    ensures ObjectStep(t, ObjectScan(i, key, mode, props)) == Ok(ObjectScan(j + 1, "", mode, props[key := v]))
  {
    var c := ValuePhases(t, Cursor(i, key, mode, None)).value;
    assert c == Cursor(c.i, c.key, c.creatingKey, c.value);
    ObjectValueStored(t, i, key, mode, props, j, key, mode, v);
  }

  /** A successful iteration hands its state to the next one. */
  lemma ObjectLoopContinues(t: string, s: ObjectScan, next: ObjectScan)
    requires 1 <= s.i < |t| - 1 && ObjectStep(t, s) == Ok(next)
    ensures ObjectLoop(t, s) == ObjectLoop(t, next)
  {
  }

  lemma ArrayLoopFails(t: string, s: ArrayScan)
    requires 1 <= s.i < |t| - 1 && !ArrayStep(t, s).Ok?
    ensures ArrayLoop(t, s) == ArrayStep(t, s).PropagateFailure()
  {
  }

  lemma ArrayLoopContinues(t: string, s: ArrayScan, next: ArrayScan)
    requires 1 <= s.i < |t| - 1 && ArrayStep(t, s) == Ok(next)
    ensures ArrayLoop(t, s) == ArrayLoop(t, next)
  {
  }

  // ---------------------------------------------------------------------
  // The loops
  // ---------------------------------------------------------------------

  /** A stored name is never removed: later entries only add or overwrite. */
  lemma {:induction false} ObjectLoopKeepsNames(t: string, s: ObjectScan)
    requires 1 <= s.i
    ensures ObjectLoop(t, s).Ok? ==> s.props.Keys <= ObjectLoop(t, s).value.Keys
    decreases |t| - s.i
  {
    if s.i < |t| - 1 {
      var next := ObjectStep(t, s);
      if next.Ok? {
        ObjectLoopKeepsNames(t, next.value);
      }
    }
  }

  /** Values already appended stay, in order, at the front of the result. */
  lemma {:induction false} ArrayLoopExtends(t: string, s: ArrayScan)
    requires 1 <= s.i
    ensures ArrayLoop(t, s).Ok? ==>
              |s.items| <= |ArrayLoop(t, s).value| && ArrayLoop(t, s).value[..|s.items|] == s.items
    decreases |t| - s.i
  {
    if s.i < |t| - 1 {
      var next := ArrayStep(t, s);
      if next.Ok? {
        ArrayLoopExtends(t, next.value);
        if ArrayLoop(t, next.value).Ok? {
          var r := ArrayLoop(t, next.value).value;
          assert r[..|s.items|] == r[..|next.value.items|][..|s.items|];
        }
      }
    }
  }
}
