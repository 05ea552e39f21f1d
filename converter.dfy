/** JSonConverter: the text-to-tree engine. The functions below state what
    createJSonPropertiesString, createJSonArrayString and getJSonSubstring
    compute, one loop iteration at a time; the methods at the end are those
    loops, each proved to compute the function that specifies it. */
module Converter {
  import opened JSon

  const NoOpeningBrace := "The supplied string does not start with {"
  const NoClosingBrace := "The supplied string does not end with }"
  const NoOpeningBracket := "The supplied string does not start with ["
  const NoClosingBracket := "The supplied string does not end with ]"

  /** String.trim(): drop every leading and trailing character at or below
      U+0020. */
  function TrimStart(s: string): (r: string)
    ensures |r| <= |s| && r == s[|s| - |r|..]
    ensures r == [] || r[0] > ' '
    ensures s != [] && s[0] > ' ' ==> r == s
  {
    if s != [] && s[0] <= ' ' then TrimStart(s[1..]) else s
  }

  function TrimEnd(s: string): (r: string)
    ensures |r| <= |s| && r == s[..|r|]
    ensures r == [] || r[|r| - 1] > ' '
    ensures s != [] && s[|s| - 1] > ' ' ==> r == s
  {
    if s != [] && s[|s| - 1] <= ' ' then TrimEnd(s[..|s| - 1]) else s
  }

  function Trim(s: string): (t: string)
    ensures |t| <= |s|
    ensures t == [] || (t[0] > ' ' && t[|t| - 1] > ' ')
    ensures s != [] && s[0] > ' ' && s[|s| - 1] > ' ' ==> t == s
  {
    TrimEnd(TrimStart(s))
  }

  /** What TrimStart drops is at or below U+0020. */
  lemma {:induction false} TrimStartDrops(s: string)
    ensures forall k :: 0 <= k < |s| - |TrimStart(s)| ==> s[k] <= ' '
  {
    if s != [] && s[0] <= ' ' {
      TrimStartDrops(s[1..]);
      assert forall k :: 1 <= k < |s| - |TrimStart(s)| ==> s[k] == s[1..][k - 1];
    }
  }

  /** What TrimEnd drops is at or below U+0020. */
  lemma {:induction false} TrimEndDrops(s: string)
    ensures forall k :: |TrimEnd(s)| <= k < |s| ==> s[k] <= ' '
  {
    if s != [] && s[|s| - 1] <= ' ' {
      TrimEndDrops(s[..|s| - 1]);
      assert forall k :: |TrimEnd(s)| <= k < |s| - 1 ==> s[k] == s[..|s| - 1][k];
    }
  }

  /** A prefix `t` of the suffix s[a..], followed there only by characters
      at or below U+0020, is the slice s[a..a + |t|] and is followed in `s`
      by the same characters. */
  lemma PrefixOfSuffix(s: string, front: string, a: nat, t: string)
    requires a + |front| == |s| && front == s[a..]
    requires |t| <= |front| && t == front[..|t|]
    requires forall k :: |t| <= k < |front| ==> front[k] <= ' '
    ensures t == s[a..a + |t|]
    ensures forall k :: a + |t| <= k < |s| ==> s[k] <= ' '
  {
    forall k | a + |t| <= k < |s|
      ensures s[k] <= ' '
    {
      assert s[k] == front[k - a];
    }
  }

  /** `t` is the slice s[a..a + |t|], and everything cut off on either side
      of it is at or below U+0020. */
  predicate CutFrom(s: string, t: string, a: nat) {
    && a + |t| <= |s| && t == s[a..a + |t|]
    && (forall k :: 0 <= k < a ==> s[k] <= ' ')
    && (forall k :: a + |t| <= k < |s| ==> s[k] <= ' ')
  }

  /** The trimmed text is cut from the text with only whitespace around it. */
  lemma TrimCuts(s: string)
    ensures exists a :: CutFrom(s, Trim(s), a)
  {
    var front := TrimStart(s);
    var t := TrimEnd(front);
    var a := |s| - |front|;
    TrimStartDrops(s);
    TrimEndDrops(front);
    assert CutFrom(s, t, a) by { PrefixOfSuffix(s, front, a, t); }
    assert t == Trim(s);
  }


  // ---------------------------------------------------------------------
  // getJSonSubstring
  // ---------------------------------------------------------------------

  /** The character that closes `open`: `]` for `[`, `}` for anything else. */
  function Closing(open: char): char {
    if open == '[' then ']' else '}'
  }

  /** How deep the scanner's stack is once it has looked at s[1..n]: it starts
      with one opening character, pushes on `open` and pops on its closing
      character. The stack only ever holds copies of `open`, so its size is
      all that matters. */
  function Depth(s: string, open: char, n: nat): int
    requires 1 <= n <= |s|
  {
    if n == 1 then 1
    else Depth(s, open, n - 1)
         + (if s[n - 1] == open then 1 else if s[n - 1] == Closing(open) then -1 else 0)
  }

  /** The scanner's loop from index `i` with `depth` items on the stack. */
  function BalancedFrom(s: string, open: char, i: nat, depth: int): (r: Option<string>)
    requires 1 <= i && 1 <= depth
    ensures r.Some? ==> i < |r.value| <= |s| && r.value == s[..|r.value|]
    ensures r.Some? ==> r.value[|r.value| - 1] == Closing(open)
    decreases |s| - i
  {
    if i >= |s| then None
    else
      var d := if s[i] == open then depth + 1 else if s[i] == Closing(open) then depth - 1 else depth;
      if d == 0 then Some(s[..i + 1]) else BalancedFrom(s, open, i + 1, d)
  }

  /** getJSonSubstring(s, open): the prefix of `s` that closes the structure
      opened at s[0], or None (Java's null) when `s` runs out first. Quotes
      are not looked at. */
  function JSonSubstring(s: string, open: char): (r: Option<string>)
    ensures r.Some? ==> 2 <= |r.value| <= |s| && r.value == s[..|r.value|]
    ensures r.Some? ==> r.value[|r.value| - 1] == Closing(open)
  {
    BalancedFrom(s, open, 1, 1)
  }

  // ---------------------------------------------------------------------
  // The scans inside one iteration of the parser loops
  // ---------------------------------------------------------------------

  /** A quoted text whose opening quote is at i - 1: copy characters onto
      `acc` up to the next `"`, turning the pair `\` `/` into `/`. Gives the
      accumulated text and the index of the closing quote. Java's charAt
      throws when the text runs out. */
  function ReadQuoted(t: string, i: nat, acc: string): (r: Outcome<(string, nat)>)
    ensures !r.ParseException?
    ensures r.Ok? ==> i <= r.value.1 < |t| && t[r.value.1] == '"'
    ensures r.Ok? ==> |acc| <= |r.value.0| <= |acc| + (r.value.1 - i) && r.value.0[..|acc|] == acc
    decreases |t| - i
  {
    if i >= |t| then RuntimeError(IndexOutOfBounds)
    else if t[i] == '"' then Ok((acc, i))
    else if t[i] == '\\' && i + 1 >= |t| then RuntimeError(IndexOutOfBounds)
    else if t[i] == '\\' && t[i + 1] == '/' then ReadQuoted(t, i + 2, acc + ['/'])
    else ReadQuoted(t, i + 1, acc + [t[i]])
  }

  /** Character.isDigit, restricted to ASCII. */
  predicate IsDigit(c: char) {
    '0' <= c <= '9'
  }

  /** The only characters that end a number, in object and array mode alike. */
  predicate EndsNumber(c: char) {
    c == ',' || c == ' ' || c == '}'
  }

  /** The index of the first character at or after `i` that ends a number. */
  function NumberEnd(t: string, i: nat): (r: Outcome<nat>)
    ensures !r.ParseException?
    ensures r.Ok? ==> i <= r.value < |t| && EndsNumber(t[r.value])
    ensures r.Ok? ==> forall k :: i <= k < r.value ==> !EndsNumber(t[k])
    ensures !r.Ok? ==> r == RuntimeError(IndexOutOfBounds) && forall k :: i <= k < |t| ==> !EndsNumber(t[k])
    decreases |t| - i
  {
    if i >= |t| then RuntimeError(IndexOutOfBounds)
    else if EndsNumber(t[i]) then Ok(i)
    else NumberEnd(t, i + 1)
  }

  /** String.toLowerCase() on the letters that can make up "true" or "false":
      no character outside ASCII lower-cases to one of them. */
  function LowerAscii(c: char): char {
    if 'A' <= c <= 'Z' then (c as int + 32) as char else c
  }

  function Lower(s: string): (r: string)
    ensures |r| == |s|
  {
    seq(|s|, k requires 0 <= k < |s| => LowerAscii(s[k]))
  }

  /** The boolean test: a lowercase `t` or `f` with enough text left, whose
      next four or five characters lower-case to "true" or "false". */
  function BooleanAt(t: string, i: nat): Option<bool>
    requires i < |t|
  {
    if t[i] == 't' && i + 3 < |t| then
      (if Lower(t[i..i + 4]) == "true" then Some(true) else None)
    else if t[i] == 'f' && i + 4 < |t| then
      (if Lower(t[i..i + 5]) == "false" then Some(false) else None)
    else None
  }

  /** The state inside one iteration: the index, the key accumulator, the
      mode flag and the value produced so far. Java's `Value` is null at the
      start of every iteration, since each iteration commits what it made. */
  datatype Cursor = Cursor(i: nat, key: string, creatingKey: bool, value: Option<Value>)

  /** `"`: the text goes onto the key in key mode, otherwise into a new
      String value. */
  function QuotedPhase(t: string, c: Cursor): (r: Outcome<Cursor>)
    requires c.i < |t|
    ensures !r.ParseException?
    ensures r.Ok? ==> c.i <= r.value.i < |t|
  {
    if t[c.i] != '"' then Ok(c)
    else
      var q :- ReadQuoted(t, c.i + 1, if c.creatingKey then c.key else "");
      if c.creatingKey then Ok(c.(i := q.1, key := q.0))
      else Ok(c.(i := q.1, value := Some(Str(q.0))))
  }

  /** A digit or `-`: the span up to the next `,`, space or `}` is a number. */
  function NumberPhase(t: string, c: Cursor): (r: Outcome<Cursor>)
    requires c.i < |t|
    ensures !r.ParseException?
    ensures r.Ok? ==> c.i <= r.value.i < |t|
  {
    if IsDigit(t[c.i]) || t[c.i] == '-' then
      var e :- NumberEnd(t, c.i);
      Ok(c.(i := e, value := Some(Num(t[c.i..e]))))
    else Ok(c)
  }

  /** A boolean sets the value and leaves the index where it was: on its
      first letter, so the letters after it are skipped by later iterations.
      Any other character leaves the cursor as it is. */
  function BooleanPhase(t: string, c: Cursor): (r: Cursor)
    requires c.i < |t|
    ensures r.i == c.i && r.key == c.key && r.creatingKey == c.creatingKey
    ensures t[c.i] == 't' && c.i + 3 < |t| && Lower(t[c.i..c.i + 4]) == "true" ==> r.value == Some(Bool(true))
    ensures t[c.i] == 'f' && c.i + 4 < |t| && Lower(t[c.i..c.i + 5]) == "false" ==> r.value == Some(Bool(false))
    ensures (!(t[c.i] == 't' && c.i + 3 < |t| && Lower(t[c.i..c.i + 4]) == "true")
             && !(t[c.i] == 'f' && c.i + 4 < |t| && Lower(t[c.i..c.i + 5]) == "false")) ==> r == c
  {
    match BooleanAt(t, c.i)
    case Some(b) => c.(value := Some(Bool(b)))
    case None => c
  }

  // ---------------------------------------------------------------------
  // The recursive core: nested values, the loops, and the entry points.
  // Every nested call gets a strictly shorter text, because a cut starts at
  // an index of at least 1.
  // ---------------------------------------------------------------------

  /** `{`: cut the balanced substring and parse it as new JSonObject(String)
      would; the index moves to its closing `}`. */
  function NestedObjectPhase(t: string, c: Cursor): (r: Outcome<Cursor>)
    requires 1 <= c.i < |t|
    ensures !r.ParseException?
    ensures r.Ok? ==> c.i <= r.value.i < |t|
    decreases |t|, 0
  {
    if t[c.i] != '{' then Ok(c)
    else
      match JSonSubstring(t[c.i..], '{')
      case None => RuntimeError(NullSubstring)
      case Some(sub) =>
        var m :- ObjectOrEmpty(sub);
        Ok(c.(i := c.i + |sub| - 1, value := Some(Obj(m))))
  }

  /** `[`: the same, through new JSonArray(String). */
  function NestedArrayPhase(t: string, c: Cursor): (r: Outcome<Cursor>)
    requires 1 <= c.i < |t|
    ensures !r.ParseException?
    ensures r.Ok? ==> c.i <= r.value.i < |t|
    decreases |t|, 0
  {
    if t[c.i] != '[' then Ok(c)
    else
      match JSonSubstring(t[c.i..], '[')
      case None => RuntimeError(NullSubstring)
      case Some(sub) =>
        var a :- ArrayOrEmpty(sub);
        Ok(c.(i := c.i + |sub| - 1, value := Some(Arr(a))))
  }

  /** The value tests of one iteration, in the order the source makes them;
      each looks at the character where the previous one left the index. */
  function ValuePhases(t: string, c: Cursor): (r: Outcome<Cursor>)
    requires 1 <= c.i < |t|
    ensures !r.ParseException?
    ensures r.Ok? ==> c.i <= r.value.i < |t|
    decreases |t|, 1
  {
    var c1 :- QuotedPhase(t, c);
    var c2 :- NumberPhase(t, c1);
    var c3 := BooleanPhase(t, c2);
    var c4 :- NestedObjectPhase(t, c3);
    NestedArrayPhase(t, c4)
  }

  /** The state of createJSonPropertiesString between iterations. */
  datatype ObjectScan = ObjectScan(i: nat, key: string, creatingKey: bool, props: map<string, Value>)

  /** One iteration in object mode: the value tests, then `:` and `,` switch
      the mode, then a value that exists is stored under the key, and the key
      is reset; a key with no value carries over to the next iteration. */
  function ObjectStep(t: string, s: ObjectScan): (r: Outcome<ObjectScan>)
    requires 1 <= s.i < |t|
    ensures !r.ParseException?
    ensures r.Ok? ==> s.i < r.value.i <= |t|
    ensures r.Ok? ==> s.props.Keys <= r.value.props.Keys
    ensures r.Ok? ==> r.value.key == [] || r.value.props == s.props
    decreases |t|, 2
  {
    var c :- ValuePhases(t, Cursor(s.i, s.key, s.creatingKey, None));
    Ok(Committed(t, s, c))
  }

  /** The end of an iteration in object mode, once the value tests have left
      the index on `c.i`. */
  function Committed(t: string, s: ObjectScan, c: Cursor): (r: ObjectScan)
    requires c.i < |t|
    ensures r.i == c.i + 1
    ensures s.props.Keys <= r.props.Keys
    ensures r.key == [] || r.props == s.props
  {
    var mode := if t[c.i] == ':' then false else if t[c.i] == ',' then true else c.creatingKey;
    match c.value
    case Some(v) => ObjectScan(c.i + 1, "", mode, s.props[c.key := v])
    case None => ObjectScan(c.i + 1, c.key, mode, s.props)
  }

  /** The loop of createJSonPropertiesString: iterate while i < |t| - 1. */
  function ObjectLoop(t: string, s: ObjectScan): (r: Outcome<map<string, Value>>)
    requires 1 <= s.i
    ensures !r.ParseException?
    decreases |t|, 3, |t| - s.i
  {
    if s.i < |t| - 1 then
      var s' :- ObjectStep(t, s);
      ObjectLoop(t, s')
    else Ok(s.props)
  }

  /** createJSonPropertiesString. Only the two delimiter checks raise a
      JSonParseException; a nested structure that fails to parse becomes an
      empty container instead. */
  function ParseObject(s: string): (r: Outcome<map<string, Value>>)
    ensures r.ParseException? ==>
              r == ParseException(NoOpeningBrace, 0) || r == ParseException(NoClosingBrace, |Trim(s)| - 1)
    decreases |s|, 4
  {
    var t := Trim(s);
    if |t| == 0 then RuntimeError(IndexOutOfBounds)
    else if t[0] != '{' then ParseException(NoOpeningBrace, 0)
    else
      var props :- ObjectLoop(t, ObjectScan(1, "", true, map[]));
      if t[|t| - 1] != '}' then ParseException(NoClosingBrace, |t| - 1)
      else Ok(props)
  }

  /** new JSonObject(String) and createJSonObjectString: a parse exception
      gives an empty map; a runtime exception passes through. */
  function ObjectOrEmpty(s: string): (r: Outcome<map<string, Value>>)
    ensures !r.ParseException?
    ensures ParseObject(s).ParseException? ==> r == Ok(map[])
    ensures !ParseObject(s).ParseException? ==> r == ParseObject(s)
    decreases |s|, 5
  {
    var r := ParseObject(s);
    if r.ParseException? then Ok(map[]) else r
  }

  /** The state of createJSonArrayString between iterations. */
  datatype ArrayScan = ArrayScan(i: nat, items: seq<Value>)

  /** What array mode appends for a value: the StringBuilder that a quoted
      text was read into goes in as it is, with no toString. */
  function AsElement(v: Value): Value {
    if v.Str? then Builder(v.s) else v
  }

  /** One iteration in array mode: the value tests with no key, then a value
      that exists is appended. */
  function ArrayStep(t: string, s: ArrayScan): (r: Outcome<ArrayScan>)
    requires 1 <= s.i < |t|
    ensures !r.ParseException?
    ensures r.Ok? ==> s.i < r.value.i <= |t|
    ensures r.Ok? ==> |s.items| <= |r.value.items| <= |s.items| + 1
    ensures r.Ok? ==> r.value.items[..|s.items|] == s.items
    decreases |t|, 2
  {
    var c :- ValuePhases(t, Cursor(s.i, "", false, None));
    match c.value
    case Some(v) => Ok(ArrayScan(c.i + 1, s.items + [AsElement(v)]))
    case None => Ok(ArrayScan(c.i + 1, s.items))
  }

  function ArrayLoop(t: string, s: ArrayScan): (r: Outcome<seq<Value>>)
    requires 1 <= s.i
    ensures !r.ParseException?
    decreases |t|, 3, |t| - s.i
  {
    if s.i < |t| - 1 then
      var s' :- ArrayStep(t, s);
      ArrayLoop(t, s')
    else Ok(s.items)
  }

  /** createJSonArrayString. */
  function ParseArray(s: string): (r: Outcome<seq<Value>>)
    ensures r.ParseException? ==>
              r == ParseException(NoOpeningBracket, 0) || r == ParseException(NoClosingBracket, |Trim(s)| - 1)
    decreases |s|, 4
  {
    var t := Trim(s);
    if |t| == 0 then RuntimeError(IndexOutOfBounds)
    else if t[0] != '[' then ParseException(NoOpeningBracket, 0)
    else
      var items :- ArrayLoop(t, ArrayScan(1, []));
      if t[|t| - 1] != ']' then ParseException(NoClosingBracket, |t| - 1)
      else Ok(items)
  }

  /** new JSonArray(String): a parse exception gives an empty list. */
  function ArrayOrEmpty(s: string): (r: Outcome<seq<Value>>)
    ensures !r.ParseException?
    ensures ParseArray(s).ParseException? ==> r == Ok([])
    ensures !ParseArray(s).ParseException? ==> r == ParseArray(s)
    decreases |s|, 5
  {
    var r := ParseArray(s);
    if r.ParseException? then Ok([]) else r
  }

  // ---------------------------------------------------------------------
  // The methods: the source's loops, each proved to compute its function
  // ---------------------------------------------------------------------

  /** getJSonSubstring: the stack of opening characters is kept as its size. */
  method GetJSonSubstring(s: string, open: char) returns (r: Option<string>)
    ensures r == JSonSubstring(s, open)
  {
    var close := if open == '[' then ']' else '}';
    var depth := 1;
    var i := 1;
    while i < |s|
      invariant 1 <= i && 1 <= depth
      invariant BalancedFrom(s, open, i, depth) == JSonSubstring(s, open)
      decreases |s| - i
    {
      if s[i] == open {
        depth := depth + 1;
      } else if s[i] == close {
        depth := depth - 1;
      }
      if depth == 0 {
        return Some(s[..i + 1]);
      }
      i := i + 1;
    }
    return None;
  }

  /** The inner loop that copies a quoted text. */
  method ReadQuotedText(t: string, start: nat, prefix: string) returns (r: Outcome<(string, nat)>)
    ensures r == ReadQuoted(t, start, prefix)
  {
    var i, acc := start, prefix;
    while true
      invariant ReadQuoted(t, i, acc) == ReadQuoted(t, start, prefix)
      decreases |t| + 2 - i
    {
      if i >= |t| {
        return RuntimeError(IndexOutOfBounds);
      }
      if t[i] == '"' {
        return Ok((acc, i));
      }
      if t[i] == '\\' && i + 1 >= |t| {
        return RuntimeError(IndexOutOfBounds);
      }
      if t[i] == '\\' && t[i + 1] == '/' {
        acc := acc + ['/'];
        i := i + 2;
      } else {
        acc := acc + [t[i]];
        i := i + 1;
      }
    }
  }

  /** The inner loop that finds the end of a number. */
  method FindNumberEnd(t: string, start: nat) returns (r: Outcome<nat>)
    ensures r == NumberEnd(t, start)
  {
    var i := start;
    while true
      invariant NumberEnd(t, i) == NumberEnd(t, start)
      decreases |t| + 1 - i
    {
      if i >= |t| {
        return RuntimeError(IndexOutOfBounds);
      }
      if EndsNumber(t[i]) {
        return Ok(i);
      }
      i := i + 1;
    }
  }

  /** The `"` test of one iteration. */
  method ScanQuoted(t: string, c: Cursor) returns (r: Outcome<Cursor>)
    requires c.i < |t|
    ensures r == QuotedPhase(t, c)
  {
    if t[c.i] != '"' {
      return Ok(c);
    }
    var q := ReadQuotedText(t, c.i + 1, if c.creatingKey then c.key else "");
    if !q.Ok? {
      return q.PropagateFailure();
    }
    if c.creatingKey {
      return Ok(c.(i := q.value.1, key := q.value.0));
    }
    return Ok(c.(i := q.value.1, value := Some(Str(q.value.0))));
  }

  /** The number test of one iteration. */
  method ScanNumber(t: string, c: Cursor) returns (r: Outcome<Cursor>)
    requires c.i < |t|
    ensures r == NumberPhase(t, c)
  {
    if !(IsDigit(t[c.i]) || t[c.i] == '-') {
      return Ok(c);
    }
    var e := FindNumberEnd(t, c.i);
    if !e.Ok? {
      return e.PropagateFailure();
    }
    return Ok(c.(i := e.value, value := Some(Num(t[c.i..e.value]))));
  }

  /** The `{` test of one iteration. */
  method ScanObject(t: string, c: Cursor) returns (r: Outcome<Cursor>)
    requires 1 <= c.i < |t|
    ensures r == NestedObjectPhase(t, c)
    decreases |t|, 0
  {
    if t[c.i] != '{' {
      return Ok(c);
    }
    var sub := GetJSonSubstring(t[c.i..], '{');
    if sub.None? {
      return RuntimeError(NullSubstring);
    }
    var m := CreateJSonObjectString(sub.value);
    if !m.Ok? {
      return m.PropagateFailure();
    }
    return Ok(c.(i := c.i + |sub.value| - 1, value := Some(Obj(m.value))));
  }

  /** The `[` test of one iteration. */
  method ScanArray(t: string, c: Cursor) returns (r: Outcome<Cursor>)
    requires 1 <= c.i < |t|
    ensures r == NestedArrayPhase(t, c)
    decreases |t|, 0
  {
    if t[c.i] != '[' {
      return Ok(c);
    }
    var sub := GetJSonSubstring(t[c.i..], '[');
    if sub.None? {
      return RuntimeError(NullSubstring);
    }
    var a := JSonArrayFromString(sub.value);
    if !a.Ok? {
      return a.PropagateFailure();
    }
    return Ok(c.(i := c.i + |sub.value| - 1, value := Some(Arr(a.value))));
  }

  /** The value tests of one loop iteration, shared by both parsers. */
  method ScanValue(t: string, c: Cursor) returns (r: Outcome<Cursor>)
    requires 1 <= c.i < |t|
    ensures r == ValuePhases(t, c)
    decreases |t|, 1
  {
    var c1 := ScanQuoted(t, c);
    if !c1.Ok? {
      return c1.PropagateFailure();
    }
    var c2 := ScanNumber(t, c1.value);
    if !c2.Ok? {
      return c2.PropagateFailure();
    }
    var c3 := BooleanPhase(t, c2.value);
    var c4 := ScanObject(t, c3);
    if !c4.Ok? {
      return c4.PropagateFailure();
    }
    r := ScanArray(t, c4.value);
  }

  /** An iteration whose value tests succeed ends as Committed says. */
  lemma StepCommits(t: string, s: ObjectScan, c: Cursor)
    requires 1 <= s.i < |t| && c.i < |t|
    requires ValuePhases(t, Cursor(s.i, s.key, s.creatingKey, None)) == Ok(c)
    ensures ObjectStep(t, s) == Ok(Committed(t, s, c))
  {
  }

  /** Object mode: after the value tests, `:` and `,` set the mode; a value
      that was produced is stored under the accumulated key in the same
      iteration (over any earlier entry for that key) and the key starts
      afresh; with no value the key is carried over. */
  lemma ObjectCommit(t: string, s: ObjectScan, c: Cursor)
    requires 1 <= s.i < |t| && c.i < |t|
    requires ValuePhases(t, Cursor(s.i, s.key, s.creatingKey, None)) == Ok(c)
    ensures ObjectStep(t, s)
            == Ok(ObjectScan(c.i + 1,
                             if c.value.Some? then "" else c.key,
                             if t[c.i] == ':' then false else if t[c.i] == ',' then true else c.creatingKey,
                             if c.value.Some? then s.props[c.key := c.value.value] else s.props))
  {
  }

  /** Array mode: a value that was produced is appended once, at the end,
      a quoted text as its StringBuilder. */
  lemma ArrayAppend(t: string, s: ArrayScan, c: Cursor)
    requires 1 <= s.i < |t| && c.i < |t|
    requires ValuePhases(t, Cursor(s.i, "", false, None)) == Ok(c)
    ensures ArrayStep(t, s)
            == Ok(ArrayScan(c.i + 1, if c.value.Some? then s.items + [AsElement(c.value.value)] else s.items))
  {
  }

  /** The body of the loop in createJSonPropertiesString. */
  method ObjectIteration(t: string, s: ObjectScan) returns (r: Outcome<ObjectScan>)
    requires 1 <= s.i < |t|
    ensures r == ObjectStep(t, s)
    decreases |t|, 2
  {
    var c := ScanValue(t, Cursor(s.i, s.key, s.creatingKey, None));
    if !c.Ok? {
      return c.PropagateFailure();
    }
    var cur := c.value;
    ObjectCommit(t, s, cur);
    var creatingKey := cur.creatingKey;
    if t[cur.i] == ':' {
      creatingKey := false;
    }
    if t[cur.i] == ',' {
      creatingKey := true;
    }
    if cur.value.Some? {
      return Ok(ObjectScan(cur.i + 1, "", creatingKey, s.props[cur.key := cur.value.value]));
    }
    return Ok(ObjectScan(cur.i + 1, cur.key, creatingKey, s.props));
  }

  /** The loop of createJSonPropertiesString, from the character after `{`
      to the last character of the trimmed text. */
  method RunObjectLoop(t: string, start: ObjectScan) returns (r: Outcome<map<string, Value>>)
    requires 1 <= start.i
    ensures r == ObjectLoop(t, start)
    decreases |t|, 3
  {
    var scan := start;
    while scan.i < |t| - 1
      invariant 1 <= scan.i
      invariant ObjectLoop(t, scan) == ObjectLoop(t, start)
      decreases |t| - scan.i
    {
      var next := ObjectIteration(t, scan);
      if !next.Ok? {
        return next.PropagateFailure();
      }
      scan := next.value;
    }
    return Ok(scan.props);
  }

  /** createJSonPropertiesString. */
  method CreateJSonPropertiesString(s: string) returns (r: Outcome<map<string, Value>>)
    ensures r == ParseObject(s)
    decreases |s|, 4
  {
    var t := Trim(s);
    if |t| == 0 {
      return RuntimeError(IndexOutOfBounds);
    }
    if t[0] != '{' {
      return ParseException(NoOpeningBrace, 0);
    }
    r := RunObjectLoop(t, ObjectScan(1, "", true, map[]));
    if !r.Ok? {
      return;
    }
    if t[|t| - 1] != '}' {
      return ParseException(NoClosingBrace, |t| - 1);
    }
  }

  /** createJSonObjectString, and the body of new JSonObject(String). */
  method CreateJSonObjectString(s: string) returns (r: Outcome<map<string, Value>>)
    ensures r == ObjectOrEmpty(s)
    decreases |s|, 5
  {
    r := CreateJSonPropertiesString(s);
    if r.ParseException? {
      r := Ok(map[]);
    }
  }

  /** The body of the loop in createJSonArrayString. */
  method ArrayIteration(t: string, s: ArrayScan) returns (r: Outcome<ArrayScan>)
    requires 1 <= s.i < |t|
    ensures r == ArrayStep(t, s)
    decreases |t|, 2
  {
    var c := ScanValue(t, Cursor(s.i, "", false, None));
    if !c.Ok? {
      return c.PropagateFailure();
    }
    ArrayAppend(t, s, c.value);
    if c.value.value.Some? {
      var v := c.value.value.value;
      var element := if v.Str? then Builder(v.s) else v;
      return Ok(ArrayScan(c.value.i + 1, s.items + [element]));
    }
    return Ok(ArrayScan(c.value.i + 1, s.items));
  }

  /** The loop of createJSonArrayString. */
  method RunArrayLoop(t: string, start: ArrayScan) returns (r: Outcome<seq<Value>>)
    requires 1 <= start.i
    ensures r == ArrayLoop(t, start)
    decreases |t|, 3
  {
    var scan := start;
    while scan.i < |t| - 1
      invariant 1 <= scan.i
      invariant ArrayLoop(t, scan) == ArrayLoop(t, start)
      decreases |t| - scan.i
    {
      var next := ArrayIteration(t, scan);
      if !next.Ok? {
        return next.PropagateFailure();
      }
      scan := next.value;
    }
    return Ok(scan.items);
  }

  /** createJSonArrayString. */
  method CreateJSonArrayString(s: string) returns (r: Outcome<seq<Value>>)
    ensures r == ParseArray(s)
    decreases |s|, 4
  {
    var t := Trim(s);
    if |t| == 0 {
      return RuntimeError(IndexOutOfBounds);
    }
    if t[0] != '[' {
      return ParseException(NoOpeningBracket, 0);
    }
    r := RunArrayLoop(t, ArrayScan(1, []));
    if !r.Ok? {
      return;
    }
    if t[|t| - 1] != ']' {
      return ParseException(NoClosingBracket, |t| - 1);
    }
  }

  /** The body of new JSonArray(String). */
  method JSonArrayFromString(s: string) returns (r: Outcome<seq<Value>>)
    ensures r == ArrayOrEmpty(s)
    decreases |s|, 5
  {
    r := CreateJSonArrayString(s);
    if r.ParseException? {
      r := Ok([]);
    }
  }
}
