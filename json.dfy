/** The value tree that the converter builds and that JSonObject and JSonArray
    hold, the outcome of a parse, and the textual form that toString gives. */
module JSon {

  datatype Option<+T> = None | Some(value: T)

  /** One node of the tree. `Null` is the shared JSonObject.NULL marker (the
      parser never produces it; addName stores it). A number keeps the span of
      text the parser cut out for Double.parseDouble. `Builder` is the
      StringBuilder that the array parser appends for a quoted text, where
      the object parser stores its String. `Obj` is a JSonObject's name/value
      map and `Arr` a JSonArray's list. */
  datatype Value =
    | Null
    | Bool(b: bool)
    | Num(literal: string)
    | Str(s: string)
    | Builder(chars: string)
    | Obj(properties: map<string, Value>)
    | Arr(items: seq<Value>)

  /** A Java runtime exception that escapes the converter: charAt or substring
      past the end of the text, or the null that getJSonSubstring returns for
      an unbalanced nested structure being dereferenced. */
  datatype Fault = IndexOutOfBounds | NullSubstring

  /** What a parse ends with: a result, a JSonParseException (cause and
      offset), or a runtime exception, which no constructor catches. */
  datatype Outcome<+T> =
    | Ok(value: T)
    | ParseException(cause: string, offset: int)
    | RuntimeError(fault: Fault)
  {
    predicate IsFailure() { !Ok? }

    function PropagateFailure<U>(): (r: Outcome<U>)
      requires IsFailure()
      ensures r.ParseException? <==> ParseException?
    {
      if ParseException? then ParseException(cause, offset) else RuntimeError(fault)
    }

    function Extract(): T
      requires Ok?
    {
      value
    }
  }

  /** The order in which a HashMap enumerates a set of keys. It follows hash
      codes and table capacity, which this model does not represent, so every
      rendering of an object takes it as a parameter. */
  type KeyOrder = set<string> -> seq<string>

  /** `keys` lists every element of `ks` exactly once. */
  ghost predicate Enumerates(keys: seq<string>, ks: set<string>) {
    && (forall i :: 0 <= i < |keys| ==> keys[i] in ks)
    && (forall k :: k in ks ==> k in keys)
    && (forall i, j :: 0 <= i < j < |keys| ==> keys[i] != keys[j])
  }

  ghost predicate ValidOrder(order: KeyOrder) {
    forall ks :: Enumerates(order(ks), ks)
  }

  /** An enumeration is as long as the set it lists. */
  lemma {:induction false} EnumerationLength(keys: seq<string>, ks: set<string>)
    requires Enumerates(keys, ks)
    ensures |keys| == |ks|
    decreases |keys|
  {
    if keys == [] {
      assert forall k :: k !in ks;
      assert ks == {};
    } else {
      var rest := ks - {keys[0]};
      assert forall i :: 0 <= i < |keys[1..]| ==> keys[1..][i] == keys[i + 1];
      forall k | k in rest
        ensures k in keys[1..]
      {
        var i :| 0 <= i < |keys| && keys[i] == k;
        assert keys[1..][i - 1] == k;
      }
      EnumerationLength(keys[1..], rest);
    }
  }

  /** Every name an order lists is a name of the map. */
  lemma OrderedKeysIn(m: map<string, Value>, order: KeyOrder)
    requires ValidOrder(order)
    ensures forall i :: 0 <= i < |order(m.Keys)| ==> order(m.Keys)[i] in m
  {
    assert Enumerates(order(m.Keys), m.Keys);
  }

  /** The parts joined with `sep` between neighbours and nowhere else, as the
      toString loops build them: a part, then the separator unless it was the
      last one. */
  function Join(parts: seq<string>, sep: string): string
  {
    if |parts| == 0 then ""
    else if |parts| == 1 then parts[0]
    else Join(parts[..|parts| - 1], sep) + sep + parts[|parts| - 1]
  }

  /** Appending a part adds the separator and the part, as each turn of the
      toString loops does. */
  lemma JoinSnoc(parts: seq<string>, sep: string, x: string)
    requires |parts| >= 1
    ensures Join(parts + [x], sep) == Join(parts, sep) + sep + x
  {
    assert (parts + [x])[..|parts|] == parts;
  }

  /** One turn of a toString loop: after the first `i` parts and a pending
      separator, appending part `i` and, unless it is the last, a separator
      leaves the first `i + 1` parts and a pending separator. */
  /** One more part written after an opening bracket: the text so far
      followed by part `i` is the bracket and the first `i + 1` parts. */
  lemma JoinAppended(open: string, parts: seq<string>, i: nat, sep: string, data: string)
    requires i < |parts|
    requires data == open + Join(parts[..i], sep) + (if 0 < i then sep else "")
    ensures data + parts[i] == open + Join(parts[..i + 1], sep)
  {
    JoinStep(parts, i, sep);
    assert data + parts[i] == open + (Join(parts[..i], sep) + (if 0 < i then sep else "") + parts[i]);
  }

  lemma JoinStep(parts: seq<string>, i: nat, sep: string)
    requires i < |parts|
    ensures Join(parts[..i], sep) + (if 0 < i then sep else "") + parts[i]
            == Join(parts[..i + 1], sep)
  {
    assert parts[..i + 1] == parts[..i] + [parts[i]];
    if i > 0 {
      JoinSnoc(parts[..i], sep, parts[i]);
    } else {
      assert parts[..i + 1] == [parts[i]];
    }
  }

  /** Read from the front: the first part, the separator, then the rest. */
  lemma {:induction false} JoinCons(x: string, rest: seq<string>, sep: string)
    requires |rest| >= 1
    ensures Join([x] + rest, sep) == x + sep + Join(rest, sep)
    decreases |rest|
  {
    var ps := [x] + rest;
    if |rest| == 1 {
      assert ps[..1] == [x];
    } else {
      var init := rest[..|rest| - 1];
      assert ps[..|ps| - 1] == [x] + init;
      JoinCons(x, init, sep);
    }
  }

  /** Value.toString(): Boolean, Double, String, StringBuilder,
      JSonObject.NULL, JSonObject and JSonArray. A number prints as its literal span. */
  function Text(v: Value, order: KeyOrder): string
    requires ValidOrder(order)
    decreases v, 3
  {
    match v
    case Null => "null"
    case Bool(b) => if b then "true" else "false"
    case Num(literal) => literal
    case Str(s) => s
    case Builder(chars) => chars
    case Obj(m) => ObjectText(m, order)
    case Arr(a) => ArrayText(a, order)
  }

  /** One `"name":value` entry of JSonObject.toString: only a String value is
      put in quotes, and nothing is escaped. */
  function EntryText(name: string, v: Value, order: KeyOrder): string
    requires ValidOrder(order)
    decreases v, 4
  {
    "\"" + name + "\":" + (if v.Str? then "\"" + v.s + "\"" else Text(v, order))
  }

  /** JSonObject.toString(): the entries in the map's enumeration order,
      joined by a bare comma, inside braces. */
  function ObjectText(m: map<string, Value>, order: KeyOrder): string
    requires ValidOrder(order)
    decreases Obj(m), 2
  {
    "{" + Join(EntryTexts(m, order(m.Keys), order), ",") + "}"
  }

  function EntryTexts(m: map<string, Value>, keys: seq<string>, order: KeyOrder): (r: seq<string>)
    requires ValidOrder(order)
    requires forall i :: 0 <= i < |keys| ==> keys[i] in m
    ensures |r| == |keys|
    decreases Obj(m), 1, |keys|
  {
    if keys == [] then []
    else [EntryText(keys[0], m[keys[0]], order)] + EntryTexts(m, keys[1..], order)
  }

  /** Entry `i` is the text of the `i`-th listed name and its value. */
  lemma {:induction false} EntryTextAt(m: map<string, Value>, keys: seq<string>, order: KeyOrder, i: nat)
    requires ValidOrder(order)
    requires forall j :: 0 <= j < |keys| ==> keys[j] in m
    requires i < |keys|
    ensures EntryTexts(m, keys, order)[i] == EntryText(keys[i], m[keys[i]], order)
    decreases i
  {
    if i > 0 {
      EntryTextAt(m, keys[1..], order, i - 1);
    }
  }

  /** JSonArray.toString(): the elements' own textual forms, joined by a comma
      and a space, inside brackets. A String element is not quoted. */
  function ArrayText(a: seq<Value>, order: KeyOrder): string
    requires ValidOrder(order)
    decreases Arr(a), 2
  {
    "[" + Join(ElementTexts(a, 0, order), ", ") + "]"
  }

  /** An empty map prints as `{}` and an empty list as `[]`. */
  lemma EmptyTexts(order: KeyOrder)
    requires ValidOrder(order)
    ensures ObjectText(map[], order) == "{}"
    ensures ArrayText([], order) == "[]"
  {
    var empty: map<string, Value> := map[];
    var none: set<string> := {};
    assert empty.Keys == none;
    assert Enumerates(order(none), none);
  }

  function ElementTexts(a: seq<Value>, from: nat, order: KeyOrder): (r: seq<string>)
    requires ValidOrder(order)
    requires from <= |a|
    ensures |r| == |a| - from
    decreases Arr(a), 1, |a| - from
  {
    if from == |a| then []
    else [Text(a[from], order)] + ElementTexts(a, from + 1, order)
  }

  /** Element `i` is the text of the `from + i`-th value. */
  lemma {:induction false} ElementTextAt(a: seq<Value>, from: nat, order: KeyOrder, i: nat)
    requires ValidOrder(order)
    requires from + i < |a|
    ensures ElementTexts(a, from, order)[i] == Text(a[from + i], order)
    decreases i
  {
    if i > 0 {
      ElementTextAt(a, from + 1, order, i - 1);
    }
  }
}
