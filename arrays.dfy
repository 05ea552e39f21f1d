/** JSonArray: an ordered list of values that the converter fills and
    toString prints. */
module Arrays {
  import opened JSon
  import Converter

  /** The list after ArrayList.add(index, v): `v` at `index`, the elements
      before it in place, the elements from `index` on one place further. */
  function Inserted(a: seq<Value>, index: nat, v: Value): (r: seq<Value>)
    requires index <= |a|
    ensures |r| == |a| + 1
    ensures r[index] == v
    ensures forall j :: 0 <= j < index ==> r[j] == a[j]
    ensures forall j :: index < j < |r| ==> r[j] == a[j - 1]
  {
    a[..index] + [v] + a[index..]
  }

  /** Inserting at the end is appending. */
  lemma InsertAtEndAppends(a: seq<Value>, v: Value)
    ensures Inserted(a, |a|, v) == a + [v]
  {
    assert a[..|a|] == a;
  }

  /** Removing the inserted element gives back the list. */
  lemma InsertedRemoved(a: seq<Value>, index: nat, v: Value)
    requires index <= |a|
    ensures Inserted(a, index, v)[..index] + Inserted(a, index, v)[index + 1..] == a
  {
    var r := Inserted(a, index, v);
    assert r[..index] == a[..index];
    assert r[index + 1..] == a[index..];
    assert a[..index] + a[index..] == a;
  }

  class JSonArray {
    var items: seq<Value>

    /** new JSonArray(): no values. */
    constructor ()
      ensures items == []
    {
      items := [];
    }

    /** new JSonArray(ArrayList): the given list's values. */
    constructor FromList(a: seq<Value>)
      ensures items == a
    {
      items := a;
    }

    /** new JSonArray(String): the converter's list, or an empty list when
        it raises a JSonParseException; any other exception escapes. */
    static method FromText(s: string) returns (r: Outcome<JSonArray>)
      ensures r.Ok? <==> !Converter.ParseArray(s).RuntimeError?
      ensures r.Ok? ==> fresh(r.value)
      ensures r.Ok? && Converter.ParseArray(s).Ok? ==> r.value.items == Converter.ParseArray(s).value
      ensures r.Ok? && Converter.ParseArray(s).ParseException? ==> r.value.items == []
      ensures r.RuntimeError? ==> r.fault == Converter.ParseArray(s).fault
    {
      var parsed := Converter.CreateJSonArrayString(s);
      if parsed.RuntimeError? {
        return RuntimeError(parsed.fault);
      }
      var values := if parsed.ParseException? then [] else parsed.value;
      var a := new JSonArray.FromList(values);
      return Ok(a);
    }

    /** toString(): each value's own text, `, ` after every value but the
        last, all inside brackets. */
    method ToString(order: KeyOrder) returns (r: string)
      requires ValidOrder(order)
      ensures r == ArrayText(items, order)
    {
      ghost var texts := ElementTexts(items, 0, order);
      var data := "[";
      var i := 0;
      while i < |items|
        invariant 0 <= i <= |items|
        invariant data == "[" + Join(texts[..i], ", ") + (if 0 < i < |items| then ", " else "")
      {
        var element := Text(items[i], order);
        ElementTextAt(items, 0, order, i);
        JoinAppended("[", texts, i, ", ", data);
        data := data + element;
        if i + 1 != |items| {
          data := data + ", ";
        }
        i := i + 1;
      }
      assert texts[..|items|] == texts;
      data := data + "]";
      return data;
    }

    /** get(index): the value at `index`; ArrayList.get throws outside the
        list. */
    method Get(index: int) returns (r: Outcome<Value>)
      ensures 0 <= index < |items| ==> r == Ok(items[index])
      ensures !(0 <= index < |items|) ==> r == RuntimeError(IndexOutOfBounds)
    {
      if 0 <= index < |items| {
        return Ok(items[index]);
      }
      return RuntimeError(IndexOutOfBounds);
    }

    /** add(v): appended at the end. */
    method Add(v: Value)
      modifies this
      ensures items == old(items) + [v]
    {
      items := items + [v];
    }

    /** put(v, index): inserted at `index`, from 0 to the length; any other
        index throws and leaves the list as it was. */
    method Put(v: Value, index: int) returns (r: Outcome<()>)
      modifies this
      ensures 0 <= index <= |old(items)| ==> r == Ok(()) && items == Inserted(old(items), index, v)
      ensures !(0 <= index <= |old(items)|) ==> r == RuntimeError(IndexOutOfBounds) && items == old(items)
    {
      if !(0 <= index <= |items|) {
        return RuntimeError(IndexOutOfBounds);
      }
      items := items[..index] + [v] + items[index..];
      return Ok(());
    }
  }

  /** put then get at the same index gives the value put, and the value that
      was there before is found one place further on. */
  method PutThenGet(a: JSonArray, v: Value, index: int) returns (here: Outcome<Value>, next: Outcome<Value>)
    requires 0 <= index < |a.items|
    modifies a
    ensures here == Ok(v)
    ensures next == Ok(old(a.items)[index])
  {
    var _ := a.Put(v, index);
    here := a.Get(index);
    next := a.Get(index + 1);
  }

  /** A String element prints without quotes, unlike in an object. */
  lemma UnquotedStringElement(s: string, order: KeyOrder)
    requires ValidOrder(order)
    ensures ArrayText([Str(s)], order) == "[" + s + "]"
  {
    assert ElementTexts([Str(s)], 0, order) == [s];
  }
}
