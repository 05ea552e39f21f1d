/** JSonObject: a name/value map that the converter fills and toString
    prints. The map's iteration order is a HashMap's, which this model does
    not represent: lookups visit the names in an arbitrary order, and toString
    takes the order as a parameter. */
module Objects {
  import opened JSon
  import Converter
  import RoundTrip

  /** `stored.equals(v)` for what a map can hold: Boolean, Double, String and
      the Null marker compare by value, a JSonArray by its contents, and a
      JSonObject never equals anything, not even itself, since its equals
      always answers false. */
  function ValueEquals(stored: Value, v: Value): (r: bool)
    ensures r ==> stored == v
    ensures stored.Obj? ==> !r
    ensures !stored.Obj? && stored == v ==> r
  {
    !stored.Obj? && stored == v
  }

  /** So equals is reflexive on every stored value except a JSonObject: no
      lookup by value ever finds a nested object. */
  lemma EqualsItself(v: Value)
    ensures ValueEquals(v, v) <==> !v.Obj?
  {
  }

  /** The map after setName(oldName, newName): when `oldName` is present its
      value moves to `newName`; otherwise nothing changes. */
  function Renamed(m: map<string, Value>, oldName: string, newName: string): (r: map<string, Value>)
    ensures oldName in m ==> newName in r && r[newName] == m[oldName]
    ensures oldName in m && oldName != newName ==> oldName !in r
    ensures oldName in m ==> |r| == if newName in m && newName != oldName then |m| - 1 else |m|
    ensures forall k :: k != oldName && k != newName ==> (k in r <==> k in m)
    ensures forall k :: k in r && k != oldName && k != newName ==> r[k] == m[k]
    ensures oldName !in m ==> r == m
  {
    if oldName in m then (m - {oldName})[newName := m[oldName]] else m
  }

  /** Renaming a name to a name not in use, and back, restores the map. */
  lemma RenameUndone(m: map<string, Value>, oldName: string, newName: string)
    requires oldName in m && newName !in m
    ensures Renamed(Renamed(m, oldName, newName), newName, oldName) == m
  {
    var once := Renamed(m, oldName, newName);
    assert once == (m - {oldName})[newName := m[oldName]];
    var twice := Renamed(once, newName, oldName);
    assert twice == (once - {newName})[oldName := m[oldName]];
    assert twice.Keys == m.Keys;
    forall k | k in m
      ensures twice[k] == m[k]
    {
      if k != oldName {
        assert k != newName && once[k] == m[k];
      }
    }
  }

  /** Renaming a name to itself changes nothing. */
  lemma RenameToSelf(m: map<string, Value>, name: string)
    ensures Renamed(m, name, name) == m
  {
    if name in m {
      assert Renamed(m, name, name).Keys == m.Keys;
    }
  }

  /** The map after Map.replace(name, v): only a name already present gets
      the new value. */
  function Replaced(m: map<string, Value>, name: string, v: Value): (r: map<string, Value>)
    ensures r.Keys == m.Keys
    ensures name in m ==> r[name] == v
    ensures forall k :: k in m && k != name ==> r[k] == m[k]
  {
    if name in m then m[name := v] else m
  }

  /** Replacing twice is replacing once with the second value. */
  lemma ReplacedTwice(m: map<string, Value>, name: string, v: Value, w: Value)
    ensures Replaced(Replaced(m, name, v), name, w) == Replaced(m, name, w)
  {
    if name in m {
      assert Replaced(Replaced(m, name, v), name, w).Keys == Replaced(m, name, w).Keys;
    }
  }

  /** The part of the toString loop that prints one entry: the quoted name,
      a colon, and the value, quoted only when it is a String. */
  method EntryString(name: string, v: Value, order: KeyOrder) returns (e: string)
    requires ValidOrder(order)
    ensures e == EntryText(name, v, order)
  {
    e := "\"" + name + "\"" + ":";
    if v.Str? {
      e := e + "\"" + v.s + "\"";
    } else {
      e := e + Text(v, order);
    }
  }

  class JSonObject {
    var properties: map<string, Value>

    /** new JSonObject(): no properties. */
    constructor ()
      ensures properties == map[]
    {
      properties := map[];
    }

    /** new JSonObject(Map): the given map's entries. */
    constructor FromMap(m: map<string, Value>)
      ensures properties == m
    {
      properties := m;
    }

    /** new JSonObject(String): the converter's map, or an empty map when it
        raises a JSonParseException; any other exception escapes. */
    static method FromText(s: string) returns (r: Outcome<JSonObject>)
      ensures r.Ok? <==> !Converter.ParseObject(s).RuntimeError?
      ensures r.Ok? ==> fresh(r.value)
      ensures r.Ok? && Converter.ParseObject(s).Ok? ==> r.value.properties == Converter.ParseObject(s).value
      ensures r.Ok? && Converter.ParseObject(s).ParseException? ==> r.value.properties == map[]
      ensures r.RuntimeError? ==> r.fault == Converter.ParseObject(s).fault
    {
      var parsed := Converter.CreateJSonPropertiesString(s);
      if parsed.RuntimeError? {
        return RuntimeError(parsed.fault);
      }
      var props := if parsed.ParseException? then map[] else parsed.value;
      var o := new JSonObject.FromMap(props);
      return Ok(o);
    }

    /** toString(): each entry in the map's order, a comma after every entry
        but the last, all inside braces. */
    method ToString(order: KeyOrder) returns (r: string)
      requires ValidOrder(order)
      ensures r == ObjectText(properties, order)
    {
      var keys := order(properties.Keys);
      OrderedKeysIn(properties, order);
      ghost var texts := EntryTexts(properties, keys, order);
      var data := "{";
      var i := 0;
      while i < |keys|
        invariant 0 <= i <= |keys|
        invariant data == "{" + Join(texts[..i], ",") + (if 0 < i < |keys| then "," else "")
      {
        var entry := EntryString(keys[i], properties[keys[i]], order);
        EntryTextAt(properties, keys, order, i);
        JoinAppended("{", texts, i, ",", data);
        data := data + entry;
        if i + 1 != |keys| {
          data := data + ",";
        }
        i := i + 1;
      }
      assert texts[..|keys|] == texts;
      data := data + "}";
      return data;
    }

    /** getName(v): a name whose value equals `v`, the first one the map
        enumerates; none when no value does. */
    method GetName(v: Value) returns (r: Option<string>)
      ensures r.Some? ==> r.value in properties && ValueEquals(properties[r.value], v)
      ensures r.None? <==> forall k :: k in properties ==> !ValueEquals(properties[k], v)
    {
      var rest := properties.Keys;
      while rest != {}
        invariant rest <= properties.Keys
        invariant forall k :: k in properties && k !in rest ==> !ValueEquals(properties[k], v)
        decreases |rest|
      {
        var k :| k in rest;
        if ValueEquals(properties[k], v) {
          return Some(k);
        }
        rest := rest - {k};
      }
      return None;
    }

    /** getValue(name): the value stored under `name`, or none. */
    method GetValue(name: string) returns (r: Option<Value>)
      ensures r.Some? <==> name in properties
      ensures r.Some? ==> r.value == properties[name]
    {
      var rest := properties.Keys;
      while rest != {}
        invariant rest <= properties.Keys
        invariant name in properties ==> name in rest
        decreases |rest|
      {
        var k :| k in rest;
        if k == name {
          return Some(properties[k]);
        }
        rest := rest - {k};
      }
      return None;
    }

    /** getDefaultValue(name, d): the stored value, or `d` when there is none. */
    method GetDefaultValue(name: string, d: Value) returns (r: Value)
      ensures name in properties ==> r == properties[name]
      ensures name !in properties ==> r == d
    {
      var v := GetValue(name);
      r := if v.None? then d else v.value;
    }

    /** addName(name): the name maps to the Null marker. */
    method AddName(name: string)
      modifies this
      ensures properties == old(properties)[name := Null]
    {
      properties := properties[name := Null];
    }

    /** setName(oldName, newName). */
    method SetName(oldName: string, newName: string)
      modifies this
      ensures properties == Renamed(old(properties), oldName, newName)
    {
      var oldValue := GetValue(oldName);
      if oldValue.Some? {
        properties := properties - {oldName};
        properties := properties[newName := oldValue.value];
      }
    }

    /** setName(v, newName): the first name whose value equals `v` is
        renamed; with none, nothing changes. */
    method SetNameByValue(v: Value, newName: string)
      modifies this
      ensures (forall k :: k in old(properties) ==> !ValueEquals(old(properties)[k], v)) ==> properties == old(properties)
      ensures (exists k :: k in old(properties) && ValueEquals(old(properties)[k], v)) ==>
                exists k :: k in old(properties) && ValueEquals(old(properties)[k], v)
                            && properties == Renamed(old(properties), k, newName)
    {
      var oldName := GetName(v);
      if oldName.Some? {
        properties := properties - {oldName.value};
        properties := properties[newName := v];
      }
    }

    /** setValue(oldValue, newValue): the entry getName finds for `oldValue`
        gets `newValue`; with none, Map.replace is given no name that is
        present, and nothing changes. */
    method SetValueByValue(oldValue: Value, newValue: Value)
      modifies this
      ensures (forall k :: k in old(properties) ==> !ValueEquals(old(properties)[k], oldValue)) ==> properties == old(properties)
      ensures (exists k :: k in old(properties) && ValueEquals(old(properties)[k], oldValue)) ==>
                exists k :: k in old(properties) && ValueEquals(old(properties)[k], oldValue)
                            && properties == old(properties)[k := newValue]
    {
      var name := GetName(oldValue);
      if name.Some? && name.value in properties && ValueEquals(properties[name.value], oldValue) {
        properties := properties[name.value := newValue];
      }
    }

    /** setValue(name, v). */
    method SetValue(name: string, v: Value)
      modifies this
      ensures properties == Replaced(old(properties), name, v)
    {
      if name in properties {
        properties := properties[name := v];
      }
    }

    /** addPair(name, v): a new entry, or a new value for an old one. */
    method AddPair(name: string, v: Value)
      modifies this
      ensures properties == old(properties)[name := v]
    {
      properties := properties[name := v];
    }

    /** compareTo(other): by the number of entries alone. */
    method CompareTo(other: JSonObject) returns (r: int)
      ensures r == 1 <==> |properties| > |other.properties|
      ensures r == -1 <==> |properties| < |other.properties|
      ensures r == 0 <==> |properties| == |other.properties|
    {
      if |other.properties| < |properties| {
        return 1;
      } else if |other.properties| > |properties| {
        return -1;
      } else {
        return 0;
      }
    }
  }

  /** addPair followed by getValue: the new value is found, and every other
      name keeps what it had. */
  method AddPairThenGetValue(o: JSonObject, name: string, v: Value, other: string) returns (r: Option<Value>, s: Option<Value>)
    requires other != name
    modifies o
    ensures r == Some(v)
    ensures s.Some? <==> other in old(o.properties)
    ensures s.Some? ==> s.value == old(o.properties)[other]
  {
    o.AddPair(name, v);
    r := o.GetValue(name);
    s := o.GetValue(other);
  }

  /** A String value prints in quotes, after its quoted name. */
  lemma QuotedStringEntry(name: string, s: string, order: KeyOrder)
    requires ValidOrder(order)
    ensures ObjectText(map[name := Str(s)], order) == "{\"" + name + "\":\"" + s + "\"}"
  {
    var m := map[name := Str(s)];
    var keys := order(m.Keys);
    assert Enumerates(keys, m.Keys);
    assert keys == [name] by {
      EnumerationLength(keys, m.Keys);
      assert keys[0] in m.Keys;
    }
    assert EntryTexts(m, keys, order) == [EntryText(name, Str(s), order)];
  }

  /** toString followed by new JSonObject(String) gives back an object with
      the same entries, when every value is a String and no name or text
      holds `"` or `\`. */
  method PrintThenParse(o: JSonObject, order: KeyOrder) returns (r: Outcome<JSonObject>)
    requires ValidOrder(order) && RoundTrip.FlatStrings(o.properties)
    ensures r.Ok? && fresh(r.value) && r.value.properties == o.properties
  {
    var text := o.ToString(order);
    RoundTrip.ObjectTextParsesBack(o.properties, order);
    r := JSonObject.FromText(text);
  }
}
