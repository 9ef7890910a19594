/**
  The two mutable containers of the tree API, *Dict and *Array, and the
  conversions that build them: createPlistElement, createDict (also
  NewDictFromMap) and createArray. A container stored inside another
  one is kept as the element value of its contents at that moment.
*/
module TreeContainers {
  import opened Wrappers
  import opened Errors
  import opened Library
  import opened Sink
  import opened StringOrder
  import opened TreeValues
  import opened TreeMarshal

  /** *Dict: a map and the order its keys were first set in. */
  class Dict {
    var dict: map<string, PlistElement>
    var ordering: seq<string>

    /** Each key of the map once in the ordering, and nothing else. */
    ghost predicate Valid()
      reads this
    {
      Consistent(dict, ordering)
    }

    /** The element this dict is when it is stored or marshalled. */
    function Element(): (e: PlistElement)
      reads this
      ensures e.DictElem? && e.dict == dict && e.ordering == ordering
    {
      DictElem(dict, ordering)
    }

    /** NewEmptyDict */
    constructor ()
      ensures Valid() && dict == map[] && ordering == []
    {
      dict := map[];
      ordering := [];
    }

    /**
      Set: the value is converted first, so a value that cannot be
      converted panics with the dict untouched; otherwise a new key is
      appended to the ordering, an existing key keeps its place, and the
      error returned is always nil.
    */
    method Set(key: string, value: Host) returns (r: Go<Option<Error>>)
      requires Valid()
      modifies this
      ensures Valid()
      ensures r.Panics? <==> Create(value).Panics?
      ensures r.Panics? ==> r.reason == Create(value).reason && dict == old(dict) && ordering == old(ordering)
      ensures r.Returns? ==> r.value.None?
                             && (dict, ordering) == Put(old(dict), old(ordering), key, Create(value).value)
    {
      var elem := CreatePlistElement(value);
      if elem.Panics? {
        return Panics(elem.reason);
      }
      Assign(key, elem.value);
      r := Returns(None);
    }

    /**
      The part of Set after the conversion, all that createDict's Set of
      an element it has just converted does.
    */
    method Assign(key: string, elem: PlistElement)
      requires Valid()
      modifies this
      ensures Valid()
      ensures (dict, ordering) == Put(old(dict), old(ordering), key, elem)
    {
      if key !in dict {
        ordering := ordering + [key];
      }
      dict := dict[key := elem];
    }

    /** Get: the value of the element under key and true, or nil and false. */
    method Get(key: string) returns (r: Go<Option<GoValue>>)
      ensures r == Lookup(dict, key)
      ensures key !in dict ==> r == Returns(None)
      ensures key in dict && dict[key].StringElem? ==> r == Returns(Some(Itself(dict[key])))
    {
      if key in dict {
        var x := Value(dict[key]);
        if x.Panics? {
          return Panics(x.reason);
        }
        return Returns(Some(x.value));
      }
      return Returns(None);
    }

    /** Keys: a copy of the ordering, every key of the map exactly once in the order first set. */
    method Keys() returns (keys: seq<string>)
      requires Valid()
      ensures keys == ordering
      ensures forall k :: k in keys <==> k in dict
      ensures forall i, j :: 0 <= i < j < |keys| ==> keys[i] != keys[j]
    {
      keys := ordering;
    }

    /** Dict.marshal on the writer w. */
    method Marshal(lib: Library, w: Writer) returns (r: Go<Option<Error>>)
      modifies w
      ensures Marshalled(r, w.Out()) == MarshalElem(lib, w.failing, old(w.Out()), Element())
    {
      r := MarshalValue(lib, w, Element());
    }
  }

  /** *Array: a slice of elements updated in place. */
  class Array {
    var elements: seq<PlistElement>

    /** The element this array is when it is stored or marshalled. */
    function Element(): (e: PlistElement)
      reads this
      ensures e.ArrayElem? && e.elements == elements
    {
      ArrayElem(elements)
    }

    /** The zero Array, &Array{}. */
    constructor ()
      ensures elements == []
    {
      elements := [];
    }

    /** The Array createArray makes before it fills it: length nil elements. */
    constructor Sized(length: nat)
      ensures |elements| == length && forall i :: 0 <= i < length ==> elements[i] == NilElem
    {
      elements := seq(length, _ => NilElem);
    }

    /** Get: the value of the element at index; an index outside the slice panics. */
    method Get(index: int) returns (r: Go<GoValue>)
      ensures r == ElementAt(elements, index)
      ensures !(0 <= index < |elements|) ==> r == Panics(IndexOutOfRange)
    {
      if index < 0 || index >= |elements| {
        return Panics(IndexOutOfRange);
      }
      r := TreeValues.Value(elements[index]);
    }

    /** Append: the converted value becomes the new last element; the others stay. */
    method Append(value: Host) returns (r: Go<()>)
      modifies this
      ensures r.Panics? <==> Create(value).Panics?
      ensures r.Panics? ==> r.reason == Create(value).reason && elements == old(elements)
      ensures r.Returns? ==> elements == old(elements) + [Create(value).value]
    {
      var elem := CreatePlistElement(value);
      if elem.Panics? {
        return Panics(elem.reason);
      }
      elements := elements + [elem.value];
      r := Returns(());
    }

    /**
      Set: the value is converted first, then stored at index, which
      must lie in the slice; only that index changes.
    */
    method Set(index: int, value: Host) returns (r: Go<()>)
      modifies this
      ensures Create(value).Panics? ==> r == Panics(Create(value).reason) && elements == old(elements)
      ensures Create(value).Returns? ==>
                (r.Panics? <==> Replace(old(elements), index, Create(value).value).Panics?)
                && (r.Panics? ==> r.reason == IndexOutOfRange && elements == old(elements))
                && (r.Returns? ==> elements == Replace(old(elements), index, Create(value).value).value)
    {
      var elem := CreatePlistElement(value);
      if elem.Panics? {
        return Panics(elem.reason);
      }
      if index < 0 || index >= |elements| {
        return Panics(IndexOutOfRange);
      }
      elements := elements[index := elem.value];
      r := Returns(());
    }

    /** Array.value: a fresh slice holding the stored elements in order. */
    method Value() returns (r: GoValue)
      ensures TreeValues.Value(Element()) == Returns(r)
      ensures r.Slice? && |r.elements| == |elements|
    {
      var copy: seq<PlistElement> := [];
      for i := 0 to |elements|
        invariant copy == elements[..i]
      {
        copy := copy + [elements[i]];
      }
      assert elements[..|elements|] == elements;
      r := Slice(copy);
    }

    /** Array.marshal on the writer w. */
    method Marshal(lib: Library, w: Writer) returns (r: Go<Option<Error>>)
      modifies w
      ensures Marshalled(r, w.Out()) == MarshalElem(lib, w.failing, old(w.Out()), Element())
    {
      r := MarshalValue(lib, w, Element());
    }
  }

  /** createPlistElement */
  method CreatePlistElement(v: Host) returns (r: Go<PlistElement>)
    ensures r == Create(v)
    decreases v, 1
  {
    match v
    case HNil => r := Returns(NilElem);
    case HElement(e) => r := Returns(e);
    case HTime => r := Panics(DatesUnsupported);
    case HBytes => r := Panics(DataUnsupported);
    case HString(s) => r := Returns(StringElem(s));
    case HBool(b) => r := Returns(BoolElem(b));
    case HSigned(i) => r := Returns(IntElem(i, 0));
    case HUnsigned(u) => r := Returns(IntElem(0, u));
    case HFloat(f) => r := Returns(RealElem(f));
    case HMap(_) =>
      var d := CreateDict(v);
      r := if d.Panics? then Panics(d.reason) else Returns(d.value.Element());
    case HNonStringKeyMap => r := Panics(KeysNotStrings);
    case HList(_) =>
      var a := CreateArray(v);
      r := if a.Panics? then Panics(a.reason) else Returns(a.value.Element());
    case HOther(t) => r := Panics(Unsupported(t));
  }

  /**
    createDict, which NewDictFromMap is: the map's keys are collected,
    sorted, and each Set with the converted value in that order.
  */
  method CreateDict(v: Host) returns (r: Go<Dict>)
    ensures r.Panics? ==> DictFrom(v) == Panics(r.reason)
    ensures r.Returns? ==> fresh(r.value) && r.value.Valid() && DictFrom(v) == Returns(r.value.Element())
    decreases v, 0
  {
    if v.HNonStringKeyMap? {
      return Panics(KeysNotStrings);
    }
    if !v.HMap? {
      return Panics(NotAMap);
    }
    var m := v.entries;
    var keys := MapKeys(m);
    var sorted := SortAll(keys);
    SortedUnique(sorted, SortedKeys(m.Keys));
    var d := new Dict();
    CreateMap(v);
    assert sorted[0..] == sorted;
    for i := 0 to |sorted|
      invariant d.Valid() && fresh(d)
      invariant Create(v) == FillDict(v, sorted[i..], d.dict, d.ordering)
    {
      var key := sorted[i];
      FillDictStep(v, sorted[i..], d.dict, d.ordering);
      var elem := CreatePlistElement(m[key]);
      if elem.Panics? {
        return Panics(elem.reason);
      }
      d.Assign(key, elem.value);
      assert sorted[i..][1..] == sorted[i + 1..];
    }
    assert sorted[|sorted|..] == [];
    r := Returns(d);
  }

  /** reflect.Value.MapKeys: every key of the map once, in some order. */
  method MapKeys(m: map<string, Host>) returns (keys: seq<string>)
    ensures forall i, j :: 0 <= i < j < |keys| ==> keys[i] != keys[j]
    ensures forall k :: k in keys <==> k in m
    ensures |keys| == |m|
  {
    keys := [];
    var rest := m.Keys;
    while rest != {}
      invariant rest <= m.Keys
      invariant forall k :: k in keys <==> k in m && k !in rest
      invariant forall i, j :: 0 <= i < j < |keys| ==> keys[i] != keys[j]
      invariant |keys| + |rest| == |m.Keys|
      decreases |rest|
    {
      var k :| k in rest;
      keys := keys + [k];
      rest := rest - {k};
    }
  }

  /** createArray: each item converted into its index, in order. */
  method CreateArray(v: Host) returns (r: Go<Array>)
    requires v.HList?
    ensures r.Panics? ==> Create(v) == Panics(r.reason)
    ensures r.Returns? ==> fresh(r.value) && Create(v) == Returns(r.value.Element())
    decreases v, 0
  {
    var length := |v.items|;
    var a := new Array.Sized(length);
    for i := 0 to length
      invariant fresh(a) && |a.elements| == length
      invariant Create(v) == FillArray(v, a.elements[..i])
    {
      var elem := CreatePlistElement(v.items[i]);
      if elem.Panics? {
        return Panics(elem.reason);
      }
      ghost var before := a.elements;
      a.elements := a.elements[i := elem.value];
      assert a.elements[..i + 1] == before[..i] + [elem.value];
    }
    assert a.elements[..length] == a.elements;
    r := Returns(a);
  }
}
