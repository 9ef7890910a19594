/**
  The values of the in-memory tree API (package plist): the plist
  elements, the Go values they are made from, createPlistElement with
  createDict and createArray, the value method of each element, and
  getOrCreateRootElement. A *Dict or *Array inside another element is
  represented by its contents at the time it was stored.
*/
module TreeValues {
  import opened Wrappers
  import opened Strconv
  import opened Library
  import opened StringOrder

  type Int64 = i: int | MinInt64 <= i <= MaxInt64
  type Uint64 = u: int | 0 <= u <= MaxUint64

  /** A plistElement: the interface value, nil included. */
  datatype PlistElement =
      /** a nil plistElement */
    | NilElem
      /** plistInt; a zero field counts as unset */
    | IntElem(signed: Int64, unsigned: Uint64)
      /** plistBool */
    | BoolElem(truth: bool)
      /** plistString */
    | StringElem(text: string)
      /** plistReal */
    | RealElem(number: Float64)
      /** *Dict: its map and its key ordering */
    | DictElem(dict: map<string, PlistElement>, ordering: seq<string>)
      /** *Array: its slice */
    | ArrayElem(elements: seq<PlistElement>)

  /** The panics of the tree API, one per message or runtime error. */
  datatype TreePanic =
      /** a method called on a nil plistElement */
    | NilElementCall
      /** Dict.value assigning into its nil map */
    | NilMapWrite
      /** "date plist values not supported" */
    | DatesUnsupported
      /** "data plist values not supported" */
    | DataUnsupported
      /** "%s plist values not supported" */
    | Unsupported(typeName: string)
      /** "cannot create dict from" */
    | NotAMap
      /** "plist dict keys must be strings" */
    | KeysNotStrings
      /** "root element must be a *Dict or *Array" */
    | RootNotContainer
      /** an index outside the slice of an Array */
    | IndexOutOfRange

  /** What a Go call does: return a value or panic. */
  datatype Go<T> = Returns(value: T) | Panics(reason: TreePanic)

  /**
    A value given as interface{} to Set, Append, Marshal or
    NewDictFromMap, by what the conversion looks at: its dynamic type
    first, then its reflect.Kind.
  */
  datatype Host =
    | HNil
      /** a value that already is a plistElement, *Dict and *Array included */
    | HElement(element: PlistElement)
      /** time.Time or *time.Time */
    | HTime
      /** []byte or *bytes.Buffer */
    | HBytes
    | HString(s: string)
    | HBool(b: bool)
      /** a value of kind Int, Int8, Int16, Int32 or Int64 */
    | HSigned(i: Int64)
      /** a value of kind Uint, Uint8, Uint16, Uint32 or Uint64 */
    | HUnsigned(u: Uint64)
      /** a value of kind Float32 or Float64, as a float64 */
    | HFloat(f: Float64)
      /** a map with string keys */
    | HMap(entries: map<string, Host>)
      /** a map whose keys are not strings */
    | HNonStringKeyMap
      /** a slice or an array */
    | HList(items: seq<Host>)
      /** a value of any other type, by the name of its type */
    | HOther(typeName: string)

  /** The keys of a dict and its ordering agree: each key once, in some order. */
  predicate Consistent(dict: map<string, PlistElement>, ordering: seq<string>)
  {
    (forall i, j :: 0 <= i < j < |ordering| ==> ordering[i] != ordering[j])
    && (forall k :: k in ordering ==> k in dict)
    && (forall k :: k in dict ==> k in ordering)
  }

  /**
    Dict.Set once the value is converted: a new key goes to the end of
    the ordering, a key already present keeps its place and gets the new
    value.
  */
  function Put(dict: map<string, PlistElement>, ordering: seq<string>, key: string, e: PlistElement)
    : (r: (map<string, PlistElement>, seq<string>))
    ensures Consistent(dict, ordering) ==> Consistent(r.0, r.1)
    ensures key in r.0 && r.0[key] == e
    ensures forall k :: k != key ==> (k in r.0 <==> k in dict)
    ensures forall k :: k in dict && k != key ==> r.0[k] == dict[k]
    ensures |r.1| == if key in dict then |ordering| else |ordering| + 1
    ensures r.1[..|ordering|] == ordering
    ensures key !in dict ==> r.1[|ordering|] == key
  {
    (dict[key := e], if key in dict then ordering else ordering + [key])
  }

  /**
    Dict.Get on the map of a dict: the value of the element under key
    and true, or nil and false for a missing key.
  */
  function Lookup(dict: map<string, PlistElement>, key: string): Go<Option<GoValue>>
  {
    if key !in dict then Returns(None)
    else
      match Value(dict[key])
      case Panics(p) => Panics(p)
      case Returns(x) => Returns(Some(x))
  }

  /**
    After a Set of key, Get of key gives the value of the new element,
    and Get of any other key gives what it gave before.
  */
  lemma LookupAfterPut(dict: map<string, PlistElement>, ordering: seq<string>, key: string, e: PlistElement,
                       other: string)
    ensures Lookup(Put(dict, ordering, key, e).0, key)
            == (if Value(e).Panics? then Panics(Value(e).reason) else Returns(Some(Value(e).value)))
    ensures other != key ==> Lookup(Put(dict, ordering, key, e).0, other) == Lookup(dict, other)
  {
  }

  /** Array.Get: the value of the element at index, which must lie in the slice. */
  function ElementAt(elements: seq<PlistElement>, index: int): Go<GoValue>
  {
    if 0 <= index < |elements| then Value(elements[index]) else Panics(IndexOutOfRange)
  }

  /** The index assignment of Array.Set once the value is converted. */
  function Replace(elements: seq<PlistElement>, index: int, e: PlistElement): (r: Go<seq<PlistElement>>)
    ensures r.Returns? <==> 0 <= index < |elements|
    ensures r.Returns? ==> |r.value| == |elements| && r.value[index] == e
                           && forall j :: 0 <= j < |elements| && j != index ==> r.value[j] == elements[j]
  {
    if 0 <= index < |elements| then Returns(elements[index := e]) else Panics(IndexOutOfRange)
  }

  /**
    Append puts the new element last: Get of the new last index gives
    its value, and every earlier index gives what it gave before.
  */
  lemma ElementAtAfterAppend(elements: seq<PlistElement>, e: PlistElement, index: int)
    ensures ElementAt(elements + [e], |elements|) == Value(e)
    ensures index != |elements| ==> ElementAt(elements + [e], index) == ElementAt(elements, index)
  {
  }

  /** After Set(index, v), Get(index) gives the new element's value and every other index is as before. */
  lemma ElementAtAfterReplace(elements: seq<PlistElement>, index: int, e: PlistElement, other: int)
    requires Replace(elements, index, e).Returns?
    ensures ElementAt(Replace(elements, index, e).value, index) == Value(e)
    ensures other != index ==> ElementAt(Replace(elements, index, e).value, other) == ElementAt(elements, other)
  {
  }

  /**
    createPlistElement. nil stays nil; an element is kept; dates and
    byte data panic; strings, booleans, signed and unsigned integers and
    floats become the matching element; a map becomes a dict (createDict)
    and a slice or array an array (createArray); anything else panics.
  */
  ghost function Create(v: Host): (r: Go<PlistElement>)
    decreases v, 1
  {
    match v
    case HNil => Returns(NilElem)
    case HElement(e) => Returns(e)
    case HTime => Panics(DatesUnsupported)
    case HBytes => Panics(DataUnsupported)
    case HString(s) => Returns(StringElem(s))
    case HBool(b) => Returns(BoolElem(b))
    case HSigned(i) => Returns(IntElem(i, 0))
    case HUnsigned(u) => Returns(IntElem(0, u))
    case HFloat(f) => Returns(RealElem(f))
    case HMap(m) => FillDict(v, SortedKeys(m.Keys), map[], [])
    case HNonStringKeyMap => Panics(KeysNotStrings)
    case HList(_) => FillArray(v, [])
    case HOther(t) => Panics(Unsupported(t))
  }

  /**
    The loop of createDict from the key keys[0] on: each value is
    converted and Set into the dict, until a conversion panics.
  */
  ghost function FillDict(v: Host, keys: seq<string>, dict: map<string, PlistElement>, ordering: seq<string>)
    : Go<PlistElement>
    requires v.HMap? && forall k :: k in keys ==> k in v.entries
    decreases v, 0, |keys|
  {
    if keys == [] then Returns(DictElem(dict, ordering))
    else
      match Create(v.entries[keys[0]])
      case Panics(p) => Panics(p)
      case Returns(e) =>
        var (d2, o2) := Put(dict, ordering, keys[0], e);
        FillDict(v, keys[1..], d2, o2)
  }

  /** createDict's conversion of a map runs the loop over its sorted keys. */
  lemma CreateMap(v: Host)
    requires v.HMap?
    ensures Create(v) == FillDict(v, SortedKeys(v.entries.Keys), map[], [])
  {
  }

  /** One turn of createDict's loop: the first key's value panics, or is Set and the loop goes on. */
  lemma FillDictStep(v: Host, keys: seq<string>, dict: map<string, PlistElement>, ordering: seq<string>)
    requires v.HMap? && (forall k :: k in keys ==> k in v.entries) && keys != []
    ensures Create(v.entries[keys[0]]).Panics? ==>
              FillDict(v, keys, dict, ordering) == Panics(Create(v.entries[keys[0]]).reason)
    ensures Create(v.entries[keys[0]]).Returns? ==>
              var (d2, o2) := Put(dict, ordering, keys[0], Create(v.entries[keys[0]]).value);
              FillDict(v, keys, dict, ordering) == FillDict(v, keys[1..], d2, o2)
  {
  }

  /** The loop of createArray from index |done| on. */
  ghost function FillArray(v: Host, done: seq<PlistElement>): Go<PlistElement>
    requires v.HList? && |done| <= |v.items|
    decreases v, 0, |v.items| - |done|
  {
    if |done| == |v.items| then Returns(ArrayElem(done))
    else
      match Create(v.items[|done|])
      case Panics(p) => Panics(p)
      case Returns(e) => FillArray(v, done + [e])
  }

  /** What the value method of an element returns. */
  datatype GoValue =
      /** the int64 of a plistInt */
    | Signed(i: Int64)
      /** the uint64 of a plistInt */
    | Unsigned(u: Uint64)
      /** the plistBool, plistString or plistReal itself */
    | Itself(element: PlistElement)
      /** the nil map[string]interface{} of Dict.value */
    | NilMap
      /** the []interface{} of Array.value, holding the elements themselves */
    | Slice(elements: seq<PlistElement>)

  /**
    The value method. A plistInt reports its signed field when that is
    nonzero and its unsigned field otherwise. Dict.value assigns into a
    map it never made, so it panics unless the dict is empty.
  */
  function Value(e: PlistElement): (r: Go<GoValue>)
    ensures e.IntElem? ==> r.Returns? && (r.value.Signed? <==> e.signed != 0)
    ensures e.IntElem? && r.value.Unsigned? ==> r.value.u == e.unsigned
    ensures e.DictElem? ==> (r.Returns? <==> e.dict == map[])
    ensures r.Panics? ==> e.NilElem? || e.DictElem?
  {
    match e
    case NilElem => Panics(NilElementCall)
    case IntElem(s, u) => Returns(if s != 0 then Signed(s) else Unsigned(u))
    case DictElem(d, _) => if d == map[] then Returns(NilMap) else Panics(NilMapWrite)
    case ArrayElem(es) => Returns(Slice(es))
    case _ => Returns(Itself(e))
  }

  /**
    createDict, which NewDictFromMap calls: a non-map panics, a map
    whose keys are not strings panics, and a map is converted.
  */
  ghost function DictFrom(v: Host): (r: Go<PlistElement>)
    ensures v.HMap? || v.HNonStringKeyMap? ==> r == Create(v)
    ensures r.Returns? ==> r.value.DictElem?
  {
    match v
    case HMap(_) =>
      CreateMap(v);
      FillDictShape(v, SortedKeys(v.entries.Keys), map[], []);
      Create(v)
    case HNonStringKeyMap => Panics(KeysNotStrings)
    case _ => Panics(NotAMap)
  }

  /** The elements Marshal accepts as the root: none, a *Dict or an *Array. */
  predicate RootKind(e: PlistElement)
  {
    e.NilElem? || e.DictElem? || e.ArrayElem?
  }

  /** The check getOrCreateRootElement makes of an element. */
  function RootOf(e: PlistElement): (r: Go<PlistElement>)
    ensures r.Returns? <==> RootKind(e)
    ensures r.Returns? ==> r.value == e
    ensures r.Panics? ==> r.reason == RootNotContainer
  {
    if RootKind(e) then Returns(e) else Panics(RootNotContainer)
  }

  /**
    getOrCreateRootElement: nil gives no root, an element is checked,
    and any other value is converted first and the result checked the
    same way.
  */
  ghost function Root(v: Host): (r: Go<PlistElement>)
    ensures r.Returns? ==> RootKind(r.value)
  {
    match v
    case HNil => Returns(NilElem)
    case HElement(e) => RootOf(e)
    case _ =>
      match Create(v)
      case Panics(p) => Panics(p)
      case Returns(e) => RootOf(e)
  }

  /*
   * Conversion of containers.
   */

  /** keys without its first element is still sorted, and holds no key equal to the first. */
  lemma SortedTail(keys: seq<string>)
    requires Sorted(keys) && keys != []
    ensures Sorted(keys[1..])
    ensures keys[0] !in keys[1..]
  {
    forall i, j | 0 <= i < j < |keys[1..]|
      ensures Less(keys[1..][i], keys[1..][j])
    {
      assert keys[1..][i] == keys[i + 1] && keys[1..][j] == keys[j + 1];
    }
    if keys[0] in keys[1..] {
      var j :| 0 <= j < |keys[1..]| && keys[1..][j] == keys[0];
      assert Less(keys[0], keys[j + 1]);
      LessIrreflexive(keys[0]);
      assert false;
    }
  }

  /** The loop of createDict, when it finishes, gives a dict. */
  lemma {:induction false} FillDictShape(v: Host, keys: seq<string>, dict: map<string, PlistElement>,
                                         ordering: seq<string>)
    requires v.HMap? && (forall k :: k in keys ==> k in v.entries)
    ensures FillDict(v, keys, dict, ordering).Returns? ==> FillDict(v, keys, dict, ordering).value.DictElem?
    decreases |keys|
  {
    if keys != [] && Create(v.entries[keys[0]]).Returns? {
      var (d2, o2) := Put(dict, ordering, keys[0], Create(v.entries[keys[0]]).value);
      FillDictShape(v, keys[1..], d2, o2);
    }
  }

  /** The loop of createDict finishes exactly when no value's conversion panics. */
  lemma {:induction false} FillDictReturns(v: Host, keys: seq<string>, dict: map<string, PlistElement>,
                                           ordering: seq<string>)
    requires v.HMap? && (forall k :: k in keys ==> k in v.entries)
    ensures FillDict(v, keys, dict, ordering).Returns?
            <==> forall k :: k in keys ==> Create(v.entries[k]).Returns?
    decreases |keys|
  {
    if keys != [] {
      match Create(v.entries[keys[0]])
      case Panics(p) =>
      case Returns(e) =>
        var (d2, o2) := Put(dict, ordering, keys[0], e);
        FillDictReturns(v, keys[1..], d2, o2);
        assert forall k :: k in keys <==> k == keys[0] || k in keys[1..];
    }
  }

  /**
    createDict from the key keys[0] on, with keys sorted and none of
    them in the dict yet: the keys are appended to the ordering in turn,
    and every value is the conversion of the map's value.
  */
  lemma {:induction false} FillDictAppends(v: Host, keys: seq<string>, dict: map<string, PlistElement>,
                                           ordering: seq<string>)
    requires v.HMap? && (forall k :: k in keys ==> k in v.entries)
    requires Sorted(keys) && forall k :: k in keys ==> k !in dict
    requires forall k :: k in dict ==> k in v.entries && Create(v.entries[k]) == Returns(dict[k])
    ensures var r := FillDict(v, keys, dict, ordering);
            r.Returns? ==> r.value.DictElem? && r.value.ordering == ordering + keys
                           && (forall k :: k in r.value.dict <==> k in dict || k in keys)
                           && forall k :: k in r.value.dict ==> k in v.entries && Create(v.entries[k]) == Returns(r.value.dict[k])
    decreases |keys|
  {
    if keys == [] {
      assert ordering + keys == ordering;
    } else {
      var k := keys[0];
      match Create(v.entries[k])
      case Panics(p) =>
      case Returns(e) =>
        var (d2, o2) := Put(dict, ordering, k, e);
        assert o2 == ordering + [k] && d2 == dict[k := e];
        SortedTail(keys);
        FillDictAppends(v, keys[1..], d2, o2);
        assert ordering + [k] + keys[1..] == ordering + keys;
        assert forall x :: x in keys <==> x == k || x in keys[1..];
    }
  }

  /** A sorted ordering holding exactly the keys of a dict agrees with it. */
  lemma SortedConsistent(dict: map<string, PlistElement>, ordering: seq<string>)
    requires Sorted(ordering)
    requires forall k :: k in ordering <==> k in dict
    ensures Consistent(dict, ordering)
  {
    SortedDistinct(ordering);
  }

  /** createDict panics exactly when the conversion of one of the map's values does. */
  lemma CreateDictReturns(m: map<string, Host>)
    ensures Create(HMap(m)).Returns? <==> forall k :: k in m ==> Create(m[k]).Returns?
  {
    CreateMap(HMap(m));
    FillDictReturns(HMap(m), SortedKeys(m.Keys), map[], []);
  }

  /**
    createDict puts the map's keys in ascending order, and each value is the conversion of the map's value.
  */
  lemma CreateDictSorted(m: map<string, Host>)
    ensures var r := Create(HMap(m));
            r.Returns? ==> r.value.DictElem? && r.value.ordering == SortedKeys(m.Keys)
                           && r.value.dict.Keys == m.Keys
                           && forall k :: k in m ==> Create(m[k]) == Returns(r.value.dict[k])
  {
    var v, keys := HMap(m), SortedKeys(m.Keys);
    CreateMap(v);
    FillDictAppends(v, keys, map[], []);
    var r := Create(v);
    if r.Returns? {
      var d := r.value;
      assert d.ordering == keys by {
        assert [] + keys == keys;
      }
      assert d.dict.Keys == m.Keys by {
        forall k
          ensures k in d.dict <==> k in m
        {
          assert k in keys <==> k in m.Keys;
        }
      }
    }
  }

  /** A dict made by createDict has each of its keys once in its ordering. */
  lemma CreateDictConsistent(m: map<string, Host>)
    requires Create(HMap(m)).Returns?
    ensures Create(HMap(m)).value.DictElem?
    ensures Consistent(Create(HMap(m)).value.dict, Create(HMap(m)).value.ordering)
  {
    CreateDictSorted(m);
    var r := Create(HMap(m)).value;
    SortedConsistent(r.dict, r.ordering);
  }

  /**
    createArray from index |done| on: the elements so far are kept and
    the rest are the conversions of the remaining items, in order; the
    first item whose conversion panics decides the panic.
  */
  lemma {:induction false} FillArrayKeeps(v: Host, done: seq<PlistElement>)
    requires v.HList? && |done| <= |v.items|
    ensures var r := FillArray(v, done);
            r.Returns? <==> forall i :: |done| <= i < |v.items| ==> Create(v.items[i]).Returns?
    ensures var r := FillArray(v, done);
            r.Returns? ==> r.value.ArrayElem? && |r.value.elements| == |v.items|
                           && r.value.elements[..|done|] == done
                           && forall i :: |done| <= i < |v.items| ==> Create(v.items[i]) == Returns(r.value.elements[i])
    ensures var r := FillArray(v, done);
            r.Panics? ==> (exists i :: |done| <= i < |v.items| && Create(v.items[i]) == r
                                     && forall j :: |done| <= j < i ==> Create(v.items[j]).Returns?)
    decreases |v.items| - |done|
  {
    if |done| < |v.items| {
      match Create(v.items[|done|])
      case Panics(p) =>
      case Returns(e) =>
        FillArrayKeeps(v, done + [e]);
        var r := FillArray(v, done);
        if r.Returns? {
          assert r.value.elements[..|done|] == (r.value.elements[..|done| + 1])[..|done|];
        }
    }
  }

  /**
    createArray keeps the length and the order of the slice, each
    element the conversion of the item at its index; the first item
    whose conversion panics decides the panic.
  */
  lemma CreateArrayInOrder(items: seq<Host>)
    ensures Create(HList(items)).Returns? <==> forall i :: 0 <= i < |items| ==> Create(items[i]).Returns?
    ensures var r := Create(HList(items));
            r.Returns? ==> r.value.ArrayElem? && |r.value.elements| == |items|
                           && forall i :: 0 <= i < |items| ==> Create(items[i]) == Returns(r.value.elements[i])
    ensures var r := Create(HList(items));
            r.Panics? ==> (exists i :: 0 <= i < |items| && Create(items[i]) == r
                                     && forall j :: 0 <= j < i ==> Create(items[j]).Returns?)
  {
    FillArrayKeeps(HList(items), []);
  }

  /*
   * Reading back.
   */

  /**
    What value returns for a stored Go value: a string, a bool or a
    float comes back as its element, an int as its signed field unless
    it is zero, a uint as its unsigned field. A signed zero is therefore
    reported as an unsigned zero.
  */
  lemma ValueOfConverted(v: Host)
    requires v.HString? || v.HBool? || v.HSigned? || v.HUnsigned? || v.HFloat?
    ensures Create(v).Returns?
    ensures v.HString? ==> Value(Create(v).value) == Returns(Itself(StringElem(v.s)))
    ensures v.HBool? ==> Value(Create(v).value) == Returns(Itself(BoolElem(v.b)))
    ensures v.HFloat? ==> Value(Create(v).value) == Returns(Itself(RealElem(v.f)))
    ensures v.HSigned? ==> Value(Create(v).value) == Returns(if v.i != 0 then Signed(v.i) else Unsigned(0))
    ensures v.HUnsigned? ==> Value(Create(v).value) == Returns(Unsigned(v.u))
  {
  }

  /** An element handed back to the conversion is kept as it is. */
  lemma CreateKeepsElements(e: PlistElement)
    ensures Create(HElement(e)) == Returns(e)
  {
  }

  /*
   * The root.
   */

  /**
    getOrCreateRootElement: a *Dict or *Array passes through, any other
    element panics, a map becomes a dict root and a slice an array root,
    and a string, bool, number or float is refused as a root once
    converted.
  */
  lemma RootRules(v: Host)
    ensures v.HElement? ==> Root(v) == RootOf(v.element)
    ensures v.HMap? || v.HList? ==> Root(v) == Create(v)
    ensures v.HString? || v.HBool? || v.HSigned? || v.HUnsigned? || v.HFloat?
            ==> Root(v) == Panics(RootNotContainer)
    ensures v.HTime? ==> Root(v) == Panics(DatesUnsupported)
    ensures v.HBytes? ==> Root(v) == Panics(DataUnsupported)
  {
    match v
    case HMap(m) =>
      CreateDictReturns(m);
      if Create(v).Returns? {
        CreateDictSorted(m);
      }
    case HList(items) =>
      CreateArrayInOrder(items);
    case _ =>
  }
}
