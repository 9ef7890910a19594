/**
  Runs of the tree API on the values of its own tests: the keys of a
  dict made from a map come out sorted, while keys Set one by one keep
  the order they were added in.
*/
module TreeTraces {
  import opened Wrappers
  import opened XmlTokens
  import opened Strconv
  import opened Library
  import opened Vocabulary
  import opened Sink
  import opened StringOrder
  import opened TreeValues
  import opened TreeMarshal
  import opened TreeContainers

  /** The three keys of both tests, in ascending order. */
  lemma ThreeKeysSorted()
    ensures SortedKeys({"c", "a", "b"}) == ["a", "b", "c"]
  {
    var s := ["a", "b", "c"];
    assert Less("a", "b") && Less("b", "c") && Less("a", "c");
    assert Sorted(s);
    assert |{"c", "a", "b"}| == 3;
    SortedUnique(s, SortedKeys({"c", "a", "b"}));
  }

  /** createDict of a map whose values all convert and whose keys are c, a and b. */
  lemma ThreeKeyMap(m: map<string, Host>)
    requires m.Keys == {"c", "a", "b"} && forall k :: k in m ==> Create(m[k]).Returns?
    ensures Create(HMap(m)).Returns? && Create(HMap(m)).value.DictElem?
    ensures Create(HMap(m)).value.ordering == ["a", "b", "c"]
  {
    CreateDictReturns(m);
    CreateDictSorted(m);
    ThreeKeysSorted();
  }

  /**
    NewDictFromMap of a map from "c", "a" and "b" to integers, as in
    the first test, sorts the keys whatever order the map gives them in.
  */
  method KeysFromMapSorted(m: map<string, Host>) returns (keys: seq<string>)
    requires m.Keys == {"c", "a", "b"} && forall k :: k in m ==> m[k].HSigned?
    ensures keys == ["a", "b", "c"]
  {
    ThreeKeyMap(m);
    var r := CreateDict(HMap(m));
    keys := r.value.Keys();
  }

  /** Keys Set one by one keep the order they were first set in. */
  method KeysAddedInOrder() returns (keys: seq<string>, e: PlistElement)
    ensures keys == ["c", "b", "a"]
    ensures e == DictElem(map["c" := IntElem(1, 0), "b" := IntElem(2, 0), "a" := IntElem(3, 0)], ["c", "b", "a"])
  {
    var d := new Dict();
    SignedConverts(1);
    SignedConverts(2);
    SignedConverts(3);
    ThreePuts("c", "b", "a", IntElem(1, 0), IntElem(2, 0), IntElem(3, 0));
    var _ := d.Set("c", HSigned(1));
    var _ := d.Set("b", HSigned(2));
    var _ := d.Set("a", HSigned(3));
    keys := d.Keys();
    e := d.Element();
  }

  /** Putting three different keys into an empty dict, in that order. */
  lemma ThreePuts(k1: string, k2: string, k3: string, e1: PlistElement, e2: PlistElement, e3: PlistElement)
    requires k1 != k2 && k1 != k3 && k2 != k3
    ensures var p1 := Put(map[], [], k1, e1);
            var p2 := Put(p1.0, p1.1, k2, e2);
            Put(p2.0, p2.1, k3, e3) == (map[k1 := e1, k2 := e2, k3 := e3], [k1, k2, k3])
  {
    var m0: map<string, PlistElement> := map[];
    var p1 := Put(m0, [], k1, e1);
    assert k1 !in m0;
    assert p1.0 == m0[k1 := e1] && p1.1 == [] + [k1];
    assert p1.1 == [k1];
    assert k2 !in p1.0;
    var p2 := Put(p1.0, p1.1, k2, e2);
    assert p2.0 == m0[k1 := e1][k2 := e2] && p2.1 == [k1] + [k2];
    assert p2.1 == [k1, k2];
    assert k3 !in p2.0;
    var p3 := Put(p2.0, p2.1, k3, e3);
    assert p3.0 == m0[k1 := e1][k2 := e2][k3 := e3] && p3.1 == [k1, k2] + [k3];
    assert p3.1 == [k1, k2, k3];
  }

  /** A signed integer converts to an integer element and never panics. */
  lemma SignedConverts(i: Int64)
    ensures Create(HSigned(i)) == Returns(IntElem(i, 0))
  {
  }
}
