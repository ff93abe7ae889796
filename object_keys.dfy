/**
 * The order in which `Object.values` visits the own properties of a plain
 * object whose keys were written as integers.
 *
 * Section 10.1.11.1 of ECMA-262 (OrdinaryOwnPropertyKeys) lists first every
 * key that is an array index, in ascending numeric order, and then every
 * other string key in the order the properties were created.  An array index
 * is an integer k with 0 <= k < 2^32 - 1; any other integer (a negative one,
 * or one of 2^32 - 1 and above) becomes a plain string key.
 */
module ObjectKeys {

  const ARRAY_INDEX_BOUND: int := 0xFFFF_FFFF

  predicate IsArrayIndex(k: int) {
    0 <= k < ARRAY_INDEX_BOUND
  }

  predicate Ascending(s: seq<int>) {
    forall i, j :: 0 <= i < j < |s| ==> s[i] <= s[j]
  }

  /** No value occurs twice in `s`. */
  predicate Distinct<T(==)>(s: seq<T>) {
    forall i, j :: 0 <= i < j < |s| ==> s[i] != s[j]
  }

  lemma DistinctTail<T>(s: seq<T>)
    requires s != []
    ensures Distinct(s) ==> Distinct(s[1..]) && s[0] !in s[1..]
  {
    if Distinct(s) {
      forall k | 0 <= k < |s[1..]| ensures s[1..][k] != s[0] {
        assert s[1..][k] == s[k + 1];
      }
    }
  }

  lemma DistinctCons<T>(x: T, s: seq<T>)
    ensures Distinct(s) && x !in s ==> Distinct([x] + s)
  {
    if Distinct(s) && x !in s {
      var r := [x] + s;
      forall i, j | 0 <= i < j < |r| ensures r[i] != r[j] {
        assert r[j] == s[j - 1];
        if i > 0 {
          assert r[i] == s[i - 1];
        }
      }
    }
  }

  /** A sequence without duplicates holds each value once or not at all. */
  lemma {:induction false} DistinctCount<T>(s: seq<T>, x: T)
    requires Distinct(s)
    ensures multiset(s)[x] == if x in s then 1 else 0
  {
    if s != [] {
      assert s == [s[0]] + s[1..];
      DistinctTail(s);
      DistinctCount(s[1..], x);
    }
  }

  /** The array-index keys of `s`, in the order of `s`. */
  function IndexKeys(s: seq<int>): (r: seq<int>)
    ensures forall k :: k in r ==> IsArrayIndex(k)
  {
    if s == [] then []
    else if IsArrayIndex(s[0]) then [s[0]] + IndexKeys(s[1..])
    else IndexKeys(s[1..])
  }

  /** The keys of `s` that are not array indices, in the order of `s`. */
  function StringKeys(s: seq<int>): (r: seq<int>)
    ensures forall k :: k in r ==> !IsArrayIndex(k)
  {
    if s == [] then []
    else if IsArrayIndex(s[0]) then StringKeys(s[1..])
    else [s[0]] + StringKeys(s[1..])
  }

  /** Puts `x` into the ascending sequence `s`, before the first larger element. */
  function Insert(x: int, s: seq<int>): seq<int> {
    if s == [] then [x]
    else if x <= s[0] then [x] + s
    else [s[0]] + Insert(x, s[1..])
  }

  lemma {:induction false} InsertPermutes(x: int, s: seq<int>)
    ensures multiset(Insert(x, s)) == multiset(s) + multiset{x}
  {
    if s != [] && x > s[0] {
      InsertPermutes(x, s[1..]);
      assert s == [s[0]] + s[1..];
    }
  }

  lemma {:induction false} InsertElements(x: int, s: seq<int>)
    ensures forall y :: y in Insert(x, s) ==> y == x || y in s
  {
    if s != [] && x > s[0] {
      InsertElements(x, s[1..]);
    }
  }

  lemma {:induction false} InsertAscending(x: int, s: seq<int>)
    requires Ascending(s)
    ensures Ascending(Insert(x, s))
  {
    if s != [] && x > s[0] {
      var rest := Insert(x, s[1..]);
      InsertAscending(x, s[1..]);
      InsertElements(x, s[1..]);
      forall k | 0 <= k < |rest| ensures s[0] <= rest[k] {
        assert rest[k] in rest;
        if rest[k] != x {
          var m :| 0 <= m < |s[1..]| && s[1..][m] == rest[k];
          assert s[0] <= s[m + 1];
        }
      }
      var r := [s[0]] + rest;
      forall i, j | 0 <= i < j < |r| ensures r[i] <= r[j] {
        assert r[j] == rest[j - 1];
        if i > 0 {
          assert r[i] == rest[i - 1];
        }
      }
    }
  }

  /** Insertion sort into ascending order. */
  function SortAscending(s: seq<int>): (r: seq<int>)
    ensures Ascending(r)
    ensures multiset(r) == multiset(s)
    ensures |r| == |s|
  {
    if s == [] then []
    else
      assert s == [s[0]] + s[1..];
      InsertPermutes(s[0], SortAscending(s[1..]));
      InsertAscending(s[0], SortAscending(s[1..]));
      Insert(s[0], SortAscending(s[1..]))
  }

  /**
   * The keys of an object, as OrdinaryOwnPropertyKeys returns them, given
   * the keys in the order their properties were created.
   */
  function OwnPropertyKeys(creationOrder: seq<int>): seq<int> {
    SortAscending(IndexKeys(creationOrder)) + StringKeys(creationOrder)
  }

  lemma {:induction false} SplitKeysPermutes(s: seq<int>)
    ensures multiset(IndexKeys(s)) + multiset(StringKeys(s)) == multiset(s)
  {
    if s != [] {
      SplitKeysPermutes(s[1..]);
      assert s == [s[0]] + s[1..];
    }
  }

  lemma DistinctByMultiset(s: seq<int>, t: seq<int>)
    requires multiset(s) == multiset(t)
    requires Distinct(t)
    ensures Distinct(s)
  {
    forall i, j | 0 <= i < j < |s| ensures s[i] != s[j] {
      if s[i] == s[j] {
        var x := s[i];
        assert multiset(s[..j]) + multiset(s[j..]) == multiset(s) by { assert s == s[..j] + s[j..]; }
        assert x in multiset(s[..j]) by { assert s[..j][i] == x; }
        assert x in multiset(s[j..]) by { assert s[j..][0] == x; }
        assert multiset(s)[x] >= 2;
        DistinctCount(t, x);
      }
    }
  }

  /** Every created key is emitted, and only those. */
  lemma OwnPropertyKeysSameKeys(creationOrder: seq<int>)
    ensures multiset(OwnPropertyKeys(creationOrder)) == multiset(creationOrder)
    ensures forall k :: k in OwnPropertyKeys(creationOrder) <==> k in creationOrder
  {
    SplitKeysPermutes(creationOrder);
    var keys := OwnPropertyKeys(creationOrder);
    assert multiset(keys) == multiset(SortAscending(IndexKeys(creationOrder))) + multiset(StringKeys(creationOrder));
    forall k ensures k in keys <==> k in creationOrder {
      assert k in keys <==> k in multiset(keys);
    }
  }

  /**
   * The emitted keys are exactly the created keys, each once: array indices
   * first and ascending, then the other keys in creation order.
   */
  lemma OwnPropertyKeysOrder(creationOrder: seq<int>)
    requires Distinct(creationOrder)
    ensures var keys := OwnPropertyKeys(creationOrder);
      && multiset(keys) == multiset(creationOrder)
      && Distinct(keys)
      && (forall i, j :: 0 <= i < j < |keys| && IsArrayIndex(keys[j]) ==>
            IsArrayIndex(keys[i]) && keys[i] < keys[j])
      && keys[|IndexKeys(creationOrder)|..] == StringKeys(creationOrder)
  {
    var idx := SortAscending(IndexKeys(creationOrder));
    var keys := OwnPropertyKeys(creationOrder);
    SplitKeysPermutes(creationOrder);
    assert multiset(keys) == multiset(idx) + multiset(StringKeys(creationOrder));
    DistinctByMultiset(keys, creationOrder);
    assert keys[|idx|..] == StringKeys(creationOrder);
    forall k | |idx| <= k < |keys| ensures !IsArrayIndex(keys[k]) {
      assert keys[k] == StringKeys(creationOrder)[k - |idx|];
    }
    forall i, j | 0 <= i < j < |idx|
      ensures IsArrayIndex(keys[i]) && keys[i] < keys[j]
    {
      assert keys[i] == idx[i] && keys[j] == idx[j];
      assert idx[i] in multiset(IndexKeys(creationOrder));
    }
  }

  /**
   * A plain object whose properties were all written with integer keys: its
   * properties, and the keys in the order the properties were created.
   */
  datatype PlainObject<V> = PlainObject(props: map<int, V>, creationOrder: seq<int>)

  ghost predicate WellFormed<V>(o: PlainObject<V>) {
    && Distinct(o.creationOrder)
    && (forall k :: k in o.props <==> k in o.creationOrder)
  }

  /** `{}` */
  function EmptyObject<V>(): (o: PlainObject<V>)
    ensures WellFormed(o) && o.props == map[]
  {
    PlainObject(map[], [])
  }

  /**
   * `o[k] = v`: a new key is created at the end of the creation order; writing
   * an existing key keeps its place.
   */
  function Assign<V>(o: PlainObject<V>, k: int, v: V): (r: PlainObject<V>)
    requires WellFormed(o)
    ensures WellFormed(r)
    ensures r.props == o.props[k := v]
    ensures r.creationOrder == if k in o.props then o.creationOrder else o.creationOrder + [k]
  {
    if k in o.props then PlainObject(o.props[k := v], o.creationOrder)
    else PlainObject(o.props[k := v], o.creationOrder + [k])
  }

  /** `Object.values(o)`: the property values in OwnPropertyKeys order. */
  function Values<V>(o: PlainObject<V>): (r: seq<V>)
    requires WellFormed(o)
  {
    var keys := OwnPropertyKeys(o.creationOrder);
    KeysArePresent(o);
    ValuesAt(o.props, keys)
  }

  /** Every key read back names a property of the object. */
  lemma KeysArePresent<V>(o: PlainObject<V>)
    requires WellFormed(o)
    ensures forall j :: 0 <= j < |OwnPropertyKeys(o.creationOrder)| ==> OwnPropertyKeys(o.creationOrder)[j] in o.props
  {
    var keys := OwnPropertyKeys(o.creationOrder);
    OwnPropertyKeysSameKeys(o.creationOrder);
    forall j | 0 <= j < |keys| ensures keys[j] in o.props {
      var k := keys[j];
      assert k in keys;
      assert k in o.creationOrder;
    }
  }

  /** The values of `props` at `keys`, in the order of `keys`. */
  function ValuesAt<V>(props: map<int, V>, keys: seq<int>): (r: seq<V>)
    requires forall j :: 0 <= j < |keys| ==> keys[j] in props
    ensures |r| == |keys|
    ensures forall j :: 0 <= j < |keys| ==> r[j] == props[keys[j]]
  {
    if keys == [] then [] else [props[keys[0]]] + ValuesAt(props, keys[1..])
  }
}
