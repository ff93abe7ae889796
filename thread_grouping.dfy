/**
 * The level-two detail views of the notification feed split a list of
 * comments (or of thanks) into one bucket per thread: a dictionary from
 * thread id to `{thread, items}` that is filled by one pass over the list,
 * then read back with `Object.values`.
 *
 * `GroupByThread` is that pass; `Grouped` says what it returns without the
 * dictionary, and the lemmas below say what that means: the buckets
 * partition the input, keep input order, take their thread from the first
 * item seen, and come out in ascending thread-id order (for ids that are
 * array indices), not in order of first appearance.
 */
module ThreadGrouping {
  import opened ObjectKeys

  /** A thread as the feed query returns it inside a comment. */
  datatype ThreadRef = ThreadRef(id: int, highlightedContent: string)

  /** One bucket: a thread and the items that belong to it. */
  datatype Group<T> = Group(thread: ThreadRef, items: seq<T>)

  /** The items whose thread id is `id`, in input order. */
  function ItemsOf<T>(items: seq<T>, threadOf: T -> ThreadRef, id: int): (r: seq<T>)
    ensures |r| <= |items|
  {
    if items == [] then []
    else
      var last := items[|items| - 1];
      ItemsOf(items[..|items| - 1], threadOf, id) + (if threadOf(last).id == id then [last] else [])
  }

  /** The thread ids of `items`, each once, in order of first appearance. */
  function FirstSeenIds<T>(items: seq<T>, threadOf: T -> ThreadRef): seq<int> {
    if items == [] then []
    else
      var seen := FirstSeenIds(items[..|items| - 1], threadOf);
      var id := threadOf(items[|items| - 1]).id;
      if id in seen then seen else seen + [id]
  }

  /**
   * The thread carried by the first item whose thread id is `id`
   * (`ThreadRef(id, "")` when there is none; never asked for in that case).
   */
  function FirstThread<T>(items: seq<T>, threadOf: T -> ThreadRef, id: int): (r: ThreadRef)
    ensures r.id == id
  {
    if items == [] then ThreadRef(id, "")
    else if threadOf(items[0]).id == id then threadOf(items[0])
    else FirstThread(items[1..], threadOf, id)
  }

  /**
   * What the level-two views display: one group per thread id, in
   * `Object.values` order, each with the first-seen thread and its items.
   */
  function Grouped<T>(items: seq<T>, threadOf: T -> ThreadRef): seq<Group<T>> {
    GroupsFor(items, threadOf, OwnPropertyKeys(FirstSeenIds(items, threadOf)))
  }

  /** The group of each key in `keys`, in the order of `keys`. */
  function GroupsFor<T>(items: seq<T>, threadOf: T -> ThreadRef, keys: seq<int>): (r: seq<Group<T>>)
    ensures |r| == |keys|
    ensures forall j :: 0 <= j < |keys| ==>
      r[j] == Group(FirstThread(items, threadOf, keys[j]), ItemsOf(items, threadOf, keys[j]))
  {
    if keys == [] then []
    else
      var first := Group(FirstThread(items, threadOf, keys[0]), ItemsOf(items, threadOf, keys[0]));
      [first] + GroupsFor(items, threadOf, keys[1..])
  }

  /** The thread id of each group, in order. */
  function ThreadIds<T>(groups: seq<Group<T>>): (r: seq<int>)
    ensures |r| == |groups|
    ensures forall j :: 0 <= j < |groups| ==> r[j] == groups[j].thread.id
  {
    if groups == [] then [] else [groups[0].thread.id] + ThreadIds(groups[1..])
  }

  /** The number of items over all groups. */
  function TotalItems<T>(groups: seq<Group<T>>): nat {
    if groups == [] then 0 else |groups[0].items| + TotalItems(groups[1..])
  }

  /**
   * The grouping loop: for each item, push it onto its thread's bucket, or
   * create the bucket with the item's thread; then `Object.values`.
   */
  method GroupByThread<T>(items: seq<T>, threadOf: T -> ThreadRef) returns (groups: seq<Group<T>>)
    ensures groups == Grouped(items, threadOf)
  {
    var grouped: PlainObject<Group<T>> := EmptyObject();
    for i := 0 to |items|
      invariant WellFormed(grouped)
      invariant grouped.creationOrder == FirstSeenIds(items[..i], threadOf)
      invariant forall k :: k in grouped.props ==>
        grouped.props[k] == Group(FirstThread(items[..i], threadOf, k), ItemsOf(items[..i], threadOf, k))
    {
      var item := items[i];
      var thread := threadOf(item);
      assert items[..i + 1] == items[..i] + [item];
      assert items[..i + 1][..i] == items[..i];
      FirstThreadExtend(items[..i], item, threadOf);
      forall k ensures ItemsOf(items[..i + 1], threadOf, k) ==
        ItemsOf(items[..i], threadOf, k) + (if thread.id == k then [item] else [])
      {
        assert items[..i + 1][i] == item;
      }
      ghost var before := grouped;
      if thread.id in grouped.props {
        var bucket := grouped.props[thread.id];
        grouped := Assign(grouped, thread.id, bucket.(items := bucket.items + [item]));
      } else {
        grouped := Assign(grouped, thread.id, Group(thread, [item]));
      }
      SeenExtend(items[..i], item, threadOf);
      forall k | k in grouped.props ensures
        grouped.props[k] == Group(FirstThread(items[..i + 1], threadOf, k), ItemsOf(items[..i + 1], threadOf, k))
      {
        if k in before.props {
          assert k in FirstSeenIds(items[..i], threadOf);
        } else {
          assert k == thread.id;
          assert ItemsOf(items[..i], threadOf, k) == [] by { ItemsOfAbsent(items[..i], threadOf, k); }
        }
      }
    }
    assert items[..|items|] == items;
    groups := Values(grouped);
    OwnPropertyKeysSameKeys(grouped.creationOrder);
    ghost var keys := OwnPropertyKeys(grouped.creationOrder);
    assert forall j :: 0 <= j < |keys| ==> keys[j] in keys;
  }

  /** Helper for the loop: how `FirstThread` changes when an item is appended. */
  lemma {:induction false} FirstThreadExtend<T>(items: seq<T>, x: T, threadOf: T -> ThreadRef)
    ensures forall k :: k in FirstSeenIds(items, threadOf) ==>
      FirstThread(items + [x], threadOf, k) == FirstThread(items, threadOf, k)
    ensures threadOf(x).id !in FirstSeenIds(items, threadOf) ==>
      FirstThread(items + [x], threadOf, threadOf(x).id) == threadOf(x)
  {
    SeenIff(items, threadOf);
    forall k ensures FirstThread(items + [x], threadOf, k) ==
      if HasThread(items, threadOf, k)
      then FirstThread(items, threadOf, k)
      else if threadOf(x).id == k then threadOf(x) else ThreadRef(k, "")
    {
      FirstThreadAppend(items, x, threadOf, k);
    }
  }

  lemma {:induction false} FirstThreadAppend<T>(items: seq<T>, x: T, threadOf: T -> ThreadRef, k: int)
    ensures FirstThread(items + [x], threadOf, k) ==
      if HasThread(items, threadOf, k)
      then FirstThread(items, threadOf, k)
      else if threadOf(x).id == k then threadOf(x) else ThreadRef(k, "")
  {
    if items == [] {
      assert items + [x] == [x];
      assert [x][1..] == [];
    } else {
      assert (items + [x])[1..] == items[1..] + [x];
      if threadOf(items[0]).id != k {
        FirstThreadAppend(items[1..], x, threadOf, k);
        if HasThread(items, threadOf, k) {
          var i :| 0 <= i < |items| && threadOf(items[i]).id == k;
          assert threadOf(items[1..][i - 1]).id == k;
        } else {
          assert !HasThread(items[1..], threadOf, k) by {
            forall i | 0 <= i < |items[1..]| ensures threadOf(items[1..][i]).id != k {
              assert items[1..][i] == items[i + 1];
            }
          }
        }
      } else {
        assert threadOf(items[0]).id == k;
      }
    }
  }

  lemma {:induction false} ItemsOfAbsent<T>(items: seq<T>, threadOf: T -> ThreadRef, k: int)
    requires k !in FirstSeenIds(items, threadOf)
    ensures ItemsOf(items, threadOf, k) == []
  {
    if items != [] {
      var init := items[..|items| - 1];
      assert k !in FirstSeenIds(init, threadOf) && threadOf(items[|items| - 1]).id != k;
      ItemsOfAbsent(init, threadOf, k);
    }
  }

  /** `FirstSeenIds` grows by the appended item's id when that id is new. */
  lemma SeenExtend<T>(items: seq<T>, x: T, threadOf: T -> ThreadRef)
    ensures FirstSeenIds(items + [x], threadOf) ==
      var seen := FirstSeenIds(items, threadOf);
      if threadOf(x).id in seen then seen else seen + [threadOf(x).id]
  {
    assert (items + [x])[..|items|] == items;
  }

  /** Some item of `items` belongs to the thread with id `k`. */
  ghost predicate HasThread<T>(items: seq<T>, threadOf: T -> ThreadRef, k: int) {
    exists i :: 0 <= i < |items| && threadOf(items[i]).id == k
  }

  /** A thread id is first-seen iff some item carries it; each id once. */
  lemma {:induction false} SeenIff<T>(items: seq<T>, threadOf: T -> ThreadRef)
    ensures Distinct(FirstSeenIds(items, threadOf))
    ensures forall k :: k in FirstSeenIds(items, threadOf) <==>
      HasThread(items, threadOf, k)
  {
    if items != [] {
      var init := items[..|items| - 1];
      SeenIff(init, threadOf);
      forall k ensures HasThread(items, threadOf, k) <==>
        HasThread(init, threadOf, k) || threadOf(items[|items| - 1]).id == k
      {
        if exists i :: 0 <= i < |items| && threadOf(items[i]).id == k {
          var i :| 0 <= i < |items| && threadOf(items[i]).id == k;
          if i < |init| { assert init[i] == items[i]; }
        }
        if exists i :: 0 <= i < |init| && threadOf(init[i]).id == k {
          var i :| 0 <= i < |init| && threadOf(init[i]).id == k;
          assert items[i] == init[i];
        }
      }
    }
  }

  // ----- What the grouping means -----

  /** Every item of a group belongs to that group's thread, and every such item is in it. */
  lemma {:induction false} ItemsOfMembers<T>(items: seq<T>, threadOf: T -> ThreadRef, k: int)
    ensures forall x :: x in ItemsOf(items, threadOf, k) <==> x in items && threadOf(x).id == k
  {
    if items != [] {
      var init, last := items[..|items| - 1], items[|items| - 1];
      ItemsOfMembers(init, threadOf, k);
      assert items == init + [last];
    }
  }

  /** The thread of a group is that of the first item with its id. */
  lemma {:induction false} FirstThreadIsFirst<T>(items: seq<T>, threadOf: T -> ThreadRef, i: nat)
    requires i < |items|
    requires forall j :: 0 <= j < i ==> threadOf(items[j]).id != threadOf(items[i]).id
    ensures FirstThread(items, threadOf, threadOf(items[i]).id) == threadOf(items[i])
  {
    if i > 0 {
      assert threadOf(items[0]).id != threadOf(items[i]).id;
      assert items[1..][i - 1] == items[i];
      FirstThreadIsFirst(items[1..], threadOf, i - 1);
    }
  }

  /** Appending one item adds one to the total for each group keyed by its id. */
  lemma {:induction false} TotalItemsSnoc<T>(items: seq<T>, threadOf: T -> ThreadRef, keys: seq<int>)
    requires items != []
    ensures TotalItems(GroupsFor(items, threadOf, keys)) ==
      TotalItems(GroupsFor(items[..|items| - 1], threadOf, keys))
      + multiset(keys)[threadOf(items[|items| - 1]).id]
  {
    if keys != [] {
      assert keys == [keys[0]] + keys[1..];
      TotalItemsSnoc(items, threadOf, keys[1..]);
    }
  }

  /** Groups over distinct keys that cover every item's thread hold all items between them. */
  lemma {:induction false} TotalItemsCover<T>(items: seq<T>, threadOf: T -> ThreadRef, keys: seq<int>)
    requires Distinct(keys)
    requires forall i :: 0 <= i < |items| ==> threadOf(items[i]).id in keys
    ensures TotalItems(GroupsFor(items, threadOf, keys)) == |items|
  {
    if items == [] {
      TotalItemsEmpty(threadOf, keys);
    } else {
      var init := items[..|items| - 1];
      assert forall i :: 0 <= i < |init| ==> init[i] == items[i];
      TotalItemsCover(init, threadOf, keys);
      TotalItemsSnoc(items, threadOf, keys);
      DistinctCount(keys, threadOf(items[|items| - 1]).id);
    }
  }

  lemma {:induction false} TotalItemsEmpty<T>(threadOf: T -> ThreadRef, keys: seq<int>)
    ensures TotalItems(GroupsFor([], threadOf, keys)) == 0
  {
    if keys != [] {
      TotalItemsEmpty(threadOf, keys[1..]);
    }
  }

  /** The keys the dictionary is read back with: distinct, and exactly the threads present. */
  lemma GroupedKeys<T>(items: seq<T>, threadOf: T -> ThreadRef)
    ensures var keys := OwnPropertyKeys(FirstSeenIds(items, threadOf));
      && ThreadIds(Grouped(items, threadOf)) == keys
      && Distinct(keys)
      && forall k :: k in keys <==> HasThread(items, threadOf, k)
  {
    var seen := FirstSeenIds(items, threadOf);
    SeenIff(items, threadOf);
    OwnPropertyKeysOrder(seen);
    OwnPropertyKeysSameKeys(seen);
  }

  /**
   * One group per distinct thread id: every item's thread has a group, every
   * group's thread occurs among the items, and no two groups share an id.
   */
  lemma GroupedOnePerThread<T>(items: seq<T>, threadOf: T -> ThreadRef)
    ensures var groups := Grouped(items, threadOf);
      && Distinct(ThreadIds(groups))
      && (forall i :: 0 <= i < |items| ==> threadOf(items[i]).id in ThreadIds(groups))
      && (forall j :: 0 <= j < |groups| ==> HasThread(items, threadOf, groups[j].thread.id))
  {
    var groups := Grouped(items, threadOf);
    var keys := OwnPropertyKeys(FirstSeenIds(items, threadOf));
    GroupedKeys(items, threadOf);
    forall i | 0 <= i < |items| ensures threadOf(items[i]).id in keys {
      assert HasThread(items, threadOf, threadOf(items[i]).id);
    }
    forall j | 0 <= j < |groups| ensures HasThread(items, threadOf, groups[j].thread.id) {
      assert groups[j].thread.id == keys[j];
      assert keys[j] in keys;
    }
  }

  /**
   * Each group holds exactly the items of its thread, in input order: an
   * item is in the group of its own thread and in no other.
   */
  lemma GroupedItems<T>(items: seq<T>, threadOf: T -> ThreadRef)
    ensures var groups := Grouped(items, threadOf);
      forall j :: 0 <= j < |groups| ==>
        && groups[j].items == ItemsOf(items, threadOf, groups[j].thread.id)
        && (forall x :: x in groups[j].items <==> x in items && threadOf(x).id == groups[j].thread.id)
  {
    var keys := OwnPropertyKeys(FirstSeenIds(items, threadOf));
    var groups := Grouped(items, threadOf);
    forall j | 0 <= j < |groups|
      ensures groups[j].items == ItemsOf(items, threadOf, groups[j].thread.id)
      ensures forall x :: x in groups[j].items <==> x in items && threadOf(x).id == groups[j].thread.id
    {
      assert groups[j] == Group(FirstThread(items, threadOf, keys[j]), ItemsOf(items, threadOf, keys[j]));
      ItemsOfMembers(items, threadOf, keys[j]);
    }
  }

  /** Item `i` is the first of the items on its thread. */
  ghost predicate FirstOfThread<T>(items: seq<T>, threadOf: T -> ThreadRef, i: int) {
    && 0 <= i < |items|
    && forall k :: 0 <= k < i ==> threadOf(items[k]).id != threadOf(items[i]).id
  }

  /**
   * A group shows the thread object of the first item on its thread, as the
   * bucket is created by that item and later items only join it.
   */
  lemma GroupedThreads<T>(items: seq<T>, threadOf: T -> ThreadRef)
    ensures var groups := Grouped(items, threadOf);
      forall i, j ::
        (FirstOfThread(items, threadOf, i) && 0 <= j < |groups| && groups[j].thread.id == threadOf(items[i]).id)
        ==> groups[j].thread == threadOf(items[i])
  {
    var keys := OwnPropertyKeys(FirstSeenIds(items, threadOf));
    var groups := Grouped(items, threadOf);
    forall i, j | FirstOfThread(items, threadOf, i) && 0 <= j < |groups|
        && groups[j].thread.id == threadOf(items[i]).id
      ensures groups[j].thread == threadOf(items[i])
    {
      assert groups[j].thread == FirstThread(items, threadOf, keys[j]);
      FirstThreadIsFirst(items, threadOf, i);
    }
  }

  /** The group sizes add up to the number of items. */
  lemma GroupedSizes<T>(items: seq<T>, threadOf: T -> ThreadRef)
    ensures TotalItems(Grouped(items, threadOf)) == |items|
  {
    var keys := OwnPropertyKeys(FirstSeenIds(items, threadOf));
    GroupedKeys(items, threadOf);
    forall i | 0 <= i < |items| ensures threadOf(items[i]).id in keys {
      assert HasThread(items, threadOf, threadOf(items[i]).id);
    }
    TotalItemsCover(items, threadOf, keys);
  }

  /**
   * `Object.values` order: a group whose thread id is an array index comes
   * after every other such group with a smaller id and before every group
   * whose id is not an array index; the latter follow in first-seen order.
   */
  lemma GroupedOrder<T>(items: seq<T>, threadOf: T -> ThreadRef)
    ensures var groups := Grouped(items, threadOf);
      && (forall i, j :: 0 <= i < j < |groups| && IsArrayIndex(groups[j].thread.id) ==>
            IsArrayIndex(groups[i].thread.id) && groups[i].thread.id < groups[j].thread.id)
      && ThreadIds(groups)[|IndexKeys(FirstSeenIds(items, threadOf))|..]
           == StringKeys(FirstSeenIds(items, threadOf))
  {
    var seen := FirstSeenIds(items, threadOf);
    SeenIff(items, threadOf);
    OwnPropertyKeysOrder(seen);
    GroupedKeys(items, threadOf);
  }
}
