/**
 * `groupBy` (src/utils.ts): a left fold over the items that appends each one
 * to the group of its key, starting a group the first time a key is seen.
 */
module Grouping {
  /** The items whose key is `k`, in input order. */
  function Filter<T>(items: seq<T>, getter: T -> string, k: string): (r: seq<T>)
    ensures |r| <= |items|
  {
    if |items| == 0 then []
    else (if getter(items[0]) == k then [items[0]] else []) + Filter(items[1..], getter, k)
  }

  /** Filtering a sequence with one more item at the end. */
  lemma {:induction false} FilterSnoc<T>(items: seq<T>, x: T, getter: T -> string, k: string)
    ensures Filter(items + [x], getter, k) == Filter(items, getter, k) + (if getter(x) == k then [x] else [])
  {
    if |items| > 0 {
      assert (items + [x])[1..] == items[1..] + [x];
      FilterSnoc(items[1..], x, getter, k);
    } else {
      assert items + [x] == [x];
    }
  }

  /** Some item has key `k`. */
  ghost predicate HasKey<T>(items: seq<T>, getter: T -> string, k: string)
  {
    exists i :: 0 <= i < |items| && getter(items[i]) == k
  }

  /** An item has key `k` exactly when its group under `k` is non-empty. */
  lemma {:induction false} FilterNonEmpty<T>(items: seq<T>, getter: T -> string, k: string)
    ensures |Filter(items, getter, k)| > 0 <==> HasKey(items, getter, k)
  {
    if |items| > 0 {
      FilterNonEmpty(items[1..], getter, k);
      if HasKey(items[1..], getter, k) {
        var i :| 0 <= i < |items[1..]| && getter(items[1..][i]) == k;
        assert getter(items[i + 1]) == k;
      }
      if HasKey(items, getter, k) && getter(items[0]) != k {
        var i :| 0 <= i < |items| && getter(items[i]) == k;
        assert getter(items[1..][i - 1]) == k;
      }
    }
  }

  /** What `groupBy` promises of its result for `items`. */
  ghost predicate Grouped<T>(items: seq<T>, getter: T -> string, r: map<string, seq<T>>)
  {
    (forall k :: k in r <==> HasKey(items, getter, k))
    && forall k :: k in r ==> r[k] == Filter(items, getter, k) && |r[k]| > 0
  }

  /** One step of the fold: adding the next item to its key's group keeps the promise. */
  function AddItem<T>(acc: map<string, seq<T>>, item: T, getter: T -> string): map<string, seq<T>>
  {
    var field := getter(item);
    if field in acc then acc[field := acc[field] + [item]] else acc[field := [item]]
  }

  lemma AddItemKeepsGrouped<T>(front: seq<T>, item: T, getter: T -> string, acc: map<string, seq<T>>)
    requires Grouped(front, getter, acc)
    ensures Grouped(front + [item], getter, AddItem(acc, item, getter))
  {
    var items := front + [item];
    var r := AddItem(acc, item, getter);
    var field := getter(item);
    forall k | k in r
      ensures r[k] == Filter(items, getter, k)
    {
      FilterSnoc(front, item, getter, k);
      FilterNonEmpty(front, getter, k);
      if k != field {
        assert Filter(front, getter, k) + [] == Filter(front, getter, k);
      } else if field !in acc {
        assert [] + [item] == [item];
      }
    }
    forall k
      ensures k in r <==> HasKey(items, getter, k)
    {
      FilterSnoc(front, item, getter, k);
      FilterNonEmpty(front, getter, k);
      FilterNonEmpty(items, getter, k);
    }
  }

  /**
   * `groupBy(items, getter)`: the keys are exactly the keys of the items,
   * every group is non-empty, and each group holds exactly the items with
   * its key, in input order.
   */
  function GroupBy<T>(items: seq<T>, getter: T -> string): (r: map<string, seq<T>>)
    ensures forall k :: k in r <==> HasKey(items, getter, k)
    ensures forall k :: k in r ==> r[k] == Filter(items, getter, k) && |r[k]| > 0
    decreases |items|
  {
    if |items| == 0 then map[]
    else
      var front := items[..|items| - 1];
      var item := items[|items| - 1];
      assert items == front + [item];
      var acc := GroupBy(front, getter);
      AddItemKeepsGrouped(front, item, getter, acc);
      AddItem(acc, item, getter)
  }

  /** The sum of the group sizes over a list of keys. */
  function Sizes<T>(groups: map<string, seq<T>>, keys: seq<string>): nat
    requires forall i :: 0 <= i < |keys| ==> keys[i] in groups
  {
    if |keys| == 0 then 0 else |groups[keys[0]]| + Sizes(groups, keys[1..])
  }

  /** The sum of the filtered sizes over a list of keys. */
  function FilteredSizes<T>(items: seq<T>, getter: T -> string, keys: seq<string>): nat
  {
    if |keys| == 0 then 0 else |Filter(items, getter, keys[0])| + FilteredSizes(items, getter, keys[1..])
  }

  predicate Distinct(keys: seq<string>)
  {
    forall i, j :: 0 <= i < j < |keys| ==> keys[i] != keys[j]
  }

  /** The first item adds one to the size under its own key and nothing under any other. */
  lemma {:induction false} FilteredSizesFront<T>(items: seq<T>, getter: T -> string, keys: seq<string>)
    requires |items| > 0 && Distinct(keys)
    ensures FilteredSizes(items, getter, keys)
         == FilteredSizes(items[1..], getter, keys) + (if getter(items[0]) in keys then 1 else 0)
  {
    if |keys| > 0 {
      FilteredSizesFront(items, getter, keys[1..]);
      if getter(items[0]) == keys[0] {
        assert getter(items[0]) !in keys[1..];
      }
    }
  }

  /** Over a duplicate-free list of every key, the filtered sizes add up to the input length. */
  lemma {:induction false} FilteredSizesTotal<T>(items: seq<T>, getter: T -> string, keys: seq<string>)
    requires Distinct(keys)
    requires forall i :: 0 <= i < |items| ==> getter(items[i]) in keys
    ensures FilteredSizes(items, getter, keys) == |items|
  {
    if |items| == 0 {
      FilteredSizesEmpty(items, getter, keys);
    } else {
      FilteredSizesFront(items, getter, keys);
      FilteredSizesTotal(items[1..], getter, keys);
    }
  }

  lemma {:induction false} FilteredSizesEmpty<T>(items: seq<T>, getter: T -> string, keys: seq<string>)
    requires |items| == 0
    ensures FilteredSizes(items, getter, keys) == 0
  {
    if |keys| > 0 {
      FilteredSizesEmpty(items, getter, keys[1..]);
    }
  }

  lemma {:induction false} SizesAreFiltered<T>(items: seq<T>, getter: T -> string, keys: seq<string>)
    requires forall i :: 0 <= i < |keys| ==> keys[i] in GroupBy(items, getter)
    ensures Sizes(GroupBy(items, getter), keys) == FilteredSizes(items, getter, keys)
  {
    if |keys| > 0 {
      SizesAreFiltered(items, getter, keys[1..]);
    }
  }

  /**
   * Nothing is lost or duplicated: over any duplicate-free listing of the
   * groups' keys, the group sizes add up to the number of items.
   */
  lemma GroupSizesSum<T>(items: seq<T>, getter: T -> string, keys: seq<string>)
    requires Distinct(keys)
    requires forall k :: k in GroupBy(items, getter) <==> k in keys
    ensures forall i :: 0 <= i < |keys| ==> keys[i] in GroupBy(items, getter)
    ensures Sizes(GroupBy(items, getter), keys) == |items|
  {
    var r := GroupBy(items, getter);
    forall i | 0 <= i < |items|
      ensures getter(items[i]) in keys
    {
      assert HasKey(items, getter, getter(items[i]));
    }
    SizesAreFiltered(items, getter, keys);
    FilteredSizesTotal(items, getter, keys);
  }

  /** Every item is in the group of its own key. */
  lemma {:induction false} EveryItemGrouped<T>(items: seq<T>, getter: T -> string, i: int)
    requires 0 <= i < |items|
    ensures getter(items[i]) in GroupBy(items, getter)
    ensures items[i] in GroupBy(items, getter)[getter(items[i])]
  {
    assert HasKey(items, getter, getter(items[i]));
    FilterContains(items, getter, i);
  }

  lemma {:induction false} FilterContains<T>(items: seq<T>, getter: T -> string, i: int)
    requires 0 <= i < |items|
    ensures items[i] in Filter(items, getter, getter(items[i]))
  {
    if i > 0 {
      FilterContains(items[1..], getter, i - 1);
    }
  }

  /** An empty input yields no groups. */
  lemma NoItemsNoGroups<T>(items: seq<T>, getter: T -> string)
    requires |items| == 0
    ensures GroupBy(items, getter) == map[]
  {
  }
}
