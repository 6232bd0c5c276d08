/** The two in-place list helpers of the order reducer, `addUniqueItems` and
    `removeItems`, as pure functions over sequences, together with their
    reference meanings in terms of `Seqs`. */
module OrderedLists {
  import opened Seqs

  /** Appends each element of `items`, in order, unless it is already in the
      list being built (app/lib/orderLogic.ts, `addUniqueItems`). The same
      loop is what inserting `items` one by one into a JavaScript `Set`
      seeded with `arr` does. */
  function AddUniqueItems<T(==,!new)>(arr: seq<T>, items: seq<T>): (r: seq<T>)
    ensures |arr| <= |r| && r[..|arr|] == arr
    ensures forall x :: x in r <==> x in arr || x in items
    ensures NoDup(arr) ==> NoDup(r)
    decreases |items|
  {
    if items == [] then arr
    else
      NoDupSnoc(arr, items[0]);
      var next := if items[0] in arr then arr else arr + [items[0]];
      var r := AddUniqueItems(next, items[1..]);
      assert r[..|arr|] == next[..|arr|];
      r
  }

  /** Deletes, for each element of `items` in order, its first remaining
      occurrence (app/lib/orderLogic.ts, `removeItems`). */
  function RemoveItems<T(==,!new)>(arr: seq<T>, items: seq<T>): (r: seq<T>)
    ensures |r| <= |arr|
    ensures forall x :: x in r ==> x in arr
    ensures forall x :: x in arr && x !in items ==> x in r
    ensures NoDup(arr) ==> NoDup(r)
    ensures (forall x :: x in items ==> x !in arr) ==> r == arr
    decreases |items|
  {
    if items == [] then arr
    else RemoveItems(RemoveFirst(arr, items[0]), items[1..])
  }

  /** Removing takes away one occurrence per name asked for, as far as
      there are occurrences to take: as multisets, the result is the old
      list minus the names. With `RemoveFirstSplice`, each step deletes the
      first remaining occurrence and keeps the rest in order. */
  lemma {:induction false} RemoveItemsCount<T(!new)>(arr: seq<T>, items: seq<T>)
    ensures multiset(RemoveItems(arr, items)) == multiset(arr) - multiset(items)
    decreases |items|
  {
    if items != [] {
      var x, rest := items[0], items[1..];
      assert items == [x] + rest;
      RemoveFirstCount(arr, x);
      RemoveItemsCount(RemoveFirst(arr, x), rest);
    }
  }

  /** Adding is appending the not-yet-present inputs, deduplicated in input
      order: the old list is kept as a prefix, and nothing is reordered. */
  lemma {:induction false} AddUniqueIsAppendDedup<T(!new)>(arr: seq<T>, items: seq<T>)
    ensures AddUniqueItems(arr, items) == arr + Dedup(Without(items, arr))
    decreases |items|
  {
    if items != [] {
      var x, rest := items[0], items[1..];
      AddUniqueUnfold(arr, items);
      if x in arr {
        AddUniqueIsAppendDedup(arr, rest);
        assert Without(items, arr) == Without(rest, arr);
      } else {
        AddUniqueIsAppendDedup(arr + [x], rest);
        DedupOfFresh(items, arr);
        var d := Dedup(Without(rest, arr + [x]));
        assert arr + [x] + d == arr + ([x] + d);
      }
    }
  }

  lemma AddUniqueUnfold<T(!new)>(arr: seq<T>, items: seq<T>)
    requires items != []
    ensures AddUniqueItems(arr, items)
         == AddUniqueItems(if items[0] in arr then arr else arr + [items[0]], items[1..])
  {
  }

  /** One step of the induction above: a first input not yet present is the
      first element appended. */
  lemma DedupOfFresh<T(!new)>(items: seq<T>, arr: seq<T>)
    requires items != [] && items[0] !in arr
    ensures Dedup(Without(items, arr)) == [items[0]] + Dedup(Without(items[1..], arr + [items[0]]))
  {
    var x, rest := items[0], items[1..];
    var w := Without(items, arr);
    WithoutFreshHead(items, arr);
    assert w[0] == x && w[1..] == Without(rest, arr);
    DedupUnfold(w);
    WithoutWithout(rest, arr, [x]);
  }

  /** On a duplicate-free list, removing is filtering by non-membership. */
  lemma {:induction false} RemoveItemsOnSetIsWithout<T(!new)>(arr: seq<T>, items: seq<T>)
    requires NoDup(arr)
    ensures RemoveItems(arr, items) == Without(arr, items)
    decreases |items|
  {
    if items == [] {
      WithoutEmpty(arr);
    } else {
      var x, rest := items[0], items[1..];
      assert items == [x] + rest;
      RemoveFirstOnSet(arr, x);
      RemoveItemsOnSetIsWithout(RemoveFirst(arr, x), rest);
      WithoutWithout(arr, [x], rest);
    }
  }

  /** Inserting into an empty collection deduplicates in first-occurrence
      order. */
  lemma FromEmptyIsDedup<T(!new)>(items: seq<T>)
    ensures AddUniqueItems([], items) == Dedup(items)
  {
    AddUniqueIsAppendDedup([], items);
    WithoutEmpty(items);
  }

  /** Adding names that are all present already changes nothing. */
  lemma {:induction false} AddPresentIsNoop<T(!new)>(arr: seq<T>, items: seq<T>)
    requires forall x :: x in items ==> x in arr
    ensures AddUniqueItems(arr, items) == arr
    decreases |items|
  {
    if items != [] {
      AddUniqueUnfold(arr, items);
      assert items[0] in arr;
      AddPresentIsNoop(arr, items[1..]);
    }
  }

  /** Adding the same names a second time changes nothing: repeated adds
      never produce a duplicate. */
  lemma AddUniqueIdempotent<T(!new)>(arr: seq<T>, items: seq<T>)
    ensures AddUniqueItems(AddUniqueItems(arr, items), items) == AddUniqueItems(arr, items)
  {
    AddPresentIsNoop(AddUniqueItems(arr, items), items);
  }

  /** Adding `a + b` is adding `a` and then `b`. */
  lemma {:induction false} AddUniqueConcat<T(!new)>(arr: seq<T>, a: seq<T>, b: seq<T>)
    ensures AddUniqueItems(arr, a + b) == AddUniqueItems(AddUniqueItems(arr, a), b)
    decreases |a|
  {
    if a == [] {
      assert a + b == b;
    } else {
      assert (a + b)[0] == a[0] && (a + b)[1..] == a[1..] + b;
      AddUniqueUnfold(arr, a + b);
      AddUniqueUnfold(arr, a);
      AddUniqueConcat(if a[0] in arr then arr else arr + [a[0]], a[1..], b);
    }
  }
}
