/** The reordering of `applyOrder` (`src/core/config.ts`), for any item that has an id and an order. */
module Ordering {
  import opened Common

  /** How one kind of item exposes its id and its order. */
  datatype Lens<!T> = Lens(idOf: T -> string, orderOf: T -> Option<int>, withOrder: (T, int) -> T)

  datatype Entry<T> = Entry(item: T, key: int)

  /** Where the list of ids puts `id`; a repeated id counts with its last position. */
  function Rank(ids: seq<string>, id: string): (r: Option<nat>)
    ensures r.Some? <==> id in ids
    ensures r.Some? ==> r.value < |ids| && ids[r.value] == id
  {
    if ids == [] then None
    else if ids[|ids| - 1] == id then Some(|ids| - 1)
    else Rank(ids[..|ids| - 1], id)
  }

  function Ranked<T>(lens: Lens<T>, ids: seq<string>, item: T): T {
    var rank := Rank(ids, lens.idOf(item));
    if rank.None? then item else lens.withOrder(item, rank.value)
  }

  function Entries<T>(lens: Lens<T>, ids: seq<string>, items: seq<T>): (r: seq<Entry<T>>)
    ensures |r| == |items|
  {
    seq(|items|, i requires 0 <= i < |items| =>
      var item := Ranked(lens, ids, items[i]);
      Entry(item, if lens.orderOf(item).Some? then lens.orderOf(item).value else i))
  }

  function Insert<T>(e: Entry<T>, sorted: seq<Entry<T>>): (r: seq<Entry<T>>)
    ensures |r| == |sorted| + 1
  {
    if sorted == [] || e.key <= sorted[0].key then [e] + sorted else [sorted[0]] + Insert(e, sorted[1..])
  }

  /** A stable sort by key. */
  function StableSort<T>(es: seq<Entry<T>>): (r: seq<Entry<T>>)
    ensures |r| == |es|
  {
    if es == [] then [] else Insert(es[0], StableSort(es[1..]))
  }

  function Items<T>(es: seq<Entry<T>>): (r: seq<T>)
    ensures |r| == |es|
  {
    seq(|es|, i requires 0 <= i < |es| => es[i].item)
  }

  function ApplyOrder<T>(lens: Lens<T>, ids: seq<string>, items: seq<T>): seq<T> {
    Items(StableSort(Entries(lens, ids, items)))
  }

  // ---- What the sort does ----

  ghost predicate Increasing<T>(es: seq<Entry<T>>) {
    forall i, j :: 0 <= i < j < |es| ==> es[i].key <= es[j].key
  }

  /** The entries with one key, in order. */
  function WithKey<T>(es: seq<Entry<T>>, key: int): seq<Entry<T>> {
    if es == [] then [] else (if es[0].key == key then [es[0]] else []) + WithKey(es[1..], key)
  }

  ghost predicate Within<T>(a: seq<T>, b: seq<T>) {
    forall i :: 0 <= i < |a| ==> a[i] in b
  }

  /** Where an insertion puts the entry: behind the smaller keys, before the others. */
  lemma {:induction false} InsertAt<T>(e: Entry<T>, sorted: seq<Entry<T>>) returns (k: nat)
    ensures k <= |sorted| && Insert(e, sorted) == sorted[..k] + [e] + sorted[k..]
    ensures forall i :: 0 <= i < k ==> sorted[i].key < e.key
    ensures k < |sorted| ==> e.key <= sorted[k].key
  {
    k := 0;
    if sorted != [] && e.key > sorted[0].key {
      var j := InsertAt(e, sorted[1..]);
      k := j + 1;
      assert sorted[..k] == [sorted[0]] + sorted[1..][..j] && sorted[k..] == sorted[1..][j..];
    }
  }

  lemma InsertSorts<T>(e: Entry<T>, sorted: seq<Entry<T>>)
    requires Increasing(sorted)
    ensures Increasing(Insert(e, sorted))
    ensures Within(Insert(e, sorted), [e] + sorted) && Within([e] + sorted, Insert(e, sorted))
  {
    var k := InsertAt(e, sorted);
    var r := Insert(e, sorted);
    forall i | 0 <= i < |[e] + sorted| ensures ([e] + sorted)[i] in r {
      assert ([e] + sorted)[i] == r[if i == 0 then k else if i <= k then i - 1 else i];
    }
  }

  lemma {:induction false} InsertWithKey<T>(e: Entry<T>, sorted: seq<Entry<T>>, key: int)
    ensures WithKey(Insert(e, sorted), key) == WithKey([e] + sorted, key)
  {
    assert ([e] + sorted)[1..] == sorted;
    if sorted != [] && e.key > sorted[0].key {
      InsertWithKey(e, sorted[1..], key);
      assert ([e] + sorted[1..])[1..] == sorted[1..];
      assert Insert(e, sorted)[1..] == Insert(e, sorted[1..]);
    }
  }

  /** The sort is increasing, and keeps the entries of each key in the order they had. */
  lemma {:induction false} StableSortCorrect<T>(es: seq<Entry<T>>, key: int)
    ensures Increasing(StableSort(es))
    ensures Within(StableSort(es), es) && Within(es, StableSort(es))
    ensures WithKey(StableSort(es), key) == WithKey(es, key)
  {
    if es != [] {
      StableSortCorrect(es[1..], key);
      InsertSorts(es[0], StableSort(es[1..]));
      InsertWithKey(es[0], StableSort(es[1..]), key);
      assert es == [es[0]] + es[1..];
      assert ([es[0]] + StableSort(es[1..]))[1..] == StableSort(es[1..]);
    }
  }

  /** Sum of a measure over the items: what no permutation changes. */
  function Total<T>(f: T -> nat, items: seq<T>): nat {
    if items == [] then 0 else f(items[0]) + Total(f, items[1..])
  }

  lemma {:induction false} InsertTotal<T>(f: T -> nat, e: Entry<T>, sorted: seq<Entry<T>>)
    ensures Total(f, Items(Insert(e, sorted))) == f(e.item) + Total(f, Items(sorted))
  {
    var r := Insert(e, sorted);
    if sorted == [] || e.key <= sorted[0].key {
      assert Items(r)[1..] == Items(sorted);
    } else {
      InsertTotal(f, e, sorted[1..]);
      assert Items(r)[1..] == Items(Insert(e, sorted[1..])) && Items(sorted)[1..] == Items(sorted[1..]);
    }
  }

  lemma {:induction false} StableSortTotal<T>(f: T -> nat, es: seq<Entry<T>>)
    ensures Total(f, Items(StableSort(es))) == Total(f, Items(es))
  {
    if es != [] {
      StableSortTotal(f, es[1..]);
      InsertTotal(f, es[0], StableSort(es[1..]));
      assert Items(es)[1..] == Items(es[1..]);
    }
  }

  lemma {:induction false} SameTotal<T>(f: T -> nat, a: seq<T>, b: seq<T>)
    requires |a| == |b| && forall i :: 0 <= i < |a| ==> f(a[i]) == f(b[i])
    ensures Total(f, a) == Total(f, b)
  {
    if a != [] {
      SameTotal(f, a[1..], b[1..]);
    }
  }

  /** Reordering loses and duplicates nothing: any measure that ignores `order` has the same sum. */
  lemma ApplyOrderConserves<T>(lens: Lens<T>, ids: seq<string>, items: seq<T>, f: T -> nat)
    requires forall item, order :: item in items ==> f(lens.withOrder(item, order)) == f(item)
    ensures Total(f, ApplyOrder(lens, ids, items)) == Total(f, items)
  {
    var es := Entries(lens, ids, items);
    StableSortTotal(f, es);
    forall i | 0 <= i < |items| ensures f(Items(es)[i]) == f(items[i]) {
      assert items[i] in items;
    }
    SameTotal(f, Items(es), items);
  }

  // ---- The order asked for is the order obtained ----

  ghost predicate Lawful<T(!new)>(lens: Lens<T>) {
    forall item: T, order ::
      && lens.idOf(lens.withOrder(item, order)) == lens.idOf(item)
      && lens.orderOf(lens.withOrder(item, order)) == Some(order)
  }

  function Ids<T>(lens: Lens<T>, items: seq<T>): seq<string> {
    seq(|items|, i requires 0 <= i < |items| => lens.idOf(items[i]))
  }

  ghost predicate DistinctKeys<T>(es: seq<Entry<T>>) {
    forall i, j :: 0 <= i < j < |es| ==> es[i].key != es[j].key
  }

  lemma InsertDistinct<T>(e: Entry<T>, sorted: seq<Entry<T>>)
    requires DistinctKeys(sorted) && forall i :: 0 <= i < |sorted| ==> sorted[i].key != e.key
    ensures DistinctKeys(Insert(e, sorted))
  {
    var k := InsertAt(e, sorted);
  }

  lemma {:induction false} SortDistinct<T>(es: seq<Entry<T>>)
    requires DistinctKeys(es)
    ensures DistinctKeys(StableSort(es))
  {
    if es != [] {
      var rest := es[1..];
      SortDistinct(rest);
      StableSortCorrect(rest, 0);
      forall i | 0 <= i < |rest| ensures StableSort(rest)[i].key != es[0].key {
        var j :| 0 <= j < |rest| && rest[j] == StableSort(rest)[i];
        assert es[j + 1] == rest[j];
      }
      InsertDistinct(es[0], StableSort(rest));
    }
  }

  /** Increasing keys in `0..|es|` without repetition are 0, 1, 2 and so on. */
  lemma {:induction false} KeysAtLeast<T>(es: seq<Entry<T>>, i: nat)
    requires Increasing(es) && DistinctKeys(es) && i < |es| && es[0].key >= 0
    ensures es[i].key >= i
  {
    if i > 0 { KeysAtLeast(es, i - 1); }
  }

  lemma {:induction false} KeysAtMost<T>(es: seq<Entry<T>>, i: nat)
    requires Increasing(es) && DistinctKeys(es) && i < |es| && es[|es| - 1].key < |es|
    ensures es[i].key <= i
    decreases |es| - i
  {
    if i + 1 < |es| { KeysAtMost(es, i + 1); }
  }

  /** `ids` lists every item exactly once. */
  ghost predicate Lists<T>(lens: Lens<T>, ids: seq<string>, items: seq<T>) {
    && NoDup(ids) && |ids| == |items| && NoDup(Ids(lens, items))
    && forall i :: 0 <= i < |items| ==> lens.idOf(items[i]) in ids
  }

  /** Every entry's key is the position of its id. */
  ghost predicate Placed<T>(lens: Lens<T>, ids: seq<string>, es: seq<Entry<T>>) {
    forall i :: 0 <= i < |es| ==> 0 <= es[i].key < |ids| && lens.idOf(es[i].item) == ids[es[i].key]
  }

  lemma ListedEntries<T(!new)>(lens: Lens<T>, ids: seq<string>, items: seq<T>)
    requires Lawful(lens) && Lists(lens, ids, items)
    ensures DistinctKeys(Entries(lens, ids, items)) && Placed(lens, ids, Entries(lens, ids, items))
  {
    var es := Entries(lens, ids, items);
    forall i | 0 <= i < |es|
      ensures 0 <= es[i].key < |ids| && lens.idOf(es[i].item) == ids[es[i].key] == Ids(lens, items)[i]
    {
    }
    hide Entries, Lawful, Ids;
  }

  lemma PlacedInOrder<T>(lens: Lens<T>, ids: seq<string>, r: seq<Entry<T>>)
    requires Increasing(r) && DistinctKeys(r) && Placed(lens, ids, r) && |r| == |ids|
    ensures Ids(lens, Items(r)) == ids
  {
    forall i | 0 <= i < |r| ensures r[i].key == i {
      KeysAtLeast(r, i);
      KeysAtMost(r, i);
    }
    hide Increasing, DistinctKeys;
  }

  /** An order that lists every item once is exactly the order that results. */
  lemma ApplyOrderObeys<T(!new)>(lens: Lens<T>, ids: seq<string>, items: seq<T>)
    requires Lawful(lens) && Lists(lens, ids, items)
    ensures Ids(lens, ApplyOrder(lens, ids, items)) == ids
  {
    var es := Entries(lens, ids, items);
    ListedEntries(lens, ids, items);
    SortDistinct(es);
    StableSortCorrect(es, 0);
    PlacedInOrder(lens, ids, StableSort(es));
  }

  // ---- Any order ----

  /** Where the item at `i` goes and what it becomes: a listed one takes its last
      position as its order; another keeps its order, or stands where it is. */
  ghost predicate Keyed<T>(lens: Lens<T>, ids: seq<string>, items: seq<T>, i: nat, e: Entry<T>)
    requires i < |items|
  {
    var id := lens.idOf(items[i]);
    if id in ids then
      exists r: nat ::
        && r < |ids| && ids[r] == id && (forall k :: r < k < |ids| ==> ids[k] != id)
        && e == Entry(lens.withOrder(items[i], r), r)
    else e == Entry(items[i], if lens.orderOf(items[i]).Some? then lens.orderOf(items[i]).value else i)
  }

  lemma {:induction false} RankIsLast(ids: seq<string>, id: string)
    requires id in ids
    ensures forall k :: Rank(ids, id).value < k < |ids| ==> ids[k] != id
    decreases |ids|
  {
    if ids[|ids| - 1] != id { RankIsLast(ids[..|ids| - 1], id); }
  }

  /** Whatever is asked for, complete or not, the result is the stable sort of the items by where they go. */
  lemma ApplyOrderIsStable<T(!new)>(lens: Lens<T>, ids: seq<string>, items: seq<T>) returns (keyed: seq<Entry<T>>, sorted: seq<Entry<T>>)
    requires Lawful(lens)
    ensures |keyed| == |items| && forall i :: 0 <= i < |items| ==> Keyed(lens, ids, items, i, keyed[i])
    ensures Increasing(sorted) && forall key :: WithKey(sorted, key) == WithKey(keyed, key)
    ensures ApplyOrder(lens, ids, items) == Items(sorted)
  {
    keyed := Entries(lens, ids, items);
    sorted := StableSort(keyed);
    forall i | 0 <= i < |items| ensures Keyed(lens, ids, items, i, keyed[i]) {
      var id := lens.idOf(items[i]);
      if id in ids {
        RankIsLast(ids, id);
        assert keyed[i] == Entry(lens.withOrder(items[i], Rank(ids, id).value), Rank(ids, id).value);
      }
    }
    StableSortCorrect(keyed, 0);
    forall key ensures WithKey(sorted, key) == WithKey(keyed, key) { StableSortCorrect(keyed, key); }
  }
}
