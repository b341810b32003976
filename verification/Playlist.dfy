/** The rows of one stored playlist. A row's ordinal is unique, and the store refuses
    any single update that would repeat one; reordering therefore goes through
    negative ordinals. */
module Playlist {
  import opened Wrappers
  import opened QueuePatch

  datatype Item = Item(trackRef: string, details: string)

  ghost predicate Ascending(r: seq<int>) {
    forall i, j :: 0 <= i < j < |r| ==> r[i] < r[j]
  }

  ghost predicate Natural(r: seq<int>) {
    forall i :: 0 <= i < |r| ==> r[i] >= 0
  }

  // ---------- rows by position ----------

  ghost predicate Distinct(at: seq<int>) {
    forall i, j :: 0 <= i < j < |at| ==> at[i] != at[j]
  }

  ghost predicate Has(rows: map<int, Item>, at: seq<int>, items: seq<Item>)
    requires |at| == |items|
  {
    forall i {:trigger items[i]} {:trigger at[i] in rows} ::
      0 <= i < |at| ==> at[i] in rows && rows[at[i]] == items[i]
  }

  /** The first place of an ordinal; the length when it has none. */
  function Where(at: seq<int>, x: int): (k: nat)
    ensures k <= |at|
    ensures k < |at| ==> at[k] == x
    ensures k == |at| ==> forall i :: 0 <= i < |at| ==> at[i] != x
  {
    if at == [] || at[0] == x then 0 else 1 + Where(at[1..], x)
  }

  ghost predicate Only(rows: map<int, Item>, at: seq<int>) {
    forall x {:trigger Where(at, x)} :: x in rows ==> Where(at, x) < |at|
  }

  /** The table in which items[i] has the ordinal at[i]. */
  ghost predicate Holds(rows: map<int, Item>, at: seq<int>, items: seq<Item>) {
    |at| == |items| && Distinct(at) && Has(rows, at, items) && Only(rows, at)
  }

  lemma {:induction false} FreeOrdinal(rows: map<int, Item>, at: seq<int>, k: nat, to: int)
    requires Only(rows, at) && k < |at| && Distinct(at[k := to])
    ensures to == at[k] || to !in rows
  {
    if to in rows {
      var i := Where(at, to);
      assert at[k := to][i] == to && at[k := to][k] == to;
    }
  }

  lemma {:induction false} OnlyUpdate(rows: map<int, Item>, at: seq<int>, k: nat, to: int)
    requires Only(rows, at) && k < |at| && at[k] in rows
    ensures Only((rows - {at[k]})[to := rows[at[k]]], at[k := to])
  {
    var next := (rows - {at[k]})[to := rows[at[k]]];
    forall x | x in next
      ensures Where(at[k := to], x) < |at|
    {
      if x != to {
        assert at[k := to][Where(at, x)] == x;
      } else {
        assert at[k := to][k] == x;
      }
    }
  }

  /** One row gets another ordinal, which no other row has. */
  lemma {:induction false} HoldsUpdate(rows: map<int, Item>, at: seq<int>, items: seq<Item>, k: nat, to: int)
    requires Holds(rows, at, items) && k < |at| && Distinct(at[k := to])
    ensures at[k] in rows && (to == at[k] || to !in rows)
    ensures Holds((rows - {at[k]})[to := rows[at[k]]], at[k := to], items)
  {
    FreeOrdinal(rows, at, k, to);
    OnlyUpdate(rows, at, k, to);
  }

  lemma {:induction false} HoldsMore(rows: map<int, Item>, at: seq<int>, items: seq<Item>, ord: int, item: Item)
    requires Holds(rows, at, items) && Where(at, ord) == |at|
    ensures ord !in rows && Holds(rows[ord := item], at + [ord], items + [item])
  {
    var next, more := rows[ord := item], at + [ord];
    forall x | x in next
      ensures Where(more, x) < |more|
    {
      assert more[|at|] == ord;
      if x != ord {
        assert more[Where(at, x)] == x;
      }
    }
  }

  // ---------- the move ----------

  /** Where the item that ends up at j comes from, when one is moved from `from` to `to`. */
  function Source(from: nat, to: nat, j: nat): nat {
    if j == to then from
    else if from <= j < to then j + 1
    else if to < j <= from then j - 1
    else j
  }

  /** Where the item at i ends up. */
  function Target(from: nat, to: nat, i: nat): nat { Source(to, from, i) }

  function Moved<T>(q: seq<T>, from: nat, to: nat): seq<T>
    requires from < |q| && to < |q|
  {
    InsertAt(RemoveAt(q, from), to, q[from])
  }

  lemma {:induction false} MovedAt<T>(q: seq<T>, from: nat, to: nat, j: nat)
    requires from < |q| && to < |q| && j < |q|
    ensures |Moved(q, from, to)| == |q| && Source(from, to, j) < |q|
    ensures Moved(q, from, to)[j] == q[Source(from, to, j)]
    ensures Target(from, to, Source(from, to, j)) == j && Source(from, to, Target(from, to, j)) == j
  {
  }

  /** One item is where it was asked to be, and all others keep their order. */
  lemma {:induction false} MovedPlaces<T>(q: seq<T>, from: nat, to: nat)
    requires from < |q| && to < |q|
    ensures var r := Moved(q, from, to);
      |r| == |q| && r[to] == q[from] && r[..to] + r[to + 1..] == q[..from] + q[from + 1..]
  {
  }

  lemma {:induction false} MovedNowhere<T>(q: seq<T>, k: nat)
    requires k < |q|
    ensures Moved(q, k, k) == q
  {
  }

  /** `rest` lists the ordinals in the new order. */
  ghost predicate Reordered(rest: seq<int>, ords: seq<int>, from: nat, to: nat) {
    && |rest| == |ords| && from < |ords| && to < |ords|
    && forall j {:trigger rest[j]} :: 0 <= j < |rest| ==>
         Source(from, to, j) < |ords| && rest[j] == ords[Source(from, to, j)]
  }

  lemma {:induction false} MovedReordered(ords: seq<int>, from: nat, to: nat)
    requires from < |ords| && to < |ords|
    ensures Reordered(Moved(ords, from, to), ords, from, to)
  {
    MovedAt(ords, from, to, 0);
    forall j | 0 <= j < |ords|
      ensures Source(from, to, j) < |ords| && Moved(ords, from, to)[j] == ords[Source(from, to, j)]
    {
      MovedAt(ords, from, to, j);
    }
  }

  /** The ordinals while the first j items of the new order have been placed. */
  function Placed(ords: seq<int>, from: nat, to: nat, j: nat): (at: seq<int>)
    ensures |at| == |ords|
    ensures forall i :: 0 <= i < |at| ==> at[i] == if Target(from, to, i) < j then Target(from, to, i) + 1 else -ords[i]
  {
    seq(|ords|, i requires 0 <= i < |ords| => if Target(from, to, i) < j then Target(from, to, i) + 1 else -ords[i])
  }

  lemma {:induction false} PlacedDistinct(ords: seq<int>, from: nat, to: nat, j: nat)
    requires Ascending(ords) && from < |ords| && to < |ords| && Natural(ords)
    ensures Distinct(Placed(ords, from, to, j))
  {
  }

  lemma {:induction false} PlacedNext(ords: seq<int>, from: nat, to: nat, j: nat)
    requires Ascending(ords) && from < |ords| && to < |ords| && Natural(ords)
    requires j < |ords|
    ensures var k := Source(from, to, j);
      && k < |ords| && Placed(ords, from, to, j)[k] == -ords[k]
      && Placed(ords, from, to, j + 1) == Placed(ords, from, to, j)[k := j + 1]
      && Distinct(Placed(ords, from, to, j)[k := j + 1])
  {
    MovedAt(ords, from, to, j);
    PlacedDistinct(ords, from, to, j + 1);
    assert Placed(ords, from, to, j + 1) == Placed(ords, from, to, j)[Source(from, to, j) := j + 1];
  }

  lemma {:induction false} PlacedNone(ords: seq<int>, from: nat, to: nat)
    requires from < |ords| && to < |ords|
    ensures Placed(ords, from, to, 0) == Negated(ords, |ords|)
  {
  }

  /** All placed: the ordinals are 1..n and the items are in the new order. */
  lemma {:induction false} PlacedAll(rows: map<int, Item>, ords: seq<int>, items: seq<Item>, from: nat, to: nat)
    requires |ords| == |items| && from < |ords| && to < |ords|
    requires Holds(rows, Placed(ords, from, to, |ords|), items)
    ensures Holds(rows, OneTo(|ords|), Moved(items, from, to))
  {
    PlacedOnly(rows, ords, from, to);
    PlacedHas(rows, ords, items, from, to);
    MovedAt(items, from, to, 0);
  }

  lemma {:induction false} PlacedHas(rows: map<int, Item>, ords: seq<int>, items: seq<Item>, from: nat, to: nat)
    requires |ords| == |items| && from < |ords| && to < |ords|
    requires Has(rows, Placed(ords, from, to, |ords|), items)
    ensures |Moved(items, from, to)| == |ords| && Has(rows, OneTo(|ords|), Moved(items, from, to))
  {
    var n := |ords|;
    MovedAt(items, from, to, 0);
    forall j | 0 <= j < n
      ensures OneTo(n)[j] in rows && rows[OneTo(n)[j]] == Moved(items, from, to)[j]
    {
      MovedAt(items, from, to, j);
      assert Placed(ords, from, to, n)[Source(from, to, j)] == j + 1;
    }
  }

  lemma {:induction false} PlacedOnly(rows: map<int, Item>, ords: seq<int>, from: nat, to: nat)
    requires from < |ords| && to < |ords| && Only(rows, Placed(ords, from, to, |ords|))
    ensures Only(rows, OneTo(|ords|))
  {
    var n := |ords|;
    var at := Placed(ords, from, to, n);
    forall x | x in rows
      ensures Where(OneTo(n), x) < n
    {
      var i := Where(at, x);
      MovedAt(ords, to, from, i);
      assert OneTo(n)[x - 1] == x;
    }
  }

  function OneTo(n: nat): (r: seq<int>)
    ensures |r| == n
    ensures forall i :: 0 <= i < n ==> r[i] == i + 1
  {
    seq(n, i => i + 1)
  }

  /** The ordinals while the first j rows have been negated. */
  function Negated(ords: seq<int>, j: nat): (at: seq<int>)
    ensures |at| == |ords|
    ensures forall i :: 0 <= i < |at| ==> at[i] == if i < j then -ords[i] else ords[i]
  {
    seq(|ords|, i requires 0 <= i < |ords| => if i < j then -ords[i] else ords[i])
  }

  lemma {:induction false} NegatedNext(ords: seq<int>, j: nat)
    requires Ascending(ords) && j < |ords| && Natural(ords)
    ensures Negated(ords, j)[j] == ords[j]
    ensures Distinct(Negated(ords, j)[j := -ords[j]]) && Negated(ords, j + 1) == Negated(ords, j)[j := -ords[j]]
  {
  }

  /** The ordinals after row k is gone and those between it and j have moved up. */
  function Closed(ords: seq<int>, k: nat, j: nat): (at: seq<int>)
    requires k < |ords|
    ensures |at| == |ords| - 1
    ensures forall i {:trigger at[i]} :: 0 <= i < |at| ==>
              at[i] == if i < k then ords[i] else if i + 1 < j then ords[i + 1] - 1 else ords[i + 1]
  {
    seq(|ords| - 1, i requires 0 <= i < |ords| - 1 =>
      if i < k then ords[i] else if i + 1 < j then ords[i + 1] - 1 else ords[i + 1])
  }

  lemma {:induction false} ClosedNext(ords: seq<int>, k: nat, j: nat)
    requires Ascending(ords) && k < |ords| && j < |ords|
    ensures j <= k ==> Closed(ords, k, j + 1) == Closed(ords, k, j)
    ensures j > k ==>
              && Closed(ords, k, j)[j - 1] == ords[j]
              && Closed(ords, k, j + 1) == Closed(ords, k, j)[j - 1 := ords[j] - 1]
              && Distinct(Closed(ords, k, j)[j - 1 := ords[j] - 1])
  {
    var at := Closed(ords, k, j + 1);
    if j > k {
      assert at == Closed(ords, k, j)[j - 1 := ords[j] - 1];
      assert Distinct(at) by {
        assert Ascending(at);
      }
    }
  }

  lemma {:induction false} OneMoreNumbered(items: seq<Item>, list: seq<Item>, ords: seq<int>, first: int, i: nat)
    requires i < |list|
    ensures items + list[..i + 1] == items + list[..i] + [list[i]]
    ensures ords + From(first, i + 1) == ords + From(first, i) + [first + i]
  {
    assert list[..i + 1] == list[..i] + [list[i]];
    assert From(first, i + 1) == From(first, i) + [first + i];
  }

  /** `index` is the store's own index of the ordinals, in ascending order. The ghost
      fields say which item has which ordinal, also in the middle of a transaction. */
  class PlaylistTable {
    var rows: map<int, Item>
    var index: seq<int>
    ghost var items: seq<Item>
    ghost var at: seq<int>

    ghost predicate Held()
      reads this
    {
      Holds(rows, at, items)
    }

    /** Between transactions: `items` is what is read back in order of the ordinals. */
    ghost predicate Valid()
      reads this
    {
      Held() && at == index && Ascending(index) && Natural(index)
    }

    constructor ()
      ensures Valid() && items == []
    {
      rows, index, items, at := map[], [], [], [];
    }

    /** One row's update. The store would refuse an ordinal that another row has, so
        there must be none. */
    method Renumber(ord: int, to: int, ghost k: nat)
      requires Held() && k < |at| && at[k] == ord && Distinct(at[k := to])
      modifies this`rows, this`at
      ensures Held() && at == old(at)[k := to]
    {
      HoldsUpdate(rows, at, items, k, to);
      assert ord in rows && (to == ord || to !in rows);
      var item := rows[ord];
      rows := rows - {ord};
      rows := rows[to := item];
      at := at[k := to];
    }

    method Insert(ord: int, item: Item)
      requires Valid() && ord >= 0 && (forall i :: 0 <= i < |index| ==> index[i] < ord)
      modifies this
      ensures Valid() && index == old(index) + [ord] && items == old(items) + [item]
    {
      HoldsMore(rows, at, items, ord, item);
      rows := rows[ord := item];
      index, at, items := index + [ord], at + [ord], items + [item];
    }

    method Replace(list: seq<Item>)
      modifies this
      ensures Valid() && items == list && index == seq(|list|, i => i)
    {
      rows, index, items, at := map[], [], [], [];
      for ord := 0 to |list|
        invariant Valid() && items == list[..ord] && |index| == ord
        invariant forall i :: 0 <= i < ord ==> index[i] == i
      {
        Insert(ord, list[ord]);
        assert list[..ord + 1] == list[..ord] + [list[ord]];
      }
      assert list[..|list|] == list;
    }

    /** Numbering goes on after the largest ordinal, and starts at one. */
    method Append(list: seq<Item>)
      requires Valid()
      modifies this
      ensures Valid() && items == old(items) + list && index == old(index) + From(NextOrd(old(index)), |list|)
    {
      ghost var before, numbered := items, index;
      var ord := 1;
      if |index| > 0 {
        ord := index[|index| - 1] + 1;
      }
      for i := 0 to |list|
        invariant Valid() && ord == NextOrd(numbered) + i && (forall k :: 0 <= k < |index| ==> index[k] < ord)
        invariant items == before + list[..i] && index == numbered + From(NextOrd(numbered), i)
      {
        Insert(ord, list[i]);
        OneMoreNumbered(before, list, numbered, NextOrd(numbered), i);
        ord := ord + 1;
      }
      assert list[..|list|] == list;
    }

    /** A page of the list, in order. */
    method Page(offset: nat, limit: nat) returns (page: seq<Item>)
      requires Valid()
      ensures page == Slice(items, offset, limit)
    {
      page := [];
      var i := offset;
      while i < |index| && i - offset < limit
        invariant offset <= i && (i <= |index| || i == offset) && i - offset <= limit
        invariant page == Slice(items, offset, i - offset)
      {
        page := page + [rows[index[i]]];
        i := i + 1;
      }
    }

    /** The later rows move up one by one, the nearest first. */
    method CloseOne(ghost ords: seq<int>, ghost k: nat, ord: int, ghost j: nat)
      requires Held() && Ascending(ords) && k < j < |ords| && at == Closed(ords, k, j) && ord == ords[j]
      modifies this`rows, this`at
      ensures Held() && at == Closed(ords, k, j + 1)
    {
      ClosedNext(ords, k, j);
      Renumber(ord, ord - 1, j - 1);
    }

    method CloseGap(ords: seq<int>, k: nat)
      requires Held() && Ascending(ords) && k < |ords| && at == Closed(ords, k, 0)
      modifies this`rows, this`at
      ensures Held() && at == Closed(ords, k, |ords|)
    {
      for j := 0 to |ords|
        invariant Held() && at == Closed(ords, k, j)
      {
        if ords[j] > ords[k] {
          CloseOne(ords, k, ords[j], j);
        } else {
          ClosedNext(ords, k, j);
        }
      }
    }

    method Erase(k: nat)
      requires Valid() && k < |index|
      modifies this`rows, this`at, this`items
      ensures Held() && at == Closed(index, k, 0) && items == RemoveAt(old(items), k)
    {
      DeletedHolds(rows, index, items, k);
      rows := rows - {index[k]};
      at, items := Closed(index, k, 0), RemoveAt(items, k);
    }

    /** Deletes by ordinal. */
    method Delete(ord: int) returns (ok: bool)
      requires Valid()
      modifies this
      ensures Valid() && ok == (Where(old(index), ord) < |old(index)|)
      ensures !ok ==> rows == old(rows) && index == old(index) && items == old(items)
      ensures ok ==> items == RemoveAt(old(items), Where(old(index), ord))
      ensures ok ==> index == Closed(old(index), Where(old(index), ord), |old(index)|)
    {
      var k := Where(index, ord);
      if k == |index| {
        return false;
      }
      Erase(k);
      CloseGap(index, k);
      ClosedAscending(index, k);
      index := Closed(index, k, |index|);
      return true;
    }

    method NegateOne(ghost ords: seq<int>, ord: int, ghost j: nat)
      requires Held() && Ascending(ords) && Natural(ords) && j < |ords| && at == Negated(ords, j) && ord == ords[j]
      modifies this`rows, this`at
      ensures Held() && at == Negated(ords, j + 1)
    {
      NegatedNext(ords, j);
      Renumber(ord, -ord, j);
    }

    /** Every ordinal is negated, one row at a time, to make room. */
    method NegateAll(ords: seq<int>)
      requires Held() && Ascending(ords) && Natural(ords) && at == ords
      modifies this`rows, this`at
      ensures Held() && at == Negated(ords, |ords|)
    {
      assert Negated(ords, 0) == ords;
      for j := 0 to |ords|
        invariant Held() && at == Negated(ords, j)
      {
        NegateOne(ords, ords[j], j);
      }
    }

    method PlaceOne(oldOrd: int, newOrd: nat, ghost ords: seq<int>, ghost from: nat, ghost to: nat)
      requires Held() && Ascending(ords) && Natural(ords) && from < |ords| && to < |ords|
      requires newOrd < |ords| && Source(from, to, newOrd) < |ords| && oldOrd == ords[Source(from, to, newOrd)]
      requires at == Placed(ords, from, to, newOrd)
      modifies this`rows, this`at
      ensures Held() && at == Placed(ords, from, to, newOrd + 1)
    {
      PlacedNext(ords, from, to, newOrd);
      Renumber(-oldOrd, newOrd + 1, Source(from, to, newOrd));
    }

    /** The rows, negated, are placed in their new order. */
    method PlaceAll(rest: seq<int>, ghost ords: seq<int>, ghost from: nat, ghost to: nat)
      requires Held() && Ascending(ords) && Natural(ords) && Reordered(rest, ords, from, to)
      requires at == Placed(ords, from, to, 0)
      modifies this`rows, this`at
      ensures Held() && at == Placed(ords, from, to, |ords|)
    {
      for newOrd := 0 to |rest|
        invariant Held() && at == Placed(ords, from, to, newOrd)
      {
        PlaceOne(rest[newOrd], newOrd, ords, from, to);
      }
    }

    /** The ordinals in the new order. */
    method Reorder(from: nat, to: nat) returns (rest: seq<int>)
      requires from < |index| && to < |index|
      ensures Reordered(rest, index, from, to)
    {
      var moved := index[from];
      rest := index[..from] + index[from + 1..];
      rest := rest[..to] + [moved] + rest[to..];
      MovedReordered(index, from, to);
      assert rest == Moved(index, from, to);
    }

    /** All ordinals are rewritten in the new order, by way of negative ones. */
    method Rewrite(from: nat, to: nat)
      requires Valid() && from < |index| && to < |index|
      modifies this
      ensures Valid() && index == OneTo(|old(index)|) && items == Moved(old(items), from, to)
    {
      var rest := Reorder(from, to);
      NegateAll(index);
      PlacedNone(index, from, to);
      PlaceAll(rest, index, from, to);
      PlacedAll(rows, index, items, from, to);
      items, at := Moved(items, from, to), OneTo(|index|);
      index := OneTo(|index|);
    }

    static method Clamped(toOrd: int, n: int) returns (target: int)
      requires n >= 1
      ensures target == Clamp(toOrd, 1, n) && 1 <= target <= n
    {
      target := toOrd;
      if target < 1 {
        target := 1;
      }
      if target > n {
        target := n;
      }
    }

    /** Moves the item at one position, counted from one, to another. An item that
        stays where it is leaves all ordinals as they are. */
    method Move(ord: int, toOrd: int) returns (r: Option<int>)
      requires Valid()
      modifies this
      ensures Valid()
      ensures r.Some? <==> 1 <= ord <= |old(index)|
      ensures r.Some? && 1 <= toOrd <= |old(index)| ==> r.value == toOrd
      ensures r.Some? && toOrd < 1 ==> r.value == 1
      ensures r.Some? && toOrd > |old(index)| ==> r.value == |old(index)|
      ensures r.None? ==> items == old(items)
      ensures r.Some? ==> items == Moved(old(items), ord - 1, r.value - 1)
      ensures index == if r.None? || ord == r.value then old(index) else OneTo(|old(index)|)
    {
      var n := |index|;
      if ord < 1 || ord > n {
        return None;
      }
      var target := Clamped(toOrd, n);
      if ord == target {
        MovedNowhere(items, ord - 1);
        return Some(target);
      }
      Rewrite(ord - 1, target - 1);
      return Some(target);
    }
  }

  function NextOrd(index: seq<int>): int {
    if index == [] then 1 else index[|index| - 1] + 1
  }

  /** The number after all there are. */
  lemma {:induction false} NextOrdIsNext(index: seq<int>)
    requires Ascending(index)
    ensures forall i :: 0 <= i < |index| ==> index[i] < NextOrd(index)
    ensures if index == [] then NextOrd(index) == 1 else NextOrd(index) - 1 in index
  {
    assert index != [] ==> index[|index| - 1] == NextOrd(index) - 1;
  }

  function From(start: int, n: nat): (r: seq<int>)
    ensures |r| == n
    ensures forall i :: 0 <= i < n ==> r[i] == start + i
  {
    seq(n, i => start + i)
  }

  lemma {:induction false} ClosedAscending(ords: seq<int>, k: nat)
    requires Ascending(ords) && Natural(ords) && k < |ords|
    ensures Ascending(Closed(ords, k, |ords|)) && Natural(Closed(ords, k, |ords|))
  {
  }

  lemma {:induction false} DeletedHolds(rows: map<int, Item>, ords: seq<int>, items: seq<Item>, k: nat)
    requires Holds(rows, ords, items) && k < |ords|
    ensures Holds(rows - {ords[k]}, Closed(ords, k, 0), RemoveAt(items, k))
  {
    var at, left := Closed(ords, k, 0), rows - {ords[k]};
    assert at == RemoveAt(ords, k);
    forall x | x in left
      ensures Where(at, x) < |at|
    {
      var i := Where(ords, x);
      assert at[if i < k then i else i - 1] == x;
    }
  }

  /** The nearest place in the range. */
  function Clamp(x: int, lo: int, hi: int): (r: int)
    requires lo <= hi
    ensures lo <= r <= hi && (lo <= x <= hi ==> r == x)
    ensures (x < lo ==> r == lo) && (x > hi ==> r == hi)
  {
    if x < lo then lo else if x > hi then hi else x
  }

  function Slice<T>(q: seq<T>, offset: nat, limit: nat): (r: seq<T>)
    ensures |r| <= limit && (offset <= |q| ==> offset + |r| <= |q|)
    ensures |r| < limit ==> offset + |r| >= |q|
  {
    if offset >= |q| then [] else if limit > |q| - offset then q[offset..] else q[offset..offset + limit]
  }

  /** As many as asked for, or to the end of the list, each from its place. */
  lemma {:induction false} SliceIs<T>(q: seq<T>, offset: nat, limit: nat)
    ensures var r := Slice(q, offset, limit);
      && |r| == (if offset >= |q| then 0 else if limit < |q| - offset then limit else |q| - offset)
      && forall i :: 0 <= i < |r| ==> r[i] == q[offset + i]
  {
  }
}
