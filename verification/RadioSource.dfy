/** A playlist as a radio source, and the page a preview makes of one. The playlist
    itself may change between batches; what holds for a fixed one is stated so. */
module RadioSource {
  import opened Wrappers
  import opened Playlist

  predicate Permutation(perm: seq<nat>, n: nat) {
    |perm| == n && (forall i :: 0 <= i < n ==> perm[i] < n) && (forall i, j :: 0 <= i < j < n ==> perm[i] != perm[j])
  }

  /** The items at those of the given places that the list still has. */
  function Picked(items: seq<Item>, places: seq<nat>): seq<Item> {
    if places == [] then []
    else
      var n := |places| - 1;
      Picked(items, places[..n]) + if places[n] < |items| then [items[places[n]]] else []
  }

  lemma {:induction false} PickedConcat(items: seq<Item>, a: seq<nat>, b: seq<nat>)
    ensures Picked(items, a + b) == Picked(items, a) + Picked(items, b)
    decreases |b|
  {
    if b == [] {
      assert a + b == a;
    } else {
      var n := |b| - 1;
      assert (a + b)[..|a| + n] == a + b[..n];
      PickedConcat(items, a, b[..n]);
    }
  }

  /** The bag a batch is drawn from: what is left of it, or else a new one, unless the
      one there was is all there is. */
  function FullBag(bag: seq<nat>, over: bool, perm: seq<nat>): seq<nat> {
    if bag != [] then bag else if over then [] else perm
  }

  class PlaylistSource {
    const shuffle: bool
    const once: bool
    var total: nat
    var cursor: nat
    var bag: seq<nat>
    var bagUsed: bool

    constructor (shuffle: bool, once: bool, count: nat)
      ensures this.shuffle == shuffle && this.once == once && total == count
      ensures cursor == 0 && bag == [] && !bagUsed
    {
      this.shuffle, this.once, total := shuffle, once, count;
      cursor, bag, bagUsed := 0, [], false;
    }

    /** One batch from the list as it now is; `perm` is the order a new bag would get. */
    method NextBatch(n: nat, items: seq<Item>, perm: seq<nat>) returns (tracks: seq<Item>, exhausted: bool)
      requires Permutation(perm, |items|)
      modifies this
      ensures total == |items|
      ensures items == [] ==> tracks == [] && exhausted && cursor == old(cursor) && bag == old(bag)
      ensures items != [] && !shuffle ==>
                && tracks == SequentialBatch(items, once, old(cursor), n)
                && cursor == SequentialCursor(items, once, old(cursor), n)
                && exhausted == (once && cursor >= |items|)
                && bag == old(bag) && bagUsed == old(bagUsed)
      ensures items != [] && shuffle ==>
                var full := FullBag(old(bag), once && old(bagUsed), perm);
                && tracks == Picked(items, Slice(full, 0, n)) && bag == full[|Slice(full, 0, n)|..]
                && bagUsed == (old(bagUsed) || old(bag) == []) && exhausted == (once && bag == [])
                && cursor == old(cursor)
    {
      var count := |items|;
      total := count;
      if count == 0 {
        return [], true;
      }
      if shuffle {
        tracks, exhausted := BatchShuffle(n, items, perm);
      } else {
        tracks, exhausted := BatchSequential(n, items);
      }
    }

    method BatchSequential(n: nat, items: seq<Item>) returns (tracks: seq<Item>, exhausted: bool)
      requires items != []
      modifies this`cursor
      ensures tracks == SequentialBatch(items, once, old(cursor), n)
      ensures cursor == SequentialCursor(items, once, old(cursor), n)
      ensures exhausted == (once && cursor >= |items|)
    {
      var count := |items|;
      if once && cursor >= count {
        return [], true;
      }
      if cursor >= count {
        cursor := 0;
      }
      tracks := Slice(items, cursor, n);
      cursor := cursor + |tracks|;
      exhausted := false;
      if cursor >= count {
        if once {
          exhausted := true;
        } else {
          if |tracks| < n {
            var more := Slice(items, 0, n - |tracks|);
            tracks := tracks + more;
          }
          assert cursor == count && count % count == 0;
          cursor := cursor % count;
        }
      }
    }

    method BatchShuffle(n: nat, items: seq<Item>, perm: seq<nat>) returns (tracks: seq<Item>, exhausted: bool)
      requires items != [] && Permutation(perm, |items|)
      modifies this`bag, this`bagUsed
      ensures var full := FullBag(old(bag), once && old(bagUsed), perm);
        && tracks == Picked(items, Slice(full, 0, n)) && bag == full[|Slice(full, 0, n)|..]
        && bagUsed == (old(bagUsed) || old(bag) == []) && exhausted == (once && bag == [])
    {
      if |bag| == 0 {
        if once && bagUsed {
          return [], true;
        }
        bag := perm;
        bagUsed := true;
      }
      var take := if n < |bag| then n else |bag|;
      var indices := bag[..take];
      assert indices == Slice(bag, 0, n);
      bag := bag[take..];
      tracks := [];
      for i := 0 to |indices|
        invariant tracks == Picked(items, indices[..i])
      {
        assert indices[..i + 1][..i] == indices[..i];
        if indices[i] < |items| {
          tracks := tracks + [items[indices[i]]];
        }
      }
      assert indices[..|indices|] == indices;
      exhausted := once && |bag| == 0;
    }
  }

  // ---------- in order ----------

  /** A batch read in order; without `once` it goes on at the beginning. */
  function SequentialBatch(items: seq<Item>, once: bool, cursor: nat, n: nat): seq<Item>
    requires items != []
  {
    if once then Slice(items, cursor, n)
    else
      var start := if cursor >= |items| then 0 else cursor;
      var first := Slice(items, start, n);
      if start + |first| < |items| then first else first + Slice(items, 0, n - |first|)
  }

  function SequentialCursor(items: seq<Item>, once: bool, cursor: nat, n: nat): nat
    requires items != []
  {
    if once then (if cursor >= |items| then cursor else cursor + |Slice(items, cursor, n)|)
    else
      var start := if cursor >= |items| then 0 else cursor;
      var end := start + |Slice(items, start, n)|;
      if end < |items| then end else 0
  }

  /** Read once, a batch is the next stretch of the list, as long as asked for or to its end. */
  lemma {:induction false} OnceReadsOn(items: seq<Item>, cursor: nat, n: nat)
    requires items != [] && cursor <= |items|
    ensures var batch := SequentialBatch(items, true, cursor, n);
      && |batch| == (if n < |items| - cursor then n else |items| - cursor)
      && forall i :: 0 <= i < |batch| ==> batch[i] == items[cursor + i]
  {
  }

  /** Looping, a batch goes on at the beginning of the list, once. */
  lemma {:induction false} LoopingReadsOn(items: seq<Item>, cursor: nat, n: nat)
    requires cursor < |items|
    ensures var batch := SequentialBatch(items, false, cursor, n);
      && |batch| == (if n < 2 * |items| - cursor then n else 2 * |items| - cursor)
      && forall i :: 0 <= i < |batch| ==>
           batch[i] == items[if cursor + i < |items| then cursor + i else cursor + i - |items|]
  {
    var first := Slice(items, cursor, n);
    if cursor + |first| == |items| {
      var more := Slice(items, 0, n - |first|);
      assert SequentialBatch(items, false, cursor, n) == first + more;
    }
  }

  /** When the list has become shorter than the cursor: looping starts over, and read once
      there is nothing left. */
  lemma {:induction false} ShrunkReadsAnew(items: seq<Item>, cursor: nat, n: nat)
    requires items != [] && cursor >= |items|
    ensures SequentialBatch(items, false, cursor, n) == SequentialBatch(items, false, 0, n)
    ensures SequentialCursor(items, false, cursor, n) == SequentialCursor(items, false, 0, n)
    ensures SequentialBatch(items, true, cursor, n) == [] && SequentialCursor(items, true, cursor, n) == cursor
  {
  }

  /** Looping is cyclic, batch after batch, exactly as long as no batch goes on at the
      beginning, unless it then takes the whole list again: the next batch starts
      over at the first track although this one has already been there. */
  lemma {:induction false} LoopingIsCyclicUnlessWrapped(items: seq<Item>, cursor: nat, n: nat)
    requires cursor < |items|
    ensures var batch := SequentialBatch(items, false, cursor, n);
      SequentialCursor(items, false, cursor, n) == (cursor + |batch|) % |items|
      <==> cursor + n <= |items| || n >= 2 * |items| - cursor
  {
    var len := |SequentialBatch(items, false, cursor, n)|;
    ModUpToTwice(cursor + len, |items|);
    if cursor + n > |items| {
      assert |Slice(items, cursor, n)| == |items| - cursor;
      assert len > |items| - cursor;
    }
  }

  lemma {:induction false} ModUpToTwice(a: nat, m: nat)
    requires 0 < m && a <= 2 * m
    ensures a % m == if a < m then a else if a < 2 * m then a - m else 0
  {
    if a == 2 * m {
      assert (2 * m) % m == 0;
    }
  }

  // ---------- shuffled, once ----------

  lemma {:induction false} PickedAll(items: seq<Item>, places: seq<nat>)
    requires forall i :: 0 <= i < |places| ==> places[i] < |items|
    ensures |Picked(items, places)| == |places|
    ensures forall i :: 0 <= i < |places| ==> Picked(items, places)[i] == items[places[i]]
    decreases |places|
  {
    if places != [] {
      PickedAll(items, places[..|places| - 1]);
    }
  }

  /** A permutation of the places below n, one place taken away, is one of those below n - 1. */
  lemma {:induction false} PermutationHas(perm: seq<nat>, n: nat, x: nat) returns (k: nat)
    requires Permutation(perm, n) && x < n
    ensures k < n && perm[k] == x
    decreases n
  {
    if perm[n - 1] == x {
      k := n - 1;
    } else if perm[n - 1] == n - 1 {
      k := PermutationHas(perm[..n - 1], n - 1, x);
    } else {
      var big := perm[n - 1];
      var rest := seq(n - 1, i requires 0 <= i < n - 1 => if perm[i] == n - 1 then big else perm[i]);
      if x == n - 1 {
        k := PermutationHas(rest, n - 1, big);
      } else {
        k := PermutationHas(rest, n - 1, x);
      }
    }
  }

  /** The permutation without its largest place. */
  lemma {:induction false} WithoutLast(perm: seq<nat>, n: nat, k: nat)
    requires Permutation(perm, n) && k < n && perm[k] == n - 1
    ensures Permutation(perm[..k] + perm[k + 1..], n - 1)
  {
    var rest := perm[..k] + perm[k + 1..];
    assert forall i :: 0 <= i < n - 1 ==> rest[i] == perm[if i < k then i else i + 1];
  }

  lemma {:induction false} PickedWithoutLast(items: seq<Item>, perm: seq<nat>, k: nat)
    requires Permutation(perm, |items|) && k < |items| && perm[k] == |items| - 1
    ensures var picked := Picked(items, perm);
      && |picked| == |items| && picked[k] == items[|items| - 1]
      && Picked(items[..|items| - 1], perm[..k] + perm[k + 1..]) == picked[..k] + picked[k + 1..]
  {
    var n := |items|;
    var rest, fewer, picked := perm[..k] + perm[k + 1..], items[..n - 1], Picked(items, perm);
    WithoutLast(perm, n, k);
    PickedAll(items, perm);
    PickedAll(fewer, rest);
    forall i | 0 <= i < n - 1
      ensures Picked(fewer, rest)[i] == (picked[..k] + picked[k + 1..])[i]
    {
      assert rest[i] == perm[if i < k then i else i + 1];
    }
  }

  lemma {:induction false} MultisetWithout(q: seq<Item>, k: nat)
    requires k < |q|
    ensures multiset(q) == multiset(q[..k] + q[k + 1..]) + multiset{q[k]}
  {
    assert q == q[..k] + [q[k]] + q[k + 1..];
  }

  /** Two lists that have the same last and the same rest, in whatever order. */
  lemma {:induction false} SameRest(a: seq<Item>, b: seq<Item>, k: nat)
    requires k < |a| == |b| && a[k] == b[|b| - 1]
    requires multiset(a[..k] + a[k + 1..]) == multiset(b[..|b| - 1])
    ensures multiset(a) == multiset(b)
  {
    MultisetWithout(a, k);
    assert b == b[..|b| - 1] + [b[|b| - 1]];
  }

  /** What a bag holds is the list itself, in another order. */
  lemma {:induction false} PickedPermutation(items: seq<Item>, perm: seq<nat>)
    requires Permutation(perm, |items|)
    ensures multiset(Picked(items, perm)) == multiset(items)
    decreases |items|
  {
    if items != [] {
      var n := |items| - 1;
      var k := PermutationHas(perm, n + 1, n);
      var rest := perm[..k] + perm[k + 1..];
      WithoutLast(perm, n + 1, k);
      PickedWithoutLast(items, perm, k);
      PickedPermutation(items[..n], rest);
      SameRest(Picked(items, perm), items, k);
    }
  }

  lemma {:induction false} Drawn(items: seq<Item>, full: seq<nat>, n: nat, before: seq<Item>)
    ensures var drawn := Slice(full, 0, n);
      before + Picked(items, drawn) + Picked(items, full[|drawn|..]) == before + Picked(items, full)
  {
    var drawn := Slice(full, 0, n);
    assert full == drawn + full[|drawn|..];
    PickedConcat(items, drawn, full[|drawn|..]);
  }

  /** Shuffled and once, any batch sizes: together the batches are the playlist, every
      track as often as it is in it, and then the source is exhausted for good. */
  method DrainShuffled(source: PlaylistSource, items: seq<Item>, perm: seq<nat>, sizes: seq<nat>)
    returns (all: seq<Item>, exhausted: bool)
    requires source.shuffle && source.once && source.bag == [] && !source.bagUsed
    requires items != [] && Permutation(perm, |items|)
    modifies source
    ensures exhausted ==> multiset(all) == multiset(items)
    ensures exhausted <==> sizes != [] && source.bag == []
    ensures sizes != [] ==> multiset(all + Picked(items, source.bag)) == multiset(items)
  {
    all, exhausted := [], false;
    for i := 0 to |sizes|
      invariant i > 0 <==> source.bagUsed
      invariant i == 0 ==> source.bag == []
      invariant all + Picked(items, FullBag(source.bag, source.bagUsed, perm)) == Picked(items, perm)
      invariant exhausted <==> i > 0 && source.bag == []
    {
      Drawn(items, FullBag(source.bag, source.bagUsed, perm), sizes[i], all);
      var batch, over := source.NextBatch(sizes[i], items, perm);
      all, exhausted := all + batch, over;
    }
    PickedPermutation(items, perm);
  }

  /** Shuffled, looping or not: from an empty bag on, batches of any sizes are one whole
      bag, up to where it is empty, and only then is there a new one. */
  method DrainBag(source: PlaylistSource, items: seq<Item>, perm: seq<nat>, other: seq<nat>, sizes: seq<nat>)
    returns (all: seq<Item>, count: nat)
    requires source.shuffle && source.bag == [] && !(source.once && source.bagUsed) && sizes != []
    requires items != [] && Permutation(perm, |items|) && Permutation(other, |items|)
    modifies source
    ensures 1 <= count <= |sizes| && (count < |sizes| ==> source.bag == [])
    ensures multiset(all + Picked(items, source.bag)) == multiset(items)
    ensures source.bag == [] ==> multiset(all) == multiset(items)
  {
    Drawn(items, perm, sizes[0], []);
    var exhausted;
    all, exhausted := source.NextBatch(sizes[0], items, perm);
    assert [] + all == all && [] + Picked(items, perm) == Picked(items, perm);
    count := 1;
    while count < |sizes| && source.bag != []
      invariant 1 <= count <= |sizes|
      invariant all + Picked(items, source.bag) == Picked(items, perm)
    {
      Drawn(items, source.bag, sizes[count], all);
      var batch;
      batch, exhausted := source.NextBatch(sizes[count], items, other);
      all := all + batch;
      count := count + 1;
    }
    PickedPermutation(items, perm);
  }

  // ---------- a page of a source ----------

  /** What a source answers to one request for a batch, and the total it then knows. */
  datatype Delivery = Broken | Delivered(batch: seq<Item>, exhausted: bool, total: Option<nat>)

  /** Any source, by what it would deliver request after request, and the total it knows
      before the first. */
  datatype Source = Source(opening: Option<nat>, deliveries: nat -> Delivery)

  function Delivers(s: Source, k: nat): Delivery { s.deliveries(k) }

  datatype Page = Page(tracks: seq<Item>, total: Option<nat>)

  /** The first k batches together. */
  function Joined(s: Source, k: nat): seq<Item> {
    if k == 0 then []
    else Joined(s, k - 1) + if Delivers(s, k - 1).Broken? then [] else Delivers(s, k - 1).batch
  }

  function TotalAt(s: Source, k: nat): Option<nat> {
    if k == 0 then s.opening else if Delivers(s, k - 1).Broken? then None else Delivers(s, k - 1).total
  }

  predicate ExhaustedAt(s: Source, k: nat) {
    k > 0 && Delivers(s, k - 1).Delivered? && Delivers(s, k - 1).exhausted
  }

  predicate AllRead(s: Source, k: nat) { TotalAt(s, k).Some? && |Joined(s, k)| >= TotalAt(s, k).value }

  /** After k batches another one is asked for. */
  predicate Continues(s: Source, target: nat, k: nat) {
    |Joined(s, k)| < target && !AllRead(s, k) && !ExhaustedAt(s, k)
  }

  /** The k-th batch is an error, or an empty one that is not the last. */
  predicate Fails(s: Source, k: nat) {
    || Delivers(s, k).Broken?
    || (Delivers(s, k).batch == [] && !AllRead(s, k + 1) && !ExhaustedAt(s, k + 1))
  }

  /** The total last known, or else what an exhausted source came to. */
  function LastTotal(s: Source, k: nat): Option<nat> {
    if TotalAt(s, k).Some? then TotalAt(s, k) else if k == 0 then None else LastTotal(s, k - 1)
  }

  function FinalTotal(s: Source, k: nat): Option<nat> {
    if LastTotal(s, k).None? && ExhaustedAt(s, k) then Some(|Joined(s, k)|) else LastTotal(s, k)
  }

  /** The k-th batch was asked for and was no error, and so were those before it. */
  ghost predicate WentOn(s: Source, target: nat, k: nat) {
    forall j :: 0 <= j < k ==> Continues(s, target, j) && !Fails(s, j)
  }

  /** The part of a batch that lies on the page from `offset` to `target`. */
  function OnPage(batch: seq<Item>, processed: nat, offset: nat, target: nat): seq<Item>
    requires processed < target
  {
    var from := if offset - processed > 0 then offset - processed else 0;
    var to := if target - processed < |batch| then target - processed else |batch|;
    if from < to then batch[from..to] else []
  }

  /** The loop of a preview. It always ends: it goes on only after batches that bring
      something. */
  method Materialize(s: Source, limit: nat, offset: nat) returns (page: Option<Page>, k: nat)
    requires limit >= 1
    ensures WentOn(s, offset + limit, k)
    ensures if Continues(s, offset + limit, k) then page.None? && Fails(s, k)
            else page == Some(Page(Slice(Joined(s, k), offset, limit), FinalTotal(s, k)))
  {
    var target := offset + limit;
    var tracks, processed := [], 0;
    var total: Option<nat> := None;
    k := 0;
    while processed < target
      invariant processed == |Joined(s, k)| && tracks == Slice(Joined(s, k), offset, limit)
      invariant total == if k == 0 then None else LastTotal(s, k)
      invariant !ExhaustedAt(s, k) && (k > 0 ==> !AllRead(s, k))
      invariant WentOn(s, target, k)
      decreases target - processed
    {
      if TotalAt(s, k).Some? {
        total := TotalAt(s, k);
        if processed >= total.value {
          break;
        }
      }
      assert Continues(s, target, k) && total == LastTotal(s, k);
      var delivery := Delivers(s, k);
      if delivery.Broken? {
        return None, k;
      }
      PageGrows(s, limit, offset, k);
      tracks := tracks + OnPage(delivery.batch, processed, offset, target);
      processed := processed + |delivery.batch|;
      if delivery.total.Some? {
        total := delivery.total;
        if processed >= total.value {
          k := k + 1;
          break;
        }
      }
      if delivery.exhausted {
        if total.None? {
          total := Some(processed);
        }
        k := k + 1;
        break;
      }
      if |delivery.batch| == 0 {
        return None, k;
      }
      k := k + 1;
    }
    assert tracks == Slice(Joined(s, k), offset, limit);
    assert !Continues(s, target, k);
    assert total == FinalTotal(s, k);
    page := Some(Page(tracks, total));
  }

  lemma {:induction false} OneMore(s: Source, target: nat, k: nat)
    requires Delivers(s, k).Delivered?
    ensures Joined(s, k + 1) == Joined(s, k) + Delivers(s, k).batch
    ensures TotalAt(s, k + 1) == Delivers(s, k).total && (ExhaustedAt(s, k + 1) <==> Delivers(s, k).exhausted)
    ensures LastTotal(s, k + 1) == if TotalAt(s, k + 1).Some? then TotalAt(s, k + 1) else LastTotal(s, k)
    ensures Fails(s, k) <==> Delivers(s, k).batch == [] && !AllRead(s, k + 1) && !ExhaustedAt(s, k + 1)
    ensures WentOn(s, target, k) && Continues(s, target, k) && !Fails(s, k) ==> WentOn(s, target, k + 1)
  {
  }

  /** A page grows by the part of each batch that lies on it. */
  lemma {:induction false} SliceGrows(all: seq<Item>, batch: seq<Item>, offset: nat, limit: nat)
    requires |all| < offset + limit
    ensures Slice(all + batch, offset, limit) == Slice(all, offset, limit) + OnPage(batch, |all|, offset, offset + limit)
  {
    var grown := Slice(all, offset, limit) + OnPage(batch, |all|, offset, offset + limit);
    var whole := Slice(all + batch, offset, limit);
    assert |grown| == |whole|;
    forall i | 0 <= i < |whole|
      ensures whole[i] == grown[i]
    {
      assert whole[i] == (all + batch)[offset + i];
    }
  }

  /** What one more batch brings to the page and to what is known. */
  lemma {:induction false} PageGrows(s: Source, limit: nat, offset: nat, k: nat)
    requires Delivers(s, k).Delivered? && Continues(s, offset + limit, k)
    ensures var d, joined, target := Delivers(s, k), Joined(s, k), offset + limit;
      && |Joined(s, k + 1)| == |joined| + |d.batch|
      && Slice(Joined(s, k + 1), offset, limit) == Slice(joined, offset, limit) + OnPage(d.batch, |joined|, offset, target)
      && TotalAt(s, k + 1) == d.total && (ExhaustedAt(s, k + 1) <==> d.exhausted)
      && LastTotal(s, k + 1) == (if d.total.Some? then d.total else LastTotal(s, k))
      && (Fails(s, k) <==> d.batch == [] && !AllRead(s, k + 1) && !d.exhausted)
      && (WentOn(s, target, k) && !Fails(s, k) ==> WentOn(s, target, k + 1))
  {
    OneMore(s, offset + limit, k);
    SliceGrows(Joined(s, k), Delivers(s, k).batch, offset, limit);
  }

  /** So far the source has read out one list, and said nothing wrong about it. */
  ghost predicate Lists(s: Source, items: seq<Item>, k: nat) {
    && Joined(s, k) <= items
    && (forall j: nat {:trigger TotalAt(s, j)} :: j <= k && TotalAt(s, j).Some? ==> TotalAt(s, j).value == |items|)
    && (ExhaustedAt(s, k) ==> Joined(s, k) == items)
  }

  lemma {:induction false} ListedTotal(s: Source, items: seq<Item>, k: nat)
    requires forall j: nat {:trigger TotalAt(s, j)} :: j <= k && TotalAt(s, j).Some? ==> TotalAt(s, j).value == |items|
    ensures LastTotal(s, k).Some? ==> LastTotal(s, k).value == |items|
  {
    if TotalAt(s, k).None? && k > 0 {
      ListedTotal(s, items, k - 1);
    }
  }

  /** Where the loop ends it has exactly the page of the list, and its true total unless
      the source never told and the page ended first. */
  lemma {:induction false} PageIsExact(s: Source, items: seq<Item>, limit: nat, offset: nat, k: nat)
    requires Lists(s, items, k) && !Continues(s, offset + limit, k)
    ensures Slice(Joined(s, k), offset, limit) == Slice(items, offset, limit)
    ensures if FinalTotal(s, k).Some? then FinalTotal(s, k).value == |items|
            else |Joined(s, k)| >= offset + limit && s.opening.None?
  {
    ListedTotal(s, items, k);
    OpeningTotal(s, k);
    var all := Joined(s, k);
    assert all == items[..|all|];
    if |all| < offset + limit {
      assert all == items;
    } else {
      assert Slice(all, offset, limit) == all[offset..offset + limit] == items[offset..offset + limit];
    }
  }

  lemma {:induction false} OpeningTotal(s: Source, k: nat)
    ensures s.opening.Some? ==> LastTotal(s, k).Some?
  {
    if k > 0 {
      OpeningTotal(s, k - 1);
    }
  }

  // ---------- the preview of a playlist ----------

  /** Where the cursor of a playlist that is read once, in order, stands after k batches. */
  function CursorAt(items: seq<Item>, limit: nat, k: nat): nat {
    if items == [] || k == 0 then 0 else SequentialCursor(items, true, CursorAt(items, limit, k - 1), limit)
  }

  /** What it answers to the k-th request. */
  function PlaylistDelivery(items: seq<Item>, limit: nat, k: nat): Delivery {
    Delivered(if items == [] then [] else SequentialBatch(items, true, CursorAt(items, limit, k), limit),
              CursorAt(items, limit, k + 1) >= |items|, Some(|items|))
  }

  function PlaylistAsSource(items: seq<Item>, limit: nat): Source {
    Source(Some(|items|), (k: nat) => PlaylistDelivery(items, limit, k))
  }

  /** A fresh playlist source really answers so, request after request. */
  method Answer(items: seq<Item>, limit: nat, k: nat) returns (answer: Delivery)
    ensures answer == PlaylistDelivery(items, limit, k)
  {
    var source := new PlaylistSource(false, true, |items|);
    var perm: seq<nat> := seq(|items|, i => i);
    for i := 0 to k
      invariant !source.shuffle && source.once && source.total == |items|
      invariant source.cursor == CursorAt(items, limit, i)
    {
      var tracks, exhausted := source.NextBatch(limit, items, perm);
    }
    var tracks, exhausted := source.NextBatch(limit, items, perm);
    answer := Delivered(tracks, exhausted, Some(source.total));
  }

  lemma {:induction false} NextStretch(items: seq<Item>, cursor: nat, n: nat)
    requires items != [] && cursor <= |items|
    ensures SequentialCursor(items, true, cursor, n) <= |items|
    ensures items[..cursor] + SequentialBatch(items, true, cursor, n) == items[..SequentialCursor(items, true, cursor, n)]
    ensures n > 0 && cursor < |items| ==> SequentialBatch(items, true, cursor, n) != []
  {
  }

  lemma {:induction false} JoinedNext(s: Source, k: nat, all: seq<Item>, batch: seq<Item>)
    requires k > 0 && Joined(s, k - 1) == all
    requires Delivers(s, k - 1).Delivered? && Delivers(s, k - 1).batch == batch
    ensures Joined(s, k) == all + batch
  {
  }

  lemma {:induction false} PlaylistDelivers(items: seq<Item>, limit: nat, k: nat)
    ensures Delivers(PlaylistAsSource(items, limit), k) == PlaylistDelivery(items, limit, k)
  {
  }

  lemma {:induction false} CursorNext(items: seq<Item>, limit: nat, k: nat)
    requires CursorAt(items, limit, k) <= |items|
    ensures CursorAt(items, limit, k + 1) <= |items|
    ensures items[..CursorAt(items, limit, k)] + PlaylistDelivery(items, limit, k).batch
         == items[..CursorAt(items, limit, k + 1)]
  {
    if items != [] {
      NextStretch(items, CursorAt(items, limit, k), limit);
    }
  }

  lemma {:induction false} PlaylistJoins(s: Source, items: seq<Item>, limit: nat, k: nat)
    requires forall i: nat {:trigger Delivers(s, i)} :: i < k ==> Delivers(s, i) == PlaylistDelivery(items, limit, i)
    ensures CursorAt(items, limit, k) <= |items|
    ensures Joined(s, k) == items[..CursorAt(items, limit, k)]
    decreases k
  {
    if k > 0 {
      PlaylistJoins(s, items, limit, k - 1);
      CursorNext(items, limit, k - 1);
      JoinedNext(s, k, items[..CursorAt(items, limit, k - 1)], PlaylistDelivery(items, limit, k - 1).batch);
    }
  }

  lemma {:induction false} PlaylistTotal(items: seq<Item>, limit: nat, k: nat)
    ensures TotalAt(PlaylistAsSource(items, limit), k) == Some(|items|)
    ensures ExhaustedAt(PlaylistAsSource(items, limit), k) ==> CursorAt(items, limit, k) >= |items|
  {
    if k > 0 {
      PlaylistDelivers(items, limit, k - 1);
    }
  }

  /** A playlist reads out its list, and never fails before its end. */
  lemma {:induction false} PlaylistLists(items: seq<Item>, limit: nat, k: nat)
    requires limit >= 1
    ensures Lists(PlaylistAsSource(items, limit), items, k)
    ensures Fails(PlaylistAsSource(items, limit), k) ==> AllRead(PlaylistAsSource(items, limit), k)
  {
    var s := PlaylistAsSource(items, limit);
    forall i: nat
      ensures Delivers(s, i) == PlaylistDelivery(items, limit, i)
    {
      PlaylistDelivers(items, limit, i);
    }
    PlaylistJoins(s, items, limit, k);
    forall j: nat | j <= k
      ensures TotalAt(s, j) == Some(|items|)
    {
      PlaylistTotal(items, limit, j);
    }
    PlaylistTotal(items, limit, k);
    if items != [] {
      NextStretch(items, CursorAt(items, limit, k), limit);
    }
  }

  /** The preview of a playlist cannot fail: it is exactly the page asked for, of any list
      and at any offset, with the true total. */
  method Preview(items: seq<Item>, limit: nat, offset: nat) returns (page: Option<Page>)
    requires limit >= 1
    ensures page == Some(Page(Slice(items, offset, limit), Some(|items|)))
  {
    var s := PlaylistAsSource(items, limit);
    var k;
    page, k := Materialize(s, limit, offset);
    PlaylistLists(items, limit, k);
    if !Continues(s, offset + limit, k) {
      PageIsExact(s, items, limit, offset, k);
    }
  }
}
