/** Cutting a list into parts that each fit one envelope. The server cuts
    snapshots and patches with the same greedy loop; `fits` says whether an
    envelope with a given part number, content and done flag is within budget. */
module QueueChunking {
  import opened Wrappers
  import opened QueueWire

  type Fits<!T> = (nat, seq<T>, bool) -> bool

  // ---------- the greedy split ----------

  /** How far the part that starts at `start` extends once it holds items[start..end]. */
  function GreedyEnd<T>(fits: Fits<T>, items: seq<T>, part: nat, start: nat, end: nat): (e: nat)
    requires start <= end <= |items|
    ensures end <= e <= |items|
    ensures e > end ==> fits(part, items[start..e], e == |items|)
    decreases |items| - end
  {
    if end < |items| && fits(part, items[start..end + 1], end + 1 == |items|) then
      GreedyEnd(fits, items, part, start, end + 1)
    else
      end
  }

  function GreedyFrom<T>(fits: Fits<T>, items: seq<T>, part: nat, start: nat): (r: Result<seq<Part<T>>, nat>)
    requires start <= |items|
    decreases |items| - start
  {
    if start == |items| then
      Success([])
    else
      var end := GreedyEnd(fits, items, part, start, start);
      if end == start then
        Failure(start)
      else
        Prepend([Part(part, items[start..end], end == |items|)], GreedyFrom(fits, items, part + 1, end))
  }

  function Prepend<T>(parts: seq<Part<T>>, r: Result<seq<Part<T>>, nat>): Result<seq<Part<T>>, nat> {
    if r.Failure? then r else Success(parts + r.value)
  }

  lemma {:induction false} PrependNothing<T>(r: Result<seq<Part<T>>, nat>)
    ensures Prepend([], r) == r
  {
    if r.Success? {
      assert [] + r.value == r.value;
    }
  }

  lemma {:induction false} PrependTwice<T>(a: seq<Part<T>>, b: seq<Part<T>>, r: Result<seq<Part<T>>, nat>)
    ensures Prepend(a, Prepend(b, r)) == Prepend(a + b, r)
  {
    if r.Success? {
      assert a + (b + r.value) == a + b + r.value;
    }
  }

  /** An empty list still takes one envelope. */
  function Split<T>(fits: Fits<T>, items: seq<T>): (r: Result<seq<Part<T>>, nat>) {
    if items == [] then
      if fits(0, [], true) then Success([Part(0, [], true)]) else Failure(0)
    else
      GreedyFrom(fits, items, 0, 0)
  }

  /** The two nested loops of the server: a failure names the item that does not
      fit an envelope of its own. */
  method SplitMessages<T>(fits: Fits<T>, items: seq<T>) returns (r: Result<seq<Part<T>>, nat>)
    ensures r == Split(fits, items)
  {
    if |items| == 0 {
      if fits(0, [], true) {
        return Success([Part(0, [], true)]);
      }
      return Failure(0);
    }
    var messages: seq<Part<T>> := [];
    var start, part := 0, 0;
    PrependNothing(GreedyFrom(fits, items, 0, 0));
    while start < |items|
      invariant 0 <= start <= |items| && 0 <= part
      invariant Split(fits, items) == Prepend(messages, GreedyFrom(fits, items, part, start))
    {
      var end := start;
      while end < |items|
        invariant start <= end <= |items|
        invariant GreedyEnd(fits, items, part, start, start) == GreedyEnd(fits, items, part, start, end)
      {
        if !fits(part, items[start..end + 1], end + 1 == |items|) {
          if end == start {
            return Failure(start);
          }
          break;
        }
        end := end + 1;
      }
      var message := Part(part, items[start..end], end == |items|);
      PrependTwice(messages, [message], GreedyFrom(fits, items, part + 1, end));
      messages := messages + [message];
      start, part := end, part + 1;
    }
    assert messages + [] == messages;
    return Success(messages);
  }

  // ---------- what a split is ----------

  function Concat<T>(parts: seq<Part<T>>): seq<T> {
    if parts == [] then [] else parts[0].items + Concat(parts[1..])
  }

  /** parts carries items[start..] in order: non-empty parts numbered from `part`,
      each within budget, `done` on the one that reaches the end. */
  ghost predicate SplitsFrom<T>(fits: Fits<T>, items: seq<T>, part: nat, start: nat, parts: seq<Part<T>>)
    decreases |parts|
  {
    if parts == [] then
      start == |items|
    else
      var end := start + |parts[0].items|;
      && start < end <= |items|
      && parts[0] == Part(part, items[start..end], end == |items|)
      && fits(part, parts[0].items, parts[0].done)
      && SplitsFrom(fits, items, part + 1, end, parts[1..])
  }

  /** The envelope sequences a client accepts as one logical message. */
  ghost predicate Splits<T>(fits: Fits<T>, items: seq<T>, parts: seq<Part<T>>) {
    if items == [] then parts == [Part(0, [], true)] && fits(0, [], true)
    else SplitsFrom(fits, items, 0, 0, parts)
  }

  lemma {:induction false} GreedySplits<T>(fits: Fits<T>, items: seq<T>, part: nat, start: nat)
    requires start <= |items| && GreedyFrom(fits, items, part, start).Success?
    ensures SplitsFrom(fits, items, part, start, GreedyFrom(fits, items, part, start).value)
    decreases |items| - start
  {
    if start < |items| {
      var end := GreedyEnd(fits, items, part, start, start);
      GreedySplits(fits, items, part + 1, end);
      var parts := GreedyFrom(fits, items, part, start).value;
      assert parts[1..] == GreedyFrom(fits, items, part + 1, end).value;
    }
  }

  lemma {:induction false} SplitSplits<T>(fits: Fits<T>, items: seq<T>)
    requires Split(fits, items).Success?
    ensures Splits(fits, items, Split(fits, items).value)
  {
    if items != [] {
      GreedySplits(fits, items, 0, 0);
    }
  }

  lemma {:induction false} SplitsFromShape<T>(fits: Fits<T>, items: seq<T>, part: nat, start: nat, parts: seq<Part<T>>)
    requires start <= |items| && SplitsFrom(fits, items, part, start, parts)
    ensures Concat(parts) == items[start..]
    ensures forall k :: 0 <= k < |parts| ==> parts[k].number == part + k
    ensures forall k :: 0 <= k < |parts| ==> (parts[k].done <==> k == |parts| - 1)
    ensures forall k :: 0 <= k < |parts| ==> fits(part + k, parts[k].items, parts[k].done)
    ensures parts == [] <==> start == |items|
    decreases |parts|
  {
    if parts != [] {
      var end := start + |parts[0].items|;
      SplitsFromShape(fits, items, part + 1, end, parts[1..]);
      assert items[start..] == items[start..end] + items[end..];
      forall k | 0 <= k < |parts|
        ensures parts[k].number == part + k
        ensures parts[k].done <==> k == |parts| - 1
        ensures fits(part + k, parts[k].items, parts[k].done)
      {
        if k > 0 {
          assert parts[k] == parts[1..][k - 1];
        }
      }
    }
  }

  /** Round trip: joined again, the parts give the list back; they are numbered
      from zero, only the last is marked done, and each was measured within budget. */
  lemma {:induction false} SplitRoundTrip<T>(fits: Fits<T>, items: seq<T>)
    requires Split(fits, items).Success?
    ensures var parts := Split(fits, items).value;
      && parts != []
      && Concat(parts) == items
      && (forall k :: 0 <= k < |parts| ==> parts[k].number == k)
      && (forall k :: 0 <= k < |parts| ==> (parts[k].done <==> k == |parts| - 1))
      && (forall k :: 0 <= k < |parts| ==> fits(k, parts[k].items, parts[k].done))
  {
    SplitSplits(fits, items);
    if items != [] {
      SplitsFromShape(fits, items, 0, 0, Split(fits, items).value);
    }
  }

  // ---------- optimality ----------

  /** Whatever fits, so does any stretch of it in an envelope with no larger part
      number. A stretch that stops early is not the final part. */
  ghost predicate Hereditary<T(!new)>(fits: Fits<T>) {
    forall p: nat, q: nat, chunk: seq<T>, done: bool, lo: nat, hi: nat ::
      p <= q && lo < hi <= |chunk| && fits(q, chunk, done) ==> StretchFits(fits, p, q, chunk, done, lo, hi)
  }

  predicate StretchFits<T>(fits: Fits<T>, p: nat, q: nat, chunk: seq<T>, done: bool, lo: nat, hi: nat)
    requires p <= q && lo < hi <= |chunk|
  {
    fits(p, chunk[lo..hi], done && hi == |chunk|)
  }

  predicate FailsAlone<T>(fits: Fits<T>, p: nat, items: seq<T>, i: nat)
    requires i < |items|
  {
    !fits(p, [items[i]], i + 1 == |items|)
  }

  lemma {:induction false} SliceOfSlice<T>(s: seq<T>, a: nat, b: nat, lo: nat, hi: nat)
    requires a <= lo <= hi <= b <= |s|
    ensures s[a..b][lo - a..hi - a] == s[lo..hi]
  {
    var left := s[a..b][lo - a..hi - a];
    assert |left| == |s[lo..hi]|;
    forall i | 0 <= i < |left|
      ensures left[i] == s[lo..hi][i]
    {
      assert left[i] == s[a..b][lo - a + i] == s[lo + i];
    }
  }

  lemma {:induction false} GreedyReaches<T(!new)>(
    fits: Fits<T>, items: seq<T>, part: nat, start: nat, end: nat, target: nat, q: nat, from: nat)
    requires Hereditary(fits)
    requires from <= start <= end <= target <= |items| && start < target && part <= q
    requires fits(q, items[from..target], target == |items|)
    ensures GreedyEnd(fits, items, part, start, end) >= target
    decreases target - end
  {
    if end < target {
      SliceOfSlice(items, from, target, start, end + 1);
      assert StretchFits(fits, part, q, items[from..target], target == |items|, start - from, end + 1 - from);
      GreedyReaches(fits, items, part, start, end + 1, target, q, from);
    }
  }

  lemma {:induction false} GreedyDominates<T(!new)>(
    fits: Fits<T>, items: seq<T>, part: nat, start: nat, q: nat, from: nat, other: seq<Part<T>>)
    requires Hereditary(fits)
    requires from <= start <= |items| && part <= q
    requires SplitsFrom(fits, items, q, from, other)
    ensures GreedyFrom(fits, items, part, start).Success?
    ensures |GreedyFrom(fits, items, part, start).value| <= |other|
    decreases |other|
  {
    if start < |items| {
      var next := from + |other[0].items|;
      if next <= start {
        GreedyDominates(fits, items, part, start, q + 1, next, other[1..]);
      } else {
        GreedyReaches(fits, items, part, start, start, next, q, from);
        var end := GreedyEnd(fits, items, part, start, start);
        GreedyDominates(fits, items, part + 1, end, q + 1, next, other[1..]);
      }
    }
  }

  /** The greedy loop fails only when no in-order split of the list fits at all,
      and otherwise no split uses fewer envelopes. */
  lemma {:induction false} SplitIsOptimal<T(!new)>(fits: Fits<T>, items: seq<T>)
    requires Hereditary(fits)
    ensures Split(fits, items).Success? <==> exists other :: Splits(fits, items, other)
    ensures forall other :: Splits(fits, items, other) ==> |Split(fits, items).value| <= |other|
  {
    if Split(fits, items).Success? {
      SplitSplits(fits, items);
    }
    forall other | Splits(fits, items, other)
      ensures Split(fits, items).Success? && |Split(fits, items).value| <= |other|
    {
      if items != [] {
        GreedyDominates(fits, items, 0, 0, 0, 0, other);
      }
    }
  }

  lemma {:induction false} GreedyFailsAt<T>(fits: Fits<T>, items: seq<T>, part: nat, start: nat)
    requires start <= |items| && GreedyFrom(fits, items, part, start).Failure?
    ensures var i := GreedyFrom(fits, items, part, start).error;
      start <= i < |items| && exists p: nat :: part <= p && FailsAlone(fits, p, items, i)
    decreases |items| - start
  {
    var end := GreedyEnd(fits, items, part, start, start);
    if end == start {
      assert items[start..start + 1] == [items[start]];
      assert FailsAlone(fits, part, items, start);
    } else {
      GreedyFailsAt(fits, items, part + 1, end);
    }
  }

  /** A failure names an item that is too large even when it has an envelope to itself. */
  lemma {:induction false} SplitFailsOnOneItem<T>(fits: Fits<T>, items: seq<T>)
    requires items != [] && Split(fits, items).Failure?
    ensures var i := Split(fits, items).error;
      i < |items| && exists p: nat :: FailsAlone(fits, p, items, i)
  {
    GreedyFailsAt(fits, items, 0, 0);
  }

  // ---------- the JSON envelope ----------

  const QUEUE_ENVELOPE_BUDGET: nat := 24 * 1024

  /** Encoded sizes of the elements; the envelope around them is spelled out below. */
  datatype Sizes = Sizes(ofEntry: Entry -> nat, ofOp: Op -> nat)

  function Digits(n: nat): (d: nat)
    ensures d >= 1
  {
    if n < 10 then 1 else 1 + Digits(n / 10)
  }

  function ListSize<T>(size: T -> nat, chunk: seq<T>): nat {
    if chunk == [] then 0
    else size(chunk[0]) + (if |chunk| == 1 then 0 else 1) + ListSize(size, chunk[1..])
  }

  function BoolSize(b: bool): nat { if b then 4 else 5 }

  const SNAPSHOT_HEAD := "{\"type\":\"queue.snapshot\",\"data\":{\"revision\":"
  const PATCH_HEAD := "{\"type\":\"queue.patch\",\"data\":{\"base_revision\":"
  const REVISION_KEY := ",\"revision\":"
  const PART_KEY := ",\"part\":"
  const ITEMS_KEY := ",\"items\":["
  const OPS_KEY := ",\"ops\":["
  const DONE_KEY := "],\"done\":"
  const TAIL := "}}"

  function SnapshotSize(sizes: Sizes, revision: nat, part: nat, chunk: seq<Entry>, done: bool): nat {
    |SNAPSHOT_HEAD| + Digits(revision) + |PART_KEY| + Digits(part)
    + |ITEMS_KEY| + ListSize(sizes.ofEntry, chunk) + |DONE_KEY| + BoolSize(done) + |TAIL|
  }

  function PatchSize(sizes: Sizes, base: nat, revision: nat, part: nat, chunk: seq<Op>, done: bool): nat {
    |PATCH_HEAD| + Digits(base) + |REVISION_KEY| + Digits(revision) + |PART_KEY| + Digits(part)
    + |OPS_KEY| + ListSize(sizes.ofOp, chunk) + |DONE_KEY| + BoolSize(done) + |TAIL|
  }

  function SnapshotFits(sizes: Sizes, revision: nat): Fits<Entry> {
    (part: nat, chunk: seq<Entry>, done: bool) =>
      SnapshotSize(sizes, revision, part, chunk, done) <= QUEUE_ENVELOPE_BUDGET
  }

  function PatchFits(sizes: Sizes, base: nat, revision: nat): Fits<Op> {
    (part: nat, chunk: seq<Op>, done: bool) =>
      PatchSize(sizes, base, revision, part, chunk, done) <= QUEUE_ENVELOPE_BUDGET
  }

  // ---------- the sizes are those of the text ----------

  const FIGURES := "0123456789"

  function Decimal(n: nat): string {
    if n < 10 then [FIGURES[n]] else Decimal(n / 10) + [FIGURES[n % 10]]
  }

  function ListText<T>(text: T -> string, chunk: seq<T>): string {
    if chunk == [] then ""
    else text(chunk[0]) + (if |chunk| == 1 then "" else ",") + ListText(text, chunk[1..])
  }

  const TRUE_TEXT := "true"
  const FALSE_TEXT := "false"

  function BoolText(b: bool): string { if b then TRUE_TEXT else FALSE_TEXT }

  function SnapshotText(text: Entry -> string, revision: nat, part: nat, chunk: seq<Entry>, done: bool): string {
    SNAPSHOT_HEAD + Decimal(revision) + PART_KEY + Decimal(part)
    + ITEMS_KEY + ListText(text, chunk) + DONE_KEY + BoolText(done) + TAIL
  }

  function PatchText(text: Op -> string, base: nat, revision: nat, part: nat, chunk: seq<Op>, done: bool): string {
    PATCH_HEAD + Decimal(base) + REVISION_KEY + Decimal(revision) + PART_KEY + Decimal(part)
    + OPS_KEY + ListText(text, chunk) + DONE_KEY + BoolText(done) + TAIL
  }

  lemma {:induction false} DigitsAreCounted(n: nat)
    ensures |Decimal(n)| == Digits(n)
  {
    if n >= 10 {
      DigitsAreCounted(n / 10);
    }
  }

  lemma {:induction false} ListIsCounted<T>(text: T -> string, size: T -> nat, chunk: seq<T>)
    requires forall x :: size(x) == |text(x)|
    ensures |ListText(text, chunk)| == ListSize(size, chunk)
  {
    if chunk != [] {
      ListIsCounted(text, size, chunk[1..]);
    }
  }

  /** What is measured is the length of the envelope as it is written out. */
  lemma {:induction false} EnvelopesAreMeasured(
    sizes: Sizes, ofEntry: Entry -> string, ofOp: Op -> string, base: nat, revision: nat, part: nat,
    entries: seq<Entry>, ops: seq<Op>, done: bool)
    requires forall e :: sizes.ofEntry(e) == |ofEntry(e)|
    requires forall op :: sizes.ofOp(op) == |ofOp(op)|
    ensures SnapshotSize(sizes, revision, part, entries, done)
         == |SnapshotText(ofEntry, revision, part, entries, done)|
    ensures PatchSize(sizes, base, revision, part, ops, done) == |PatchText(ofOp, base, revision, part, ops, done)|
    ensures SnapshotFits(sizes, revision)(part, entries, done)
       <==> |SnapshotText(ofEntry, revision, part, entries, done)| <= 24 * 1024
    ensures PatchFits(sizes, base, revision)(part, ops, done)
       <==> |PatchText(ofOp, base, revision, part, ops, done)| <= 24 * 1024
  {
    DigitsAreCounted(base);
    DigitsAreCounted(revision);
    DigitsAreCounted(part);
    ListIsCounted(ofEntry, sizes.ofEntry, entries);
    ListIsCounted(ofOp, sizes.ofOp, ops);
  }

  lemma {:induction false} DigitsMonotone(m: nat, n: nat)
    requires m <= n
    ensures Digits(m) <= Digits(n)
  {
    if m >= 10 {
      DigitsMonotone(m / 10, n / 10);
    }
  }

  lemma {:induction false} ListSizeDropFirst<T>(size: T -> nat, chunk: seq<T>, lo: nat)
    requires lo < |chunk|
    ensures ListSize(size, chunk[lo..]) <= ListSize(size, chunk)
  {
    if lo > 0 {
      ListSizeDropFirst(size, chunk[1..], lo - 1);
      assert chunk[1..][lo - 1..] == chunk[lo..];
    } else {
      assert chunk[0..] == chunk;
    }
  }

  /** Dropping the tail saves at least the comma before it. */
  lemma {:induction false} ListSizeTake<T>(size: T -> nat, chunk: seq<T>, hi: nat)
    requires 0 < hi < |chunk|
    ensures ListSize(size, chunk[..hi]) + 1 <= ListSize(size, chunk)
  {
    assert chunk[..hi][1..] == chunk[1..][..hi - 1];
    if hi > 1 {
      ListSizeTake(size, chunk[1..], hi - 1);
    } else {
      assert chunk[..hi] == [chunk[0]];
    }
  }

  lemma {:induction false} ListSizeStretch<T>(size: T -> nat, chunk: seq<T>, done: bool, lo: nat, hi: nat)
    requires lo < hi <= |chunk|
    ensures ListSize(size, chunk[lo..hi]) + BoolSize(done && hi == |chunk|) <= ListSize(size, chunk) + BoolSize(done)
  {
    ListSizeDropFirst(size, chunk[..hi], lo);
    assert chunk[..hi][lo..] == chunk[lo..hi];
    if hi < |chunk| {
      ListSizeTake(size, chunk, hi);
    } else {
      assert chunk[..hi] == chunk;
    }
  }

  /** The real envelopes are hereditary although "true" is shorter than "false"
      and later part numbers take more digits. */
  lemma {:induction false} SnapshotFitsIsHereditary(sizes: Sizes, revision: nat)
    ensures Hereditary(SnapshotFits(sizes, revision))
  {
    forall p: nat, q: nat, chunk: seq<Entry>, done: bool, lo: nat, hi: nat
      | p <= q && lo < hi <= |chunk| && SnapshotFits(sizes, revision)(q, chunk, done)
      ensures StretchFits(SnapshotFits(sizes, revision), p, q, chunk, done, lo, hi)
    {
      DigitsMonotone(p, q);
      ListSizeStretch(sizes.ofEntry, chunk, done, lo, hi);
    }
  }

  lemma {:induction false} PatchFitsIsHereditary(sizes: Sizes, base: nat, revision: nat)
    ensures Hereditary(PatchFits(sizes, base, revision))
  {
    forall p: nat, q: nat, chunk: seq<Op>, done: bool, lo: nat, hi: nat
      | p <= q && lo < hi <= |chunk| && PatchFits(sizes, base, revision)(q, chunk, done)
      ensures StretchFits(PatchFits(sizes, base, revision), p, q, chunk, done, lo, hi)
    {
      DigitsMonotone(p, q);
      ListSizeStretch(sizes.ofOp, chunk, done, lo, hi);
    }
  }

  /** For the envelopes the room sends: the greedy split exists exactly when some
      split does, and no split sends fewer messages. */
  lemma {:induction false} PatchSplitIsOptimal(sizes: Sizes, base: nat, revision: nat, ops: seq<Op>)
    ensures var fits := PatchFits(sizes, base, revision);
      && (Split(fits, ops).Success? <==> exists other :: Splits(fits, ops, other))
      && (forall other :: Splits(fits, ops, other) ==> |Split(fits, ops).value| <= |other|)
  {
    PatchFitsIsHereditary(sizes, base, revision);
    SplitIsOptimal(PatchFits(sizes, base, revision), ops);
  }

  lemma {:induction false} SnapshotSplitIsOptimal(sizes: Sizes, revision: nat, entries: seq<Entry>)
    ensures var fits := SnapshotFits(sizes, revision);
      && (Split(fits, entries).Success? <==> exists other :: Splits(fits, entries, other))
      && (forall other :: Splits(fits, entries, other) ==> |Split(fits, entries).value| <= |other|)
  {
    SnapshotFitsIsHereditary(sizes, revision);
    SplitIsOptimal(SnapshotFits(sizes, revision), entries);
  }
}
