/** The queue protocol as a whole. The room keeps a log: the queue at every
    revision and the patch that led from each revision to the next. Whatever the
    network does with the parts cut from that log, a replica never shows anything
    but the queue at its revision; without loss it is never disturbed. */
module QueueAgreement {
  import opened Wrappers
  import opened QueueWire
  import opened QueueChunking
  import opened QueuePatch
  import opened QueueReplica

  datatype Log = Log(sizes: Sizes, history: seq<seq<Entry>>, patches: seq<seq<Op>>)

  ghost predicate Sound(log: Log) {
    && |log.history| == |log.patches| + 1
    && forall r :: 0 <= r < |log.patches| ==> Apply(log.history[r], log.patches[r]) == Some(log.history[r + 1])
  }

  ghost predicate Grows(log: Log, later: Log) {
    && later.sizes == log.sizes
    && log.history <= later.history
    && log.patches <= later.patches
  }

  function SnapshotParts(log: Log, r: nat): Result<seq<Part<Entry>>, nat>
    requires r < |log.history|
  {
    Split(SnapshotFits(log.sizes, r), WireEntries(log.history[r]))
  }

  function PatchParts(log: Log, r: nat): Result<seq<Part<Op>>, nat>
    requires r < |log.patches|
  {
    Split(PatchFits(log.sizes, r, r + 1), WireOps(log.patches[r]))
  }

  function SnapshotMessages(revision: nat, parts: seq<Part<Entry>>): (ms: seq<Message>)
    ensures |ms| == |parts|
    ensures forall k :: 0 <= k < |parts| ==> ms[k] == Snapshot(revision, parts[k])
  {
    seq(|parts|, k requires 0 <= k < |parts| => Snapshot(revision, parts[k]))
  }

  function PatchMessages(base: nat, parts: seq<Part<Op>>): (ms: seq<Message>)
    ensures |ms| == |parts|
    ensures forall k :: 0 <= k < |parts| ==> ms[k] == Patch(base, base + 1, parts[k])
  {
    seq(|parts|, k requires 0 <= k < |parts| => Patch(base, base + 1, parts[k]))
  }

  // ---------- agreement under any network ----------

  /** A message the room may have put on the wire. */
  ghost predicate Sent(log: Log, m: Message) {
    match m
    case Snapshot(r, part) =>
      r < |log.history| && SnapshotParts(log, r).Success? && part in SnapshotParts(log, r).value
    case Patch(base, r, part) =>
      r == base + 1 && base < |log.patches| && PatchParts(log, base).Success? && part in PatchParts(log, base).value
  }

  /** The assembly holds a proper prefix of one logical message. */
  ghost predicate Prefix<T>(a: Assembly<T>, parts: seq<Part<T>>) {
    0 < a.nextPart < |parts| && a.items == Concat(parts[..a.nextPart])
  }

  ghost predicate FaithfulItems(log: Log, c: Replica) {
    c.ready ==> c.revision < |log.history| && c.items == WireEntries(log.history[c.revision])
  }

  ghost predicate FaithfulSnapshot(log: Log, assembly: Option<Assembly<Entry>>) {
    assembly.Some? ==>
      var a := assembly.value;
      a.base == a.revision < |log.history| && SnapshotParts(log, a.revision).Success?
      && Prefix(a, SnapshotParts(log, a.revision).value)
  }

  ghost predicate FaithfulPatch(log: Log, assembly: Option<Assembly<Op>>) {
    assembly.Some? ==>
      var a := assembly.value;
      a.revision == a.base + 1 && a.base < |log.patches| && PatchParts(log, a.base).Success?
      && Prefix(a, PatchParts(log, a.base).value)
  }

  ghost predicate Faithful(log: Log, c: Replica) {
    FaithfulItems(log, c) && FaithfulSnapshot(log, c.snapshot) && FaithfulPatch(log, c.patch)
  }

  lemma {:induction false} ConcatSnoc<T>(parts: seq<Part<T>>, k: nat)
    requires k < |parts|
    ensures Concat(parts[..k + 1]) == Concat(parts[..k]) + parts[k].items
    decreases k
  {
    if k == 0 {
      assert parts[..1] == [parts[0]] && parts[..0] == [];
      assert Concat(parts[..1][1..]) == [];
    } else {
      ConcatSnoc(parts[1..], k - 1);
      assert parts[..k + 1][1..] == parts[1..][..k];
      assert parts[..k][1..] == parts[1..][..k - 1];
    }
  }

  /** The parts of one message, as the room cuts it. */
  ghost predicate WellCut<T>(parts: seq<Part<T>>, whole: seq<T>) {
    && parts != [] && Concat(parts) == whole
    && forall k :: 0 <= k < |parts| ==> parts[k].number == k && (parts[k].done <==> k + 1 == |parts|)
  }

  lemma {:induction false} SplitWellCut<T>(fits: Fits<T>, whole: seq<T>)
    requires Split(fits, whole).Success?
    ensures WellCut(Split(fits, whole).value, whole)
  {
    SplitRoundTrip(fits, whole);
  }

  /** The k-th part of a well-cut message: its number, and what the message comes to with it. */
  lemma {:induction false} NthPart<T>(parts: seq<Part<T>>, whole: seq<T>, k: nat)
    requires WellCut(parts, whole) && k < |parts|
    ensures Concat(parts[..k + 1]) == Concat(parts[..k]) + parts[k].items
    ensures k == 0 ==> Concat(parts[..k]) == []
    ensures k + 1 == |parts| ==> Concat(parts[..k + 1]) == whole
  {
    ConcatSnoc(parts, k);
    assert parts[..0] == [];
    assert parts[..|parts|] == parts;
  }

  /** Collecting one more part of a well-cut message, from whatever was there: the
      result is the next prefix, and a done part completes the whole. */
  lemma {:induction false} CollectSplit<T>(
    parts: seq<Part<T>>, whole: seq<T>, current: Option<Assembly<T>>, base: nat, revision: nat, part: Part<T>)
    requires WellCut(parts, whole) && part in parts
    requires current.Some? && current.value.base == base && current.value.revision == revision ==>
               Prefix(current.value, parts)
    ensures var next := Collect(current, base, revision, part);
      next.Some? ==>
        && next.value.base == base && next.value.revision == revision
        && (part.done ==> next.value.items == whole)
        && (!part.done ==> Prefix(next.value, parts))
  {
    var k :| 0 <= k < |parts| && parts[k] == part;
    NthPart(parts, whole, k);
  }

  lemma {:induction false} DeliverSnapshotFaithful(log: Log, c: Replica, m: Message)
    requires Faithful(log, c) && Sent(log, m) && m.Snapshot?
    ensures Faithful(log, Handle(c, m))
  {
    var r := m.revision;
    SplitWellCut(SnapshotFits(log.sizes, r), WireEntries(log.history[r]));
    CollectSplit(SnapshotParts(log, r).value, WireEntries(log.history[r]), c.snapshot, r, r, m.entries);
  }

  /** A complete patch, applied to the wire form of the queue it starts from. */
  lemma {:induction false} PatchOnWire(log: Log, base: nat)
    requires Sound(log) && base < |log.patches|
    ensures Apply(WireEntries(log.history[base]), WireOps(log.patches[base])) == Some(WireEntries(log.history[base + 1]))
  {
    assert Apply(log.history[base], log.patches[base]) == Some(log.history[base + 1]);
    ApplyWire(log.history[base], log.patches[base]);
  }

  /** Collected faithfully, a patch is either kept as it is so far or leads to the next revision. */
  lemma {:induction false} PatchHandled(log: Log, c: Replica, m: Message)
    requires Faithful(log, c) && m.Patch? && m.newRevision == m.baseRevision + 1
    requires m.baseRevision < |log.patches| && m.newRevision < |log.history|
    requires Apply(WireEntries(log.history[m.baseRevision]), WireOps(log.patches[m.baseRevision]))
          == Some(WireEntries(log.history[m.newRevision]))
    requires var next := Collect(c.patch, m.baseRevision, m.newRevision, m.ops);
      next.Some? ==>
        if m.ops.done then next.value.items == WireOps(log.patches[m.baseRevision]) else FaithfulPatch(log, next)
    ensures Faithful(log, Handle(c, m))
  {
  }

  lemma {:induction false} PatchCollected(log: Log, c: Replica, base: nat, part: Part<Op>)
    requires FaithfulPatch(log, c.patch)
    requires base < |log.patches| && PatchParts(log, base).Success? && part in PatchParts(log, base).value
    ensures var next := Collect(c.patch, base, base + 1, part);
      next.Some? ==>
        if part.done then next.value.items == WireOps(log.patches[base]) else FaithfulPatch(log, next)
  {
    SplitWellCut(PatchFits(log.sizes, base, base + 1), WireOps(log.patches[base]));
    CollectSplit(PatchParts(log, base).value, WireOps(log.patches[base]), c.patch, base, base + 1, part);
  }

  lemma {:induction false} DeliverPatchFaithful(log: Log, c: Replica, m: Message)
    requires Sound(log) && Faithful(log, c) && Sent(log, m) && m.Patch?
    ensures Faithful(log, Handle(c, m))
  {
    PatchCollected(log, c, m.baseRevision, m.ops);
    PatchOnWire(log, m.baseRevision);
    PatchHandled(log, c, m);
  }

  /** One delivery of any part ever sent, in any state the replica can be in. */
  lemma {:induction false} DeliverFaithful(log: Log, c: Replica, m: Message)
    requires Sound(log) && Faithful(log, c) && Sent(log, m)
    ensures Faithful(log, Handle(c, m))
  {
    if m.Snapshot? {
      DeliverSnapshotFaithful(log, c, m);
    } else {
      DeliverPatchFaithful(log, c, m);
    }
  }

  lemma {:induction false} GrowthKeepsSent(log: Log, later: Log, m: Message)
    requires Grows(log, later) && Sent(log, m)
    ensures Sent(later, m)
  {
  }

  lemma {:induction false} GrowthKeepsFaithful(log: Log, later: Log, c: Replica)
    requires Grows(log, later) && Faithful(log, c)
    ensures Faithful(later, c)
  {
  }

  // ---------- lossless delivery in order ----------

  /** The replica is exactly the queue at revision r, with nothing half collected
      and no resync wanted. */
  ghost predicate Synced(log: Log, c: Replica, r: nat) {
    r < |log.history| && c == Replica(r, WireEntries(log.history[r]), true, false, None, None)
  }

  /** The replica while the first k parts of the message are collected. */
  function WithSnapshot(c: Replica, r: nat, parts: seq<Part<Entry>>, k: nat): Replica
    requires k <= |parts|
  {
    if k == 0 then c
    else c.(snapshot := Some(Assembly(r, r, k, Concat(parts[..k]))), patch := None)
  }

  function WithPatch(c: Replica, r: nat, parts: seq<Part<Op>>, k: nat): Replica
    requires k <= |parts|
  {
    if k == 0 then c else c.(patch := Some(Assembly(r, r + 1, k, Concat(parts[..k]))))
  }

  lemma {:induction false} CollectInOrder<T>(parts: seq<Part<T>>, whole: seq<T>, base: nat, revision: nat, k: nat,
                                             current: Option<Assembly<T>>)
    requires WellCut(parts, whole) && k < |parts|
    requires k > 0 ==> current == Some(Assembly(base, revision, k, Concat(parts[..k])))
    ensures Collect(current, base, revision, parts[k]) == Some(Assembly(base, revision, k + 1, Concat(parts[..k + 1])))
    ensures parts[k].done ==> Concat(parts[..k + 1]) == whole
  {
    NthPart(parts, whole, k);
  }

  /** From the k-th part on, a snapshot in order ends with its whole list. */
  lemma {:induction false} SnapshotInOrder(c: Replica, r: nat, parts: seq<Part<Entry>>, whole: seq<Entry>, k: nat)
    requires WellCut(parts, whole) && k < |parts|
    ensures var rest := SnapshotMessages(r, parts)[k..];
      && Quiet(WithSnapshot(c, r, parts, k), rest)
      && HandleAll(WithSnapshot(c, r, parts, k), rest) == Replica(r, whole, true, false, None, None)
    decreases |parts| - k
  {
    var before := WithSnapshot(c, r, parts, k);
    var rest := SnapshotMessages(r, parts)[k..];
    CollectInOrder(parts, whole, r, r, k, before.snapshot);
    assert rest[0] == Snapshot(r, parts[k]);
    if k + 1 < |parts| {
      assert Handle(before, rest[0]) == WithSnapshot(c, r, parts, k + 1);
      assert rest[1..] == SnapshotMessages(r, parts)[k + 1..];
      SnapshotInOrder(c, r, parts, whole, k + 1);
    } else {
      assert rest[1..] == [];
    }
  }

  /** From the k-th part on, a patch in order takes a ready replica at its base on. */
  lemma {:induction false} PatchInOrder(c: Replica, r: nat, parts: seq<Part<Op>>, ops: seq<Op>, next: seq<Entry>, k: nat)
    requires WellCut(parts, ops) && k < |parts|
    requires c.ready && c.revision == r && c.snapshot.None? && c.patch.None? && Apply(c.items, ops) == Some(next)
    ensures var rest := PatchMessages(r, parts)[k..];
      && Quiet(WithPatch(c, r, parts, k), rest)
      && HandleAll(WithPatch(c, r, parts, k), rest) == Replica(r + 1, next, true, false, None, None)
    decreases |parts| - k
  {
    var before := WithPatch(c, r, parts, k);
    var rest := PatchMessages(r, parts)[k..];
    CollectInOrder(parts, ops, r, r + 1, k, before.patch);
    assert rest[0] == Patch(r, r + 1, parts[k]);
    if k + 1 < |parts| {
      assert Handle(before, rest[0]) == WithPatch(c, r, parts, k + 1);
      assert rest[1..] == PatchMessages(r, parts)[k + 1..];
      PatchInOrder(c, r, parts, ops, next, k + 1);
    } else {
      assert rest[1..] == [];
    }
  }

  /** A complete snapshot heals any replica, whatever it had collected or lost. */
  lemma {:induction false} SnapshotHeals(log: Log, c: Replica, r: nat)
    requires r < |log.history| && SnapshotParts(log, r).Success?
    ensures var ms := SnapshotMessages(r, SnapshotParts(log, r).value);
      Quiet(c, ms) && Synced(log, HandleAll(c, ms), r)
  {
    var parts := SnapshotParts(log, r).value;
    SplitWellCut(SnapshotFits(log.sizes, r), WireEntries(log.history[r]));
    SnapshotInOrder(c, r, parts, WireEntries(log.history[r]), 0);
    assert SnapshotMessages(r, parts)[0..] == SnapshotMessages(r, parts);
  }

  /** A complete patch takes a synced replica to the next revision. */
  lemma {:induction false} PatchAdvances(log: Log, c: Replica, r: nat)
    requires Sound(log) && r < |log.patches| && Synced(log, c, r) && PatchParts(log, r).Success?
    ensures var ms := PatchMessages(r, PatchParts(log, r).value);
      Quiet(c, ms) && Synced(log, HandleAll(c, ms), r + 1)
  {
    var parts := PatchParts(log, r).value;
    SplitWellCut(PatchFits(log.sizes, r, r + 1), WireOps(log.patches[r]));
    PatchOnWire(log, r);
    PatchInOrder(c, r, parts, WireOps(log.patches[r]), WireEntries(log.history[r + 1]), 0);
    assert PatchMessages(r, parts)[0..] == PatchMessages(r, parts);
  }
}
