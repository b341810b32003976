/** The ordered operations of a queue patch: what they mean, the client's in-place
    way of applying them, and the operations the room emits for each mutation. */
module QueuePatch {
  import opened Wrappers
  import opened QueueWire

  // ---------- meaning ----------

  /** The first entry with the id, or -1. The empty id is never found. */
  function IndexOf(q: seq<Entry>, id: string): (i: int)
    ensures -1 <= i < |q|
    ensures i >= 0 ==> id != "" && q[i].entryId == id && forall j :: 0 <= j < i ==> q[j].entryId != id
    ensures i < 0 ==> id == "" || forall j :: 0 <= j < |q| ==> q[j].entryId != id
  {
    if id == "" || q == [] then -1
    else if q[0].entryId == id then 0
    else
      var i := IndexOf(q[1..], id);
      if i < 0 then -1 else i + 1
  }

  function RemoveAt<T>(q: seq<T>, i: nat): seq<T>
    requires i < |q|
  {
    q[..i] + q[i + 1..]
  }

  function InsertAt<T>(q: seq<T>, i: nat, x: T): seq<T>
    requires i <= |q|
  {
    q[..i] + [x] + q[i..]
  }

  function ApplyOp(q: seq<Entry>, op: Op): Option<seq<Entry>> {
    match op
    case Add(index, item) =>
      if index < 0 || index > |q| || IndexOf(q, item.entryId) >= 0 then None
      else Some(InsertAt(q, index, item))
    case Remove(id) =>
      var i := IndexOf(q, id);
      if i < 0 then None else Some(RemoveAt(q, i))
    case Move(id, to) =>
      var i := IndexOf(q, id);
      if i < 0 || to < 0 || to >= |q| then None
      else Some(InsertAt(RemoveAt(q, i), to, q[i]))
    case Clear => Some([])
    case Malformed => None
  }

  function Apply(q: seq<Entry>, ops: seq<Op>): Option<seq<Entry>>
    decreases |ops|
  {
    if ops == [] then Some(q)
    else
      match ApplyOp(q, ops[0])
      case None => None
      case Some(next) => Apply(next, ops[1..])
  }

  /** An entry has this id; the empty one is nobody's. */
  ghost predicate HasId(q: seq<Entry>, id: string) {
    id != "" && exists i :: 0 <= i < |q| && q[i].entryId == id
  }

  /** An addition is refused exactly outside the queue or for an id that is there; else the
      item is at its place and the others are as they were. */
  lemma {:induction false} AddApplies(q: seq<Entry>, index: int, item: Entry)
    ensures var r := ApplyOp(q, Add(index, item));
      && (r.Some? <==> 0 <= index <= |q| && !HasId(q, item.entryId))
      && (r.Some? ==> |r.value| == |q| + 1 && r.value[index] == item && RemoveAt(r.value, index) == q)
  {
  }

  /** A removal is refused exactly for an id that is not there; else the first with it goes. */
  lemma {:induction false} RemoveApplies(q: seq<Entry>, id: string)
    ensures var r := ApplyOp(q, Remove(id));
      && (r.Some? <==> HasId(q, id))
      && (r.Some? ==> exists i: nat :: i < |q| && q[i].entryId == id && !HasId(q[..i], id) && r.value == RemoveAt(q, i))
  {
    var i := IndexOf(q, id);
    if i >= 0 {
      assert q[i].entryId == id && !HasId(q[..i], id);
    }
  }

  /** A move is refused exactly for an id that is not there or a place outside the queue;
      else the first with it is at that place and the others keep their order. */
  lemma {:induction false} MoveApplies(q: seq<Entry>, id: string, to: int)
    ensures var r := ApplyOp(q, Move(id, to));
      && (r.Some? <==> HasId(q, id) && 0 <= to < |q|)
      && (r.Some? ==> |r.value| == |q| && exists i: nat ::
            && i < |q| && q[i].entryId == id && !HasId(q[..i], id)
            && r.value[to] == q[i] && RemoveAt(r.value, to) == RemoveAt(q, i))
  {
    var i := IndexOf(q, id);
    if i >= 0 && 0 <= to < |q| {
      assert q[i].entryId == id && !HasId(q[..i], id);
      assert RemoveAt(InsertAt(RemoveAt(q, i), to, q[i]), to) == RemoveAt(q, i);
    }
  }

  // ---------- the client's in-place loop ----------

  /** memmove: s[dst..dst+n] replaced by the old contents of s[src..src+n]. */
  function Copied(s: seq<Entry>, dst: nat, src: nat, n: nat): (r: seq<Entry>)
    requires dst + n <= |s| && src + n <= |s|
    ensures |r| == |s|
    ensures forall i :: 0 <= i < |s| ==> r[i] == if dst <= i < dst + n then s[i - dst + src] else s[i]
  {
    seq(|s|, i requires 0 <= i < |s| => if dst <= i < dst + n then s[i - dst + src] else s[i])
  }

  /** Copying upwards from the low end never reads a place already written when dst <= src. */
  method CopyForward(a: array<Entry>, dst: nat, src: nat, n: nat)
    requires dst <= src && src + n <= a.Length
    modifies a
    ensures a[..] == Copied(old(a[..]), dst, src, n)
  {
    ghost var was := a[..];
    for k := 0 to n
      invariant forall i {:trigger a[i]} :: 0 <= i < a.Length ==> a[i] == if dst <= i < dst + k then was[i - dst + src] else was[i]
    {
      assert a[src + k] == was[src + k];
      a[dst + k] := a[src + k];
    }
    forall i | 0 <= i < a.Length
      ensures a[..][i] == Copied(was, dst, src, n)[i]
    {
    }
    assert a[..] == Copied(was, dst, src, n);
  }

  method CopyBackward(a: array<Entry>, dst: nat, src: nat, n: nat)
    requires src <= dst && dst + n <= a.Length
    modifies a
    ensures a[..] == Copied(old(a[..]), dst, src, n)
  {
    ghost var was := a[..];
    for k := n downto 0
      invariant forall i {:trigger a[i]} :: 0 <= i < a.Length ==> a[i] == if dst + k <= i < dst + n then was[i - dst + src] else was[i]
    {
      assert a[src + k] == was[src + k];
      a[dst + k] := a[src + k];
    }
    forall i | 0 <= i < a.Length
      ensures a[..][i] == Copied(was, dst, src, n)[i]
    {
    }
    assert a[..] == Copied(was, dst, src, n);
  }

  method CopyWithin(a: array<Entry>, dst: nat, src: nat, n: nat)
    requires dst + n <= a.Length && src + n <= a.Length
    modifies a
    ensures a[..] == Copied(old(a[..]), dst, src, n)
  {
    if dst <= src {
      CopyForward(a, dst, src, n);
    } else {
      CopyBackward(a, dst, src, n);
    }
  }

  lemma {:induction false} ShiftIsInsert(s: seq<Entry>, len: nat, index: nat, item: Entry)
    requires index <= len < |s|
    ensures Copied(s, index + 1, index, len - index)[index := item][..len + 1] == InsertAt(s[..len], index, item)
  {
    var shifted := Copied(s, index + 1, index, len - index)[index := item];
    var inserted := InsertAt(s[..len], index, item);
    forall i | 0 <= i < len + 1
      ensures shifted[i] == inserted[i]
    {
      assert inserted[i] == if i < index then s[i] else if i == index then item else s[i - 1];
    }
  }

  method ShiftInsert(a: array<Entry>, len: nat, index: nat, item: Entry)
    requires index <= len < a.Length
    modifies a
    ensures a[..len + 1] == InsertAt(old(a[..len]), index, item)
  {
    ghost var was := a[..];
    CopyWithin(a, index + 1, index, len - index);
    ghost var shifted := a[..];
    a[index] := item;
    assert a[..] == shifted[index := item];
    ShiftIsInsert(was, len, index, item);
    assert a[..len + 1] == a[..][..len + 1] && was[..len] == old(a[..len]);
  }

  lemma {:induction false} ShiftIsRemove(s: seq<Entry>, len: nat, index: nat)
    requires index < len <= |s|
    ensures Copied(s, index, index + 1, len - index - 1)[..len - 1] == RemoveAt(s[..len], index)
  {
    var removed := RemoveAt(s[..len], index);
    forall i | 0 <= i < len - 1
      ensures Copied(s, index, index + 1, len - index - 1)[i] == removed[i]
    {
      assert removed[i] == if i < index then s[i] else s[i + 1];
    }
  }

  method ShiftRemove(a: array<Entry>, len: nat, index: nat)
    requires index < len <= a.Length
    modifies a
    ensures a[..len - 1] == RemoveAt(old(a[..len]), index)
  {
    ghost var was := a[..];
    CopyWithin(a, index, index + 1, len - index - 1);
    ShiftIsRemove(was, len, index);
    assert a[..len - 1] == a[..][..len - 1] && was[..len] == old(a[..len]);
  }

  /** The entry at each place once the entry at `from` has been taken out of q and
      put back at `to`. */
  function AtAfterMove(q: seq<Entry>, from: nat, to: nat, i: nat): Entry
    requires from < |q| && to < |q| && i < |q|
  {
    if i == to then q[from]
    else if from <= i < to then q[i + 1]
    else if to < i <= from then q[i - 1]
    else q[i]
  }

  lemma {:induction false} MoveAt(q: seq<Entry>, from: nat, to: nat)
    requires from < |q| && to < |q|
    ensures var r := InsertAt(RemoveAt(q, from), to, q[from]);
      |r| == |q| && forall i :: 0 <= i < |q| ==> r[i] == AtAfterMove(q, from, to, i)
  {
    var without := RemoveAt(q, from);
    var r := InsertAt(without, to, q[from]);
    assert forall i :: 0 <= i < |without| ==> without[i] == if i < from then q[i] else q[i + 1];
    forall i | 0 <= i < |q|
      ensures r[i] == AtAfterMove(q, from, to, i)
    {
      assert r[i] == if i < to then without[i] else if i == to then q[from] else without[i - 1];
    }
  }

  /** The client's shift for a move, and the entry then written at `to`. */
  function Shifted(s: seq<Entry>, from: nat, to: nat): (r: seq<Entry>)
    requires from < |s| && to < |s|
    ensures |r| == |s|
  {
    (if from < to then Copied(s, from, from + 1, to - from) else Copied(s, to + 1, to, from - to))[to := s[from]]
  }

  lemma {:induction false} ShiftedAt(s: seq<Entry>, len: nat, from: nat, to: nat, i: nat)
    requires from < len <= |s| && to < len && i < len
    ensures Shifted(s, from, to)[i] == AtAfterMove(s[..len], from, to, i)
  {
    var q := s[..len];
    assert i + 1 < len ==> q[i + 1] == s[i + 1];
    assert i > 0 ==> q[i - 1] == s[i - 1];
    if from < to {
      assert Copied(s, from, from + 1, to - from)[i] == if from <= i < to then s[i + 1] else s[i];
    } else {
      assert Copied(s, to + 1, to, from - to)[i] == if to < i <= from then s[i - 1] else s[i];
    }
  }

  lemma {:induction false} ShiftIsMove(s: seq<Entry>, len: nat, from: nat, to: nat)
    requires from < len <= |s| && to < len
    ensures Shifted(s, from, to)[..len] == InsertAt(RemoveAt(s[..len], from), to, s[from])
  {
    var q, shifted := s[..len], Shifted(s, from, to);
    MoveAt(q, from, to);
    var moved := InsertAt(RemoveAt(q, from), to, q[from]);
    forall i | 0 <= i < len
      ensures shifted[i] == moved[i]
    {
      ShiftedAt(s, len, from, to, i);
    }
    assert shifted[..len] == moved;
  }

  /** Shifting the entries between the two places by one is the same as taking
      the entry out and putting it back. */
  method ShiftMove(a: array<Entry>, len: nat, index: nat, to: nat)
    requires index < len <= a.Length && to < len
    modifies a
    ensures a[..len] == InsertAt(RemoveAt(old(a[..len]), index), to, old(a[index]))
  {
    ghost var was := a[..];
    var item := a[index];
    if index < to {
      CopyWithin(a, index, index + 1, to - index);
    } else if index > to {
      CopyWithin(a, to + 1, to, index - to);
    } else {
      assert Copied(was, to + 1, to, 0) == was;
    }
    ghost var shifted := a[..];
    a[to] := item;
    assert a[..] == shifted[to := item];
    ShiftIsMove(was, len, index, to);
    assert a[..] == Shifted(was, index, to);
    assert a[..len] == a[..][..len] && was[..len] == old(a[..len]);
  }

  /** One operation on the first `len` places; the new length, or None when the
      operation does not apply and the array must be thrown away. */
  method ApplyInPlace(a: array<Entry>, len: nat, op: Op) returns (r: Option<nat>)
    requires len < a.Length
    modifies a
    ensures r.None? <==> ApplyOp(old(a[..len]), op).None?
    ensures r.Some? ==> r.value <= len + 1 && ApplyOp(old(a[..len]), op) == Some(a[..r.value])
  {
    match op
    case Add(index, item) =>
      var found := IndexOf(a[..len], item.entryId);
      if index < 0 || index > len || found >= 0 {
        return None;
      }
      ShiftInsert(a, len, index, item);
      return Some(len + 1);
    case Remove(id) =>
      var index := IndexOf(a[..len], id);
      if index < 0 {
        return None;
      }
      ShiftRemove(a, len, index);
      return Some(len - 1);
    case Move(id, to) =>
      var index := IndexOf(a[..len], id);
      if index < 0 || to < 0 || to >= len {
        return None;
      }
      assert a[..len][index] == a[index];
      ShiftMove(a, len, index, to);
      return Some(len);
    case Clear =>
      return Some(0);
    case Malformed =>
      return None;
  }

  method ApplyQueuePatch(current: seq<Entry>, ops: seq<Op>) returns (r: Option<seq<Entry>>)
    ensures r == Apply(current, ops)
  {
    var blank := Entry("", "", 0, "", "", "", "", 0, 0);
    var next := new Entry[|current| + |ops|](i => if 0 <= i < |current| then current[i] else blank);
    var len := |current|;
    assert next[..len] == current && ops[0..] == ops;
    for k := 0 to |ops|
      invariant 0 <= len <= |current| + k
      invariant Apply(current, ops) == Apply(next[..len], ops[k..])
    {
      assert ops[k..][0] == ops[k] && ops[k..][1..] == ops[k + 1..];
      var grown := ApplyInPlace(next, len, ops[k]);
      if grown.None? {
        return None;
      }
      len := grown.value;
    }
    assert ops[|ops|..] == [];
    return Some(next[..len]);
  }

  // ---------- properties of patches ----------

  lemma {:induction false} ApplyConcat(q: seq<Entry>, a: seq<Op>, b: seq<Op>)
    ensures Apply(q, a + b) == if Apply(q, a).None? then None else Apply(Apply(q, a).value, b)
    decreases |a|
  {
    if a == [] {
      assert a + b == b;
    } else {
      assert (a + b)[1..] == a[1..] + b;
      if ApplyOp(q, a[0]).Some? {
        ApplyConcat(ApplyOp(q, a[0]).value, a[1..], b);
      }
    }
  }

  /** A patch with an operation that cannot be read is refused whole. */
  lemma {:induction false} MalformedRefused(q: seq<Entry>, before: seq<Op>, after: seq<Op>)
    ensures Apply(q, before + [Malformed] + after).None?
  {
    ApplyConcat(q, before + [Malformed], after);
    ApplyConcat(q, before, [Malformed]);
  }

  lemma {:induction false} RemoveAtUnique(q: seq<Entry>, i: nat)
    requires Unique(q) && i < |q|
    ensures Unique(RemoveAt(q, i))
    ensures forall j :: 0 <= j < |q| - 1 ==> RemoveAt(q, i)[j].entryId != q[i].entryId
  {
    var r := RemoveAt(q, i);
    assert forall j :: 0 <= j < |r| ==> r[j] == if j < i then q[j] else q[j + 1];
  }

  lemma {:induction false} InsertAtUnique(q: seq<Entry>, i: nat, x: Entry)
    requires Unique(q) && i <= |q| && x.entryId != ""
    requires forall j :: 0 <= j < |q| ==> q[j].entryId != x.entryId
    ensures Unique(InsertAt(q, i, x))
  {
    var r := InsertAt(q, i, x);
    assert forall j :: 0 <= j < |r| ==> r[j] == if j < i then q[j] else if j == i then x else q[j - 1];
  }

  lemma {:induction false} ApplyOpKeepsUnique(q: seq<Entry>, op: Op)
    requires Unique(q) && ApplyOp(q, op).Some?
    requires op.Add? ==> op.item.entryId != ""
    ensures Unique(ApplyOp(q, op).value)
  {
    match op {
      case Add(index, item) => InsertAtUnique(q, index, item);
      case Remove(id) => RemoveAtUnique(q, IndexOf(q, id));
      case Move(id, to) =>
        var i := IndexOf(q, id);
        RemoveAtUnique(q, i);
        InsertAtUnique(RemoveAt(q, i), to, q[i]);
      case Clear =>
    }
  }

  /** Under distinct ids, every operation that a client accepts leaves ids distinct. */
  lemma {:induction false} ApplyKeepsUnique(q: seq<Entry>, ops: seq<Op>)
    requires Unique(q) && Apply(q, ops).Some?
    requires forall i :: 0 <= i < |ops| && ops[i].Add? ==> ops[i].item.entryId != ""
    ensures Unique(Apply(q, ops).value)
    decreases |ops|
  {
    if ops != [] {
      ApplyOpKeepsUnique(q, ops[0]);
      ApplyKeepsUnique(ApplyOp(q, ops[0]).value, ops[1..]);
    }
  }

  lemma {:induction false} IndexOfWire(q: seq<Entry>, id: string)
    ensures IndexOf(WireEntries(q), id) == IndexOf(q, id)
  {
    if q != [] {
      IndexOfWire(q[1..], id);
      assert WireEntries(q)[1..] == WireEntries(q[1..]);
    }
  }

  lemma {:induction false} InsertAtWire(q: seq<Entry>, i: nat, x: Entry)
    requires i <= |q|
    ensures InsertAt(WireEntries(q), i, Wire(x)) == WireEntries(InsertAt(q, i, x))
  {
  }

  lemma {:induction false} RemoveAtWire(q: seq<Entry>, i: nat)
    requires i < |q|
    ensures RemoveAt(WireEntries(q), i) == WireEntries(RemoveAt(q, i))
  {
  }

  lemma {:induction false} ApplyOpWire(q: seq<Entry>, op: Op)
    requires ApplyOp(q, op).Some?
    ensures ApplyOp(WireEntries(q), WireOp(op)) == Some(WireEntries(ApplyOp(q, op).value))
  {
    match op {
      case Add(index, item) =>
        IndexOfWire(q, item.entryId);
        InsertAtWire(q, index, item);
      case Remove(id) =>
        IndexOfWire(q, id);
        RemoveAtWire(q, IndexOf(q, id));
      case Move(id, to) =>
        IndexOfWire(q, id);
        var i := IndexOf(q, id);
        RemoveAtWire(q, i);
        InsertAtWire(RemoveAt(q, i), to, q[i]);
      case Clear =>
        assert WireEntries([]) == [];
    }
  }

  /** What a patch does to the queue, its wire form does to the wire form of the queue. */
  lemma {:induction false} ApplyWire(q: seq<Entry>, ops: seq<Op>)
    requires Apply(q, ops).Some?
    ensures Apply(WireEntries(q), WireOps(ops)) == Some(WireEntries(Apply(q, ops).value))
    decreases |ops|
  {
    if ops != [] {
      ApplyOpWire(q, ops[0]);
      ApplyWire(ApplyOp(q, ops[0]).value, ops[1..]);
      assert WireOps(ops)[1..] == WireOps(ops[1..]);
    }
  }

  // ---------- the operations the room emits ----------

  function AddOps(entries: seq<Entry>, start: nat): (ops: seq<Op>)
    ensures |ops| == |entries|
    ensures forall i :: 0 <= i < |entries| ==> ops[i] == Add(start + i, entries[i])
  {
    seq(|entries|, i requires 0 <= i < |entries| => Add(start + i, entries[i]))
  }

  function RemoveOps(entries: seq<Entry>): (ops: seq<Op>)
    ensures |ops| == |entries|
    ensures forall i :: 0 <= i < |entries| ==> ops[i] == Remove(entries[i].entryId)
  {
    seq(|entries|, i requires 0 <= i < |entries| => Remove(entries[i].entryId))
  }

  lemma {:induction false} AddOpsAppend(q: seq<Entry>, entries: seq<Entry>)
    requires Unique(q + entries)
    ensures Apply(q, AddOps(entries, |q|)) == Some(q + entries)
    decreases |entries|
  {
    if entries == [] {
      assert q + entries == q;
    } else {
      var q' := q + [entries[0]];
      assert q' + entries[1..] == q + entries;
      assert (q + entries)[|q|] == entries[0];
      assert forall i :: 0 <= i < |q| ==> q[i].entryId == (q + entries)[i].entryId != entries[0].entryId;
      assert InsertAt(q, |q|, entries[0]) == q';
      assert AddOps(entries, |q|)[0] == Add(|q|, entries[0]);
      AddOpsAppend(q', entries[1..]);
      assert AddOps(entries, |q|)[1..] == AddOps(entries[1..], |q'|);
    }
  }

  lemma {:induction false} RemoveOpsDropPrefix(q: seq<Entry>, k: nat)
    requires Unique(q) && k <= |q|
    ensures Apply(q, RemoveOps(q[..k])) == Some(q[k..])
    decreases k
  {
    if k > 0 {
      var ops := RemoveOps(q[..k]);
      FirstRemoved(q);
      RemoveOpsDropPrefix(q[1..], k - 1);
      assert q[..k][1..] == q[1..][..k - 1];
      assert ops[0] == Remove(q[0].entryId) && ops[1..] == RemoveOps(q[1..][..k - 1]);
      assert q[1..][k - 1..] == q[k..];
    } else {
      assert q[0..] == q;
    }
  }

  lemma {:induction false} FirstRemoved(q: seq<Entry>)
    requires Unique(q) && q != []
    ensures ApplyOp(q, Remove(q[0].entryId)) == Some(q[1..]) && Unique(q[1..])
  {
    assert RemoveAt(q, 0) == q[1..];
    assert forall i :: 0 <= i < |q| - 1 ==> q[1..][i] == q[i + 1];
  }

  lemma {:induction false} IndexOfUnique(q: seq<Entry>, i: nat)
    requires Unique(q) && i < |q|
    ensures IndexOf(q, q[i].entryId) == i
  {
  }

  lemma {:induction false} RemoveOpRemoves(q: seq<Entry>, i: nat)
    requires Unique(q) && i < |q|
    ensures Apply(q, [Remove(q[i].entryId)]) == Some(RemoveAt(q, i))
  {
    IndexOfUnique(q, i);
    assert [Remove(q[i].entryId)][1..] == [];
  }

  lemma {:induction false} MoveOpMoves(q: seq<Entry>, i: nat, to: nat)
    requires Unique(q) && i < |q| && to < |q|
    ensures Apply(q, [Move(q[i].entryId, to)]) == Some(InsertAt(RemoveAt(q, i), to, q[i]))
  {
    IndexOfUnique(q, i);
    assert [Move(q[i].entryId, to)][1..] == [];
  }

  lemma {:induction false} ClearOpClears(q: seq<Entry>)
    ensures Apply(q, [Clear]) == Some([])
  {
    assert [Clear][1..] == [];
  }
}
