/** The values the room and its clients exchange: queue entries, the ordered
    operations of one queue mutation, and the numbered parts that carry a
    snapshot or a mutation over the socket. */
module QueueWire {
  /** One queue entry. `details` stands for the display fields that travel
      unchanged (title, artist, album, source URL, contributors, time added).
      The size and bitrate are known for the current track only. */
  datatype Entry = Entry(
    entryId: string,
    trackRef: string,
    durationMs: int,
    coverUrl: string,
    requestedBy: string,
    requesterName: string,
    details: string,
    sizeBytes: int,
    bitrateKbps: int
  )

  /** `Malformed` is what a client reads when the kind is unknown or an "add"
      carries no item; a server never sends it. */
  datatype Op =
    | Add(index: int, item: Entry)
    | Remove(entryId: string)
    | Move(movedId: string, toIndex: int)
    | Clear
    | Malformed

  datatype Part<T> = Part(number: int, items: seq<T>, done: bool)

  datatype Message =
    | Snapshot(revision: nat, entries: Part<Entry>)
    | Patch(baseRevision: nat, newRevision: nat, ops: Part<Op>)

  /** What a client may see of an entry: the cover is served by the room's own
      proxy, under the track's reference. */
  function Wire(e: Entry): Entry {
    if e.coverUrl == "" then e else e.(coverUrl := "/api/v1/cover/" + e.trackRef)
  }

  /** Only the cover is changed, and only one that is there: it then says nothing but
      which track it belongs to. */
  lemma {:induction false} WireHidesCover(e: Entry, f: Entry)
    ensures Wire(e).(coverUrl := e.coverUrl) == e
    ensures e.coverUrl == "" ==> Wire(e).coverUrl == ""
    ensures e.coverUrl != "" ==> Wire(e).coverUrl == "/api/v1/cover/" + e.trackRef
    ensures e.coverUrl != "" && f.coverUrl != "" && f.(coverUrl := e.coverUrl) == e ==> Wire(e) == Wire(f)
  {
  }

  function WireEntries(q: seq<Entry>): (r: seq<Entry>)
    ensures |r| == |q|
    ensures forall i :: 0 <= i < |q| ==> r[i] == Wire(q[i])
  {
    seq(|q|, i requires 0 <= i < |q| => Wire(q[i]))
  }

  function WireOp(op: Op): Op {
    if op.Add? then op.(item := Wire(op.item)) else op
  }

  function WireOps(ops: seq<Op>): (r: seq<Op>)
    ensures |r| == |ops|
    ensures forall i :: 0 <= i < |ops| ==> r[i] == WireOp(ops[i])
  {
    seq(|ops|, i requires 0 <= i < |ops| => WireOp(ops[i]))
  }

  function Ids(q: seq<Entry>): (ids: seq<string>)
    ensures |ids| == |q|
    ensures forall i :: 0 <= i < |q| ==> ids[i] == q[i].entryId
  {
    seq(|q|, i requires 0 <= i < |q| => q[i].entryId)
  }

  /** Every entry has a non-empty id that no other entry has. */
  ghost predicate Unique(q: seq<Entry>) {
    && (forall i :: 0 <= i < |q| ==> q[i].entryId != "")
    && (forall i, j :: 0 <= i < j < |q| ==> q[i].entryId != q[j].entryId)
  }
}
