/** The persisted form of a room's queue: the current track leads and is flagged,
    the pending entries follow. */
module QueueStore {
  import opened Wrappers
  import opened QueueWire

  datatype Row = Row(entry: Entry, isCurrent: bool)

  /** What a row keeps of an entry: size and bitrate come from the media cache. */
  function Persisted(e: Entry): Entry { e.(sizeBytes := 0, bitrateKbps := 0) }

  function PersistedAll(q: seq<Entry>): (r: seq<Entry>)
    ensures |r| == |q|
    ensures forall i :: 0 <= i < |q| ==> r[i] == Persisted(q[i])
  {
    seq(|q|, i requires 0 <= i < |q| => Persisted(q[i]))
  }

  function PersistedCurrent(current: Option<Entry>): Option<Entry> {
    if current.None? then None else Some(Persisted(current.value))
  }

  function Replaced(currentId: string, entries: seq<Entry>): (rows: seq<Row>)
    ensures |rows| == |entries|
    ensures forall i :: 0 <= i < |entries| ==>
              rows[i] == Row(Persisted(entries[i]), currentId != "" && entries[i].entryId == currentId)
  {
    seq(|entries|, i requires 0 <= i < |entries| =>
      Row(Persisted(entries[i]), currentId != "" && entries[i].entryId == currentId))
  }

  /** The whole content of the table once (current, next) is committed. */
  function Image(current: Option<Entry>, next: seq<Entry>): seq<Row> {
    if current.None? then Replaced("", next)
    else Replaced(current.value.entryId, [current.value] + next)
  }

  function Entries(rows: seq<Row>): (es: seq<Entry>)
    ensures |es| == |rows|
    ensures forall i :: 0 <= i < |rows| ==> es[i] == rows[i].entry
  {
    seq(|rows|, i requires 0 <= i < |rows| => rows[i].entry)
  }

  /** The id of the last flagged row, "" when there is none. */
  function FlaggedId(rows: seq<Row>): string {
    if rows == [] then ""
    else if rows[|rows| - 1].isCurrent then rows[|rows| - 1].entry.entryId
    else FlaggedId(rows[..|rows| - 1])
  }

  function FirstWithId(rows: seq<Row>, id: string): (i: nat)
    ensures i <= |rows|
    ensures i < |rows| ==> rows[i].entry.entryId == id
    ensures forall j :: 0 <= j < i ==> rows[j].entry.entryId != id
  {
    if rows == [] || rows[0].entry.entryId == id then 0 else 1 + FirstWithId(rows[1..], id)
  }

  /** What a restarting room makes of the rows: the flagged track and what follows
      it. A flag on no row leaves everything pending. */
  function Decode(rows: seq<Row>): (Option<Entry>, seq<Entry>) {
    var id := FlaggedId(rows);
    if id == "" then (None, Entries(rows))
    else
      var i := FirstWithId(rows, id);
      if i == |rows| then (None, Entries(rows))
      else (Some(rows[i].entry), Entries(rows[i + 1..]))
  }

  /** The table of one room. A replacement is one transaction: it happens whole or
      not at all. */
  class QueueTable {
    var rows: seq<Row>

    constructor ()
      ensures rows == []
    {
      rows := [];
    }

    method ReplaceQueue(currentId: string, entries: seq<Entry>, commits: bool) returns (ok: bool)
      modifies this
      ensures ok == commits
      ensures rows == if commits then Replaced(currentId, entries) else old(rows)
    {
      var written: seq<Row> := [];
      for i := 0 to |entries|
        invariant |written| == i
        invariant written == Replaced(currentId, entries)[..i]
      {
        written := written + [Row(Persisted(entries[i]), currentId != "" && entries[i].entryId == currentId)];
      }
      if !commits {
        return false;
      }
      rows := written;
      return true;
    }

    method LoadQueue() returns (current: Option<Entry>, pending: seq<Entry>)
      ensures (current, pending) == Decode(rows)
    {
      var currentId := "";
      var entries: seq<Entry> := [];
      for i := 0 to |rows|
        invariant entries == Entries(rows)[..i]
        invariant currentId == FlaggedId(rows[..i])
      {
        if rows[i].isCurrent {
          currentId := rows[i].entry.entryId;
        }
        entries := entries + [rows[i].entry];
        assert rows[..i + 1][..i] == rows[..i];
      }
      assert rows[..|rows|] == rows && entries == Entries(rows);
      if currentId == "" {
        return None, entries;
      }
      for i := 0 to |entries|
        invariant forall j :: 0 <= j < i ==> rows[j].entry.entryId != currentId
      {
        if entries[i].entryId == currentId {
          assert FirstWithId(rows, currentId) == i;
          assert entries[i + 1..] == Entries(rows[i + 1..]);
          return Some(entries[i]), entries[i + 1..];
        }
      }
      assert FirstWithId(rows, currentId) == |rows|;
      return None, entries;
    }
  }

  lemma {:induction false} NothingFlagged(rows: seq<Row>)
    requires forall i :: 0 <= i < |rows| ==> !rows[i].isCurrent
    ensures FlaggedId(rows) == ""
    decreases |rows|
  {
    if rows != [] {
      NothingFlagged(rows[..|rows| - 1]);
    }
  }

  lemma {:induction false} LeaderFlagged(rows: seq<Row>)
    requires rows != [] && rows[0].isCurrent
    requires forall i :: 1 <= i < |rows| ==> !rows[i].isCurrent
    ensures FlaggedId(rows) == rows[0].entry.entryId
    decreases |rows|
  {
    if |rows| > 1 {
      LeaderFlagged(rows[..|rows| - 1]);
    }
  }

  lemma {:induction false} DecodeNoCurrent(next: seq<Entry>)
    ensures Decode(Replaced("", next)) == (None, PersistedAll(next))
  {
    NothingFlagged(Replaced("", next));
    assert Entries(Replaced("", next)) == PersistedAll(next);
  }

  lemma {:induction false} DecodeCurrent(current: Entry, next: seq<Entry>)
    requires current.entryId != ""
    requires forall i :: 0 <= i < |next| ==> next[i].entryId != current.entryId
    ensures Decode(Replaced(current.entryId, [current] + next)) == (Some(Persisted(current)), PersistedAll(next))
  {
    var rows := Replaced(current.entryId, [current] + next);
    assert forall i :: 1 <= i < |rows| ==> rows[i].entry == Persisted(next[i - 1]);
    LeaderFlagged(rows);
    assert FirstWithId(rows, current.entryId) == 0;
    assert Entries(rows[1..]) == PersistedAll(next);
  }

  /** Round trip: what was committed is what a restart finds. */
  lemma {:induction false} DecodeImage(current: Option<Entry>, next: seq<Entry>)
    requires current.Some? ==> Unique([current.value] + next)
    ensures Decode(Image(current, next)) == (PersistedCurrent(current), PersistedAll(next))
  {
    if current.None? {
      DecodeNoCurrent(next);
    } else {
      var all := [current.value] + next;
      assert all[0] == current.value;
      assert forall i :: 0 <= i < |next| ==> all[i + 1] == next[i];
      DecodeCurrent(current.value, next);
    }
  }

  /** Every field that has a column is as it was; size and bitrate have none. */
  ghost predicate SavedAs(e: Entry, r: Entry) {
    && r.entryId == e.entryId && r.trackRef == e.trackRef && r.durationMs == e.durationMs && r.coverUrl == e.coverUrl
    && r.requestedBy == e.requestedBy && r.requesterName == e.requesterName && r.details == e.details
    && r.sizeBytes == 0 && r.bitrateKbps == 0
  }

  lemma {:induction false} PersistedKeeps(e: Entry)
    ensures SavedAs(e, Persisted(e))
    ensures forall r :: SavedAs(e, r) ==> r == Persisted(e)
  {
  }

  /** The same, field by field and place by place. */
  lemma {:induction false} RestartFinds(current: Option<Entry>, next: seq<Entry>)
    requires current.Some? ==> Unique([current.value] + next)
    ensures var (c, q) := Decode(Image(current, next));
      && (c.Some? <==> current.Some?) && (c.Some? ==> SavedAs(current.value, c.value))
      && |q| == |next| && (forall i :: 0 <= i < |q| ==> SavedAs(next[i], q[i]))
  {
    DecodeImage(current, next);
  }

  lemma {:induction false} LastFlag(rows: seq<Row>, last: nat)
    requires last < |rows| && rows[last].isCurrent
    requires forall i :: last < i < |rows| ==> !rows[i].isCurrent
    ensures FlaggedId(rows) == rows[last].entry.entryId
    decreases |rows|
  {
    if last < |rows| - 1 {
      LastFlag(rows[..|rows| - 1], last);
    }
  }

  /** Of any rows, also such as no room has written: the last flag counts, and the first
      row with its id is current, with what follows it pending. */
  lemma {:induction false} LastFlagCounts(rows: seq<Row>, last: nat, first: nat)
    requires first <= last < |rows| && rows[last].isCurrent && rows[last].entry.entryId != ""
    requires forall i :: last < i < |rows| ==> !rows[i].isCurrent
    requires rows[first].entry.entryId == rows[last].entry.entryId
    requires forall i :: 0 <= i < first ==> rows[i].entry.entryId != rows[last].entry.entryId
    ensures Decode(rows) == (Some(rows[first].entry), Entries(rows[first + 1..]))
  {
    LastFlag(rows, last);
    FirstIs(rows, rows[last].entry.entryId, first);
  }

  lemma {:induction false} FirstIs(rows: seq<Row>, id: string, first: nat)
    requires first < |rows| && rows[first].entry.entryId == id
    requires forall i :: 0 <= i < first ==> rows[i].entry.entryId != id
    ensures FirstWithId(rows, id) == first
  {
  }

  lemma {:induction false} NoFlagNoCurrent(rows: seq<Row>)
    requires forall i :: 0 <= i < |rows| ==> !rows[i].isCurrent
    ensures Decode(rows) == (None, Entries(rows))
  {
    NothingFlagged(rows);
  }
}
