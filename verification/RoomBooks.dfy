/** What the room owes its listeners across events and restarts: no entry is lost or
    played twice, the store always holds the room's own state, and a timer ends
    only the track it was set for. */
module RoomBooks {
  import opened Wrappers
  import opened QueueWire
  import opened QueuePatch
  import opened QueueStore
  import opened RoomModel
  import opened RoomShape

  // ---------- conservation ----------

  function PlayedIds(ps: seq<Played>): (ids: seq<string>)
    ensures |ids| == |ps|
    ensures forall i :: 0 <= i < |ps| ==> ids[i] == ps[i].entryId
  {
    seq(|ps|, i requires 0 <= i < |ps| => ps[i].entryId)
  }

  function IdOf(current: Option<Entry>): multiset<string> {
    if current.None? then multiset{} else multiset{current.value.entryId}
  }

  /** Every place an accepted entry can be: current, pending, finished, removed, dropped. */
  function Placed(current: Option<Entry>, queue: seq<Entry>, ledger: Ledger): multiset<string> {
    IdOf(current) + multiset(Ids(queue)) + multiset(PlayedIds(ledger.finished)) + ledger.removed + ledger.dropped
  }

  ghost predicate Single(ids: multiset<string>) {
    ids[""] == 0 && forall id :: ids[id] <= 1
  }

  /** Every accepted entry is in exactly one place. */
  ghost predicate Accounted(current: Option<Entry>, queue: seq<Entry>, ledger: Ledger) {
    Placed(current, queue, ledger) == ledger.accepted && Single(ledger.accepted)
  }

  lemma {:induction false} IdsConcat(a: seq<Entry>, b: seq<Entry>)
    ensures multiset(Ids(a + b)) == multiset(Ids(a)) + multiset(Ids(b))
  {
    assert Ids(a + b) == Ids(a) + Ids(b);
  }

  lemma {:induction false} IdsSplit(q: seq<Entry>, k: nat)
    requires k <= |q|
    ensures multiset(Ids(q)) == multiset(Ids(q[..k])) + multiset(Ids(q[k..]))
  {
    assert q == q[..k] + q[k..];
    IdsConcat(q[..k], q[k..]);
  }

  lemma {:induction false} IdsRemoveAt(q: seq<Entry>, i: nat)
    requires i < |q|
    ensures multiset(Ids(q)) == multiset(Ids(RemoveAt(q, i))) + multiset{q[i].entryId}
  {
    IdsSplit(q, i);
    IdsSplit(q[i..], 1);
    assert q[i..][1..] == q[i + 1..] && q[i..][..1] == [q[i]];
    assert Ids([q[i]]) == [q[i].entryId];
    IdsConcat(q[..i], q[i + 1..]);
  }

  lemma {:induction false} IdsInsertAt(q: seq<Entry>, i: nat, x: Entry)
    requires i <= |q|
    ensures multiset(Ids(InsertAt(q, i, x))) == multiset(Ids(q)) + multiset{x.entryId}
  {
    assert Ids([x]) == [x.entryId];
    IdsConcat(q[..i] + [x], q[i..]);
    IdsConcat(q[..i], [x]);
    IdsSplit(q, i);
  }

  lemma {:induction false} PlayedSnoc(ps: seq<Played>, p: Played)
    ensures multiset(PlayedIds(ps + [p])) == multiset(PlayedIds(ps)) + multiset{p.entryId}
  {
    assert PlayedIds(ps + [p]) == PlayedIds(ps) + [p.entryId];
  }

  lemma {:induction false} SingleUnique(q: seq<Entry>, ids: multiset<string>)
    requires Single(ids) && multiset(Ids(q)) <= ids
    ensures Unique(q)
  {
    forall i | 0 <= i < |q|
      ensures q[i].entryId != ""
    {
      assert Ids(q)[i] in multiset(Ids(q));
    }
    forall i, j | 0 <= i < j < |q|
      ensures q[i].entryId != q[j].entryId
    {
      IdsSplit(q, j);
      var id := q[i].entryId;
      assert Ids(q[..j])[i] == id;
      assert id in multiset(Ids(q[..j]));
      assert Ids(q[j..])[0] == q[j].entryId;
      assert q[j].entryId in multiset(Ids(q[j..]));
      assert ids[id] <= 1;
    }
  }

  function Line(current: Option<Entry>, queue: seq<Entry>): seq<Entry> {
    if current.None? then queue else [current.value] + queue
  }

  lemma {:induction false} LineIds(current: Option<Entry>, queue: seq<Entry>)
    ensures multiset(Ids(Line(current, queue))) == IdOf(current) + multiset(Ids(queue))
  {
    if current.Some? {
      IdsConcat([current.value], queue);
      assert Ids([current.value]) == [current.value.entryId];
    }
  }

  /** Whatever could still be accounted for has distinct ids. */
  lemma {:induction false} LineUnique(current: Option<Entry>, queue: seq<Entry>, ids: multiset<string>)
    requires Single(ids) && IdOf(current) + multiset(Ids(queue)) <= ids
    ensures Unique(Line(current, queue)) && Unique(queue)
  {
    LineIds(current, queue);
    SingleUnique(Line(current, queue), ids);
    SingleUnique(queue, ids);
  }

  lemma {:induction false} UniqueSingle(q: seq<Entry>)
    requires Unique(q)
    ensures Single(multiset(Ids(q)))
    decreases |q|
  {
    if q != [] {
      var n := |q| - 1;
      UniqueSingle(q[..n]);
      IdsSplit(q, n);
      assert q[n..] == [q[n]];
      assert Ids([q[n]]) == [q[n].entryId];
      assert forall id :: id in multiset(Ids(q[..n])) ==> id in Ids(q[..n]);
      assert q[n].entryId !in Ids(q[..n]);
    } else {
      assert Ids(q) == [];
    }
  }

  /** Fresh entries can join the accepted ones. */
  lemma {:induction false} FreshJoins(ledger: Ledger, entries: seq<Entry>)
    requires Single(ledger.accepted) && FreshBatch(ledger.accepted, entries)
    ensures Single(ledger.accepted + multiset(Ids(entries)))
  {
    UniqueSingle(entries);
    var all := ledger.accepted + multiset(Ids(entries));
    forall id
      ensures all[id] <= 1
    {
      if id in multiset(Ids(entries)) {
        assert id in Ids(entries);
        var i :| 0 <= i < |entries| && Ids(entries)[i] == id;
        assert ledger.accepted[entries[i].entryId] == 0;
      }
    }
  }

  // ---------- the store ----------

  ghost predicate Recoverable(current: Option<Entry>, queue: seq<Entry>, stored: Stored) {
    && stored.images != []
    && (stored.settled ==>
          Decode(stored.images[|stored.images| - 1]) == (PersistedCurrent(current), PersistedAll(queue)))
  }

  lemma {:induction false} SavedRecoverable(current: Option<Entry>, queue: seq<Entry>, images: seq<seq<Row>>)
    requires Unique(Line(current, queue))
    ensures Recoverable(current, queue, Stored(images + [Image(current, queue)], true))
  {
    DecodeImage(current, queue);
  }

  ghost predicate Books(s: Room) {
    && Accounted(s.playback.current, s.queue, s.ledger)
    && Recoverable(s.playback.current, s.queue, s.stored)
    && Timed(s.playback.current, s.timers)
  }

  // ---------- what the pieces do to the books ----------

  lemma {:induction false} FinishedIds(current: Option<Entry>, played: seq<Played>, reason: string, now: int)
    ensures multiset(PlayedIds(Finished(current, played, reason, now))) == multiset(PlayedIds(played)) + IdOf(current)
  {
    if current.Some? {
      PlayedSnoc(played, Played(current.value.entryId, reason, now));
    }
  }

  lemma {:induction false} SkimmedIds(skimmed: seq<Entry>, quality: Option<(int, int)>)
    ensures var next := Playable(skimmed);
      multiset(Ids(skimmed))
      == multiset(Ids(if next.Some? then skimmed[..|skimmed| - 1] else skimmed))
         + IdOf(if next.None? then None else Some(WithQuality(next.value, quality)))
  {
    if Playable(skimmed).Some? {
      var n := |skimmed| - 1;
      IdsSplit(skimmed, n);
      assert skimmed[n..] == [skimmed[n]];
      assert Ids([skimmed[n]]) == [skimmed[n].entryId];
    }
  }

  /** Current track to the history, dropped and started entries off the queue. */
  lemma {:induction false} Moved(current: multiset<string>, queue: multiset<string>, finished: multiset<string>,
                                 removed: multiset<string>, dropped: multiset<string>,
                                 skipped: multiset<string>, started: multiset<string>, rest: multiset<string>)
    requires queue == skipped + started + rest
    ensures started + rest + (finished + current) + removed + (dropped + skipped)
         == current + queue + finished + removed + dropped
  {
  }

  lemma {:induction false} AdvanceAccounted(current: Option<Entry>, queue: seq<Entry>, ledger: Ledger,
                                            reason: string, env: Env)
    requires Accounted(current, queue, ledger)
    ensures var skimmed := SkimmedOf(queue);
      Accounted(Started(skimmed, env.quality), queue[|skimmed|..], ledger.(
           finished := Finished(current, ledger.finished, reason, env.now),
           dropped := ledger.dropped + multiset(Ids(DroppedOf(skimmed)))))
  {
    var skimmed := SkimmedOf(queue);
    var rest := queue[|skimmed|..];
    FinishedIds(current, ledger.finished, reason, env.now);
    IdsSplit(queue, |skimmed|);
    assert queue[..|skimmed|] == skimmed;
    SkimmedIds(skimmed, env.quality);
    Moved(IdOf(current), multiset(Ids(queue)), multiset(PlayedIds(ledger.finished)), ledger.removed, ledger.dropped,
          multiset(Ids(DroppedOf(skimmed))), IdOf(Started(skimmed, env.quality)), multiset(Ids(rest)));
  }

  lemma {:induction false} UniqueSuffix(q: seq<Entry>, k: nat)
    requires Unique(q) && k <= |q|
    ensures Unique(q[k..])
  {
    assert forall i :: 0 <= i < |q| - k ==> q[k..][i] == q[k + i];
  }

  /** What an advance takes up as current, with what is left behind it, is a suffix of the queue. */
  lemma {:induction false} LineAfter(queue: seq<Entry>, skimmed: seq<Entry>)
    requires Unique(queue) && skimmed <= queue
    ensures Unique(Line(Playable(skimmed), queue[|skimmed|..]))
  {
    if Playable(skimmed).Some? {
      UniqueSuffix(queue, |skimmed| - 1);
      assert queue[|skimmed| - 1..] == Line(Playable(skimmed), queue[|skimmed|..]);
    } else {
      UniqueSuffix(queue, |skimmed|);
    }
  }

  lemma {:induction false} QualityUnsaved(skimmed: seq<Entry>, quality: Option<(int, int)>)
    ensures PersistedCurrent(Started(skimmed, quality)) == PersistedCurrent(Playable(skimmed))
  {
  }

  lemma {:induction false} AdvanceRecoverable(queue: seq<Entry>, images: seq<seq<Row>>, quality: Option<(int, int)>)
    requires Unique(queue)
    ensures var skimmed := SkimmedOf(queue);
      var rest := queue[|skimmed|..];
      Recoverable(Started(skimmed, quality), rest, Stored(images + [Image(Playable(skimmed), rest)], true))
  {
    var skimmed := SkimmedOf(queue);
    LineAfter(queue, skimmed);
    SavedRecoverable(Playable(skimmed), queue[|skimmed|..], images);
    QualityUnsaved(skimmed, quality);
  }

  lemma {:induction false} BooksUnique(s: Room)
    requires Books(s)
    ensures Unique(Line(s.playback.current, s.queue)) && Unique(s.queue)
  {
    LineUnique(s.playback.current, s.queue, s.ledger.accepted);
  }

  lemma {:induction false} AdvanceReadyBooks(s: Room, reason: string, env: Env)
    requires Books(s) && AdvanceReady(s, reason, env).Some?
    ensures Books(AdvanceReady(s, reason, env).value)
  {
    BooksUnique(s);
    AdvanceReadyShape(s, reason, env);
    AdvanceAccounted(s.playback.current, s.queue, s.ledger, reason, env);
    AdvanceRecoverable(s.queue, s.stored.images, env.quality);
  }

  // ---------- edits ----------

  lemma {:induction false} UnrecordedBooks(s: Room, t: Room)
    requires Books(s) && Unrecorded(s, t)
    ensures Books(t)
  {
  }

  /** Only an edit that appends brings in entries, and those are fresh. */
  ghost predicate FreshEdit(accepted: multiset<string>, edit: Edit) {
    edit.Appending? ==> FreshBatch(accepted, edit.added)
  }

  lemma {:induction false} AppendingAccounted(current: Option<Entry>, queue: seq<Entry>, ledger: Ledger, added: seq<Entry>)
    requires Accounted(current, queue, ledger) && FreshBatch(ledger.accepted, added)
    ensures Accounted(current, queue + added, EditedLedger(ledger, queue, Appending(added)))
  {
    FreshJoins(ledger, added);
    IdsConcat(queue, added);
  }

  lemma {:induction false} RemovingAccounted(current: Option<Entry>, queue: seq<Entry>, ledger: Ledger, at: nat)
    requires Accounted(current, queue, ledger) && at < |queue|
    ensures Accounted(current, RemoveAt(queue, at), EditedLedger(ledger, queue, Removing(at)))
  {
    IdsRemoveAt(queue, at);
  }

  lemma {:induction false} MovingAccounted(current: Option<Entry>, queue: seq<Entry>, ledger: Ledger, from: nat, to: nat)
    requires Accounted(current, queue, ledger) && from < |queue| && to < |queue|
    ensures Accounted(current, InsertAt(RemoveAt(queue, from), to, queue[from]), ledger)
  {
    IdsRemoveAt(queue, from);
    IdsInsertAt(RemoveAt(queue, from), to, queue[from]);
  }

  lemma {:induction false} ClearingAccounted(current: Option<Entry>, queue: seq<Entry>, ledger: Ledger)
    requires Accounted(current, queue, ledger)
    ensures Accounted(current, [], EditedLedger(ledger, queue, Clearing))
  {
    assert Ids([]) == [];
  }

  lemma {:induction false} EditAccounted(current: Option<Entry>, queue: seq<Entry>, ledger: Ledger, edit: Edit)
    requires Accounted(current, queue, ledger) && Applies(edit, queue) && FreshEdit(ledger.accepted, edit)
    ensures Accounted(current, EditedQueue(queue, edit), EditedLedger(ledger, queue, edit))
  {
    match edit {
      case Nothing =>
      case Appending(added) => AppendingAccounted(current, queue, ledger, added);
      case Removing(at) => RemovingAccounted(current, queue, ledger, at);
      case Moving(from, to) => MovingAccounted(current, queue, ledger, from, to);
      case Clearing => ClearingAccounted(current, queue, ledger);
    }
  }

  lemma {:induction false} EditedBooks(s: Room, edit: Edit)
    requires Books(s) && Applies(edit, s.queue) && Edited(s, edit).Some? && FreshEdit(s.ledger.accepted, edit)
    ensures Books(Edited(s, edit).value)
  {
    var t := Edited(s, edit).value;
    EditedShape(s, edit);
    EditAccounted(s.playback.current, s.queue, s.ledger, edit);
    LineUnique(s.playback.current, t.queue, t.ledger.accepted);
    SavedRecoverable(s.playback.current, t.queue, s.stored.images);
  }

  // ---------- the events ----------

  /** The batch an event would append is fresh when its entries are. */
  lemma {:induction false} BatchFresh(s: Room, ev: Event)
    requires Fresh(s, ev) && (ev.AddEntries? || ev.FetchReport?)
    ensures FreshBatch(s.ledger.accepted, Batch(s, ev))
  {
  }

  /** The books hold at every stage of an event. */
  lemma {:induction false} ShapeBooks(s: Room, ev: Event, h: Shape, t: Room)
    requires Books(s) && Fresh(s, ev) && Does(s, ev, h, t)
    ensures Books(h.a) && Books(h.b) && Books(h.c) && Books(t)
  {
    UnrecordedBooks(s, h.a);
    if h.edit.Appending? {
      BatchFresh(s, ev);
    }
    EditedBooks(h.a, h.edit);
    UnrecordedBooks(h.b, h.c);
    if h.advance.Some? {
      AdvanceReadyBooks(h.c, h.advance.value.reason, h.advance.value.env);
    }
  }

  /** Every event keeps the books. */
  lemma {:induction false} StepBooks(s: Room, ev: Event)
    requires Books(s) && Enabled(s, ev) && Fresh(s, ev)
    ensures Books(Step(s, ev).0)
  {
    var h := StepDoes(s, ev);
    ShapeBooks(s, ev, h, Step(s, ev).0);
  }
}
