/** Whole runs: a room from its start through any events, with a client somewhere on
    an unreliable network, and the room's next life after a crash. */
module RoomRuns {
  import opened Wrappers
  import opened QueueWire
  import opened QueueChunking
  import opened RoomShape
  import opened QueueReplica
  import opened QueueAgreement
  import opened QueueStore
  import opened RoomPolicy
  import opened RoomModel
  import opened RoomNetwork
  import opened RoomBooks
  import opened RoomGuarantees
  import opened RoomRadio

  // ---------- runs ----------

  datatype World = World(room: Room, replica: Replica)

  /** The network may deliver any part the room ever cut, at any time, any number of
      times, or never. A client that enters the room again starts from nothing. */
  datatype Action = Happens(event: Event) | Delivers(message: Message) | Reenters | ResyncFails

  ghost predicate Possible(w: World, a: Action) {
    match a
    case Happens(ev) => Enabled(w.room, ev) && Fresh(w.room, ev)
    case Delivers(m) => Sent(w.room.log, m)
    case Reenters => true
    case ResyncFails => true
  }

  ghost function Next(w: World, a: Action): World
    requires Possible(w, a)
  {
    match a
    case Happens(ev) => w.(room := Step(w.room, ev).0)
    case Delivers(m) => w.(replica := Handle(w.replica, m))
    case Reenters => w.(replica := EMPTY)
    case ResyncFails => w.(replica := w.replica.(resyncRequired := true))
  }

  ghost predicate Runs(w: World, run: seq<Action>)
    decreases |run|
  {
    run != [] ==> Possible(w, run[0]) && Runs(Next(w, run[0]), run[1..])
  }

  ghost function After(w: World, run: seq<Action>): World
    requires Runs(w, run)
    decreases |run|
  {
    if run == [] then w else After(Next(w, run[0]), run[1..])
  }

  // ---------- what every reachable world keeps ----------

  /** Rows a room can start from: ids are non-empty and distinct, and nothing is
      there that the table has no column for. */
  ghost predicate Startable(rows: seq<Row>) {
    var (current, queue) := Decode(rows);
    Unique(Line(current, queue)) && current == PersistedCurrent(current) && queue == PersistedAll(queue)
  }

  ghost predicate AllStartable(images: seq<seq<Row>>) {
    forall k :: 0 <= k < |images| ==> Startable(images[k])
  }

  ghost predicate Sane(s: Room) {
    InStep(s) && Books(s) && Radioed(s) && AllStartable(s.stored.images)
  }

  ghost predicate SaneWorld(w: World) { Sane(w.room) && Faithful(w.room.log, w.replica) }

  lemma {:induction false} LedgerRoom(current: Option<Entry>, queue: seq<Entry>, ledger: Ledger, entries: seq<Entry>)
    requires Accounted(current, queue, ledger) && Unique(entries)
    requires forall i :: 0 <= i < |entries| ==> ledger.accepted[entries[i].entryId] == 0
    ensures Unique(Line(current, queue + entries)) && Unique(queue + entries)
  {
    FreshJoins(ledger, entries);
    IdsConcat(queue, entries);
    LineUnique(current, queue + entries, ledger.accepted + multiset(Ids(entries)));
  }

  lemma {:induction false} NoClashFromBooks(s: Room, ev: Event, h: Shape, t: Room)
    requires Books(s) && Fresh(s, ev) && Does(s, ev, h, t)
    ensures NoClash(s.queue, h.edit)
  {
    BooksUnique(s);
    if h.edit.Appending? {
      BatchFresh(s, ev);
      LedgerRoom(s.playback.current, s.queue, s.ledger, h.edit.added);
    }
  }

  /** Saving an entry keeps its id, and saving it again changes nothing. */
  lemma {:induction false} PersistedLine(current: Option<Entry>, queue: seq<Entry>)
    ensures Ids(Line(PersistedCurrent(current), PersistedAll(queue))) == Ids(Line(current, queue))
    ensures PersistedAll(PersistedAll(queue)) == PersistedAll(queue)
  {
    var a, b := Line(current, queue), Line(PersistedCurrent(current), PersistedAll(queue));
    forall i | 0 <= i < |a|
      ensures b[i].entryId == a[i].entryId
    {
    }
  }

  lemma {:induction false} SameIdsUnique(a: seq<Entry>, b: seq<Entry>)
    requires Unique(a) && Ids(a) == Ids(b)
    ensures Unique(b)
  {
    assert |a| == |Ids(a)| == |Ids(b)| == |b|;
    assert forall i :: 0 <= i < |b| ==> Ids(b)[i] == b[i].entryId == Ids(a)[i] == a[i].entryId;
  }

  lemma {:induction false} PersistedStartable(current: Option<Entry>, queue: seq<Entry>, rows: seq<Row>)
    requires Unique(Line(current, queue)) && Decode(rows) == (PersistedCurrent(current), PersistedAll(queue))
    ensures Startable(rows)
  {
    PersistedLine(current, queue);
    SameIdsUnique(Line(current, queue), Line(PersistedCurrent(current), PersistedAll(queue)));
  }

  lemma {:induction false} SnocStartable(images: seq<seq<Row>>, later: seq<seq<Row>>)
    requires AllStartable(images) && images <= later && |later| == |images| + 1 && Startable(later[|images|])
    ensures AllStartable(later)
  {
    forall k | 0 <= k < |later|
      ensures Startable(later[k])
    {
      if k < |images| {
        assert later[k] == images[k];
        assert Startable(images[k]);
      }
    }
  }

  lemma {:induction false} OneCommitStartable(s: Room, t: Room)
    requires AllStartable(s.stored.images) && OneCommit(s, t) && Unique(Line(t.playback.current, t.queue))
    ensures AllStartable(t.stored.images)
  {
    PersistedStartable(t.playback.current, t.queue, t.stored.images[|s.stored.images|]);
    SnocStartable(s.stored.images, t.stored.images);
  }

  lemma {:induction false} StageStartable(s: Room, t: Room)
    requires AllStartable(s.stored.images) && Books(t) && (NoCommit(s, t) || OneCommit(s, t))
    ensures AllStartable(t.stored.images)
  {
    BooksUnique(t);
    if OneCommit(s, t) {
      OneCommitStartable(s, t);
    }
  }

  lemma {:induction false} ShapeStartable(s: Room, ev: Event, h: Shape, t: Room)
    requires Books(s) && AllStartable(s.stored.images) && Fresh(s, ev) && Does(s, ev, h, t)
    ensures AllStartable(t.stored.images)
  {
    ShapeCommits(s, ev, h, t);
    StageStartable(s, h.c);
    StageStartable(h.c, t);
  }

  lemma {:induction false} StepSane(s: Room, ev: Event)
    requires Sane(s) && Enabled(s, ev) && Fresh(s, ev)
    ensures Sane(Step(s, ev).0) && Grows(s.log, Step(s, ev).0.log)
  {
    var t := Step(s, ev).0;
    var h := StepDoes(s, ev);
    NoClashFromBooks(s, ev, h, t);
    StepInStep(s, ev, h);
    ShapeBooks(s, ev, h, t);
    ShapeStartable(s, ev, h, t);
    StepArbitrated(s, ev);
    StepBacked(s, ev);
  }

  lemma {:induction false} NextSane(w: World, a: Action)
    requires SaneWorld(w) && Possible(w, a)
    ensures SaneWorld(Next(w, a)) && Grows(w.room.log, Next(w, a).room.log)
  {
    match a {
      case Happens(ev) =>
        StepSane(w.room, ev);
        GrowthKeepsFaithful(w.room.log, Step(w.room, ev).0.log, w.replica);
      case Delivers(m) => DeliverFaithful(w.room.log, w.replica, m);
      case Reenters =>
      case ResyncFails =>
    }
  }

  lemma {:induction false} GrowsOn(a: Log, b: Log, c: Log)
    requires Grows(a, b) && Grows(b, c)
    ensures Grows(a, c)
  {
  }

  lemma {:induction false} RunSane(w: World, run: seq<Action>)
    requires SaneWorld(w) && Runs(w, run)
    ensures SaneWorld(After(w, run)) && Grows(w.room.log, After(w, run).room.log)
    decreases |run|
  {
    if run != [] {
      NextSane(w, run[0]);
      RunSane(Next(w, run[0]), run[1..]);
      GrowsOn(w.room.log, Next(w, run[0]).room.log, After(w, run).room.log);
    }
  }

  // ---------- starting ----------

  lemma {:induction false} OpeningAccounted(found: Option<Entry>, queue: seq<Entry>)
    requires Unique(Line(found, queue))
    ensures Accounted(if Resumable(found) then found else None, queue, OpeningLedger(found, queue))
    ensures Unique(queue)
  {
    var all := (if found.None? then [] else [found.value]) + queue;
    assert all == Line(found, queue);
    UniqueSingle(all);
    LineIds(found, queue);
    assert PlayedIds([]) == [];
    LineUnique(found, queue, multiset(Ids(all)));
  }

  lemma {:induction false} FoundUnique(rows: seq<Row>, readable: bool)
    requires Startable(rows)
    ensures var (found, queue) := Found(rows, readable);
      && Unique(Line(found, queue))
      && (readable ==> Decode(rows) == (PersistedCurrent(found), PersistedAll(queue)))
  {
  }

  lemma {:induction false} LoadedShape(sizes: Sizes, policy: Policy, rows: seq<Row>, readable: bool)
    ensures var (found, queue) := Found(rows, readable);
      var s := Loaded(sizes, policy, rows, readable);
      && s.queue == queue && s.revision == 0 && s.log == Log(sizes, [queue], []) && !s.conn.joined && s.conn.wire == []
      && s.playback.current == (if Resumable(found) then found else None)
      && s.ledger == OpeningLedger(found, queue)
      && s.stored == Stored([rows], readable && (found.None? || Resumable(found)))
      && s.sources == NO_SOURCES && s.radio.None? && s.refilling == Refilling(false, [], false, "")
  {
  }

  lemma {:induction false} NothingRadioed()
    ensures Arbitrated(NO_SOURCES) && Refillable(None, Refilling(false, [], false, ""))
  {
    assert BuildIds([]) == [] && AnswerIds([]) == [];
  }

  lemma {:induction false} OpeningInStep(sizes: Sizes, queue: seq<Entry>, conn: Connection)
    requires !conn.joined && conn.wire == []
    ensures Logged(queue, 0, Log(sizes, [queue], [])) && Told(0, Log(sizes, [queue], []), conn)
  {
  }

  lemma {:induction false} LoadedStored(sizes: Sizes, policy: Policy, rows: seq<Row>, readable: bool)
    requires Startable(rows)
    ensures var s := Loaded(sizes, policy, rows, readable);
      AllStartable(s.stored.images) && Recoverable(s.playback.current, s.queue, s.stored)
  {
    LoadedShape(sizes, policy, rows, readable);
    FoundUnique(rows, readable);
  }

  /** Everything but the timer is right as soon as the rows are loaded. */
  lemma {:induction false} LoadedSane(sizes: Sizes, policy: Policy, rows: seq<Row>, readable: bool)
    requires Startable(rows)
    ensures var s := Loaded(sizes, policy, rows, readable);
      && InStep(s) && Radioed(s) && AllStartable(s.stored.images)
      && Accounted(s.playback.current, s.queue, s.ledger) && Recoverable(s.playback.current, s.queue, s.stored)
      && s.playback.current == (if Resumable(Found(rows, readable).0) then Found(rows, readable).0 else None)
  {
    var (found, queue) := Found(rows, readable);
    var s := Loaded(sizes, policy, rows, readable);
    LoadedShape(sizes, policy, rows, readable);
    LoadedStored(sizes, policy, rows, readable);
    FoundUnique(rows, readable);
    OpeningAccounted(found, queue);
    OpeningInStep(sizes, queue, s.conn);
    NothingRadioed();
  }

  lemma {:induction false} BeginSane(s: Room, found: Option<Entry>, env: Env)
    requires InStep(s) && Radioed(s) && AllStartable(s.stored.images)
    requires Accounted(s.playback.current, s.queue, s.ledger) && Recoverable(s.playback.current, s.queue, s.stored)
    requires s.playback.current == if Resumable(found) then found else None
    ensures Sane(Begin(s, found, env))
  {
    if Resumable(found) {
      ScheduleEndShape(s.(playback := Playback(found, -StartLeadMs(s.policy), env.now, true)), env.now);
    } else {
      StartAdvanceSane(s, env);
    }
  }

  /** A room that starts keeps everything it should, before any event. */
  lemma {:induction false} StartSane(sizes: Sizes, policy: Policy, rows: seq<Row>, readable: bool, env: Env)
    requires Startable(rows)
    ensures Sane(Start(sizes, policy, rows, readable, env))
  {
    LoadedSane(sizes, policy, rows, readable);
    BeginSane(Loaded(sizes, policy, rows, readable), Found(rows, readable).0, env);
  }

  lemma {:induction false} StartAdvanceSane(s: Room, env: Env)
    requires InStep(s) && Books(s) && Radioed(s) && AllStartable(s.stored.images)
    ensures Sane(TryAdvance(s, "resume-after-restart", env).0)
  {
    var t := TryAdvance(s, "resume-after-restart", env).0;
    var c, advance := TryAdvanceShape(s, "resume-after-restart", env);
    BooksUnique(s);
    UnrecordedBooks(s, c);
    if advance.Some? {
      AdvanceReadyInStep(c, "resume-after-restart", env);
      AdvanceReadyBooks(c, "resume-after-restart", env);
      AdvanceReadyCommits(c, "resume-after-restart", env);
    }
    StageStartable(c, t);
    TryAdvanceRefilling(s, "resume-after-restart", env);
  }
}
