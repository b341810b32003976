/** The promises of a room over its whole life: from any start, through any run of
    events, deliveries and losses, and across a crash. */
module RoomTheorems {
  import opened Wrappers
  import opened QueueWire
  import opened QueueChunking
  import opened QueuePatch
  import opened QueueReplica
  import opened QueueAgreement
  import opened QueueStore
  import opened RoomPolicy
  import opened RoomModel
  import opened RoomShape
  import opened RoomBooks
  import opened RoomEvents
  import opened RoomClock
  import opened RoomGuarantees
  import opened RoomRadio
  import opened RoomRuns
  import opened RoomTimeline

  ghost predicate StartedFrom(s: Room, sizes: Sizes, policy: Policy, rows: seq<Row>, readable: bool, env: Env) {
    Startable(rows) && s == Start(sizes, policy, rows, readable, env)
  }

  /** A room that has just started from good rows. */
  ghost predicate JustStarted(s: Room) {
    exists sizes, policy, rows, readable, env :: StartedFrom(s, sizes, policy, rows, readable, env)
  }

  /** A room that has just started, and a client that knows nothing. */
  ghost predicate Opens(w: World) { w.replica == EMPTY && JustStarted(w.room) }

  lemma {:induction false} StartedSane(s: Room)
    requires JustStarted(s)
    ensures Sane(s) && Backed(s.refilling)
  {
    var sizes, policy, rows, readable, env :| StartedFrom(s, sizes, policy, rows, readable, env);
    StartSane(sizes, policy, rows, readable, env);
    StartBacked(sizes, policy, rows, readable, env);
  }

  lemma {:induction false} StartBacked(sizes: Sizes, policy: Policy, rows: seq<Row>, readable: bool, env: Env)
    requires Startable(rows)
    ensures Backed(Start(sizes, policy, rows, readable, env).refilling)
  {
    var s := Loaded(sizes, policy, rows, readable);
    LoadedShape(sizes, policy, rows, readable);
    NothingRadioed();
    ScheduleEndShape(s.(playback := Playback(Found(rows, readable).0, -StartLeadMs(policy), env.now, true)), env.now);
    TryAdvanceRefilling(s, "resume-after-restart", env);
  }

  lemma {:induction false} OpensSane(w: World)
    requires Opens(w)
    ensures SaneWorld(w)
  {
    StartedSane(w.room);
  }

  lemma {:induction false} ReachesSane(w: World, run: seq<Action>)
    requires Opens(w) && Runs(w, run)
    ensures SaneWorld(After(w, run))
  {
    OpensSane(w);
    RunSane(w, run);
  }

  /** A run up to any moment is a run, and the rest goes on from there. */
  lemma {:induction false} RunSplits(w: World, run: seq<Action>, k: nat)
    requires Runs(w, run) && k <= |run|
    ensures Runs(w, run[..k]) && Runs(After(w, run[..k]), run[k..])
    ensures After(After(w, run[..k]), run[k..]) == After(w, run)
    decreases k
  {
    if k == 0 {
      assert run[..0] == [] && run[0..] == run;
    } else {
      RunSplits(Next(w, run[0]), run[1..], k - 1);
      assert run[..k][1..] == run[1..][..k - 1] && run[k..] == run[1..][k - 1..];
    }
  }

  // ---------- replica agreement ----------

  /** Whatever the network does, a ready client that is at the revision the room had
      at any moment shows exactly the queue of that moment, and it is never ahead. */
  lemma {:induction false} ReplicaAgreement(w: World, run: seq<Action>, k: nat)
    requires Opens(w) && Runs(w, run) && k <= |run|
    ensures Runs(w, run[..k])
    ensures var replica := After(w, run).replica;
      var room := After(w, run[..k]).room;
      replica.ready ==>
        && replica.revision <= After(w, run).room.revision
        && (replica.revision == room.revision ==> replica.items == WireEntries(room.queue))
  {
    RunSplits(w, run, k);
    ReachesSane(w, run);
    ReachesSane(w, run[..k]);
    RunSane(After(w, run[..k]), run[k..]);
    var earlier, now := After(w, run[..k]).room, After(w, run).room;
    assert now.log.history[earlier.revision] == earlier.log.history[earlier.revision] == earlier.queue;
  }

  /** The revision of the message whose end the client got last in this room. */
  ghost function LastHeard(run: seq<Action>, before: Option<nat>): Option<nat>
    decreases |run|
  {
    if run == [] then before
    else
      LastHeard(run[1..],
                if run[0].Reenters? then None
                else if run[0].Delivers? && Completes(run[0].message).Some? then Completes(run[0].message)
                else before)
  }

  lemma {:induction false} RunNotices(w: World, run: seq<Action>, before: Option<nat>)
    requires Runs(w, run) && (before.Some? ==> ShowsOrWants(w.replica, before.value))
    ensures var last := LastHeard(run, before);
      last.Some? ==> ShowsOrWants(After(w, run).replica, last.value)
    decreases |run|
  {
    if run != [] {
      if run[0].Delivers? {
        if Completes(run[0].message).Some? {
          LastPartDecides(w.replica, run[0].message);
        } else if before.Some? {
          OtherPartKeeps(w.replica, run[0].message, before.value);
        }
      }
      RunNotices(Next(w, run[0]), run[1..],
                 if run[0].Reenters? then None
                 else if run[0].Delivers? && Completes(run[0].message).Some? then Completes(run[0].message)
                 else before);
    }
  }

  /** However many messages were lost: once the end of any message that leads to the
      current revision has arrived, and none after it, the client shows the current queue or
      knows that it does not. */
  lemma {:induction false} StaleIsNoticed(w: World, run: seq<Action>)
    requires Opens(w) && Runs(w, run) && LastHeard(run, None) == Some(After(w, run).room.revision)
    ensures var (room, replica) := (After(w, run).room, After(w, run).replica);
      replica.resyncRequired || (replica.ready && replica.items == WireEntries(room.queue))
  {
    RunNotices(w, run, None);
    ReplicaAgreement(w, run, |run|);
    assert run[..|run|] == run;
  }

  /** A connection whose messages all arrive in order: none is an error, and they add
      up to the current queue. */
  lemma {:induction false} LosslessDelivery(w: World, run: seq<Action>)
    requires Opens(w) && Runs(w, run)
    ensures var room := After(w, run).room;
      room.conn.joined && room.conn.greeted ==>
        && Quiet(EMPTY, room.conn.wire)
        && HandleAll(EMPTY, room.conn.wire)
           == Replica(room.revision, WireEntries(room.queue), true, false, None, None)
  {
    ReachesSane(w, run);
  }

  /** However disturbed a client is, what a successful queue sync sends puts it right. */
  lemma {:induction false} SyncHeals(w: World, run: seq<Action>)
    requires Opens(w) && Runs(w, run)
    requires After(w, run).room.conn.joined && StepSync(After(w, run).room).1.Done?
    ensures var room := After(w, run).room;
      var sent := StepSync(room).0.conn.wire[|room.conn.wire|..];
      HandleAll(After(w, run).replica, sent)
      == Replica(room.revision, WireEntries(room.queue), true, false, None, None)
  {
    ReachesSane(w, run);
    var room := After(w, run).room;
    var ms := SnapshotMessages(room.revision, SnapshotParts(room.log, room.revision).value);
    SnapshotHeals(room.log, After(w, run).replica, room.revision);
    assert StepSync(room).0.conn.wire == room.conn.wire + ms;
    assert (room.conn.wire + ms)[|room.conn.wire|..] == ms;
  }

  // ---------- conservation ----------

  /** Every entry ever accepted is in exactly one place. */
  lemma {:induction false} ExactlyOnePlace(w: World, run: seq<Action>, id: string)
    requires Opens(w) && Runs(w, run) && id in After(w, run).room.ledger.accepted
    ensures var s := After(w, run).room;
      IdOf(s.playback.current)[id] + multiset(Ids(s.queue))[id] + multiset(PlayedIds(s.ledger.finished))[id]
      + s.ledger.removed[id] + s.ledger.dropped[id] == 1
  {
    ReachesSane(w, run);
    var s := After(w, run).room;
    assert Placed(s.playback.current, s.queue, s.ledger)[id] == s.ledger.accepted[id] == 1;
  }

  /** A track that is current has a known duration, and the newest timer is its own. */
  lemma {:induction false} CurrentIsTimed(w: World, run: seq<Action>)
    requires Opens(w) && Runs(w, run)
    ensures var s := After(w, run).room; Timed(s.playback.current, s.timers)
  {
    ReachesSane(w, run);
  }

  lemma {:induction false} StartClocked(sizes: Sizes, policy: Policy, rows: seq<Row>, readable: bool, env: Env)
    ensures var s := Start(sizes, policy, rows, readable, env); WellSet(s.playback, s.timers)
  {
    var s := Loaded(sizes, policy, rows, readable);
    var found := Found(rows, readable).0;
    if Resumable(found) {
      var a := s.(playback := Playback(found, -StartLeadMs(policy), env.now, true));
      ScheduleEndClocked(a, env.now, IDLE);
      ScheduleEndShape(a, env.now);
    } else {
      LoadedShape(sizes, policy, rows, readable);
      var c, advance := TryAdvanceShape(s, "resume-after-restart", env);
      if advance.Some? {
        AdvanceReadyClocked(c, "resume-after-restart", env);
      }
    }
  }

  lemma {:induction false} StartedClocked(s: Room)
    requires JustStarted(s)
    ensures WellSet(s.playback, s.timers)
  {
    var sizes, policy, rows, readable, env :| StartedFrom(s, sizes, policy, rows, readable, env);
    StartClocked(sizes, policy, rows, readable, env);
  }

  /** Whether a playing track has been left to itself by the end of a run. */
  ghost predicate Abandoned(w: World, run: seq<Action>, already: bool)
    requires Runs(w, run)
    decreases |run|
  {
    if run == [] then already
    else
      Abandoned(Next(w, run[0]), run[1..],
                if run[0].Happens? then
                  if already then !Rescues(w.room, run[0].event) else Abandons(w.room, run[0].event)
                else already)
  }

  lemma {:induction false} RunClocked(w: World, run: seq<Action>)
    requires SaneWorld(w) && Runs(w, run) && Clocked(w.room.playback, w.room.timers)
    ensures var s := After(w, run).room;
      && Clocked(s.playback, s.timers)
      && (Watched(s.playback, s.timers) <==> !Abandoned(w, run, !Watched(w.room.playback, w.room.timers)))
    decreases |run|
  {
    if run != [] {
      if run[0].Happens? {
        StepClocked(w.room, run[0].event);
      }
      NextSane(w, run[0]);
      RunClocked(Next(w, run[0]), run[1..]);
    }
  }

  /** At every moment a running timer is that of the playing track, and due at the first
      instant at which its position is its duration. A playing track whose timer neither
      runs nor has an action to come is there exactly when one has been abandoned and
      not been rescued since. */
  lemma {:induction false} EndsOnTime(w: World, run: seq<Action>)
    requires Opens(w) && Runs(w, run)
    ensures var s := After(w, run).room;
      && (s.timers.running.Some? ==> Playing(s.playback) && DueAtEnd(s.playback, s.timers, s.timers.running.value))
      && (Watched(s.playback, s.timers) <==> !Abandoned(w, run, false))
  {
    OpensSane(w);
    StartedClocked(w.room);
    RunClocked(w, run);
    var s := After(w, run).room;
    if s.timers.running.Some? {
      ClockedEnds(s.playback, s.timers);
    }
  }

  /** The timer is the track's own, and due when its position reaches its duration. */
  ghost predicate DueAtEnd(p: Playback, timers: Timers, timer: nat)
    requires p.current.Some?
  {
    && timer in timers.armed && timers.armed[timer].entryId == p.current.value.entryId
    && (forall at :: p.updatedAt <= at ==>
          (Position(p, at) >= p.current.value.durationMs <==> at >= timers.armed[timer].dueAt))
  }

  lemma {:induction false} ClockedEnds(p: Playback, timers: Timers)
    requires Clocked(p, timers) && Playing(p)
    ensures DueAtEnd(p, timers, timers.seqNo)
  {
  }

  /** The instants at which timers fire do not go back. */
  ghost predicate Timely(run: seq<Action>, now: int)
    decreases |run|
  {
    run != [] ==> now <= Later(run[0], now) && Timely(run[1..], Later(run[0], now))
  }

  ghost function Later(a: Action, now: int): int {
    if a.Happens? && a.event.TimerFires? then a.event.now else now
  }

  /** When a timer last fired. */
  ghost function Latest(run: seq<Action>, now: int): int
    decreases |run|
  {
    if run == [] then now else Latest(run[1..], Later(run[0], now))
  }

  lemma {:induction false} RunNotEarly(w: World, run: seq<Action>, now: int)
    requires SaneWorld(w) && Runs(w, run) && Clocked(w.room.playback, w.room.timers)
    requires NotEarly(w.room.playback, w.room.timers, now) && Timely(run, now)
    ensures NotEarly(After(w, run).room.playback, After(w, run).room.timers, Latest(run, now))
    decreases |run|
  {
    if run != [] {
      if run[0].Happens? {
        StepClocked(w.room, run[0].event);
        StepNotEarly(w.room, run[0].event, now, Later(run[0], now));
      }
      NextSane(w, run[0]);
      RunNotEarly(Next(w, run[0]), run[1..], Later(run[0], now));
    }
  }

  /** When the newest timer's action is handled, a track that still plays has been played
      to its end. */
  lemma {:induction false} EndsNotEarly(w: World, run: seq<Action>, from: int, at: int)
    requires Opens(w) && Runs(w, run) && Timely(run, from) && Latest(run, from) <= at
    ensures var s := After(w, run).room;
      Playing(s.playback) && s.timers.seqNo in s.timers.queued ==>
        Position(s.playback, at) >= s.playback.current.value.durationMs
  {
    OpensSane(w);
    StartedClocked(w.room);
    RunNotEarly(w, run, from);
    NotEarlyPosition(After(w, run).room.playback, After(w, run).room.timers, Latest(run, from), at);
  }

  lemma {:induction false} NotEarlyPosition(p: Playback, timers: Timers, now: int, at: int)
    requires NotEarly(p, timers, now) && now <= at
    ensures Playing(p) && timers.seqNo in timers.queued ==> Position(p, at) >= p.current.value.durationMs
  {
  }

  ghost predicate LedgerGrows(a: Ledger, b: Ledger) {
    && a.accepted <= b.accepted && a.finished <= b.finished && a.removed <= b.removed && a.dropped <= b.dropped
  }

  lemma {:induction false} FinishedGrows(current: Option<Entry>, played: seq<Played>, reason: string, now: int)
    ensures played <= Finished(current, played, reason, now)
  {
  }

  /** What is recorded stays recorded. */
  lemma {:induction false} StepLedger(s: Room, ev: Event)
    requires Enabled(s, ev)
    ensures LedgerGrows(s.ledger, Step(s, ev).0.ledger)
  {
    var h := StepDoes(s, ev);
    EditedShape(h.a, h.edit);
    if h.advance.Some? {
      AdvanceReadyShape(h.c, h.advance.value.reason, h.advance.value.env);
      FinishedGrows(s.playback.current, s.ledger.finished, h.advance.value.reason, h.advance.value.env.now);
    }
  }

  lemma {:induction false} RunLedger(w: World, run: seq<Action>)
    requires Runs(w, run)
    ensures LedgerGrows(w.room.ledger, After(w, run).room.ledger)
    decreases |run|
  {
    if run != [] {
      if run[0].Happens? {
        StepLedger(w.room, run[0].event);
      }
      RunLedger(Next(w, run[0]), run[1..]);
    }
  }

  ghost predicate Ended(s: Room, id: string) {
    multiset(PlayedIds(s.ledger.finished))[id] + s.ledger.removed[id] + s.ledger.dropped[id] > 0
  }

  lemma {:induction false} PlayedPrefix(a: seq<Played>, b: seq<Played>)
    requires a <= b
    ensures multiset(PlayedIds(a)) <= multiset(PlayedIds(b))
  {
    assert PlayedIds(b) == PlayedIds(a) + PlayedIds(b[|a|..]);
  }

  /** What has been played, removed or dropped never plays again and never queues again. */
  lemma {:induction false} EndedForGood(w: World, run: seq<Action>, k: nat, id: string)
    requires Opens(w) && Runs(w, run) && k <= |run|
    ensures Runs(w, run[..k])
    ensures Ended(After(w, run[..k]).room, id) ==>
      var s := After(w, run).room;
      Ended(s, id) && id !in IdOf(s.playback.current) && id !in multiset(Ids(s.queue))
  {
    RunSplits(w, run, k);
    ReachesSane(w, run);
    RunLedger(After(w, run[..k]), run[k..]);
    var earlier, now := After(w, run[..k]).room, After(w, run).room;
    if Ended(earlier, id) {
      PlayedPrefix(earlier.ledger.finished, now.ledger.finished);
      assert Placed(now.playback.current, now.queue, now.ledger)[id] <= 1;
    }
  }

  // ---------- crash recovery ----------

  lemma {:induction false} StepSettled(s: Room, ev: Event)
    requires Books(s) && Enabled(s, ev) && Fresh(s, ev)
    ensures var t := Step(s, ev).0.stored;
      && |s.stored.images| <= |t.images|
      && (t.settled <==> s.stored.settled || |t.images| > |s.stored.images|)
  {
    var h := StepDoes(s, ev);
    ShapeCommits(s, ev, h, Step(s, ev).0);
  }

  /** The store is known to match exactly if it was from the start, or something has been
      saved since. */
  lemma {:induction false} RunSettled(w: World, run: seq<Action>)
    requires SaneWorld(w) && Runs(w, run)
    ensures var stored := After(w, run).room.stored;
      && |w.room.stored.images| <= |stored.images|
      && (stored.settled <==> w.room.stored.settled || |stored.images| > |w.room.stored.images|)
    decreases |run|
  {
    if run != [] {
      if run[0].Happens? {
        StepSettled(w.room, run[0].event);
      }
      NextSane(w, run[0]);
      RunSettled(Next(w, run[0]), run[1..]);
    }
  }

  ghost predicate StoreMatch(s: Room) {
    s.stored.settled && s.stored.images != [] && Decode(s.stored.images[|s.stored.images| - 1]) == Pair(s)
  }

  lemma {:induction false} SettledMatches(s: Room)
    requires Books(s) && s.stored.settled
    ensures StoreMatch(s)
  {
  }

  /** Once the store is known to match, it matches after every event. */
  lemma {:induction false} StoreMatches(w: World, run: seq<Action>, k: nat)
    requires Opens(w) && Runs(w, run) && k <= |run|
    ensures Runs(w, run[..k])
    ensures After(w, run[..k]).room.stored.settled ==> StoreMatch(After(w, run).room)
  {
    RunSplits(w, run, k);
    ReachesSane(w, run);
    ReachesSane(w, run[..k]);
    if After(w, run[..k]).room.stored.settled {
      RunSettled(After(w, run[..k]), run[k..]);
      SettledMatches(After(w, run).room);
    }
  }

  /** What a room that starts makes of what it found: it takes up the flagged track and
      the rest of the queue; with no track to take up it starts the first one of known
      duration, if that can be cut and saved; otherwise it waits with what is pending. */
  ghost predicate Restarted(found: (Option<Entry>, seq<Entry>), t: Room, sizes: Sizes, env: Env) {
    if found.0.Some? && found.0.value.durationMs > 0 then
      Pair(t) == found && t.playback == FromTheTop(found.0, t.policy, env.now)
    else if found != (None, []) && CanAdvance(found.1, 0, sizes, env) then
      && t.playback == FromTheTop(Started(SkimmedOf(found.1), env.quality), t.policy, env.now)
      && t.queue == found.1[|SkimmedOf(found.1)|..]
    else t.playback == IDLE && t.queue == found.1
  }

  /** Playing from the beginning, after the lead-in; or nothing. */
  function FromTheTop(next: Option<Entry>, policy: Policy, now: int): Playback {
    if next.None? then IDLE else Playback(next, -StartLeadMs(policy), now, true)
  }

  lemma {:induction false} RestartResumes(sizes: Sizes, policy: Policy, rows: seq<Row>, env: Env)
    requires Startable(rows) && Resumable(Decode(rows).0)
    ensures var s := Start(sizes, policy, rows, true, env);
      && s.policy == policy && s.queue == Decode(rows).1 && Pair(s) == Decode(rows)
      && s.playback == FromTheTop(Decode(rows).0, policy, env.now)
  {
    LoadedShape(sizes, policy, rows, true);
    var s := Loaded(sizes, policy, rows, true);
    ScheduleEndShape(s.(playback := Playback(Decode(rows).0, -StartLeadMs(policy), env.now, true)), env.now);
  }

  lemma {:induction false} AdvancePlays(s: Room, reason: string, env: Env)
    requires AdvanceReady(s, reason, env).Some?
    ensures AdvanceReady(s, reason, env).value.playback
         == FromTheTop(Started(SkimmedOf(s.queue), env.quality), s.policy, env.now)
  {
    AdvanceNotes(s, reason, env);
  }

  lemma {:induction false} RestartAdvances(sizes: Sizes, policy: Policy, rows: seq<Row>, env: Env)
    requires Startable(rows) && !Resumable(Decode(rows).0)
    requires CanAdvance(Decode(rows).1, 0, sizes, env) && Decode(rows) != (None, [])
    ensures var s := Start(sizes, policy, rows, true, env);
      var queue := Decode(rows).1;
      && s.policy == policy && s.stored.settled
      && s.playback == FromTheTop(Started(SkimmedOf(queue), env.quality), policy, env.now)
      && s.queue == queue[|SkimmedOf(queue)|..]
  {
    var s := Loaded(sizes, policy, rows, true);
    LoadedShape(sizes, policy, rows, true);
    var c, advance := TryAdvanceShape(s, "resume-after-restart", env);
    AdvanceReadyShape(c, "resume-after-restart", env);
    AdvancePlays(c, "resume-after-restart", env);
  }

  lemma {:induction false} RestartWaits(sizes: Sizes, policy: Policy, rows: seq<Row>, readable: bool, env: Env)
    requires !Resumable(Found(rows, readable).0)
    requires !CanAdvance(Found(rows, readable).1, 0, sizes, env) || Found(rows, readable) == (None, [])
    ensures var s := Start(sizes, policy, rows, readable, env);
      s.playback == IDLE && s.queue == Found(rows, readable).1
  {
    var s := Loaded(sizes, policy, rows, readable);
    LoadedShape(sizes, policy, rows, readable);
    var c, advance := TryAdvanceShape(s, "resume-after-restart", env);
  }

  lemma {:induction false} StartRestarts(sizes: Sizes, policy: Policy, rows: seq<Row>, readable: bool, env: Env)
    requires Startable(rows)
    ensures Restarted(Found(rows, readable), Start(sizes, policy, rows, readable, env), sizes, env)
  {
    var found := Found(rows, readable);
    if Resumable(found.0) {
      RestartResumes(sizes, policy, rows, env);
    } else if found != (None, []) && CanAdvance(found.1, 0, sizes, env) {
      RestartAdvances(sizes, policy, rows, env);
    } else {
      RestartWaits(sizes, policy, rows, readable, env);
    }
  }

  /** A crash in the middle of any event, whatever had been committed by then: the
      rows start a room that keeps everything again. If they can be read, it takes up
      what the room had before the event, after it, or between its two commits. */
  lemma {:induction false} CrashRestarts(w: World, run: seq<Action>, ev: Event, cut: nat,
                                         sizes: Sizes, policy: Policy, readable: bool, env: Env)
    requires Opens(w) && Runs(w, run)
    requires Enabled(After(w, run).room, ev) && Fresh(After(w, run).room, ev)
    requires |After(w, run).room.stored.images| - 1 <= cut < |Step(After(w, run).room, ev).0.stored.images|
    ensures var s := After(w, run).room;
      var t := Start(sizes, policy, Step(s, ev).0.stored.images[cut], readable, env);
      && Opens(World(t, EMPTY))
      && (s.stored.settled ==> Restarted(if readable then Left(s, ev, cut) else (None, []), t, sizes, env))
  {
    ReachesSane(w, run);
    var s := After(w, run).room;
    StepSane(s, ev);
    var rows := Step(s, ev).0.stored.images[cut];
    assert StartedFrom(Start(sizes, policy, rows, readable, env), sizes, policy, rows, readable, env);
    StartRestarts(sizes, policy, rows, readable, env);
    if s.stored.settled {
      CrashSafe(s, ev, cut);
    }
  }

  // ---------- the cap and the radio ----------

  /** No event of the run is one of the two that leave a wait unbacked. */
  ghost predicate Unblocked(w: World, run: seq<Action>)
    requires Runs(w, run)
    decreases |run|
  {
    run != [] ==>
      && (run[0].Happens? ==> !RefillBlocked(w.room, run[0].event))
      && Unblocked(Next(w, run[0]), run[1..])
  }

  lemma {:induction false} RunBacked(w: World, run: seq<Action>)
    requires SaneWorld(w) && Runs(w, run) && Unblocked(w, run) && Backed(w.room.refilling)
    ensures Backed(After(w, run).room.refilling)
    decreases |run|
  {
    if run != [] {
      if run[0].Happens? {
        StepBacked(w.room, run[0].event);
      }
      NextSane(w, run[0]);
      RunBacked(Next(w, run[0]), run[1..]);
    }
  }

  /** Every request made is answered once, or still under way and not yet answered. */
  ghost predicate OneAnswerEach(src: Sources) {
    forall id :: 1 <= id <= src.seqNo ==>
      multiset(AnswerIds(src.answers))[id] == if Outstanding(src, id) then 0 else 1
  }

  lemma {:induction false} ArbitratedAnswers(src: Sources)
    requires Arbitrated(src)
    ensures OneAnswerEach(src)
  {
    forall id | 1 <= id <= src.seqNo
      ensures multiset(AnswerIds(src.answers))[id] == if Outstanding(src, id) then 0 else 1
    {
      AnsweredOnce(src, id);
    }
  }

  /** At every moment at most one construction and one fetch are under way, every
      source request has had at most one answer, and, unless the queue was full at
      a bad moment, an advance that waits for a batch waits for one that is coming. */
  lemma {:induction false} RadioSound(w: World, run: seq<Action>)
    requires Opens(w) && Runs(w, run)
    ensures var s := After(w, run).room;
      && |s.sources.builds| <= 1 && |s.refilling.fetches| <= 1
      && OneAnswerEach(s.sources)
      && (Unblocked(w, run) ==> Backed(s.refilling))
  {
    ReachesSane(w, run);
    ArbitratedAnswers(After(w, run).room.sources);
    if Unblocked(w, run) {
      OpensSane(w);
      StartedSane(w.room);
      RunBacked(w, run);
    }
  }

  ghost predicate KeepsPolicy(run: seq<Action>) {
    forall i :: 0 <= i < |run| && run[i].Happens? ==> !run[i].event.SetPolicy?
  }

  /** Under an unchanged policy, listeners and radio together never fill the queue
      beyond its cap. */
  lemma {:induction false} CapHolds(w: World, run: seq<Action>)
    requires Runs(w, run) && KeepsPolicy(run)
    requires w.room.policy.maxQueue > 0 && |w.room.queue| <= w.room.policy.maxQueue
    ensures |After(w, run).room.queue| <= w.room.policy.maxQueue
    decreases |run|
  {
    if run != [] {
      if run[0].Happens? {
        assert !run[0].event.SetPolicy?;
        StepKeepsCap(w.room, run[0].event);
        StepPolicyExactly(w.room, run[0].event);
      }
      CapHolds(Next(w, run[0]), run[1..]);
    }
  }

  // ---------- how a wait can be left unbacked ----------

  const NO_SIZES := Sizes(_ => 0, _ => 0)
  const ALL_WELL := Env(0, true, None)

  lemma {:induction false} SmallPatchFits(base: nat, op: Op)
    requires base < 9
    ensures Split(PatchFits(NO_SIZES, base, base + 1), [op]).Success?
  {
    var fits := PatchFits(NO_SIZES, base, base + 1);
    assert [op][0..1] == [op] && [op][1..] == [];
    assert ListSize(NO_SIZES.ofOp, [op]) == 0;
    assert Digits(base) == 1 && Digits(base + 1) == 1 && Digits(0) == 1;
    assert PatchSize(NO_SIZES, base, base + 1, 0, [op], true) <= QUEUE_ENVELOPE_BUDGET;
    assert GreedyEnd(fits, [op], 0, 0, 0) == 1;
    assert GreedyFrom(fits, [op], 1, 1) == Success([]);
  }

  function Idle(): Room {
    Start(NO_SIZES, Policy(1, map[], None), [], true, ALL_WELL)
  }

  /** A source asked for while nothing is being constructed, and its construction reported. */
  function Switched(s: Room, spec: string): Room {
    var a := Step(s, PlayRadio(spec)).0;
    if |a.sources.builds| == 1 then Step(a, SourceReport(0, true)).0 else a
  }

  lemma {:induction false} RunsOne(w: World, a: Action)
    requires Possible(w, a)
    ensures Runs(w, [a]) && After(w, [a]) == Next(w, a)
  {
    assert [a][1..] == [];
  }

  lemma {:induction false} RunsJoin(w: World, a: seq<Action>, b: seq<Action>)
    requires Runs(w, a) && Runs(After(w, a), b)
    ensures Runs(w, a + b) && After(w, a + b) == After(After(w, a), b)
    decreases |a|
  {
    if a == [] {
      assert a + b == b;
    } else {
      assert (a + b)[1..] == a[1..] + b;
      RunsJoin(Next(w, a[0]), a[1..], b);
    }
  }

  lemma {:induction false} RunsTwo(w: World, a: Action, b: Action)
    requires Possible(w, a) && Possible(Next(w, a), b)
    ensures Runs(w, [a, b]) && After(w, [a, b]) == Next(Next(w, a), b)
  {
    RunsOne(w, a);
    RunsOne(Next(w, a), b);
    RunsJoin(w, [a], [b]);
    assert [a] + [b] == [a, b];
  }

  lemma {:induction false} SwitchedRuns(w: World, spec: string)
    requires w.room.sources.builds == [] && !w.room.sources.inFlight
    ensures var run := [Happens(PlayRadio(spec)), Happens(SourceReport(0, true))];
      Runs(w, run) && After(w, run) == w.(room := Switched(w.room, spec))
  {
    RunsTwo(w, Happens(PlayRadio(spec)), Happens(SourceReport(0, true)));
  }

  lemma {:induction false} AskedIdle(s: Room, spec: string)
    requires s.sources.builds == [] && !s.sources.inFlight && s.sources.queued.None?
    ensures var t := Step(s, PlayRadio(spec)).0;
      var request := Request(s.sources.seqNo + 1, spec);
      && t == s.(sources := t.sources) && t.sources.builds == [request] && t.sources.queued.None?
      && t.sources.seqNo == request.id && IsDesired(t.sources, request)
  {
  }

  lemma {:induction false} BuiltIdle(s: Room, request: Request)
    requires s.sources.builds == [request] && s.sources.queued.None? && IsDesired(s.sources, request)
    requires s.playback.current.None? && s.queue == [] && s.policy.maxQueue == 1
    ensures var t := Step(s, SourceReport(0, true)).0;
      && t == s.(radio := Some(Radio(request.id, request.spec)), sources := t.sources, refilling := t.refilling)
      && t.sources.builds == [] && !t.sources.inFlight && t.sources.queued.None? && t.sources.seqNo == s.sources.seqNo
      && t.refilling.pendingStart && t.refilling.inFlight
      && t.refilling.fetches
         == (if s.refilling.inFlight then s.refilling.fetches else s.refilling.fetches + [Fetch(request.id, 1)])
  {
    StepSourceReportShape(s, 0, true);
  }

  /** Idle and empty, a room that gets a source waits for its first batch. */
  lemma {:induction false} SwitchedIdle(s: Room, spec: string)
    requires s.sources.builds == [] && !s.sources.inFlight && s.sources.queued.None?
    requires s.playback.current.None? && s.queue == [] && s.policy.maxQueue == 1
    ensures var t := Switched(s, spec);
      var id := s.sources.seqNo + 1;
      && t == s.(radio := Some(Radio(id, spec)), sources := t.sources, refilling := t.refilling)
      && t.sources.builds == [] && !t.sources.inFlight && t.sources.queued.None? && t.sources.seqNo == id
      && t.refilling.pendingStart && t.refilling.inFlight
      && t.refilling.fetches
         == (if s.refilling.inFlight then s.refilling.fetches else s.refilling.fetches + [Fetch(id, 1)])
  {
    AskedIdle(s, spec);
    BuiltIdle(Step(s, PlayRadio(spec)).0, Request(s.sources.seqNo + 1, spec));
  }

  lemma {:induction false} AddWhileWaiting(s: Room, e: Entry)
    requires s.playback.current.None? && s.queue == [] && s.policy.maxQueue == 1 && s.refilling.pendingStart
    requires s.log.sizes == NO_SIZES && s.revision == 0
    ensures var t := Step(s, AddEntries([e], "", "", [], true, ALL_WELL)).0;
      && t.playback == s.playback && t.refilling == s.refilling && t.radio == s.radio && t.policy == s.policy
      && t.queue == [e.(requesterName := "")]
  {
    var added := Named([e], "");
    assert s.queue + added == added == [e.(requesterName := "")];
    assert WireOps(AddOps(added, 0)) == [WireOp(Add(0, added[0]))];
    SmallPatchFits(0, WireOp(Add(0, added[0])));
    CommitShape(s, None, added, AddOps(added, 0), true);
  }

  lemma {:induction false} IdleShape()
    ensures Opens(World(Idle(), EMPTY))
    ensures var s := Idle();
      && s.sources == NO_SOURCES && s.playback.current.None? && s.queue == [] && s.policy.maxQueue == 1
      && s.refilling == Refilling(false, [], false, "") && s.log.sizes == NO_SIZES && s.revision == 0
  {
    assert PersistedAll([]) == [];
    assert StartedFrom(Idle(), NO_SIZES, Policy(1, map[], None), [], true, ALL_WELL);
    LoadedShape(NO_SIZES, Policy(1, map[], None), [], true);
  }

  /** A room as `Idle` is: nothing has happened yet and nothing plays. */
  ghost predicate Untroubled(s: Room) {
    && s.queue == [] && s.playback.current.None? && s.revision == 0 && s.log.sizes == NO_SIZES
    && s.radio.None? && !s.refilling.pendingStart && s.policy.maxQueue == 1
  }

  lemma {:induction false} AppendToIdle(s: Room, e: Entry)
    requires Untroubled(s)
    ensures Append(s, [e], true).Some?
    ensures var mid := Append(s, [e], true).value;
      && mid.queue == [e] && mid.revision == 1 && mid.log.sizes == NO_SIZES && mid.playback.current.None?
      && mid.radio.None? && !mid.refilling.pendingStart
      && mid.stored.images == s.stored.images + [Image(None, [e])]
  {
    assert s.queue + [e] == [e];
    assert WireOps(AddOps([e], 0)) == [WireOp(Add(0, e))];
    SmallPatchFits(0, WireOp(Add(0, e)));
    AppendShape(s, [e], true);
    EditedShape(s, Appending([e]));
  }

  lemma {:induction false} AdvanceToOnly(s: Room, e: Entry)
    requires s.queue == [e] && e.durationMs > 0 && s.revision == 1 && s.log.sizes == NO_SIZES
    ensures AdvanceReady(s, "", ALL_WELL).Some?
    ensures var t := AdvanceReady(s, "", ALL_WELL).value;
      |t.stored.images| == |s.stored.images| + 1 && s.stored.images <= t.stored.images
      && t.queue == [] && t.playback.current == Some(e)
  {
    assert Skimmed(s.queue, MAX_DROPPED_PER_ADVANCE) == 1;
    assert s.queue[..1] == [e] && s.queue[1..] == [];
    assert WireOps(RemoveOps([e])) == [WireOp(Op.Remove(e.entryId))];
    SmallPatchFits(1, WireOp(Op.Remove(e.entryId)));
    AdvanceReadyShape(s, "", ALL_WELL);
  }

  lemma {:induction false} AddThenAdvances(s: Room, ev: Event, mid: Room)
    requires ev.AddEntries? && ev.keys == [] && |s.queue| + |ev.entries| <= s.policy.maxQueue
    requires Append(s, Named(ev.entries, ev.actorName), ev.savedAdd) == Some(mid) && mid.playback.current.None?
    ensures Step(s, ev).0 == TryAdvance(mid, "", ev.env).0
  {
  }

  lemma {:induction false} TriesReady(s: Room)
    requires s.queue != [] && !s.refilling.pendingStart && AdvanceReady(s, "", ALL_WELL).Some?
    ensures TryAdvance(s, "", ALL_WELL).0 == AdvanceReady(s, "", ALL_WELL).value
  {
  }

  /** An event that commits twice: a track added to an idle room. Between the commits
      the store has it pending; before it had nothing, and after it has it playing. */
  lemma {:induction false} AddToIdleCommitsTwice(s: Room, e: Entry)
    requires Untroubled(s) && e.durationMs > 0 && e.requesterName == ""
    ensures var t := Step(s, AddEntries([e], "", "", [], true, ALL_WELL)).0;
      && |t.stored.images| == |s.stored.images| + 2
      && t.stored.images[|s.stored.images|] == Image(None, [e])
      && t.queue == [] && t.playback.current == Some(e)
  {
    AppendToIdle(s, e);
    var mid := Append(s, [e], true).value;
    assert Named([e], "") == [e];
    AddThenAdvances(s, AddEntries([e], "", "", [], true, ALL_WELL), mid);
    AdvanceToOnly(mid, e);
    TriesReady(mid);
    var t := Step(s, AddEntries([e], "", "", [], true, ALL_WELL)).0;
    assert t.stored.images[|s.stored.images|] == mid.stored.images[|s.stored.images|];
  }

  lemma {:induction false} LateBatch(s: Room)
    requires |s.refilling.fetches| == 1 && s.radio.Some? && s.radio.value.id != s.refilling.fetches[0].radioId
    requires s.refilling.pendingStart && s.policy.maxQueue == 1 && |s.queue| == 1
    ensures var t := Step(s, FetchReport(0, false, [], false, true, ALL_WELL)).0;
      && t == s.(refilling := t.refilling) && t.refilling.pendingStart && !t.refilling.inFlight
  {
    StaleFetchShape(TakeFetch(s, 0));
  }

  /** Nothing need fail for a room to be left waiting for a batch that nobody
      fetches. With room for one entry: a source is installed and its first batch is
      being fetched, a second source replaces it, a listener adds a track, and then
      the first source's batch comes in. */
  lemma {:induction false} WaitsForNothing(e: Entry) returns (w: World, run: seq<Action>)
    requires e.entryId != ""
    ensures Opens(w) && Runs(w, run)
    ensures var s := After(w, run).room;
      && s.refilling.pendingStart && !s.refilling.inFlight && s.playback.current.None?
      && s.queue == [e.(requesterName := "")]
  {
    w := World(Idle(), EMPTY);
    IdleShape();
    SwitchedRuns(w, "a");
    SwitchedIdle(w.room, "a");
    run := [Happens(PlayRadio("a")), Happens(SourceReport(0, true))];
    var w1 := After(w, run);
    SwitchedRuns(w1, "b");
    SwitchedIdle(w1.room, "b");
    var switch := [Happens(PlayRadio("b")), Happens(SourceReport(0, true))];
    RunsJoin(w, run, switch);
    run := run + switch;
    var w2 := After(w1, switch);
    var rest := AddedThenLate(w2, e);
    RunsJoin(w, run, rest);
    run := run + rest;
  }

  lemma {:induction false} AddedThenLate(w: World, e: Entry) returns (run: seq<Action>)
    requires var s := w.room;
      && s.playback.current.None? && s.queue == [] && s.policy.maxQueue == 1 && s.log.sizes == NO_SIZES
      && s.revision == 0 && s.refilling.pendingStart && |s.refilling.fetches| == 1
      && s.radio.Some? && s.radio.value.id != s.refilling.fetches[0].radioId
    requires e.entryId != "" && w.room.ledger.accepted[e.entryId] == 0
    ensures Runs(w, run)
    ensures var s := After(w, run).room;
      && s.refilling.pendingStart && !s.refilling.inFlight && s.playback.current.None?
      && s.queue == [e.(requesterName := "")]
  {
    var add := Happens(AddEntries([e], "", "", [], true, ALL_WELL));
    var late := Happens(FetchReport(0, false, [], false, true, ALL_WELL));
    AddHappens(w, e);
    LateHappens(Next(w, add));
    RunsTwo(w, add, late);
    run := [add, late];
  }

  lemma {:induction false} AddHappens(w: World, e: Entry)
    requires var s := w.room;
      && s.playback.current.None? && s.queue == [] && s.policy.maxQueue == 1 && s.refilling.pendingStart
      && s.log.sizes == NO_SIZES && s.revision == 0
    requires e.entryId != "" && w.room.ledger.accepted[e.entryId] == 0
    ensures var add := Happens(AddEntries([e], "", "", [], true, ALL_WELL));
      && Possible(w, add)
      && var t := Next(w, add).room;
         && t.playback == w.room.playback && t.refilling == w.room.refilling && t.radio == w.room.radio
         && t.policy == w.room.policy && t.queue == [e.(requesterName := "")]
  {
    FreshOne(w.room.ledger.accepted, e);
    AddWhileWaiting(w.room, e);
  }

  lemma {:induction false} FreshOne(accepted: multiset<string>, e: Entry)
    requires e.entryId != "" && accepted[e.entryId] == 0
    ensures FreshBatch(accepted, [e])
  {
  }

  lemma {:induction false} LateHappens(w: World)
    requires var s := w.room;
      && |s.refilling.fetches| == 1 && s.radio.Some? && s.radio.value.id != s.refilling.fetches[0].radioId
      && s.refilling.pendingStart && s.policy.maxQueue == 1 && |s.queue| == 1
    ensures var late := Happens(FetchReport(0, false, [], false, true, ALL_WELL));
      && Possible(w, late)
      && var t := Next(w, late).room;
         t == w.room.(refilling := t.refilling) && t.refilling.pendingStart && !t.refilling.inFlight
  {
    LateBatch(w.room);
  }

  // ---------- a track left to itself ----------

  /** A room that has resumed the track it was playing, with nothing else pending. */
  function Resumed(e: Entry): Room {
    Start(NO_SIZES, Policy(1, map[], None), Image(Some(e), []), true, ALL_WELL)
  }

  function EndOf(e: Entry): int { e.durationMs + StartLeadMs(Policy(1, map[], None)) }

  /** As stored, and to be resumed. */
  ghost predicate Stands(e: Entry) { e.entryId != "" && e.durationMs > 0 && e == Persisted(e) }

  /** Nothing to go on to, and no radio. */
  ghost predicate Last(s: Room, e: Entry) {
    s.queue == [] && s.radio.None? && !s.refilling.pendingStart && s.playback.current == Some(e) && s.ledger.finished == []
  }

  /** Just resumed, from the beginning at instant zero. */
  ghost predicate Afresh(s: Room, e: Entry) {
    && Last(s, e) && s.policy == Policy(1, map[], None) && s.playback == Playback(Some(e), -StartLeadMs(s.policy), 0, true)
    && s.timers == Timers(1, map[1 := Timer(e.entryId, EndOf(e))], Some(1), {})
  }

  lemma {:induction false} StandsStored(e: Entry)
    requires Stands(e)
    ensures var rows := Image(Some(e), []); Decode(rows) == (Some(e), []) && Startable(rows)
  {
    assert PersistedAll([]) == [];
    DecodeImage(Some(e), []);
    PersistedStartable(Some(e), [], Image(Some(e), []));
  }

  lemma {:induction false} ResumedAfresh(e: Entry, rows: seq<Row>)
    requires Decode(rows) == (Some(e), []) && e.durationMs > 0
    ensures Afresh(Start(NO_SIZES, Policy(1, map[], None), rows, true, ALL_WELL), e)
  {
    LoadedShape(NO_SIZES, Policy(1, map[], None), rows, true);
  }

  lemma {:induction false} ResumedShape(e: Entry)
    requires Stands(e)
    ensures Opens(World(Resumed(e), EMPTY)) && Afresh(Resumed(e), e)
  {
    var rows := Image(Some(e), []);
    StandsStored(e);
    ResumedAfresh(e, rows);
    assert StartedFrom(Resumed(e), NO_SIZES, Policy(1, map[], None), rows, true, ALL_WELL);
  }

  lemma {:induction false} LastTimerEnd(s: Room, e: Entry, env: Env)
    requires Last(s, e)
    ensures var t := StepTimerEnd(s, s.timers.seqNo, env).0;
      if env.saved then t.playback.current.None? && t.ledger.finished == [Played(e.entryId, "finished", env.now)]
      else t == s.(timers := s.timers.(queued := s.timers.queued - {s.timers.seqNo}))
  {
  }

  lemma {:induction false} FiredShape(s: Room, e: Entry, at: int)
    requires Last(s, e) && s.timers.running == Some(s.timers.seqNo) && s.timers.queued == {}
    requires s.timers.seqNo in s.timers.armed && s.timers.armed[s.timers.seqNo].dueAt <= at
    ensures var t := StepTimerFires(s);
      && Enabled(s, TimerFires(at)) && Last(t, e) && t.playback == s.playback
      && t.timers == s.timers.(running := None, queued := {s.timers.seqNo})
  {
    assert {} + {s.timers.seqNo} == {s.timers.seqNo};
  }

  lemma {:induction false} PausedShape(s: Room, e: Entry, at: int)
    requires Last(s, e) && s.playback.playing
    ensures var t := StepPause(s, at).0;
      && Last(t, e) && !t.playback.playing && t.timers == s.timers.(running := None)
  {
  }

  lemma {:induction false} FiresUnsaved(w: World, e: Entry, at: int) returns (run: seq<Action>)
    requires Afresh(w.room, e) && e.durationMs > 0 && at >= EndOf(e)
    ensures Runs(w, run)
    ensures var s := After(w, run).room;
      && Last(s, e) && s.playback == w.room.playback && Position(s.playback, at) >= e.durationMs
      && s.timers.running.None? && s.timers.queued == {}
  {
    FiredShape(w.room, e, at);
    LastTimerEnd(Step(w.room, TimerFires(at)).0, e, Env(at, false, None));
    assert {1} - {1} == {};
    var fires, ends := Happens(TimerFires(at)), Happens(TimerEnd(1, Env(at, false, None)));
    RunsTwo(w, fires, ends);
    run := [fires, ends];
  }

  /** One failed save is enough for a track to play on past its end with nobody to end
      it: the timer fires, and its advance cannot be saved. A skip would end it. */
  lemma {:induction false} PlaysOnPastItsEnd(e: Entry, at: int) returns (w: World, run: seq<Action>)
    requires Stands(e) && at >= EndOf(e)
    ensures Opens(w) && Runs(w, run)
    ensures var s := After(w, run).room;
      && Playing(s.playback) && s.playback.current == Some(e) && Position(s.playback, at) >= e.durationMs
      && !Watched(s.playback, s.timers) && s.timers.queued == {} && s.ledger.finished == []
      && AdvancesOn(s, Skip(ALL_WELL))
  {
    ResumedShape(e);
    w := World(Resumed(e), EMPTY);
    run := FiresUnsaved(w, e, at);
  }

  lemma {:induction false} FiresPaused(w: World, e: Entry, at: int) returns (run: seq<Action>)
    requires Afresh(w.room, e) && e.durationMs > 0 && at >= EndOf(e)
    ensures |run| == 2 && Runs(w, run)
    ensures var s := After(w, run).room;
      Last(s, e) && !s.playback.playing && s.timers.seqNo == 1 && s.timers.queued == {1}
  {
    FiredShape(w.room, e, at);
    PausedShape(Step(w.room, TimerFires(at)).0, e, at);
    var fires, pauses := Happens(TimerFires(at)), Happens(Pause(at));
    RunsTwo(w, fires, pauses);
    run := [fires, pauses];
  }

  lemma {:induction false} ThenEnds(w: World, e: Entry, at: int)
    requires Last(w.room, e) && w.room.timers.seqNo == 1 && w.room.timers.queued == {1}
    ensures var ends := Happens(TimerEnd(1, Env(at, true, None)));
      && Runs(w, [ends])
      && After(w, [ends]).room.playback.current.None?
      && After(w, [ends]).room.ledger.finished == [Played(e.entryId, "finished", at)]
  {
    LastTimerEnd(w.room, e, Env(at, true, None));
    RunsOne(w, Happens(TimerEnd(1, Env(at, true, None))));
  }

  /** A track paused just after its timer has fired is ended all the same. */
  lemma {:induction false} EndsWhilePaused(e: Entry, at: int) returns (w: World, run: seq<Action>)
    requires Stands(e) && at >= EndOf(e)
    ensures Opens(w) && |run| == 3 && Runs(w, run[..2]) && Runs(w, run)
    ensures var s := After(w, run[..2]).room; s.playback.current == Some(e) && !s.playback.playing
    ensures var s := After(w, run).room;
      s.playback.current.None? && s.ledger.finished == [Played(e.entryId, "finished", at)]
  {
    ResumedShape(e);
    w := World(Resumed(e), EMPTY);
    var begun := FiresPaused(w, e, at);
    var ends := Happens(TimerEnd(1, Env(at, true, None)));
    ThenEnds(After(w, begun), e, at);
    RunsJoin(w, begun, [ends]);
    run := begun + [ends];
    assert run[..2] == begun;
  }
}
