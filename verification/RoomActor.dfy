/** The room's loop as it runs: one object whose fields its actions change step by
    step. Every action is proved to do what the room's model says. */
module RoomActor {
  import opened Wrappers
  import opened QueueWire
  import opened QueueChunking
  import opened QueuePatch
  import opened QueueAgreement
  import opened QueueStore
  import opened RoomPolicy
  import opened RoomModel

  class Actor {
    const sizes: Sizes
    const table: QueueTable
    var queue: seq<Entry>
    var revision: nat
    var playback: Playback
    var policy: Policy
    var radio: Option<Radio>
    var sources: Sources
    var refilling: Refilling
    var timers: Timers
    var conn: Connection
    var resumed: Option<Entry>

    // What only an observer remembers.
    ghost var log: Log
    ghost var stored: Stored
    ghost var ledger: Ledger

    ghost function State(): Room
      reads this
    {
      Room(queue, revision, playback, policy, radio, sources, refilling, timers, log, stored, conn, ledger)
    }

    ghost predicate Valid()
      reads this, table
    {
      log.sizes == sizes && stored.images != [] && stored.images[|stored.images| - 1] == table.rows
    }

    constructor (sizes: Sizes, policy: Policy, table: QueueTable)
      ensures Blank() && this.sizes == sizes && this.policy == policy && this.table == table
    {
      this.sizes, this.table, this.policy := sizes, table, policy;
      queue, revision, playback, radio := [], 0, IDLE, None;
      sources, refilling, timers := NO_SOURCES, Refilling(false, [], false, ""), Timers(0, map[], None, {});
      conn := Connection(false, [], false, false);
      resumed := None;
    }

    ghost predicate Blank()
      reads this
    {
      && queue == [] && revision == 0 && playback == IDLE && radio == None && sources == NO_SOURCES
      && refilling == Refilling(false, [], false, "") && timers == Timers(0, map[], None, {})
      && conn == Connection(false, [], false, false) && resumed == None
    }

    /** Start-up loads the rows; `resumed` is the flagged track, if any. */
    method Load(readable: bool)
      requires Blank()
      modifies this
      ensures Valid() && resumed == Found(table.rows, readable).0
      ensures State() == Loaded(sizes, old(policy), table.rows, readable)
    {
      var found: Option<Entry>, pending: seq<Entry> := None, [];
      if readable {
        found, pending := table.LoadQueue();
      }
      Open(found, pending, readable);
    }

    method Open(found: Option<Entry>, pending: seq<Entry>, readable: bool)
      requires Blank() && (found, pending) == Found(table.rows, readable)
      modifies this`queue, this`resumed, this`playback, this`log, this`stored, this`ledger
      ensures Valid() && resumed == found
      ensures State() == Loaded(sizes, policy, table.rows, readable)
    {
      queue, resumed := pending, found;
      if Resumable(found) {
        playback := Playback(found, 0, 0, true);
      }
      log := Log(sizes, [queue], []);
      stored := Stored([table.rows], readable && (found.None? || Resumable(found)));
      ledger := OpeningLedger(found, queue);
      IsLoaded(State(), table.rows, readable);
    }

    /** Start-up resumes the flagged track or advances. */
    method Begin(env: Env)
      requires Valid()
      modifies this, table
      ensures Valid() && State() == RoomModel.Begin(old(State()), old(resumed), env)
    {
      if Resumable(resumed) {
        playback := Playback(resumed, -StartLeadMs(policy), env.now, true);
        ScheduleEnd(env.now);
      } else if resumed.Some? || |queue| > 0 {
        var _ := Advance("resume-after-restart", env);
      }
    }

    // ---------- saving and broadcasting ----------

    method PersistQueue(current: Option<Entry>, next: seq<Entry>, saved: bool) returns (ok: bool)
      requires Valid()
      modifies this`stored, table
      ensures Valid() && ok == saved
      ensures State() == if saved then Save(old(State()), current, next) else old(State())
    {
      var entries, currentId := next, "";
      if current.Some? {
        currentId := current.value.entryId;
        entries := [current.value] + next;
      }
      ok := table.ReplaceQueue(currentId, entries, saved);
      if ok {
        stored := Stored(stored.images + [table.rows], true);
      }
    }

    method Send(messages: seq<Message>)
      modifies this`conn
      ensures conn == old(conn).(wire := old(conn).wire + messages)
    {
      ghost var before := conn.wire;
      for i := 0 to |messages|
        invariant conn == old(conn).(wire := before + messages[..i])
      {
        conn := conn.(wire := conn.wire + [messages[i]]);
        assert messages[..i + 1] == messages[..i] + [messages[i]];
      }
      assert messages[..|messages|] == messages;
    }

    method CommitQueueWithCurrent(current: Option<Entry>, next: seq<Entry>, ops: seq<Op>, saved: bool)
      returns (ok: bool)
      requires Valid()
      modifies this, table
      ensures Valid()
      ensures ok <==> Commit(old(State()), current, next, ops, saved).Some?
      ensures State() == if ok then Commit(old(State()), current, next, ops, saved).value else old(State())
    {
      var nextRevision := revision + 1;
      var messages := SplitMessages(PatchFits(sizes, revision, nextRevision), WireOps(ops));
      if messages.Failure? {
        return false;
      }
      ok := PersistQueue(current, next, saved);
      if !ok {
        return;
      }
      Enter(next, ops);
      BroadcastAll(PatchMessages(nextRevision - 1, messages.value));
    }

    method Enter(next: seq<Entry>, ops: seq<Op>)
      requires Valid()
      modifies this`queue, this`revision, this`log
      ensures Valid() && State() == Entered(old(State()), next, ops)
    {
      queue := next;
      revision := revision + 1;
      log := log.(history := log.history + [next], patches := log.patches + [ops]);
    }

    method BroadcastAll(messages: seq<Message>)
      requires Valid()
      modifies this`conn
      ensures Valid() && State() == Broadcast(old(State()), messages)
    {
      if conn.joined {
        Send(messages);
      }
    }

    method SendQueueSnapshot() returns (ok: bool)
      requires Valid()
      modifies this`conn
      ensures Valid() && (State(), ok) == SendSnapshot(old(State()))
    {
      var messages := SplitMessages(SnapshotFits(sizes, revision), WireEntries(queue));
      if messages.Failure? {
        return false;
      }
      Send(SnapshotMessages(revision, messages.value));
      conn := conn.(based := true);
      return true;
    }

    // ---------- advancing ----------

    method FinishCurrent(reason: string, now: int)
      requires Valid()
      modifies this`ledger
      ensures Valid() && State() == RoomModel.FinishCurrent(old(State()), reason, now)
    {
      if playback.current.None? {
        return;
      }
      ledger := ledger.(finished := ledger.finished + [Played(playback.current.value.entryId, reason, now)]);
    }

    method ScheduleEnd(now: int)
      requires Valid()
      modifies this`timers
      ensures Valid() && State() == RoomModel.ScheduleEnd(old(State()), now)
    {
      timers := timers.(running := None);
      if !playback.playing || playback.current.None? || playback.current.value.durationMs <= 0 {
        return;
      }
      var remaining := playback.current.value.durationMs - Position(playback, now);
      if remaining < 0 {
        remaining := 0;
      }
      var timerSeq := timers.seqNo + 1;
      var timer := Timer(playback.current.value.entryId, now + remaining);
      timers := timers.(seqNo := timerSeq, armed := timers.armed[timerSeq := timer], running := Some(timerSeq));
    }

    method Refill(pendingStart: bool, reason: string)
      requires Valid()
      modifies this`refilling
      ensures Valid() && State() == RoomModel.Refill(old(State()), pendingStart, reason)
    {
      if pendingStart && !refilling.pendingStart {
        refilling := refilling.(pendingStart := true, pendingReason := reason);
      }
      if radio.None? || refilling.inFlight {
        return;
      }
      var batchSize := 10;
      if policy.maxQueue > 0 {
        if policy.maxQueue - |queue| < batchSize {
          batchSize := policy.maxQueue - |queue|;
        }
        if batchSize <= 0 {
          return;
        }
      }
      refilling := refilling.(inFlight := true, fetches := refilling.fetches + [Fetch(radio.value.id, batchSize)]);
    }

    method StopPlayback()
      requires Valid()
      modifies this`playback, this`timers
      ensures Valid() && State() == Stopped(old(State()))
    {
      playback := IDLE;
      timers := timers.(running := None);
    }

    /** The leading entries an advance takes off, and the playable one among them. */
    method Skim() returns (removeCount: nat, next: Option<Entry>)
      ensures removeCount == Skimmed(queue, MAX_DROPPED_PER_ADVANCE)
      ensures next == Playable(queue[..removeCount])
    {
      removeCount, next := 0, None;
      while removeCount < |queue| && removeCount < MAX_DROPPED_PER_ADVANCE
        invariant removeCount <= |queue| && removeCount <= MAX_DROPPED_PER_ADVANCE
        invariant forall i :: 0 <= i < removeCount ==> queue[i].durationMs <= 0
        invariant next.None?
      {
        var candidate := queue[removeCount];
        removeCount := removeCount + 1;
        if candidate.durationMs > 0 {
          next := Some(candidate);
          break;
        }
      }
      SkimmedIs(queue, MAX_DROPPED_PER_ADVANCE, removeCount);
    }

    method AdvanceReady(reason: string, env: Env) returns (ok: bool)
      requires Valid()
      modifies this, table
      ensures Valid()
      ensures ok <==> RoomModel.AdvanceReady(old(State()), reason, env).Some?
      ensures State() == if ok then RoomModel.AdvanceReady(old(State()), reason, env).value else old(State())
    {
      if |queue| == 0 {
        ok := PersistQueue(None, [], env.saved);
        if ok {
          FinishCurrent(reason, env.now);
          StopPlayback();
        }
        return;
      }
      var removeCount, next := Skim();
      var removed, remaining := queue[..removeCount], queue[removeCount..];
      ok := CommitQueueWithCurrent(next, remaining, RemoveOps(removed), env.saved);
      if !ok {
        return;
      }
      TakeOver(removed, next, reason, env);
    }

    method Drop(ghost entries: seq<Entry>)
      requires Valid()
      modifies this`ledger
      ensures Valid() && State() == Dropped(old(State()), entries)
    {
      ledger := ledger.(dropped := ledger.dropped + multiset(Ids(entries)));
    }

    method TakeOver(removed: seq<Entry>, next: Option<Entry>, reason: string, env: Env)
      requires Valid() && next == Playable(removed)
      modifies this
      ensures Valid() && State() == RoomModel.TakeOver(old(State()), removed, reason, env)
    {
      FinishCurrent(reason, env.now);
      Drop(if next.Some? then removed[..|removed| - 1] else removed);
      if next.None? {
        StopPlayback();
        return;
      }
      StartPlaying(WithQuality(next.value, env.quality), env.now);
    }

    method StartPlaying(next: Entry, now: int)
      requires Valid()
      modifies this
      ensures Valid() && State() == RoomModel.StartPlaying(old(State()), next, now)
    {
      playback := Playback(Some(next), -StartLeadMs(policy), now, true);
      if radio.Some? && |queue| < 3 {
        Refill(false, "");
      }
      ScheduleEnd(now);
    }

    method Advance(reason: string, env: Env) returns (ok: bool)
      requires Valid()
      modifies this, table
      ensures Valid()
      ensures ok <==> RoomModel.Advance(old(State()), reason, env).Some?
      ensures State() == TryAdvance(old(State()), reason, env).0
    {
      if refilling.pendingStart {
        return true;
      }
      if |queue| == 0 && radio.Some? {
        Refill(true, reason);
        return true;
      }
      ok := AdvanceReady(reason, env);
    }

    method CompletePendingStart(env: Env)
      requires Valid()
      modifies this, table
      ensures Valid() && State() == RoomModel.CompletePendingStart(old(State()), env)
    {
      if !refilling.pendingStart {
        return;
      }
      var reason := refilling.pendingReason;
      refilling := refilling.(pendingStart := false, pendingReason := "");
      var _ := AdvanceReady(reason, env);
    }

    // ---------- the queue ----------

    method CommitQueue(next: seq<Entry>, ops: seq<Op>, saved: bool) returns (ok: bool)
      requires Valid()
      modifies this, table
      ensures Valid()
      ensures ok <==> Commit(old(State()), Current(old(State())), next, ops, saved).Some?
      ensures State() == if ok then Commit(old(State()), Current(old(State())), next, ops, saved).value else old(State())
    {
      ok := CommitQueueWithCurrent(playback.current, next, ops, saved);
    }

    method FindEntry(id: string) returns (index: int)
      ensures index == Find(queue, id)
    {
      for i := 0 to |queue|
        invariant forall j :: 0 <= j < i ==> queue[j].entryId != id
      {
        if queue[i].entryId == id {
          return i;
        }
      }
      return -1;
    }

    method CountPending(actorId: string) returns (pending: nat)
      ensures pending == CountRequestedBy(queue, actorId)
    {
      pending := 0;
      assert queue[0..] == queue;
      for i := 0 to |queue|
        invariant CountRequestedBy(queue, actorId) == pending + CountRequestedBy(queue[i..], actorId)
      {
        assert queue[i..][1..] == queue[i + 1..];
        if queue[i].requestedBy == actorId {
          pending := pending + 1;
        }
      }
    }

    /** The new entries carry the name of whoever adds them. */
    method SignedBy(entries: seq<Entry>, name: string) returns (added: seq<Entry>)
      ensures added == Named(entries, name)
    {
      added := [];
      for i := 0 to |entries|
        invariant |added| == i && added == Named(entries, name)[..i]
      {
        added := added + [entries[i].(requesterName := name)];
      }
    }

    method AppendEntries(added: seq<Entry>, saved: bool) returns (ok: bool)
      requires Valid()
      modifies this, table
      ensures Valid()
      ensures ok <==> Append(old(State()), added, saved).Some?
      ensures State() == if ok then Append(old(State()), added, saved).value else old(State())
    {
      ok := CommitQueue(queue + added, AddOps(added, |queue|), saved);
      if ok {
        ledger := ledger.(accepted := ledger.accepted + multiset(Ids(added)));
      }
    }

    method Add(entries: seq<Entry>, actorId: string, actorName: string, keys: seq<string>, saved: bool, env: Env)
      returns (reply: Reply)
      requires Valid()
      modifies this, table
      ensures Valid()
      ensures (State(), reply) == StepAdd(old(State()), AddEntries(entries, actorId, actorName, keys, saved, env))
    {
      var n := |entries|;
      if policy.maxQueue > 0 && |queue| + n > policy.maxQueue {
        return QueueFull;
      }
      var limit := QueueLimit(policy, keys);
      if limit > 0 {
        var pending := CountPending(actorId);
        if pending + n > limit {
          return QuotaExceeded;
        }
      }
      var added := SignedBy(entries, actorName);
      var ok := AppendEntries(added, saved);
      if !ok {
        return CommitFailed;
      }
      if playback.current.None? {
        var _ := Advance("", env);
      }
      return Done;
    }

    method Remove(entryId: string, removeAny: bool, actorId: string, saved: bool) returns (reply: Reply)
      requires Valid()
      modifies this, table
      ensures Valid()
      ensures (State(), reply) == StepRemove(old(State()), RemoveEntry(entryId, removeAny, actorId, saved))
    {
      var index := FindEntry(entryId);
      if index < 0 {
        return NotFound;
      }
      if !removeAny && queue[index].requestedBy != actorId {
        return Forbidden;
      }
      var removed := queue[index];
      var next := queue[..index] + queue[index + 1..];
      var ok := CommitQueue(next, [Op.Remove(removed.entryId)], saved);
      if !ok {
        return CommitFailed;
      }
      ledger := ledger.(removed := ledger.removed + multiset{removed.entryId});
      return Done;
    }

    method Move(entryId: string, toIndex: int, saved: bool) returns (reply: Reply)
      requires Valid()
      modifies this, table
      ensures Valid()
      ensures (State(), reply) == StepMove(old(State()), MoveEntry(entryId, toIndex, saved))
    {
      if toIndex < 0 || toIndex >= |queue| {
        return InvalidIndex;
      }
      var index := FindEntry(entryId);
      if index < 0 {
        return NotFound;
      }
      var moved := queue[index];
      var without := queue[..index] + queue[index + 1..];
      var next := without[..toIndex] + [moved] + without[toIndex..];
      var ok := CommitQueue(next, [Op.Move(moved.entryId, toIndex)], saved);
      return if ok then Done else CommitFailed;
    }

    method Clear(saved: bool) returns (reply: Reply)
      requires Valid()
      modifies this, table
      ensures Valid() && (State(), reply) == StepClear(old(State()), saved)
    {
      ghost var cleared := queue;
      var ok := CommitQueue([], [Op.Clear], saved);
      if !ok {
        return CommitFailed;
      }
      ledger := ledger.(removed := ledger.removed + multiset(Ids(cleared)));
      return Done;
    }

    // ---------- playback ----------

    method Pause(now: int) returns (reply: Reply)
      requires Valid()
      modifies this`playback, this`timers
      ensures Valid() && (State(), reply) == StepPause(old(State()), now)
    {
      if playback.current.None? || !playback.playing {
        return NoPlayback;
      }
      playback := playback.(positionMs := Position(playback, now));
      playback := playback.(playing := false);
      playback := playback.(updatedAt := now);
      timers := timers.(running := None);
      return Done;
    }

    method Resume(now: int) returns (reply: Reply)
      requires Valid()
      modifies this`playback, this`timers
      ensures Valid() && (State(), reply) == StepResume(old(State()), now)
    {
      if playback.current.None? || playback.playing {
        return NoPlayback;
      }
      playback := playback.(playing := true, updatedAt := now);
      ScheduleEnd(now);
      return Done;
    }

    method Seek(posMs: int, now: int) returns (reply: Reply)
      requires Valid()
      modifies this`playback, this`timers
      ensures Valid() && (State(), reply) == StepSeek(old(State()), posMs, now)
    {
      if playback.current.None? {
        return NoPlayback;
      }
      var p := posMs;
      if p < 0 {
        p := 0;
      }
      var d := playback.current.value.durationMs;
      if d > 0 && p > d {
        p := d;
      }
      playback := playback.(positionMs := p, updatedAt := now);
      ScheduleEnd(now);
      return Done;
    }

    method Skip(env: Env) returns (reply: Reply)
      requires Valid()
      modifies this, table
      ensures Valid() && (State(), reply) == TryAdvance(old(State()), "skipped", env)
    {
      var ok := Advance("skipped", env);
      return if ok then Done else CommitFailed;
    }

    /** The running timer's callback: it puts its action into the room's queue. */
    method TimerFires()
      requires Valid()
      modifies this`timers
      ensures Valid() && State() == StepTimerFires(old(State()))
    {
      if timers.running.Some? {
        timers := timers.(running := None, queued := timers.queued + {timers.running.value});
      }
    }

    method TimerEnds(timerId: nat, env: Env)
      requires Valid()
      modifies this, table
      ensures Valid() && State() == StepTimerEnd(old(State()), timerId, env).0
    {
      timers := timers.(queued := timers.queued - {timerId});
      if timerId != timers.seqNo {
        return;
      }
      var _ := Advance("finished", env);
    }

    method ReportUnplayable(ref: string, env: Env) returns (reply: Reply)
      requires Valid()
      modifies this, table
      ensures Valid() && (State(), reply) == StepUnplayable(old(State()), ref, env)
    {
      var ok := true;
      if playback.current.Some? && playback.current.value.trackRef == ref {
        ok := Advance("unplayable", env);
      }
      return if ok then Done else CommitFailed;
    }

    // ---------- the radio ----------

    method StartSourceConstruction(request: Request)
      modifies this`sources
      ensures sources == StartBuild(old(sources), request)
    {
      sources := sources.(inFlight := true, builds := sources.builds + [request]);
    }

    method Answered(id: nat, outcome: Outcome)
      modifies this`sources
      ensures sources == old(sources).(answers := old(sources).answers + [Answer(id, outcome)])
    {
      sources := sources.(answers := sources.answers + [Answer(id, outcome)]);
    }

    method PlayRadio(spec: string)
      requires Valid()
      modifies this`sources
      ensures Valid() && State() == StepPlayRadio(old(State()), spec).0
    {
      var request := Request(sources.seqNo + 1, spec);
      sources := sources.(seqNo := request.id, desiredId := request.id, desiredSpec := spec, stopped := false);
      if sources.inFlight {
        if sources.queued.Some? {
          Answered(sources.queued.value.id, Canceled);
        }
        sources := sources.(queued := Some(request));
      } else {
        StartSourceConstruction(request);
      }
    }

    method StopRadio(env: Env)
      requires Valid()
      modifies this, table
      ensures Valid() && State() == StepStopRadio(old(State()), env).0
    {
      sources := sources.(desiredId := 0, desiredSpec := "", stopped := true);
      if sources.queued.Some? {
        Answered(sources.queued.value.id, Canceled);
        sources := sources.(queued := None);
      }
      radio := None;
      CompletePendingStart(env);
    }

    method Install(request: Request)
      requires Valid()
      modifies this`radio, this`refilling
      ensures Valid() && State() == InstallRadio(old(State()), request)
    {
      radio := Some(Radio(request.id, request.spec));
      if playback.current.None? {
        Refill(true, "");
      } else if |queue| < 3 {
        Refill(false, "");
      }
    }

    /** The request has had its answer; whoever waits is built next. */
    method Conclude(request: Request, outcome: Outcome)
      modifies this`sources
      ensures var a := old(sources).(answers := old(sources).answers + [Answer(request.id, outcome)]);
        sources == StartQueued(a)
    {
      Answered(request.id, outcome);
      if sources.queued.Some? {
        var waiting := sources.queued.value;
        sources := sources.(queued := None);
        StartSourceConstruction(waiting);
      }
    }

    /** The radio in force is the desired one again. */
    method FallBack()
      modifies this`sources
      ensures sources == if radio.None? then old(sources).(desiredId := 0, desiredSpec := "")
                         else old(sources).(desiredId := radio.value.id, desiredSpec := radio.value.spec)
    {
      if radio.None? {
        sources := sources.(desiredId := 0, desiredSpec := "");
      } else {
        sources := sources.(desiredId := radio.value.id, desiredSpec := radio.value.spec);
      }
    }

    /** A construction reports; `build` says which of those handed out it was. */
    method SourceResult(build: nat, built: bool)
      requires Valid() && build < |sources.builds|
      modifies this`sources, this`radio, this`refilling
      ensures Valid() && State() == StepSourceReport(old(State()), build, built).0
    {
      var request := sources.builds[build];
      var active := sources.desiredId == request.id && sources.desiredSpec == request.spec;
      sources := sources.(inFlight := false, builds := RemoveAt(sources.builds, build));
      var outcome := Canceled;
      if active && built {
        InstallIgnoresSources(old(State()), sources, request);
        Install(request);
        outcome := Installed;
      } else if active {
        FallBack();
        outcome := BuildFailed;
      }
      label concluding:
      Conclude(request, outcome);
      assert State() == old@concluding(State()).(sources := sources);
      assert sources == AfterReport(old(sources), old(radio), build, outcome);
    }

    /** No more of a batch than was asked for, nor than the queue has room for. */
    method TrimBatch(limit: int, batch: seq<Entry>) returns (tracks: seq<Entry>)
      ensures tracks == UsefulTracks(State(), limit, batch)
    {
      tracks := batch;
      if |tracks| > limit {
        tracks := Take(tracks, limit);
      }
      if policy.maxQueue > 0 {
        var capacity := if policy.maxQueue - |queue| > 0 then policy.maxQueue - |queue| else 0;
        if |tracks| > capacity {
          tracks := tracks[..capacity];
        }
      }
    }

    /** What a batch from the radio in force brings, before any waiting advance. */
    method ReceiveBatch(limit: int, failed: bool, batch: seq<Entry>, ended: bool, saved: bool, env: Env)
      requires Valid()
      modifies this, table
      ensures Valid()
      ensures State() == Receive(old(State()), limit, FetchReport(0, failed, batch, ended, saved, env))
    {
      if failed {
        radio := None;
        return;
      }
      var tracks := TrimBatch(limit, batch);
      if |tracks| > 0 {
        var ok := AppendEntries(tracks, saved);
        if !ok {
          radio := None;
          return;
        }
      }
      if ended && |batch| <= limit {
        radio := None;
      }
    }

    /** A fetch reports; `fetch` says which of those handed out it was. */
    method RefillResult(fetch: nat, failed: bool, tracks: seq<Entry>, exhausted: bool, saved: bool, env: Env)
      requires Valid() && fetch < |refilling.fetches|
      modifies this, table
      ensures Valid()
      ensures State() == StepFetchReport(old(State()), FetchReport(fetch, failed, tracks, exhausted, saved, env)).0
    {
      var asked := refilling.fetches[fetch];
      refilling := refilling.(inFlight := false, fetches := RemoveAt(refilling.fetches, fetch));
      if radio.None? || radio.value.id != asked.radioId {
        if radio.None? {
          refilling := refilling.(pendingStart := false, pendingReason := "");
        } else if refilling.pendingStart || |queue| < 3 {
          Refill(refilling.pendingStart, refilling.pendingReason);
        }
        return;
      }
      ReceiveBatch(asked.limit, failed, tracks, exhausted, saved, env);
      CompletePendingStart(env);
    }

    // ---------- connections and policy ----------

    method Join()
      requires Valid()
      modifies this`conn
      ensures Valid() && State() == StepJoin(old(State())).0
    {
      var rejoining, greeted := conn.joined, conn.greeted;
      if !rejoining {
        conn := Connection(true, [], false, false);
      }
      var ok := SendQueueSnapshot();
      conn := conn.(greeted := if rejoining then greeted else ok);
    }

    method Leave()
      requires Valid()
      modifies this`conn
      ensures Valid() && State() == Step(old(State()), Event.Leave).0
    {
      conn := Connection(false, [], false, false);
    }

    method QueueSync() returns (reply: Reply)
      requires Valid()
      modifies this`conn
      ensures Valid() && (State(), reply) == StepSync(old(State()))
    {
      if !conn.joined {
        return Forbidden;
      }
      var ok := SendQueueSnapshot();
      return if ok then Done else CommitFailed;
    }

    method SetPolicy(raw: RawPolicy, saved: bool) returns (reply: Reply)
      requires Valid()
      modifies this`policy
      ensures Valid() && (State(), reply) == StepSetPolicy(old(State()), raw, saved)
    {
      var parsed := ParsePolicy(raw);
      if parsed.None? {
        return InvalidPolicy;
      }
      if !saved {
        return CommitFailed;
      }
      policy := parsed.value;
      return Done;
    }

    // ---------- the loop ----------

    /** One turn of the loop: whatever happens, the room does what its model says. */
    method Handle(ev: Event) returns (reply: Reply)
      requires Valid() && Enabled(State(), ev)
      modifies this, table
      ensures Valid() && (State(), reply) == Step(old(State()), ev)
    {
      reply := NoReply;
      match ev {
        case Join => Join();
        case Leave => Leave();
        case Sync => reply := QueueSync();
        case AddEntries(entries, actorId, actorName, keys, saved, env) =>
          reply := Add(entries, actorId, actorName, keys, saved, env);
        case RemoveEntry(entryId, removeAny, actorId, saved) => reply := Remove(entryId, removeAny, actorId, saved);
        case MoveEntry(entryId, toIndex, saved) => reply := Move(entryId, toIndex, saved);
        case ClearQueue(saved) => reply := Clear(saved);
        case Pause(now) => reply := Pause(now);
        case Resume(now) => reply := Resume(now);
        case Seek(posMs, now) => reply := Seek(posMs, now);
        case Skip(env) => reply := Skip(env);
        case TimerFires(_) => TimerFires();
        case TimerEnd(timer, env) => TimerEnds(timer, env);
        case Unplayable(ref, env) => reply := ReportUnplayable(ref, env);
        case PlayRadio(spec) => PlayRadio(spec);
        case StopRadio(env) => StopRadio(env); reply := Done;
        case SourceReport(build, built) => SourceResult(build, built);
        case FetchReport(fetch, failed, tracks, exhausted, saved, env) =>
          RefillResult(fetch, failed, tracks, exhausted, saved, env);
        case SetPolicy(raw, saved) => reply := SetPolicy(raw, saved);
      }
    }
  }

  lemma {:induction false} InstallIgnoresSources(s: Room, sources: Sources, request: Request)
    ensures InstallRadio(s.(sources := sources), request) == InstallRadio(s, request).(sources := sources)
  {
  }

  lemma {:induction false} IsLoaded(s: Room, rows: seq<Row>, readable: bool)
    requires var (found, queue) := Found(rows, readable);
      && s.queue == queue && s.revision == 0 && s.radio.None?
      && s.playback == (if Resumable(found) then Playback(found, 0, 0, true) else IDLE)
      && s.sources == NO_SOURCES && s.refilling == Refilling(false, [], false, "") && s.timers == Timers(0, map[], None, {})
      && s.log == Log(s.log.sizes, [queue], []) && s.conn == Connection(false, [], false, false)
      && s.stored == Stored([rows], readable && (found.None? || Resumable(found)))
      && s.ledger == OpeningLedger(found, queue)
    ensures s == Loaded(s.log.sizes, s.policy, rows, readable)
  {
  }

  lemma {:induction false} SkimmedIs(q: seq<Entry>, n: nat, k: nat)
    requires k <= |q| && k <= n
    requires forall i :: 0 <= i < k - 1 ==> q[i].durationMs <= 0
    requires (k > 0 && q[k - 1].durationMs > 0) || k == |q| || k == n
    requires k == 0 ==> |q| == 0 || n == 0
    ensures Skimmed(q, n) == k
    decreases k
  {
    if k > 0 && q[0].durationMs <= 0 {
      SkimmedIs(q[1..], n - 1, k - 1);
    }
  }
}
