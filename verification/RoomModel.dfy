/** One room as a state machine. Everything the room's single loop does is one of
    the events below; how the outside turned out (the clock, whether a save
    succeeded, what a radio source delivered) comes with the event. */
module RoomModel {
  import opened Wrappers
  import opened QueueWire
  import opened QueueChunking
  import opened QueuePatch
  import opened QueueAgreement
  import opened QueueStore
  import opened RoomPolicy

  // ---------- state ----------

  datatype Playback = Playback(current: Option<Entry>, positionMs: int, updatedAt: int, playing: bool)

  const IDLE := Playback(None, 0, 0, false)

  /** Where the lazy position stands at an instant; the rate is always one. */
  function Position(p: Playback, now: int): int {
    if p.playing then p.positionMs + (now - p.updatedAt) else p.positionMs
  }

  datatype Radio = Radio(id: nat, spec: string)

  datatype Request = Request(id: nat, spec: string)

  datatype Answer = Answer(id: nat, outcome: Outcome)

  datatype Outcome = Installed | BuildFailed | Canceled

  /** Radio source requests. `builds` are the constructions running outside the
      loop and `answers` the replies given; `stopped` remembers whether a stop came
      after the newest request. */
  datatype Sources = Sources(
    seqNo: nat,
    desiredId: nat,
    desiredSpec: string,
    inFlight: bool,
    builds: seq<Request>,
    queued: Option<Request>,
    answers: seq<Answer>,
    stopped: bool
  )

  datatype Fetch = Fetch(radioId: nat, limit: int)

  /** Refilling from the radio. `fetches` are the batches being fetched outside the
      loop; a pending start is an advance waiting for one of them. */
  datatype Refilling = Refilling(inFlight: bool, fetches: seq<Fetch>, pendingStart: bool, pendingReason: string)

  datatype Timer = Timer(entryId: string, dueAt: int)

  /** A timer fires once. `armed` keeps every timer ever set, `running` is the one that
      can still fire, and `queued` are those that have fired and whose action the room
      has not yet come to. */
  datatype Timers = Timers(seqNo: nat, armed: map<nat, Timer>, running: Option<nat>, queued: set<nat>)

  /** Every content the store has had; the last one is there now. `settled` once it
      is known to match the room. */
  datatype Stored = Stored(images: seq<seq<Row>>, settled: bool)

  /** One subscribed connection: what it was sent since it joined, whether its
      first snapshot could be sent, and whether any could. */
  datatype Connection = Connection(joined: bool, wire: seq<Message>, greeted: bool, based: bool)

  datatype Played = Played(entryId: string, reason: string, endedAt: int)

  /** Where every accepted entry went. */
  datatype Ledger = Ledger(
    accepted: multiset<string>, finished: seq<Played>, removed: multiset<string>, dropped: multiset<string>)

  datatype Room = Room(
    queue: seq<Entry>,
    revision: nat,
    playback: Playback,
    policy: Policy,
    radio: Option<Radio>,
    sources: Sources,
    refilling: Refilling,
    timers: Timers,
    log: Log,
    stored: Stored,
    conn: Connection,
    ledger: Ledger
  )

  function Current(s: Room): Option<Entry> { s.playback.current }

  // ---------- events ----------

  /** How the outside turns out for the advance an event may cause. */
  datatype Env = Env(now: int, saved: bool, quality: Option<(int, int)>)

  datatype Event =
    | Join
    | Leave
    | Sync
    | AddEntries(entries: seq<Entry>, actorId: string, actorName: string, keys: seq<string>, savedAdd: bool, env: Env)
    | RemoveEntry(entryId: string, removeAny: bool, actorId: string, saved: bool)
    | MoveEntry(entryId: string, toIndex: int, saved: bool)
    | ClearQueue(saved: bool)
    | Pause(now: int)
    | Resume(now: int)
    | Seek(posMs: int, now: int)
    | Skip(env: Env)
    | TimerFires(now: int)
    | TimerEnd(timer: nat, env: Env)
    | Unplayable(ref: string, env: Env)
    | PlayRadio(spec: string)
    | StopRadio(env: Env)
    | SourceReport(build: nat, built: bool)
    | FetchReport(fetch: nat, failed: bool, tracks: seq<Entry>, exhausted: bool, savedAdd: bool, env: Env)
    | SetPolicy(raw: RawPolicy, saved: bool)

  datatype Reply = Done | QueueFull | QuotaExceeded | NotFound | Forbidden | InvalidIndex | NoPlayback
                 | CommitFailed | InvalidPolicy | NoReply

  /** Reports come only from workers that run; a running timer fires when it is due, and
      its action is handled once. */
  ghost predicate Enabled(s: Room, ev: Event) {
    match ev
    case TimerFires(now) =>
      && s.timers.running.Some? && s.timers.running.value in s.timers.armed
      && s.timers.armed[s.timers.running.value].dueAt <= now
    case TimerEnd(timer, _) => timer in s.timers.queued
    case SourceReport(build, _) => build < |s.sources.builds|
    case FetchReport(fetch, _, _, _, _, _) => fetch < |s.refilling.fetches|
    case _ => true
  }

  /** Entry ids are made up of random bytes: new ones are assumed non-empty,
      distinct and never seen by this room. */
  ghost predicate FreshBatch(accepted: multiset<string>, entries: seq<Entry>) {
    Unique(entries) && forall i :: 0 <= i < |entries| ==> accepted[entries[i].entryId] == 0
  }

  ghost predicate Fresh(s: Room, ev: Event) {
    match ev
    case AddEntries(entries, _, _, _, _, _) => entries != [] && FreshBatch(s.ledger.accepted, entries)
    case FetchReport(_, _, tracks, _, _, _) => FreshBatch(s.ledger.accepted, tracks)
    case _ => true
  }

  // ---------- saving and broadcasting ----------

  function Save(s: Room, current: Option<Entry>, next: seq<Entry>): Room {
    s.(stored := Stored(s.stored.images + [Image(current, next)], true))
  }

  function Broadcast(s: Room, ms: seq<Message>): Room {
    if s.conn.joined then s.(conn := s.conn.(wire := s.conn.wire + ms)) else s
  }

  /** Cut the patch, save, then take the new queue and revision and send the parts.
      A patch that cannot be cut or a save that fails changes nothing. */
  function Commit(s: Room, current: Option<Entry>, next: seq<Entry>, ops: seq<Op>, saved: bool): Option<Room> {
    match Split(PatchFits(s.log.sizes, s.revision, s.revision + 1), WireOps(ops))
    case Failure(_) => None
    case Success(parts) =>
      if !saved then None
      else
        Some(Broadcast(Entered(Save(s, current, next), next, ops), PatchMessages(s.revision, parts)))
  }

  function Entered(s: Room, next: seq<Entry>, ops: seq<Op>): Room {
    s.(queue := next, revision := s.revision + 1,
       log := s.log.(history := s.log.history + [next], patches := s.log.patches + [ops]))
  }

  function SendSnapshot(s: Room): (r: (Room, bool)) {
    match Split(SnapshotFits(s.log.sizes, s.revision), WireEntries(s.queue))
    case Failure(_) => (s, false)
    case Success(parts) =>
      (s.(conn := s.conn.(wire := s.conn.wire + SnapshotMessages(s.revision, parts), based := true)), true)
  }

  // ---------- advancing ----------

  function Accepted(s: Room, entries: seq<Entry>): Room {
    s.(ledger := s.ledger.(accepted := s.ledger.accepted + multiset(Ids(entries))))
  }

  function FinishCurrent(s: Room, reason: string, now: int): Room {
    if s.playback.current.None? then s
    else
      var played := Played(s.playback.current.value.entryId, reason, now);
      s.(ledger := s.ledger.(finished := s.ledger.finished + [played]))
  }

  /** A timer for what is left of a playing track; otherwise none runs. */
  function ScheduleEnd(s: Room, now: int): Room {
    if !s.playback.playing || s.playback.current.None? || s.playback.current.value.durationMs <= 0 then
      s.(timers := s.timers.(running := None))
    else
      var left := s.playback.current.value.durationMs - Position(s.playback, now);
      var timer := Timer(s.playback.current.value.entryId, now + if left < 0 then 0 else left);
      var n := s.timers.seqNo + 1;
      s.(timers := s.timers.(seqNo := n, armed := s.timers.armed[n := timer], running := Some(n)))
  }

  function Refill(s: Room, pendingStart: bool, reason: string): Room {
    var a := if pendingStart && !s.refilling.pendingStart
             then s.(refilling := s.refilling.(pendingStart := true, pendingReason := reason)) else s;
    if a.radio.None? || a.refilling.inFlight then a
    else
      var room := a.policy.maxQueue - |a.queue|;
      var batch := if a.policy.maxQueue > 0 && room < 10 then room else 10;
      if batch <= 0 then a
      else a.(refilling := a.refilling.(inFlight := true,
                                        fetches := a.refilling.fetches + [Fetch(a.radio.value.id, batch)]))
  }

  /** How many leading entries an advance takes off: those of unknown duration and
      the first playable one, at most n. */
  function Skimmed(q: seq<Entry>, n: nat): (k: nat)
    ensures k <= |q| && k <= n
    ensures forall i :: 0 <= i < k - 1 ==> q[i].durationMs <= 0
    ensures k > 0 && q[k - 1].durationMs <= 0 ==> k == n || k == |q|
    ensures k == 0 ==> n == 0 || q == []
  {
    if q == [] || n == 0 then 0
    else if q[0].durationMs > 0 then 1
    else 1 + Skimmed(q[1..], n - 1)
  }

  const MAX_DROPPED_PER_ADVANCE: nat := 100

  function Stopped(s: Room): Room {
    s.(playback := IDLE, timers := s.timers.(running := None))
  }

  function WithQuality(e: Entry, quality: Option<(int, int)>): Entry {
    if quality.None? then e else e.(sizeBytes := quality.value.0, bitrateKbps := quality.value.1)
  }

  /** The playable entry an advance found: the last of those it takes off, if it has a duration. */
  function Playable(skimmed: seq<Entry>): Option<Entry> {
    if skimmed != [] && skimmed[|skimmed| - 1].durationMs > 0 then Some(skimmed[|skimmed| - 1]) else None
  }

  function AdvanceReady(s: Room, reason: string, env: Env): Option<Room> {
    if s.queue == [] then
      if !env.saved then None
      else Some(Stopped(FinishCurrent(Save(s, None, []), reason, env.now)))
    else
      var k := Skimmed(s.queue, MAX_DROPPED_PER_ADVANCE);
      match Commit(s, Playable(s.queue[..k]), s.queue[k..], RemoveOps(s.queue[..k]), env.saved)
      case None => None
      case Some(a) => Some(TakeOver(a, s.queue[..k], reason, env))
  }

  function Dropped(s: Room, entries: seq<Entry>): Room {
    s.(ledger := s.ledger.(dropped := s.ledger.dropped + multiset(Ids(entries))))
  }

  /** The commit is done: the old track ends and the new one starts, or none does. */
  function TakeOver(s: Room, skimmed: seq<Entry>, reason: string, env: Env): Room {
    var next := Playable(skimmed);
    var a := Dropped(FinishCurrent(s, reason, env.now), if next.Some? then skimmed[..|skimmed| - 1] else skimmed);
    if next.None? then Stopped(a) else StartPlaying(a, WithQuality(next.value, env.quality), env.now)
  }

  function StartPlaying(s: Room, next: Entry, now: int): Room {
    var a := s.(playback := Playback(Some(next), -StartLeadMs(s.policy), now, true));
    var b := if a.radio.Some? && |a.queue| < 3 then Refill(a, false, "") else a;
    ScheduleEnd(b, now)
  }

  function Advance(s: Room, reason: string, env: Env): Option<Room> {
    if s.refilling.pendingStart then Some(s)
    else if s.queue == [] && s.radio.Some? then Some(Refill(s, true, reason))
    else AdvanceReady(s, reason, env)
  }

  /** An advance that fails leaves the room as it is. */
  function TryAdvance(s: Room, reason: string, env: Env): (Room, Reply) {
    match Advance(s, reason, env)
    case Some(a) => (a, Done)
    case None => (s, CommitFailed)
  }

  function CompletePendingStart(s: Room, env: Env): Room {
    if !s.refilling.pendingStart then s
    else
      var a := s.(refilling := s.refilling.(pendingStart := false, pendingReason := ""));
      match AdvanceReady(a, s.refilling.pendingReason, env)
      case Some(b) => b
      case None => a
  }

  // ---------- the events ----------

  function CountRequestedBy(q: seq<Entry>, id: string): nat {
    if q == [] then 0 else (if q[0].requestedBy == id then 1 else 0) + CountRequestedBy(q[1..], id)
  }

  function Named(entries: seq<Entry>, name: string): (r: seq<Entry>)
    ensures |r| == |entries|
    ensures forall i :: 0 <= i < |entries| ==> r[i] == entries[i].(requesterName := name)
  {
    seq(|entries|, i requires 0 <= i < |entries| => entries[i].(requesterName := name))
  }

  /** Appending is one commit; a room with nothing playing then tries to start,
      which is a second one and may fail by itself. */
  function Append(s: Room, added: seq<Entry>, saved: bool): Option<Room> {
    match Commit(s, Current(s), s.queue + added, AddOps(added, |s.queue|), saved)
    case None => None
    case Some(a) => Some(Accepted(a, added))
  }

  function StepAdd(s: Room, ev: Event): (Room, Reply)
    requires ev.AddEntries?
  {
    var n := |ev.entries|;
    if s.policy.maxQueue > 0 && |s.queue| + n > s.policy.maxQueue then (s, QueueFull)
    else if LimitOf(s.policy, ev.keys) > 0 && CountRequestedBy(s.queue, ev.actorId) + n > LimitOf(s.policy, ev.keys) then
      (s, QuotaExceeded)
    else
      match Append(s, Named(ev.entries, ev.actorName), ev.savedAdd)
      case None => (s, CommitFailed)
      case Some(a) => (if Current(a).None? then TryAdvance(a, "", ev.env).0 else a, Done)
  }

  /** The first pending entry with the id, or -1. */
  function Find(q: seq<Entry>, id: string): (i: int)
    ensures -1 <= i < |q|
    ensures i >= 0 ==> q[i].entryId == id && forall j :: 0 <= j < i ==> q[j].entryId != id
    ensures i < 0 ==> forall j :: 0 <= j < |q| ==> q[j].entryId != id
  {
    if q == [] then -1
    else if q[0].entryId == id then 0
    else
      var i := Find(q[1..], id);
      if i < 0 then -1 else i + 1
  }

  function StepRemove(s: Room, ev: Event): (Room, Reply)
    requires ev.RemoveEntry?
  {
    var i := Find(s.queue, ev.entryId);
    if i < 0 then (s, NotFound)
    else if !ev.removeAny && s.queue[i].requestedBy != ev.actorId then (s, Forbidden)
    else
      match Commit(s, Current(s), RemoveAt(s.queue, i), [Remove(s.queue[i].entryId)], ev.saved)
      case None => (s, CommitFailed)
      case Some(a) =>
        (a.(ledger := a.ledger.(removed := a.ledger.removed + multiset{s.queue[i].entryId})), Done)
  }

  function StepMove(s: Room, ev: Event): (Room, Reply)
    requires ev.MoveEntry?
  {
    if ev.toIndex < 0 || ev.toIndex >= |s.queue| then (s, InvalidIndex)
    else
      var i := Find(s.queue, ev.entryId);
      if i < 0 then (s, NotFound)
      else
        var next := InsertAt(RemoveAt(s.queue, i), ev.toIndex, s.queue[i]);
        match Commit(s, Current(s), next, [Move(s.queue[i].entryId, ev.toIndex)], ev.saved)
        case None => (s, CommitFailed)
        case Some(a) => (a, Done)
  }

  function StepClear(s: Room, saved: bool): (Room, Reply) {
    match Commit(s, Current(s), [], [Clear], saved)
    case None => (s, CommitFailed)
    case Some(a) =>
      (a.(ledger := a.ledger.(removed := a.ledger.removed + multiset(Ids(s.queue)))), Done)
  }

  function StepPause(s: Room, now: int): (Room, Reply) {
    if s.playback.current.None? || !s.playback.playing then (s, NoPlayback)
    else
      (s.(playback := s.playback.(positionMs := Position(s.playback, now), playing := false, updatedAt := now),
          timers := s.timers.(running := None)), Done)
  }

  function StepResume(s: Room, now: int): (Room, Reply) {
    if s.playback.current.None? || s.playback.playing then (s, NoPlayback)
    else (ScheduleEnd(s.(playback := s.playback.(playing := true, updatedAt := now)), now), Done)
  }

  function ClampSeek(posMs: int, durationMs: int): (p: int)
    ensures p >= 0 && (durationMs > 0 ==> p <= durationMs)
    ensures posMs >= 0 && (durationMs > 0 ==> posMs <= durationMs) ==> p == posMs
    ensures posMs < 0 ==> p == 0
    ensures durationMs > 0 && posMs > durationMs ==> p == durationMs
  {
    var p := if posMs < 0 then 0 else posMs;
    if durationMs > 0 && p > durationMs then durationMs else p
  }

  function StepSeek(s: Room, posMs: int, now: int): (Room, Reply) {
    if s.playback.current.None? then (s, NoPlayback)
    else
      var p := ClampSeek(posMs, s.playback.current.value.durationMs);
      (ScheduleEnd(s.(playback := s.playback.(positionMs := p, updatedAt := now)), now), Done)
  }

  /** A timer that has fired is spent; its action waits to be handled. */
  function StepTimerFires(s: Room): Room {
    if s.timers.running.None? then s
    else s.(timers := s.timers.(running := None, queued := s.timers.queued + {s.timers.running.value}))
  }

  /** A timer that is not the newest says nothing. */
  function StepTimerEnd(s: Room, timer: nat, env: Env): (Room, Reply) {
    var a := s.(timers := s.timers.(queued := s.timers.queued - {timer}));
    (if timer != a.timers.seqNo then a else TryAdvance(a, "finished", env).0, NoReply)
  }

  function StepUnplayable(s: Room, ref: string, env: Env): (Room, Reply) {
    if s.playback.current.None? || s.playback.current.value.trackRef != ref then (s, Done)
    else TryAdvance(s, "unplayable", env)
  }

  function StartBuild(src: Sources, request: Request): Sources {
    src.(inFlight := true, builds := src.builds + [request])
  }

  function CancelQueued(src: Sources): Sources {
    if src.queued.None? then src
    else src.(queued := None, answers := src.answers + [Answer(src.queued.value.id, Canceled)])
  }

  /** A new request takes the place of a waiting one, or is constructed at once. */
  function Requested(src: Sources, request: Request): Sources {
    var a := src.(seqNo := request.id, desiredId := request.id, desiredSpec := request.spec, stopped := false);
    if a.inFlight then CancelQueued(a).(queued := Some(request)) else StartBuild(a, request)
  }

  function StepPlayRadio(s: Room, spec: string): (Room, Reply) {
    (s.(sources := Requested(s.sources, Request(s.sources.seqNo + 1, spec))), NoReply)
  }

  function StepStopRadio(s: Room, env: Env): (Room, Reply) {
    var a := CancelQueued(s.sources.(desiredId := 0, desiredSpec := "", stopped := true));
    (CompletePendingStart(s.(sources := a, radio := None), env), Done)
  }

  function StartQueued(src: Sources): Sources {
    if src.queued.None? then src else StartBuild(src.(queued := None), src.queued.value)
  }

  function IsDesired(src: Sources, request: Request): bool {
    src.desiredId == request.id && src.desiredSpec == request.spec
  }

  function ReportOutcome(src: Sources, request: Request, built: bool): Outcome {
    if !IsDesired(src, request) then Canceled else if built then Installed else BuildFailed
  }

  /** The reply is given and whoever waits is built next. When the desired source
      could not be built, the radio in force is the desired one again. */
  function AfterReport(src: Sources, radio: Option<Radio>, build: nat, outcome: Outcome): Sources
    requires build < |src.builds|
  {
    var a := src.(inFlight := false, builds := RemoveAt(src.builds, build),
                  answers := src.answers + [Answer(src.builds[build].id, outcome)]);
    var b := if !outcome.BuildFailed? then a
             else if radio.None? then a.(desiredId := 0, desiredSpec := "")
             else a.(desiredId := radio.value.id, desiredSpec := radio.value.spec);
    StartQueued(b)
  }

  function InstallRadio(s: Room, request: Request): Room {
    var a := s.(radio := Some(Radio(request.id, request.spec)));
    if Current(a).None? then Refill(a, true, "")
    else if |a.queue| < 3 then Refill(a, false, "")
    else a
  }

  function StepSourceReport(s: Room, build: nat, built: bool): (Room, Reply)
    requires build < |s.sources.builds|
  {
    var request := s.sources.builds[build];
    var outcome := ReportOutcome(s.sources, request, built);
    var a := if outcome.Installed? then InstallRadio(s, request) else s;
    (a.(sources := AfterReport(s.sources, s.radio, build, outcome)), NoReply)
  }

  function Take<T>(q: seq<T>, n: int): (r: seq<T>)
    ensures |r| <= |q| && (n >= 0 ==> |r| <= n) && r == q[..|r|]
    ensures 0 <= |r| < n ==> r == q
  {
    if n < 0 then [] else if |q| > n then q[..n] else q
  }

  function StaleFetch(s: Room): Room {
    if s.radio.None? then s.(refilling := s.refilling.(pendingStart := false, pendingReason := ""))
    else if s.refilling.pendingStart || |s.queue| < 3 then
      Refill(s, s.refilling.pendingStart, s.refilling.pendingReason)
    else s
  }

  /** As much of a batch as was asked for and the queue still has room for. */
  function UsefulTracks(s: Room, limit: int, tracks: seq<Entry>): (r: seq<Entry>)
    ensures |r| <= |tracks| && r == tracks[..|r|]
    ensures r != [] && s.policy.maxQueue > 0 ==> |s.queue| + |r| <= s.policy.maxQueue
    ensures |r| < |tracks| && |r| < limit ==> s.policy.maxQueue > 0 && |s.queue| + |r| >= s.policy.maxQueue
  {
    var batch := Take(tracks, limit);
    if s.policy.maxQueue > 0 then Take(batch, s.policy.maxQueue - |s.queue|) else batch
  }

  function TakeFetch(s: Room, fetch: nat): Room
    requires fetch < |s.refilling.fetches|
  {
    s.(refilling := s.refilling.(inFlight := false, fetches := RemoveAt(s.refilling.fetches, fetch)))
  }

  /** What a batch from the radio in force brings. The radio stops when it fails, when
      its batch cannot be saved, or when it is exhausted. */
  function Receive(s: Room, limit: int, ev: Event): Room
    requires ev.FetchReport?
  {
    if ev.failed then s.(radio := None)
    else
      var tracks := UsefulTracks(s, limit, ev.tracks);
      var over := ev.exhausted && |ev.tracks| <= limit;
      if tracks == [] then
        if over then s.(radio := None) else s
      else
        match Append(s, tracks, ev.savedAdd)
        case None => s.(radio := None)
        case Some(a) => if over then a.(radio := None) else a
  }

  function StepFetchReport(s: Room, ev: Event): (Room, Reply)
    requires ev.FetchReport? && ev.fetch < |s.refilling.fetches|
  {
    var fetch := s.refilling.fetches[ev.fetch];
    var a := TakeFetch(s, ev.fetch);
    if a.radio.None? || a.radio.value.id != fetch.radioId then (StaleFetch(a), NoReply)
    else (CompletePendingStart(Receive(a, fetch.limit, ev), ev.env), NoReply)
  }

  function StepSetPolicy(s: Room, raw: RawPolicy, saved: bool): (Room, Reply) {
    match ParsePolicy(raw)
    case None => (s, InvalidPolicy)
    case Some(p) => if !saved then (s, CommitFailed) else (s.(policy := p), Done)
  }

  function StepJoin(s: Room): (Room, Reply) {
    var a := if s.conn.joined then s else s.(conn := Connection(true, [], false, false));
    var (b, ok) := SendSnapshot(a);
    (b.(conn := b.conn.(greeted := if s.conn.joined then s.conn.greeted else ok)), NoReply)
  }

  function StepSync(s: Room): (Room, Reply) {
    if !s.conn.joined then (s, Forbidden)
    else
      var (a, ok) := SendSnapshot(s);
      (a, if ok then Done else CommitFailed)
  }

  function Step(s: Room, ev: Event): (Room, Reply)
    requires Enabled(s, ev)
  {
    match ev
    case Join => StepJoin(s)
    case Leave => (s.(conn := Connection(false, [], false, false)), NoReply)
    case Sync => StepSync(s)
    case AddEntries(_, _, _, _, _, _) => StepAdd(s, ev)
    case RemoveEntry(_, _, _, _) => StepRemove(s, ev)
    case MoveEntry(_, _, _) => StepMove(s, ev)
    case ClearQueue(saved) => StepClear(s, saved)
    case Pause(now) => StepPause(s, now)
    case Resume(now) => StepResume(s, now)
    case Seek(posMs, now) => StepSeek(s, posMs, now)
    case Skip(env) => TryAdvance(s, "skipped", env)
    case TimerFires(_) => (StepTimerFires(s), NoReply)
    case TimerEnd(timer, env) => StepTimerEnd(s, timer, env)
    case Unplayable(ref, env) => StepUnplayable(s, ref, env)
    case PlayRadio(spec) => StepPlayRadio(s, spec)
    case StopRadio(env) => StepStopRadio(s, env)
    case SourceReport(build, built) => StepSourceReport(s, build, built)
    case FetchReport(_, _, _, _, _, _) => StepFetchReport(s, ev)
    case SetPolicy(raw, saved) => StepSetPolicy(s, raw, saved)
  }

  // ---------- starting ----------

  const NO_SOURCES := Sources(0, 0, "", false, [], None, [], false)

  /** What a starting room finds; rows that cannot be read count as none. */
  function Found(rows: seq<Row>, readable: bool): (Option<Entry>, seq<Entry>) {
    if readable then Decode(rows) else (None, [])
  }

  predicate Resumable(found: Option<Entry>) { found.Some? && found.value.durationMs > 0 }

  function OpeningLedger(found: Option<Entry>, queue: seq<Entry>): Ledger {
    var all := (if found.None? then [] else [found.value]) + queue;
    Ledger(multiset(Ids(all)), [], multiset{},
           if found.Some? && !Resumable(found) then multiset{found.value.entryId} else multiset{})
  }

  /** A restart from the rows the store holds: the flagged track is resumed, unless
      its duration is unknown; then, or with no flag, the room advances by itself. */
  function Loaded(sizes: Sizes, policy: Policy, rows: seq<Row>, readable: bool): Room {
    var (found, queue) := Found(rows, readable);
    var settled := readable && (found.None? || Resumable(found));
    Room(queue, 0, if Resumable(found) then Playback(found, 0, 0, true) else IDLE, policy, None, NO_SOURCES,
         Refilling(false, [], false, ""), Timers(0, map[], None, {}), Log(sizes, [queue], []), Stored([rows], settled),
         Connection(false, [], false, false), OpeningLedger(found, queue))
  }

  function Begin(s: Room, found: Option<Entry>, env: Env): Room {
    if Resumable(found) then
      ScheduleEnd(s.(playback := Playback(found, -StartLeadMs(s.policy), env.now, true)), env.now)
    else if found.Some? || s.queue != [] then
      TryAdvance(s, "resume-after-restart", env).0
    else s
  }

  function Start(sizes: Sizes, policy: Policy, rows: seq<Row>, readable: bool, env: Env): Room {
    Begin(Loaded(sizes, policy, rows, readable), Found(rows, readable).0, env)
  }
}
