/** What every event does, part by part, told by the guards in its way: the reply, the
    policy, the radio, the batches asked for, and what the connection is sent. */
module RoomEvents {
  import opened Wrappers
  import opened QueueWire
  import opened QueueChunking
  import opened QueuePatch
  import opened QueueAgreement
  import opened RoomPolicy
  import opened RoomModel
  import opened RoomShape
  import opened RoomGuarantees
  import opened RoomNetwork
  import opened RoomRadio

  // ---------- edits, with their replies ----------

  ghost predicate Pending(q: seq<Entry>, id: string) {
    exists i :: 0 <= i < |q| && q[i].entryId == id
  }

  /** The first entry with the id is not the listener's, and it may not take others'. */
  ghost predicate NotTheirs(q: seq<Entry>, ev: Event)
    requires ev.RemoveEntry?
  {
    !ev.removeAny && exists i :: 0 <= i < |q| && q[i].entryId == ev.entryId && q[i].requestedBy != ev.actorId
                                 && forall j :: 0 <= j < i ==> q[j].entryId != ev.entryId
  }

  /** A removal is answered by what is in its way, and otherwise takes the entry out, saved
      and recorded. */
  lemma {:induction false} RemoveExactly(s: Room, ev: Event)
    requires ev.RemoveEntry?
    ensures var (t, reply) := StepRemove(s, ev);
      && (reply.NotFound? <==> !Pending(s.queue, ev.entryId))
      && (reply.Forbidden? <==> NotTheirs(s.queue, ev))
      && (reply.Done? <==> RemoveAccepted(s, ev))
      && (reply in {NotFound, Forbidden, CommitFailed, Done})
      && (!reply.Done? ==> t == s)
      && (reply.Done? ==>
            && t.ledger == s.ledger.(removed := s.ledger.removed + multiset{ev.entryId})
            && t.playback == s.playback && t.stored.settled
            && exists i: nat :: i < |s.queue| && TakenOut(s.queue, ev, i, t.queue))
  {
    if StepRemove(s, ev).1.Done? {
      RemoveTakesOneOut(s, ev);
    }
    RemoveReplies(s, ev);
  }

  lemma {:induction false} RemoveReplies(s: Room, ev: Event)
    requires ev.RemoveEntry?
    ensures var reply := StepRemove(s, ev).1;
      && (reply.NotFound? <==> !Pending(s.queue, ev.entryId))
      && (reply.Forbidden? <==> NotTheirs(s.queue, ev))
      && (reply.Done? <==> RemoveAccepted(s, ev))
  {
    var i := Find(s.queue, ev.entryId);
    if i >= 0 {
      assert s.queue[i].entryId == ev.entryId;
    }
  }

  /** A move is answered by what is in its way, and otherwise puts the entry where it was
      asked to be. */
  lemma {:induction false} MoveExactly(s: Room, ev: Event)
    requires ev.MoveEntry?
    ensures var (t, reply) := StepMove(s, ev);
      && (reply.InvalidIndex? <==> !(0 <= ev.toIndex < |s.queue|))
      && (reply.NotFound? <==> 0 <= ev.toIndex < |s.queue| && !Pending(s.queue, ev.entryId))
      && (reply.Done? <==> MoveAccepted(s, ev))
      && (reply in {InvalidIndex, NotFound, CommitFailed, Done})
      && (!reply.Done? ==> t == s)
      && (reply.Done? ==>
            && t.ledger == s.ledger && t.playback == s.playback && t.stored.settled
            && |t.queue| == |s.queue| && t.queue[ev.toIndex].entryId == ev.entryId
            && exists i: nat :: i < |s.queue| && t.queue[ev.toIndex] == s.queue[i]
                                && RemoveAt(t.queue, ev.toIndex) == RemoveAt(s.queue, i))
  {
    if StepMove(s, ev).1.Done? {
      MovePlacesOne(s, ev);
    }
  }

  /** A clear that can be cut and saved empties the queue and records every entry as removed;
      any other changes nothing. */
  lemma {:induction false} ClearExactly(s: Room, saved: bool)
    ensures var (t, reply) := StepClear(s, saved);
      if ClearAccepted(s, saved) then
        && reply.Done? && t.queue == [] && t.playback == s.playback && t.stored.settled
        && t.ledger == s.ledger.(removed := s.ledger.removed + multiset(Ids(s.queue)))
      else reply.CommitFailed? && t == s
  {
  }

  /** An addition is answered by the first thing in its way. */
  lemma {:induction false} AddReplies(s: Room, ev: Event)
    requires ev.AddEntries?
    ensures var reply := StepAdd(s, ev).1;
      var n, limit := |ev.entries|, LimitOf(s.policy, ev.keys);
      var full := s.policy.maxQueue > 0 && |s.queue| + n > s.policy.maxQueue;
      && (reply.QueueFull? <==> full)
      && (reply.QuotaExceeded? <==> !full && limit > 0 && CountRequestedBy(s.queue, ev.actorId) + n > limit)
      && (reply.Done? <==> AddAccepted(s, ev))
      && (reply in {QueueFull, QuotaExceeded, CommitFailed, Done})
  {
    AddDoneWhen(s, ev);
  }

  /** The count behind a quota is the number of places that hold an entry of that listener. */
  function Places(q: seq<Entry>, id: string): set<int> {
    set i | 0 <= i < |q| && q[i].requestedBy == id
  }

  lemma {:induction false} CountIsPlaces(q: seq<Entry>, id: string)
    ensures CountRequestedBy(q, id) == |Places(q, id)|
    decreases |q|
  {
    if q != [] {
      var n := |q| - 1;
      CountIsPlaces(q[..n], id);
      assert q == q[..n] + [q[n]];
      CountConcat(q[..n], [q[n]], id);
      assert [q[n]][1..] == [];
      if q[n].requestedBy == id {
        assert Places(q, id) == Places(q[..n], id) + {n};
      } else {
        assert Places(q, id) == Places(q[..n], id);
      }
    }
  }

  // ---------- the other replies ----------

  /** An advance on request fails exactly if it would be carried out but cannot be cut or saved. */
  predicate AdvanceFails(s: Room, env: Env) {
    && !s.refilling.pendingStart && (s.queue != [] || s.radio.None?)
    && !CanAdvance(s.queue, s.revision, s.log.sizes, env)
  }

  lemma {:induction false} TryAdvanceReplies(s: Room, reason: string, env: Env)
    ensures TryAdvance(s, reason, env).1 == if AdvanceFails(s, env) then CommitFailed else Done
  {
    AdvanceReadyWhen(s, reason, env);
  }

  lemma {:induction false} OtherReplies(s: Room, ev: Event)
    requires Enabled(s, ev)
    requires !ev.AddEntries? && !ev.RemoveEntry? && !ev.MoveEntry? && !ev.ClearQueue?
    ensures var reply := Step(s, ev).1;
      match ev
      case Pause(_) => reply == if s.playback.current.Some? && s.playback.playing then Done else NoPlayback
      case Resume(_) => reply == if s.playback.current.Some? && !s.playback.playing then Done else NoPlayback
      case Seek(_, _) => reply == if s.playback.current.Some? then Done else NoPlayback
      case Skip(env) => reply == if AdvanceFails(s, env) then CommitFailed else Done
      case Unplayable(ref, env) =>
        reply == if s.playback.current.Some? && s.playback.current.value.trackRef == ref && AdvanceFails(s, env)
                 then CommitFailed else Done
      case StopRadio(_) => reply == Done
      case SetPolicy(raw, saved) =>
        reply == if ParsePolicy(raw).None? then InvalidPolicy else if saved then Done else CommitFailed
      case Sync =>
        reply == if !s.conn.joined then Forbidden
                 else if Split(SnapshotFits(s.log.sizes, s.revision), WireEntries(s.queue)).Success? then Done
                 else CommitFailed
      case _ => reply == NoReply
  {
    match ev {
      case Skip(env) => TryAdvanceReplies(s, "skipped", env);
      case Unplayable(ref, env) => TryAdvanceReplies(s, "unplayable", env);
      case _ =>
    }
  }

  // ---------- the policy ----------

  /** A policy comes into force exactly when it is valid and stored. */
  lemma {:induction false} StepPolicyExactly(s: Room, ev: Event)
    requires Enabled(s, ev)
    ensures Step(s, ev).0.policy
         == if ev.SetPolicy? && ev.saved && ParsePolicy(ev.raw).Some? then ParsePolicy(ev.raw).value else s.policy
  {
    if !ev.SetPolicy? {
      var h := StepDoes(s, ev);
      EditedShape(h.a, h.edit);
      if h.advance.Some? {
        AdvanceReadyShape(h.c, h.advance.value.reason, h.advance.value.env);
      }
    }
  }

  // ---------- the radio ----------

  /** The radio in force goes on, unless it failed, its batch could not be saved, or it is
      exhausted and delivered no more than was asked for. */
  predicate RadioEnds(s: Room, ev: Event)
    requires ev.FetchReport? && ev.fetch < |s.refilling.fetches|
  {
    || ev.failed
    || (Batch(s, ev) != [] && !BatchAccepted(s, ev))
    || (ev.exhausted && |ev.tracks| <= s.refilling.fetches[ev.fetch].limit)
  }

  lemma {:induction false} FetchRadio(s: Room, ev: Event)
    requires ev.FetchReport? && Enabled(s, ev)
    ensures StepFetchReport(s, ev).0.radio == if InForce(s, ev.fetch) && RadioEnds(s, ev) then None else s.radio
  {
    var a := TakeFetch(s, ev.fetch);
    if InForce(s, ev.fetch) {
      var limit := s.refilling.fetches[ev.fetch].limit;
      ReceiveRadio(a, limit, ev);
      CompletePendingStartRadio(Receive(a, limit, ev), ev.env);
    } else {
      StaleFetchShape(a);
    }
  }

  lemma {:induction false} ReceiveRadio(s: Room, limit: int, ev: Event)
    requires ev.FetchReport?
    ensures var tracks := UsefulTracks(s, limit, ev.tracks);
      Receive(s, limit, ev).radio
      == if ev.failed || (ev.exhausted && |ev.tracks| <= limit)
            || (tracks != [] && !(ev.savedAdd && Cuttable(s.log.sizes, s.revision, AddOps(tracks, |s.queue|))))
         then None else s.radio
  {
    var tracks := UsefulTracks(s, limit, ev.tracks);
    AppendShape(s, tracks, ev.savedAdd);
    if Append(s, tracks, ev.savedAdd).Some? {
      EditedShape(s, Appending(tracks));
    }
  }

  lemma {:induction false} TryAdvanceRadio(s: Room, reason: string, env: Env)
    ensures TryAdvance(s, reason, env).0.radio == s.radio
  {
    RefillShape(s, true, reason);
    if AdvanceReady(s, reason, env).Some? {
      AdvanceReadyShape(s, reason, env);
    }
  }

  /** Which radio is in force after an event. */
  function RadioAfter(s: Room, ev: Event): Option<Radio>
    requires ev.FetchReport? ==> ev.fetch < |s.refilling.fetches|
    requires ev.SourceReport? ==> ev.build < |s.sources.builds|
  {
    match ev
    case StopRadio(_) => None
    case SourceReport(build, built) =>
      var request := s.sources.builds[build];
      if built && IsDesired(s.sources, request) then Some(Radio(request.id, request.spec)) else s.radio
    case FetchReport(fetch, _, _, _, _, _) => if InForce(s, fetch) && RadioEnds(s, ev) then None else s.radio
    case _ => s.radio
  }

  // ---------- the batches asked for ----------

  /** What is there once a batch has been asked for: one is, of ten or of what the queue has
      room for, if a radio is in force, there is room, and none is being fetched. */
  function Asking(r: Refilling, radio: Option<Radio>, maxQueue: int, pending: nat): Refilling {
    var room := maxQueue - pending;
    if r.inFlight || radio.None? || (maxQueue > 0 && room <= 0) then r
    else
      var limit := if maxQueue > 0 && room < 10 then room else 10;
      r.(inFlight := true, fetches := r.fetches + [Fetch(radio.value.id, limit)])
  }

  function Waiting(r: Refilling, reason: string): Refilling {
    if r.pendingStart then r else r.(pendingStart := true, pendingReason := reason)
  }

  lemma {:induction false} RefillAsks(s: Room, pendingStart: bool, reason: string)
    ensures Refill(s, pendingStart, reason)
         == s.(refilling := Asking(if pendingStart then Waiting(s.refilling, reason) else s.refilling,
                                   s.radio, s.policy.maxQueue, |s.queue|))
  {
  }

  /** Fewer than three entries are left behind what plays. */
  predicate RunsLow(t: Room) { t.playback.current.Some? && |t.queue| < 3 }

  lemma {:induction false} StartPlayingAsks(s: Room, next: Entry, now: int)
    ensures var t := StartPlaying(s, next, now);
      && t.queue == s.queue && t.playback.current == Some(next)
      && t.refilling == if |s.queue| < 3 then Asking(s.refilling, s.radio, s.policy.maxQueue, |s.queue|) else s.refilling
  {
    var a := s.(playback := Playback(Some(next), -StartLeadMs(s.policy), now, true));
    RefillAsks(a, false, "");
    ScheduleEndShape(if a.radio.Some? && |a.queue| < 3 then Refill(a, false, "") else a, now);
  }

  lemma {:induction false} TakeOverAsks(s: Room, skimmed: seq<Entry>, reason: string, env: Env)
    ensures var t := TakeOver(s, skimmed, reason, env);
      && t.queue == s.queue
      && t.refilling == if RunsLow(t) then Asking(s.refilling, s.radio, s.policy.maxQueue, |t.queue|) else s.refilling
  {
    var next := Playable(skimmed);
    if next.Some? {
      var a := Dropped(FinishCurrent(s, reason, env.now), skimmed[..|skimmed| - 1]);
      StartPlayingAsks(a, WithQuality(next.value, env.quality), env.now);
    }
  }

  lemma {:induction false} AdvanceAsks(s: Room, reason: string, env: Env)
    requires AdvanceReady(s, reason, env).Some?
    ensures var t := AdvanceReady(s, reason, env).value;
      t.refilling == if RunsLow(t) then Asking(s.refilling, s.radio, s.policy.maxQueue, |t.queue|) else s.refilling
  {
    if s.queue != [] {
      var skimmed := SkimmedOf(s.queue);
      var rest := s.queue[|skimmed|..];
      CommitShape(s, Playable(skimmed), rest, RemoveOps(skimmed), env.saved);
      TakeOverAsks(Commit(s, Playable(skimmed), rest, RemoveOps(skimmed), env.saved).value, skimmed, reason, env);
    }
  }

  /** An advance has nothing to go on to but the radio. */
  predicate MustWait(s: Room) { !s.refilling.pendingStart && s.queue == [] && s.radio.Some? }

  lemma {:induction false} TryAdvanceAsks(s: Room, reason: string, env: Env)
    ensures var t := TryAdvance(s, reason, env).0;
      t.refilling
      == if Advancing(s, env) then
           (if RunsLow(t) then Asking(s.refilling, s.radio, s.policy.maxQueue, |t.queue|) else s.refilling)
         else if MustWait(s) then Asking(Waiting(s.refilling, reason), s.radio, s.policy.maxQueue, 0)
         else s.refilling
  {
    AdvanceReadyWhen(s, reason, env);
    if Advancing(s, env) {
      AdvanceAsks(s, reason, env);
    } else if MustWait(s) {
      RefillAsks(s, true, reason);
    }
  }

  function NoLongerWaiting(r: Refilling): Refilling {
    if r.pendingStart then r.(pendingStart := false, pendingReason := "") else r
  }

  lemma {:induction false} CompleteAsks(s: Room, env: Env)
    ensures var t := CompletePendingStart(s, env);
      var r := NoLongerWaiting(s.refilling);
      t.refilling
      == if s.refilling.pendingStart && CanAdvance(s.queue, s.revision, s.log.sizes, env) && RunsLow(t)
         then Asking(r, s.radio, s.policy.maxQueue, |t.queue|) else r
  {
    if s.refilling.pendingStart {
      var a := s.(refilling := NoLongerWaiting(s.refilling));
      AdvanceReadyWhen(a, s.refilling.pendingReason, env);
      if AdvanceReady(a, s.refilling.pendingReason, env).Some? {
        AdvanceAsks(a, s.refilling.pendingReason, env);
      }
    }
  }

  predicate Installs(s: Room, ev: Event)
    requires ev.SourceReport? && ev.build < |s.sources.builds|
  {
    ev.built && IsDesired(s.sources, s.sources.builds[ev.build])
  }

  /** The event begins to wait for a batch instead of advancing. */
  predicate BeginsToWait(s: Room, ev: Event) {
    && MustWait(s)
    && (ev.Skip? || (ev.TimerEnd? && ev.timer == s.timers.seqNo)
        || (ev.Unplayable? && s.playback.current.Some? && s.playback.current.value.trackRef == ev.ref))
  }

  /** Who waits after an event, before any batch is asked for. */
  ghost function WaitAfter(s: Room, ev: Event): Refilling
    requires Enabled(s, ev)
  {
    match ev
    case StopRadio(_) => NoLongerWaiting(s.refilling)
    case SourceReport(_, _) =>
      if Installs(s, ev) && s.playback.current.None? then Waiting(s.refilling, "") else s.refilling
    case FetchReport(fetch, _, _, _, _, _) =>
      var r := TakeFetch(s, fetch).refilling;
      if InForce(s, fetch) then NoLongerWaiting(r)
      else if s.radio.None? then r.(pendingStart := false, pendingReason := "")
      else r
    case _ => if BeginsToWait(s, ev) then Waiting(s.refilling, CauseOf(s, ev).reason) else s.refilling
  }

  /** Whether an event that leads to t asks for a batch, if none is being fetched. */
  ghost predicate Asks(s: Room, ev: Event, t: Room)
    requires Enabled(s, ev)
  {
    || (AdvancesOn(s, ev) && RunsLow(t))
    || BeginsToWait(s, ev)
    || (ev.SourceReport? && Installs(s, ev) && (s.playback.current.None? || |s.queue| < 3))
    || (ev.FetchReport? && !InForce(s, ev.fetch) && (s.refilling.pendingStart || |s.queue| < 3))
  }

  ghost function RefillingAfter(s: Room, ev: Event, t: Room): Refilling
    requires Enabled(s, ev)
  {
    if Asks(s, ev, t) then Asking(WaitAfter(s, ev), t.radio, t.policy.maxQueue, |t.queue|) else WaitAfter(s, ev)
  }

  ghost predicate RadioGoesOn(s: Room, ev: Event, t: Room)
    requires Enabled(s, ev)
  {
    t.refilling == RefillingAfter(s, ev, t) && t.radio == RadioAfter(s, ev)
  }

  lemma {:induction false} AddedRefills(s: Room, mid: Room, env: Env, t: Room, starts: bool)
    requires mid.queue != [] && mid.refilling == s.refilling && mid.radio == s.radio && mid.policy == s.policy
    requires t == if mid.playback.current.None? then TryAdvance(mid, "", env).0 else mid
    requires starts <==> && mid.playback.current.None? && !mid.refilling.pendingStart
                         && CanAdvance(mid.queue, mid.revision, mid.log.sizes, env)
    ensures t.radio == s.radio
    ensures t.refilling
         == if starts && RunsLow(t) then Asking(s.refilling, s.radio, s.policy.maxQueue, |t.queue|) else s.refilling
  {
    if mid.playback.current.None? {
      TryAdvanceAsks(mid, "", env);
      TryAdvanceRadio(mid, "", env);
    }
  }

  lemma {:induction false} AddedRadio(s: Room, ev: Event, t: Room)
    requires ev.AddEntries? && t.radio == s.radio && t.policy == s.policy
    requires t.refilling == if AddStarts(s, ev) && RunsLow(t)
                            then Asking(s.refilling, s.radio, s.policy.maxQueue, |t.queue|) else s.refilling
    ensures RadioGoesOn(s, ev, t)
  {
  }

  lemma {:induction false} StepAddRadio(s: Room, ev: Event)
    requires ev.AddEntries? && NonEmptyAdd(ev)
    ensures RadioGoesOn(s, ev, StepAdd(s, ev).0)
  {
    var t := StepAdd(s, ev).0;
    StepPolicyExactly(s, ev);
    if AddAccepted(s, ev) {
      var mid := AddAppends(s, ev);
      EditedShape(s, Appending(Batch(s, ev)));
      GrownNonEmpty(s, ev, mid.queue);
      AddStartsFrom(s, Batch(s, ev), ev.env, mid);
      AddedRefills(s, mid, ev.env, t, StartsNext(s, Batch(s, ev), ev.env));
    } else {
      AddDoneWhen(s, ev);
    }
    AddedRadio(s, ev, t);
  }

  lemma {:induction false} TriedRefills(s: Room, reason: string, env: Env)
    ensures var t := TryAdvance(s, reason, env).0;
      && t.radio == s.radio
      && t.refilling
         == var r := if MustWait(s) then Waiting(s.refilling, reason) else s.refilling;
            if (Advancing(s, env) && RunsLow(t)) || MustWait(s)
            then Asking(r, s.radio, s.policy.maxQueue, |t.queue|) else r
  {
    TryAdvanceAsks(s, reason, env);
    TryAdvanceRadio(s, reason, env);
    if MustWait(s) {
      MustWaitStays(s, reason, env);
    }
  }

  lemma {:induction false} TriedRadio(s: Room, ev: Event, t: Room, tries: bool)
    requires ev.Skip? || ev.TimerEnd? || ev.Unplayable?
    requires Enabled(s, ev) && t.radio == s.radio && t.policy == s.policy
    requires tries <==> && (ev.TimerEnd? ==> ev.timer == s.timers.seqNo)
                        && (ev.Unplayable? ==>
                              s.playback.current.Some? && s.playback.current.value.trackRef == ev.ref)
    requires var waits := tries && MustWait(s);
      var r := if waits then Waiting(s.refilling, CauseOf(s, ev).reason) else s.refilling;
      t.refilling == if (tries && Advancing(s, ev.env) && RunsLow(t)) || waits
                     then Asking(r, s.radio, s.policy.maxQueue, |t.queue|) else r
    ensures RadioGoesOn(s, ev, t)
  {
  }

  lemma {:induction false} StepSkipRadio(s: Room, env: Env)
    ensures RadioGoesOn(s, Skip(env), TryAdvance(s, "skipped", env).0)
  {
    StepPolicyExactly(s, Skip(env));
    TriedRefills(s, "skipped", env);
    TriedRadio(s, Skip(env), TryAdvance(s, "skipped", env).0, true);
  }

  lemma {:induction false} StepTimerEndRadio(s: Room, ev: Event)
    requires ev.TimerEnd? && Enabled(s, ev)
    ensures RadioGoesOn(s, ev, Step(s, ev).0)
  {
    StepPolicyExactly(s, ev);
    TriedRefills(s.(timers := s.timers.(queued := s.timers.queued - {ev.timer})), "finished", ev.env);
    TriedRadio(s, ev, Step(s, ev).0, ev.timer == s.timers.seqNo);
  }

  lemma {:induction false} StepUnplayableRadio(s: Room, ev: Event)
    requires ev.Unplayable?
    ensures RadioGoesOn(s, ev, Step(s, ev).0)
  {
    StepPolicyExactly(s, ev);
    TriedRefills(s, "unplayable", ev.env);
    TriedRadio(s, ev, Step(s, ev).0, s.playback.current.Some? && s.playback.current.value.trackRef == ev.ref);
  }

  lemma {:induction false} StepStopRadioRadio(s: Room, ev: Event)
    requires ev.StopRadio?
    ensures RadioGoesOn(s, ev, Step(s, ev).0)
  {
    var a := CancelQueued(s.sources.(desiredId := 0, desiredSpec := "", stopped := true));
    CompleteAsks(s.(sources := a, radio := None), ev.env);
    CompletePendingStartRadio(s.(sources := a, radio := None), ev.env);
  }

  lemma {:induction false} StepSourceReportRadio(s: Room, ev: Event)
    requires ev.SourceReport? && Enabled(s, ev)
    ensures RadioGoesOn(s, ev, Step(s, ev).0)
  {
    var request := s.sources.builds[ev.build];
    var a := s.(radio := Some(Radio(request.id, request.spec)));
    RefillAsks(a, true, "");
    RefillAsks(a, false, "");
  }

  lemma {:induction false} MustWaitStays(s: Room, reason: string, env: Env)
    requires MustWait(s)
    ensures TryAdvance(s, reason, env).0.queue == []
  {
    RefillShape(s, true, reason);
  }

  lemma {:induction false} ReceivedRefills(s: Room, ev: Event, d: Room, t: Room)
    requires ev.FetchReport? && Enabled(s, ev) && InForce(s, ev.fetch)
    requires d == Receive(TakeFetch(s, ev.fetch), s.refilling.fetches[ev.fetch].limit, ev)
    requires t == CompletePendingStart(d, ev.env)
    ensures var r := NoLongerWaiting(TakeFetch(s, ev.fetch).refilling);
      t.refilling
      == if FetchStarts(s, ev) && RunsLow(t) then Asking(r, t.radio, s.policy.maxQueue, |t.queue|) else r
  {
    var a := TakeFetch(s, ev.fetch);
    var edit, b := ReceiveShape(a, s.refilling.fetches[ev.fetch].limit, ev);
    EditedShape(a, edit);
    FetchEdited(s, ev, edit, b);
    EndsWaitFrom(s, BatchAccepted(s, ev), Batch(s, ev), ev.env, b);
    CompleteAsks(d, ev.env);
    CompletePendingStartRadio(d, ev.env);
  }

  lemma {:induction false} FetchedRadio(s: Room, ev: Event, t: Room)
    requires ev.FetchReport? && Enabled(s, ev) && InForce(s, ev.fetch) && t.policy == s.policy
    requires t.radio == if RadioEnds(s, ev) then None else s.radio
    requires var r := NoLongerWaiting(TakeFetch(s, ev.fetch).refilling);
      t.refilling
      == if FetchStarts(s, ev) && RunsLow(t) then Asking(r, t.radio, s.policy.maxQueue, |t.queue|) else r
    ensures RadioGoesOn(s, ev, t)
  {
  }

  lemma {:induction false} StepFetchRadio(s: Room, ev: Event)
    requires ev.FetchReport? && Enabled(s, ev)
    ensures RadioGoesOn(s, ev, StepFetchReport(s, ev).0)
  {
    var a, t := TakeFetch(s, ev.fetch), StepFetchReport(s, ev).0;
    FetchRadio(s, ev);
    StepPolicyExactly(s, ev);
    if InForce(s, ev.fetch) {
      ReceivedRefills(s, ev, Receive(a, s.refilling.fetches[ev.fetch].limit, ev), t);
      FetchedRadio(s, ev, t);
    } else {
      StaleRefills(s, ev);
    }
  }

  lemma {:induction false} StaleRefills(s: Room, ev: Event)
    requires ev.FetchReport? && Enabled(s, ev) && !InForce(s, ev.fetch)
    ensures RadioGoesOn(s, ev, StaleFetch(TakeFetch(s, ev.fetch)))
  {
    var a := TakeFetch(s, ev.fetch);
    RefillAsks(a, a.refilling.pendingStart, a.refilling.pendingReason);
  }

  /** Which radio is in force after an event, whether somebody waits for a batch of it, and
      which batch is asked for. */
  lemma {:induction false} StepRadio(s: Room, ev: Event)
    requires Enabled(s, ev) && NonEmptyAdd(ev)
    ensures RadioGoesOn(s, ev, Step(s, ev).0)
  {
    match ev {
      case AddEntries(_, _, _, _, _, _) => StepAddRadio(s, ev);
      case Skip(env) => StepSkipRadio(s, env);
      case TimerEnd(_, _) => StepTimerEndRadio(s, ev);
      case Unplayable(_, _) => StepUnplayableRadio(s, ev);
      case StopRadio(_) => StepStopRadioRadio(s, ev);
      case SourceReport(_, _) => StepSourceReportRadio(s, ev);
      case FetchReport(_, _, _, _, _, _) => StepFetchRadio(s, ev);
      case _ => StepQuietRadio(s, ev);
    }
  }

  lemma {:induction false} StepQuietRadio(s: Room, ev: Event)
    requires Enabled(s, ev) && !MayAdvance(ev) && !ev.SourceReport?
    ensures RadioGoesOn(s, ev, Step(s, ev).0)
  {
    match ev {
      case RemoveEntry(_, _, _, _) => StepEditRefilling(s, ev);
      case MoveEntry(_, _, _) => StepEditRefilling(s, ev);
      case ClearQueue(_) => StepEditRefilling(s, ev);
      case PlayRadio(_) =>
      case SetPolicy(_, _) =>
      case Join =>
      case Leave =>
      case Sync =>
      case _ => StepPlaybackUnrecorded(s, ev);
    }
  }

  /** Of a track that was just started, only size and bitrate are not those of its entry. */
  lemma {:induction false} StartedIsTheEntry(skimmed: seq<Entry>, quality: Option<(int, int)>)
    ensures Started(skimmed, quality).Some? <==> skimmed != [] && skimmed[|skimmed| - 1].durationMs > 0
    ensures Started(skimmed, quality).Some? ==>
              var e, f := skimmed[|skimmed| - 1], Started(skimmed, quality).value;
              && f.(sizeBytes := e.sizeBytes, bitrateKbps := e.bitrateKbps) == e
              && (quality.None? ==> f == e)
              && (quality.Some? ==> f.sizeBytes == quality.value.0 && f.bitrateKbps == quality.value.1)
  {
  }

  // ---------- source requests ----------

  /** A new request is the newest, and no stop has come since; nobody waited: it is
      constructed at once. Somebody is being constructed: it waits alone, and whoever waited
      is answered that it is canceled. */
  lemma {:induction false} RequestsTakeTurns(src: Sources, request: Request)
    requires Orderly(src)
    ensures var t := Requested(src, request);
      && Newest(t, request) && IsDesired(t, request)
      && (src.builds == [] ==> t.builds == [request] && t.queued.None? && t.answers == src.answers)
      && (src.builds != [] ==>
            && t.builds == src.builds && t.queued == Some(request)
            && t.answers == if src.queued.None? then src.answers
                            else src.answers + [Answer(src.queued.value.id, Canceled)])
  {
  }

  /** A stop cancels whoever waits and leaves what is being constructed to run out. */
  lemma {:induction false} StopCancels(src: Sources)
    ensures var t := CancelQueued(src.(desiredId := 0, desiredSpec := "", stopped := true));
      && t.builds == src.builds && t.queued.None?
      && t.answers == if src.queued.None? then src.answers
                      else src.answers + [Answer(src.queued.value.id, Canceled)]
  {
  }

  /** Once a construction has reported, whoever waits is constructed and is still wanted; if
      it has failed, the radio in force is what is wanted again. */
  lemma {:induction false} ReportMakesRoom(src: Sources, radio: Option<Radio>, build: nat, outcome: Outcome)
    requires Orderly(src) && build < |src.builds|
    ensures var t := AfterReport(src, radio, build, outcome);
      && t.queued.None?
      && t.builds == (if src.queued.Some? then [src.queued.value] else [])
      && (!outcome.BuildFailed? ==> t.desiredId == src.desiredId && t.desiredSpec == src.desiredSpec)
      && (outcome.BuildFailed? ==>
            if radio.None? then t.desiredId == 0 && t.desiredSpec == ""
            else t.desiredId == radio.value.id && t.desiredSpec == radio.value.spec)
      && (src.queued.Some? && !outcome.BuildFailed? ==> IsDesired(t, src.queued.value))
  {
    assert src.builds == [src.builds[0]] && RemoveAt(src.builds, build) == [];
  }

  // ---------- the connection ----------

  /** The messages of the patch that leads on from a revision. */
  function Broadcast(sizes: Sizes, base: nat, ops: seq<Op>): seq<Message> {
    var parts := Split(PatchFits(sizes, base, base + 1), WireOps(ops));
    if parts.Success? then PatchMessages(base, parts.value) else []
  }

  type Sender = (nat, seq<Op>) -> seq<Message>

  function SenderOf(sizes: Sizes): Sender {
    (base: nat, ops: seq<Op>) => Broadcast(sizes, base, ops)
  }

  /** The messages of patches in a row. */
  function Broadcasts(of: Sender, base: nat, patches: seq<seq<Op>>): seq<Message>
    decreases |patches|
  {
    if patches == [] then [] else of(base, patches[0]) + Broadcasts(of, base + 1, patches[1..])
  }

  lemma {:induction false} Joins(a: seq<Message>, b: seq<Message>, c: seq<Message>)
    ensures a + b + c == a + (b + c) && a + [] == a
  {
  }

  lemma {:induction false} BroadcastsJoin(of: Sender, base: nat, a: seq<seq<Op>>, b: seq<seq<Op>>)
    ensures Broadcasts(of, base, a + b) == Broadcasts(of, base, a) + Broadcasts(of, base + |a|, b)
    decreases |a|
  {
    if a == [] {
      assert a + b == b;
    } else {
      assert (a + b)[1..] == a[1..] + b;
      BroadcastsJoin(of, base + 1, a[1..], b);
      Joins(of(base, a[0]), Broadcasts(of, base + 1, a[1..]), Broadcasts(of, base + |a|, b));
    }
  }

  ghost predicate InOrder(s: Room) { |s.log.patches| == s.revision }

  /** A connection that is subscribed was sent these messages, and any other nothing. */
  predicate Sends(conn: Connection, messages: seq<Message>, later: Connection) {
    later == if conn.joined then conn.(wire := conn.wire + messages) else conn
  }

  lemma {:induction false} SendsOn(a: Connection, x: seq<Message>, b: Connection, y: seq<Message>, c: Connection)
    requires Sends(a, x, b) && Sends(b, y, c)
    ensures Sends(a, x + y, c)
  {
    Joins(a.wire, x, y);
  }

  /** The patches of all new revisions went out, once each and in order. */
  ghost predicate Relays(s: Room, t: Room) {
    && InOrder(s) && InOrder(t) && s.revision <= t.revision && Grows(s.log, t.log)
    && Sends(s.conn, SentSince(SenderOf(s.log.sizes), t.log.patches, s.revision), t.conn)
  }

  lemma {:induction false} GrowsThrough(a: Log, b: Log, c: Log)
    requires Grows(a, b) && Grows(b, c)
    ensures Grows(a, c)
  {
  }

  function SentSince(of: Sender, patches: seq<seq<Op>>, revision: nat): seq<Message>
    requires revision <= |patches|
  {
    Broadcasts(of, revision, patches[revision..])
  }

  lemma {:induction false} SentThrough(of: Sender, a: seq<seq<Op>>, b: seq<seq<Op>>, c: seq<seq<Op>>)
    requires a <= b <= c
    ensures SentSince(of, c, |a|) == SentSince(of, b, |a|) + SentSince(of, c, |b|)
  {
    var x, y := b[|a|..], c[|b|..];
    assert c[|a|..] == x + y;
    BroadcastsJoin(of, |a|, x, y);
  }

  lemma {:induction false} RelaysOn(s: Room, c: Room, t: Room)
    requires Relays(s, c) && Relays(c, t)
    ensures Relays(s, t)
  {
    var of := SenderOf(s.log.sizes);
    GrowsThrough(s.log, c.log, t.log);
    SentThrough(of, s.log.patches, c.log.patches, t.log.patches);
    SendsOn(s.conn, SentSince(of, c.log.patches, s.revision), c.conn, SentSince(of, t.log.patches, c.revision), t.conn);
  }

  lemma {:induction false} OneSent(of: Sender, patches: seq<seq<Op>>, ops: seq<Op>)
    ensures SentSince(of, patches + [ops], |patches|) == of(|patches|, ops)
  {
    var one := [ops];
    assert (patches + one)[|patches|..] == one && one[1..] == [];
    assert Broadcasts(of, |patches|, one) == of(|patches|, ops) + Broadcasts(of, |patches| + 1, []);
    Joins(of(|patches|, ops), [], []);
  }

  lemma {:induction false} NoneSent(of: Sender, patches: seq<seq<Op>>)
    ensures SentSince(of, patches, |patches|) == []
  {
    assert patches[|patches|..] == [];
  }

  lemma {:induction false} CommitRelays(s: Room, current: Option<Entry>, next: seq<Entry>, ops: seq<Op>, saved: bool, t: Room)
    requires InOrder(s) && Commit(s, current, next, ops, saved).Some?
    requires var c := Commit(s, current, next, ops, saved).value;
      t.log == c.log && t.conn == c.conn && t.revision == c.revision
    ensures Relays(s, t)
  {
    CommitSends(s, current, next, ops, saved);
    OneSent(SenderOf(s.log.sizes), s.log.patches, ops);
  }

  lemma {:induction false} SameRelays(s: Room, t: Room)
    requires InOrder(s) && t.log == s.log && t.conn == s.conn && t.revision == s.revision
    ensures Relays(s, t)
  {
    NoneSent(SenderOf(s.log.sizes), s.log.patches);
    Joins(s.conn.wire, [], []);
  }

  lemma {:induction false} EditRelays(s: Room, edit: Edit)
    requires InOrder(s) && Applies(edit, s.queue) && Edited(s, edit).Some?
    ensures Relays(s, Edited(s, edit).value)
  {
    if edit.Nothing? {
      SameRelays(s, s);
    } else {
      CommitRelays(s, s.playback.current, EditedQueue(s.queue, edit), EditOps(s.queue, edit), true, Edited(s, edit).value);
    }
  }

  lemma {:induction false} AdvanceRelays(s: Room, reason: string, env: Env)
    requires InOrder(s) && AdvanceReady(s, reason, env).Some?
    ensures Relays(s, AdvanceReady(s, reason, env).value)
  {
    var t := AdvanceReady(s, reason, env).value;
    if s.queue == [] {
      SameRelays(s, t);
    } else {
      var skimmed := SkimmedOf(s.queue);
      var rest := s.queue[|skimmed|..];
      TakeOverSameNetwork(Commit(s, Playable(skimmed), rest, RemoveOps(skimmed), env.saved).value, skimmed, reason, env);
      CommitRelays(s, Playable(skimmed), rest, RemoveOps(skimmed), env.saved, t);
    }
  }

  lemma {:induction false} ShapeRelays(s: Room, ev: Event, h: Shape, t: Room)
    requires InOrder(s) && Does(s, ev, h, t) && !ev.Join? && !ev.Leave? && !ev.Sync?
    ensures Relays(s, t)
  {
    SameRelays(s, h.a);
    EditRelays(h.a, h.edit);
    SameRelays(h.b, h.c);
    RelaysOn(s, h.a, h.b);
    RelaysOn(s, h.b, h.c);
    if h.advance.Some? {
      AdvanceRelays(h.c, h.advance.value.reason, h.advance.value.env);
      RelaysOn(s, h.c, t);
    }
  }

  /** Whatever an event commits is sent to whoever is subscribed; who joins or asks for it is
      sent the whole queue; who leaves is sent nothing more. */
  lemma {:induction false} StepSends(s: Room, ev: Event)
    requires Enabled(s, ev) && InOrder(s)
    ensures var t := Step(s, ev).0;
      var parts := Split(SnapshotFits(s.log.sizes, s.revision), WireEntries(s.queue));
      var snapshot := if parts.Success? then SnapshotMessages(s.revision, parts.value) else [];
      match ev
      case Leave => t == s.(conn := Connection(false, [], false, false))
      case Join =>
        t == s.(conn := if s.conn.joined then s.conn.(wire := s.conn.wire + snapshot, based := s.conn.based || parts.Success?)
                        else Connection(true, snapshot, parts.Success?, parts.Success?))
      case Sync =>
        t == if s.conn.joined
             then s.(conn := s.conn.(wire := s.conn.wire + snapshot, based := s.conn.based || parts.Success?)) else s
      case _ => Relays(s, t)
  {
    if ev.Join? || ev.Leave? || ev.Sync? {
      assert s.conn.wire + [] == s.conn.wire;
    } else {
      var h := StepDoes(s, ev);
      ShapeRelays(s, ev, h, Step(s, ev).0);
    }
  }
}
