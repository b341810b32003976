/** The shape of what an event does: perhaps something no restart would notice, then
    perhaps one edit of the pending queue, and then perhaps one advance. */
module RoomShape {
  import opened Wrappers
  import opened QueueWire
  import opened QueueChunking
  import opened QueuePatch
  import opened QueueStore
  import opened RoomPolicy
  import opened RoomModel

  // ---------- the pieces ----------

  /** The current track has a known duration, and the newest timer was set for it. */
  ghost predicate Timed(current: Option<Entry>, timers: Timers) {
    current.Some? ==>
      && current.value.durationMs > 0
      && timers.seqNo in timers.armed
      && timers.armed[timers.seqNo].entryId == current.value.entryId
  }

  lemma {:induction false} CommitShape(s: Room, current: Option<Entry>, next: seq<Entry>, ops: seq<Op>, saved: bool)
    requires Commit(s, current, next, ops, saved).Some?
    ensures var t := Commit(s, current, next, ops, saved).value;
      && t.queue == next && t.playback == s.playback && t.ledger == s.ledger && t.timers == s.timers
      && t.radio == s.radio && t.refilling == s.refilling && t.sources == s.sources && t.policy == s.policy
      && t.stored == Stored(s.stored.images + [Image(current, next)], true)
  {
  }

  lemma {:induction false} RefillShape(s: Room, pendingStart: bool, reason: string)
    ensures Refill(s, pendingStart, reason) == s.(refilling := Refill(s, pendingStart, reason).refilling)
  {
  }

  function Finished(current: Option<Entry>, played: seq<Played>, reason: string, now: int): seq<Played> {
    if current.None? then played else played + [Played(current.value.entryId, reason, now)]
  }

  lemma {:induction false} ScheduleEndShape(s: Room, now: int)
    ensures ScheduleEnd(s, now) == s.(timers := ScheduleEnd(s, now).timers)
    ensures Timed(s.playback.current, s.timers) ==> Timed(s.playback.current, ScheduleEnd(s, now).timers)
    ensures s.playback.playing && s.playback.current.Some? && s.playback.current.value.durationMs > 0 ==>
              Timed(s.playback.current, ScheduleEnd(s, now).timers)
  {
  }

  lemma {:induction false} StartPlayingShape(s: Room, next: Entry, now: int)
    requires next.durationMs > 0
    ensures var t := StartPlaying(s, next, now);
      && t.queue == s.queue && t.ledger == s.ledger && t.stored == s.stored && t.radio == s.radio
      && t.sources == s.sources && t.policy == s.policy
      && t.playback == Playback(Some(next), -StartLeadMs(s.policy), now, true)
      && Timed(Some(next), t.timers)
  {
    var a := s.(playback := Playback(Some(next), -StartLeadMs(s.policy), now, true));
    RefillShape(a, false, "");
    ScheduleEndShape(if a.radio.Some? && |a.queue| < 3 then Refill(a, false, "") else a, now);
  }

  lemma {:induction false} TakeOverShape(s: Room, skimmed: seq<Entry>, reason: string, env: Env)
    ensures var t := TakeOver(s, skimmed, reason, env);
      var next := Playable(skimmed);
      && t.queue == s.queue && t.stored == s.stored && t.radio == s.radio
      && t.sources == s.sources && t.policy == s.policy
      && t.playback.current == (if next.None? then None else Some(WithQuality(next.value, env.quality)))
      && t.ledger == s.ledger.(
           finished := Finished(s.playback.current, s.ledger.finished, reason, env.now),
           dropped := s.ledger.dropped
                      + multiset(Ids(if next.Some? then skimmed[..|skimmed| - 1] else skimmed)))
      && Timed(t.playback.current, t.timers)
  {
    var next := Playable(skimmed);
    if next.Some? {
      var dropped := skimmed[..|skimmed| - 1];
      var a := FinishCurrent(s, reason, env.now);
      var b := Dropped(a, dropped);
      StartPlayingShape(b, WithQuality(next.value, env.quality), env.now);
    }
  }

  function SkimmedOf(q: seq<Entry>): (r: seq<Entry>)
    ensures r <= q
  {
    q[..Skimmed(q, MAX_DROPPED_PER_ADVANCE)]
  }

  /** An advance takes off all up to the first entry of known duration, if that is among
      the first hundred; otherwise the first hundred, or all there are. */
  lemma {:induction false} SkimsToTheFirst(q: seq<Entry>, first: nat)
    requires first <= |q| && (first < |q| ==> q[first].durationMs > 0)
    requires forall i :: 0 <= i < first ==> q[i].durationMs <= 0
    ensures |SkimmedOf(q)| == if first < |q| && first < 100 then first + 1 else if first < 100 then first else 100
  {
  }

  function DroppedOf(skimmed: seq<Entry>): seq<Entry> {
    if Playable(skimmed).Some? then skimmed[..|skimmed| - 1] else skimmed
  }

  function Started(skimmed: seq<Entry>, quality: Option<(int, int)>): Option<Entry> {
    var next := Playable(skimmed);
    if next.None? then None else Some(WithQuality(next.value, quality))
  }

  /** Everything an advance does to the books, with an empty queue or not. */
  lemma {:induction false} AdvanceReadyShape(s: Room, reason: string, env: Env)
    requires AdvanceReady(s, reason, env).Some?
    ensures var t := AdvanceReady(s, reason, env).value;
      var skimmed := SkimmedOf(s.queue);
      var rest := s.queue[|skimmed|..];
      && t.queue == rest
      && t.playback.current == Started(skimmed, env.quality)
      && t.ledger == s.ledger.(
           finished := Finished(s.playback.current, s.ledger.finished, reason, env.now),
           dropped := s.ledger.dropped + multiset(Ids(DroppedOf(skimmed))))
      && t.stored == Stored(s.stored.images + [Image(Playable(skimmed), rest)], true)
      && Timed(t.playback.current, t.timers)
      && t.radio == s.radio && t.sources == s.sources && t.policy == s.policy
  {
    if s.queue != [] {
      var skimmed := SkimmedOf(s.queue);
      var rest := s.queue[|skimmed|..];
      CommitShape(s, Playable(skimmed), rest, RemoveOps(skimmed), env.saved);
      TakeOverShape(Commit(s, Playable(skimmed), rest, RemoveOps(skimmed), env.saved).value, skimmed, reason, env);
    } else {
      assert Ids([]) == [];
      assert s.ledger.dropped + multiset([]) == s.ledger.dropped;
    }
  }


  /** Whether a patch from this revision can be cut into envelopes. */
  predicate Cuttable(sizes: Sizes, revision: nat, ops: seq<Op>) {
    Split(PatchFits(sizes, revision, revision + 1), WireOps(ops)).Success?
  }

  /** Whether an advance from this queue at this revision goes through. */
  predicate CanAdvance(queue: seq<Entry>, revision: nat, sizes: Sizes, env: Env) {
    env.saved && (queue != [] ==> Cuttable(sizes, revision, RemoveOps(SkimmedOf(queue))))
  }

  lemma {:induction false} AdvanceReadyWhen(s: Room, reason: string, env: Env)
    ensures AdvanceReady(s, reason, env).Some? <==> CanAdvance(s.queue, s.revision, s.log.sizes, env)
  {
  }

  // ---------- changes nobody records ----------

  /** The queue, its history, the store and the ledger are as they were, and so is the
      current track, whose timer, if it was its own, still is. */
  ghost predicate Unrecorded(s: Room, t: Room) {
    && t == s.(playback := t.playback, policy := t.policy, radio := t.radio, sources := t.sources,
               refilling := t.refilling, timers := t.timers, conn := t.conn)
    && t.playback.current == s.playback.current
    && (Timed(s.playback.current, s.timers) ==> Timed(t.playback.current, t.timers))
  }

  // ---------- edits ----------

  datatype Edit = Nothing | Appending(added: seq<Entry>) | Removing(at: nat) | Moving(from: nat, to: nat) | Clearing

  predicate Applies(edit: Edit, queue: seq<Entry>) {
    match edit
    case Removing(at) => at < |queue|
    case Moving(from, to) => from < |queue| && to < |queue|
    case _ => true
  }

  function EditedQueue(queue: seq<Entry>, edit: Edit): seq<Entry>
    requires Applies(edit, queue)
  {
    match edit
    case Nothing => queue
    case Appending(added) => queue + added
    case Removing(at) => RemoveAt(queue, at)
    case Moving(from, to) => InsertAt(RemoveAt(queue, from), to, queue[from])
    case Clearing => []
  }

  function EditOps(queue: seq<Entry>, edit: Edit): seq<Op>
    requires Applies(edit, queue)
  {
    match edit
    case Nothing => []
    case Appending(added) => AddOps(added, |queue|)
    case Removing(at) => [Remove(queue[at].entryId)]
    case Moving(from, to) => [Move(queue[from].entryId, to)]
    case Clearing => [Clear]
  }

  function EditedLedger(ledger: Ledger, queue: seq<Entry>, edit: Edit): Ledger
    requires Applies(edit, queue)
  {
    match edit
    case Appending(added) => ledger.(accepted := ledger.accepted + multiset(Ids(added)))
    case Removing(at) => ledger.(removed := ledger.removed + multiset{queue[at].entryId})
    case Clearing => ledger.(removed := ledger.removed + multiset(Ids(queue)))
    case _ => ledger
  }

  /** One commit that keeps the current track. */
  function Edited(s: Room, edit: Edit): Option<Room>
    requires Applies(edit, s.queue)
  {
    if edit.Nothing? then Some(s)
    else
      match Commit(s, s.playback.current, EditedQueue(s.queue, edit), EditOps(s.queue, edit), true)
      case None => None
      case Some(a) => Some(a.(ledger := EditedLedger(a.ledger, s.queue, edit)))
  }

  lemma {:induction false} EditedShape(s: Room, edit: Edit)
    requires Applies(edit, s.queue) && Edited(s, edit).Some?
    ensures var t := Edited(s, edit).value;
      && t == s.(queue := t.queue, revision := t.revision, log := t.log, stored := t.stored, conn := t.conn,
                 ledger := t.ledger)
      && t.queue == EditedQueue(s.queue, edit) && t.log.sizes == s.log.sizes
      && t.revision == s.revision + (if edit.Nothing? then 0 else 1)
      && t.ledger == EditedLedger(s.ledger, s.queue, edit)
      && t.stored == (if edit.Nothing? then s.stored
                      else Stored(s.stored.images + [Image(s.playback.current, t.queue)], true))
  {
  }

  // ---------- shapes ----------

  datatype Cause = Cause(reason: string, env: Env)

  /** Unrecorded to a, by an edit to b, unrecorded to c, and from there perhaps an advance. */
  datatype Shape = Shape(a: Room, edit: Edit, b: Room, c: Room, advance: Option<Cause>)

  ghost predicate Shaped(s: Room, h: Shape, t: Room) {
    && Unrecorded(s, h.a)
    && Applies(h.edit, h.a.queue) && Edited(h.a, h.edit) == Some(h.b)
    && Unrecorded(h.b, h.c)
    && match h.advance
       case None => t == h.c
       case Some(cause) => AdvanceReady(h.c, cause.reason, cause.env) == Some(t)
  }

  /** The batch of entries an event would append. */
  function Batch(s: Room, ev: Event): seq<Entry> {
    match ev
    case AddEntries(entries, _, name, _, _, _) => Named(entries, name)
    case FetchReport(fetch, failed, tracks, _, _, _) =>
      if fetch < |s.refilling.fetches| && !failed then UsefulTracks(s, s.refilling.fetches[fetch].limit, tracks) else []
    case _ => []
  }

  /** The edit an event can make. */
  ghost predicate EditOf(s: Room, ev: Event, edit: Edit) {
    match edit
    case Nothing => true
    case Appending(added) => (ev.AddEntries? || ev.FetchReport?) && added == Batch(s, ev) && (ev.FetchReport? ==> added != [])
                             && (s.policy.maxQueue > 0 ==> |s.queue| + |added| <= s.policy.maxQueue)
    case Removing(_) => ev.RemoveEntry?
    case Moving(_, _) => ev.MoveEntry?
    case Clearing => ev.ClearQueue?
  }

  ghost predicate SameClock(s: Room, t: Room) { t.playback == s.playback && t.timers == s.timers }

  predicate MayAdvance(ev: Event) {
    ev.AddEntries? || ev.Skip? || ev.TimerEnd? || ev.Unplayable? || ev.StopRadio? || ev.FetchReport?
  }

  /** What the other parts of an event leave alone. */
  ghost predicate Framed(s: Room, ev: Event, h: Shape) {
    && (!ev.Join? && !ev.Leave? && !ev.Sync? ==> h.a.conn == s.conn) && h.c.conn == h.b.conn
    && (!ev.SetPolicy? ==> h.a.policy == s.policy) && h.c.policy == h.b.policy
    && (!ev.Pause? && !ev.Resume? && !ev.Seek? && !ev.TimerFires? && !ev.TimerEnd? ==> SameClock(s, h.a))
    && SameClock(h.b, h.c)
    && (h.advance.Some? ==> MayAdvance(ev))
    && (ev.TimerEnd? ==> SameClock(s.(timers := s.timers.(queued := s.timers.queued - {ev.timer})), h.a))
  }

  ghost predicate Does(s: Room, ev: Event, h: Shape, t: Room) {
    Shaped(s, h, t) && EditOf(s, ev, h.edit) && Framed(s, ev, h)
  }

  /** An event that changes nothing has a shape as well. */
  function Still(s: Room): Shape { Shape(s, Nothing, s, s, None) }

  // ---------- the shape of every event ----------

  /** Unrecorded to c, and from there perhaps an advance: a step that only advances, if that. */
  ghost predicate Advances(s: Room, c: Room, advance: Option<Cause>, t: Room) {
    && Unrecorded(s, c) && SameClock(s, c) && c.conn == s.conn && c.policy == s.policy
    && match advance
       case None => t == c
       case Some(cause) => AdvanceReady(c, cause.reason, cause.env) == Some(t)
  }

  /** Whether an advance asked for now would be carried out now: none waits already,
      there is no radio to wait for, and it can be cut and saved. */
  predicate Advancing(s: Room, env: Env) {
    && !s.refilling.pendingStart && (s.queue != [] || s.radio.None?)
    && CanAdvance(s.queue, s.revision, s.log.sizes, env)
  }

  lemma {:induction false} TryAdvanceShape(s: Room, reason: string, env: Env) returns (c: Room, advance: Option<Cause>)
    ensures Advances(s, c, advance, TryAdvance(s, reason, env).0)
    ensures advance.Some? ==> c == s && advance.value == Cause(reason, env)
    ensures advance.Some? <==> Advancing(s, env)
  {
    c, advance := s, None;
    AdvanceReadyWhen(s, reason, env);
    if s.refilling.pendingStart {
    } else if s.queue == [] && s.radio.Some? {
      RefillShape(s, true, reason);
      c := Refill(s, true, reason);
    } else if AdvanceReady(s, reason, env).Some? {
      advance := Some(Cause(reason, env));
    }
  }

  lemma {:induction false} CompletePendingStartShape(s: Room, env: Env) returns (c: Room, advance: Option<Cause>)
    ensures Advances(s, c, advance, CompletePendingStart(s, env))
    ensures advance.Some? ==> advance.value == Cause(s.refilling.pendingReason, env)
    ensures advance.Some? <==> s.refilling.pendingStart && CanAdvance(s.queue, s.revision, s.log.sizes, env)
  {
    c, advance := s, None;
    if s.refilling.pendingStart {
      c := s.(refilling := s.refilling.(pendingStart := false, pendingReason := ""));
      AdvanceReadyWhen(c, s.refilling.pendingReason, env);
      if AdvanceReady(c, s.refilling.pendingReason, env).Some? {
        advance := Some(Cause(s.refilling.pendingReason, env));
      }
    }
  }

  lemma {:induction false} AppendShape(s: Room, added: seq<Entry>, saved: bool)
    ensures Append(s, added, saved).Some? ==> saved && Append(s, added, saved) == Edited(s, Appending(added))
    ensures Append(s, added, saved).Some? <==> saved && Cuttable(s.log.sizes, s.revision, AddOps(added, |s.queue|))
  {
  }

  /** An add is refused, or appends and then, if nothing plays, tries to start. */
  lemma {:induction false} StepAddCases(s: Room, ev: Event) returns (mid: Option<Room>)
    requires ev.AddEntries?
    ensures mid.Some? <==> StepAdd(s, ev).1.Done?
    ensures mid.None? ==> StepAdd(s, ev).0 == s
    ensures mid.Some? ==>
              && mid == Append(s, Named(ev.entries, ev.actorName), ev.savedAdd)
              && (s.policy.maxQueue > 0 ==> |s.queue| + |ev.entries| <= s.policy.maxQueue)
              && StepAdd(s, ev).0
                 == if mid.value.playback.current.None? then TryAdvance(mid.value, "", ev.env).0 else mid.value
  {
    mid := if StepAdd(s, ev).1.Done? then Append(s, Named(ev.entries, ev.actorName), ev.savedAdd) else None;
  }

  /** Cap, quota and save all let the batch through. */
  predicate AddAccepted(s: Room, ev: Event)
    requires ev.AddEntries?
  {
    && (s.policy.maxQueue > 0 ==> |s.queue| + |ev.entries| <= s.policy.maxQueue)
    && (LimitOf(s.policy, ev.keys) > 0 ==>
          CountRequestedBy(s.queue, ev.actorId) + |ev.entries| <= LimitOf(s.policy, ev.keys))
    && ev.savedAdd && Cuttable(s.log.sizes, s.revision, AddOps(Batch(s, ev), |s.queue|))
  }

  lemma {:induction false} AddDoneWhen(s: Room, ev: Event)
    requires ev.AddEntries?
    ensures StepAdd(s, ev).1.Done? <==> AddAccepted(s, ev)
    ensures !StepAdd(s, ev).1.Done? ==> StepAdd(s, ev).0 == s
  {
    AppendShape(s, Batch(s, ev), ev.savedAdd);
  }

  /** Nothing plays or waits, and from the queue with the batch the second save goes through. */
  predicate StartsNext(s: Room, batch: seq<Entry>, env: Env) {
    && s.playback.current.None? && !s.refilling.pendingStart
    && CanAdvance(s.queue + batch, s.revision + 1, s.log.sizes, env)
  }

  /** An accepted add starts a track at once. */
  predicate AddStarts(s: Room, ev: Event)
    requires ev.AddEntries?
  {
    AddAccepted(s, ev) && StartsNext(s, Batch(s, ev), ev.env)
  }

  /** From where an add has appended: perhaps an advance. */
  lemma {:induction false} AfterAdd(mid: Room, env: Env) returns (c: Room, advance: Option<Cause>)
    ensures Advances(mid, c, advance, if mid.playback.current.None? then TryAdvance(mid, "", env).0 else mid)
    ensures advance.Some? ==> advance.value == Cause("", env)
    ensures mid.queue != [] ==>
              (advance.Some? <==> && mid.playback.current.None? && !mid.refilling.pendingStart
                                  && CanAdvance(mid.queue, mid.revision, mid.log.sizes, env))
  {
    c, advance := mid, None;
    if mid.playback.current.None? {
      c, advance := TryAdvanceShape(mid, "", env);
    }
  }

  lemma {:induction false} AddAppends(s: Room, ev: Event) returns (mid: Room)
    requires ev.AddEntries? && AddAccepted(s, ev)
    ensures Edited(s, Appending(Batch(s, ev))) == Some(mid)
    ensures StepAdd(s, ev).0 == if mid.playback.current.None? then TryAdvance(mid, "", ev.env).0 else mid
  {
    AddDoneWhen(s, ev);
    var m := StepAddCases(s, ev);
    AppendShape(s, Batch(s, ev), ev.savedAdd);
    mid := m.value;
  }

  lemma {:induction false} StillDoes(s: Room, ev: Event)
    requires !ev.TimerEnd?
    ensures Does(s, ev, Still(s), s)
  {
  }

  lemma {:induction false} AddShape(s: Room, ev: Event, mid: Room, c: Room, advance: Option<Cause>, t: Room)
    requires ev.AddEntries? && AddAccepted(s, ev) && Edited(s, Appending(Batch(s, ev))) == Some(mid)
    requires Advances(mid, c, advance, t)
    ensures Does(s, ev, Shape(s, Appending(Batch(s, ev)), mid, c, advance), t)
  {
    EditedShape(s, Appending(Batch(s, ev)));
  }

  lemma {:induction false} AddEdited(s: Room, ev: Event, mid: Room)
    requires ev.AddEntries? && Edited(s, Appending(Batch(s, ev))) == Some(mid)
    ensures mid.queue == s.queue + Batch(s, ev) && mid.revision == s.revision + 1 && mid.log.sizes == s.log.sizes
    ensures mid.playback == s.playback && mid.refilling == s.refilling
  {
    EditedShape(s, Appending(Batch(s, ev)));
  }

  lemma {:induction false} AddStartsFrom(s: Room, batch: seq<Entry>, env: Env, mid: Room)
    requires mid.queue == s.queue + batch && mid.revision == s.revision + 1 && mid.log.sizes == s.log.sizes
    requires mid.playback == s.playback && mid.refilling == s.refilling
    ensures StartsNext(s, batch, env) <==> && mid.playback.current.None? && !mid.refilling.pendingStart
                                           && CanAdvance(mid.queue, mid.revision, mid.log.sizes, env)
  {
  }

  lemma {:induction false} GrownNonEmpty(s: Room, ev: Event, queue: seq<Entry>)
    requires ev.AddEntries? && queue == s.queue + Batch(s, ev) && ev.entries != []
    ensures queue != []
  {
    assert |queue| == |s.queue| + |ev.entries|;
  }

  lemma {:induction false} StepAddDoes(s: Room, ev: Event) returns (h: Shape)
    requires ev.AddEntries?
    ensures Does(s, ev, h, StepAdd(s, ev).0)
    ensures if AddAccepted(s, ev) then h.edit.Appending? else h.edit.Nothing?
    ensures ev.entries != [] ==> (h.advance.Some? <==> AddStarts(s, ev))
    ensures h.advance.Some? ==> h.advance.value == Cause("", ev.env)
  {
    if AddAccepted(s, ev) {
      var mid := AddAppends(s, ev);
      var c, advance := AfterAdd(mid, ev.env);
      AddEdited(s, ev, mid);
      if ev.entries != [] {
        GrownNonEmpty(s, ev, mid.queue);
      }
      AddStartsFrom(s, Batch(s, ev), ev.env, mid);
      h := Shape(s, Appending(Batch(s, ev)), mid, c, advance);
      AddShape(s, ev, mid, c, advance, StepAdd(s, ev).0);
    } else {
      AddDoneWhen(s, ev);
      StillDoes(s, ev);
      h := Still(s);
    }
  }

  /** An event that is one edit, or nothing. */
  lemma {:induction false} EditDoes(s: Room, ev: Event, edit: Edit, t: Room)
    requires !ev.TimerEnd? && EditOf(s, ev, edit) && Applies(edit, s.queue) && Edited(s, edit) == Some(t)
    ensures Does(s, ev, Shape(s, edit, t, t, None), t)
  {
  }

  /** The entry is pending, the listener may take it, and that can be cut and saved. */
  predicate RemoveAccepted(s: Room, ev: Event)
    requires ev.RemoveEntry?
  {
    var i := Find(s.queue, ev.entryId);
    && i >= 0 && (ev.removeAny || s.queue[i].requestedBy == ev.actorId)
    && ev.saved && Cuttable(s.log.sizes, s.revision, [Remove(s.queue[i].entryId)])
  }

  /** The entry is pending, the place is one in the queue, and that can be cut and saved. */
  predicate MoveAccepted(s: Room, ev: Event)
    requires ev.MoveEntry?
  {
    var i := Find(s.queue, ev.entryId);
    && 0 <= ev.toIndex < |s.queue| && i >= 0
    && ev.saved && Cuttable(s.log.sizes, s.revision, [Move(s.queue[i].entryId, ev.toIndex)])
  }

  predicate ClearAccepted(s: Room, saved: bool) {
    saved && Cuttable(s.log.sizes, s.revision, [Clear])
  }

  lemma {:induction false} RemoveEdits(s: Room, ev: Event) returns (edit: Edit)
    requires ev.RemoveEntry?
    ensures StepRemove(s, ev).1.Done? <==> RemoveAccepted(s, ev)
    ensures edit == if RemoveAccepted(s, ev) then Removing(Find(s.queue, ev.entryId)) else Nothing
    ensures EditOf(s, ev, edit) && Applies(edit, s.queue) && Edited(s, edit) == Some(StepRemove(s, ev).0)
  {
    edit := if StepRemove(s, ev).1.Done? then Removing(Find(s.queue, ev.entryId)) else Nothing;
  }

  lemma {:induction false} MoveEdits(s: Room, ev: Event) returns (edit: Edit)
    requires ev.MoveEntry?
    ensures StepMove(s, ev).1.Done? <==> MoveAccepted(s, ev)
    ensures edit == if MoveAccepted(s, ev) then Moving(Find(s.queue, ev.entryId), ev.toIndex) else Nothing
    ensures EditOf(s, ev, edit) && Applies(edit, s.queue) && Edited(s, edit) == Some(StepMove(s, ev).0)
  {
    edit := if StepMove(s, ev).1.Done? then Moving(Find(s.queue, ev.entryId), ev.toIndex) else Nothing;
  }

  lemma {:induction false} ClearEdits(s: Room, saved: bool) returns (edit: Edit)
    ensures StepClear(s, saved).1.Done? <==> ClearAccepted(s, saved)
    ensures edit == if ClearAccepted(s, saved) then Clearing else Nothing
    ensures EditOf(s, ClearQueue(saved), edit) && Applies(edit, s.queue)
    ensures Edited(s, edit) == Some(StepClear(s, saved).0)
  {
    edit := if StepClear(s, saved).1.Done? then Clearing else Nothing;
  }

  lemma {:induction false} StaleFetchShape(s: Room)
    ensures StaleFetch(s) == s.(refilling := StaleFetch(s).refilling)
  {
    RefillShape(s, s.refilling.pendingStart, s.refilling.pendingReason);
  }

  lemma {:induction false} ReceiveShape(s: Room, limit: int, ev: Event) returns (edit: Edit, b: Room)
    requires ev.FetchReport?
    ensures var tracks := UsefulTracks(s, limit, ev.tracks);
      && edit == (if !ev.failed && tracks != [] && ev.savedAdd
                     && Cuttable(s.log.sizes, s.revision, AddOps(tracks, |s.queue|)) then Appending(tracks) else Nothing)
      && Edited(s, edit) == Some(b)
      && Receive(s, limit, ev) == b.(radio := Receive(s, limit, ev).radio)
  {
    var tracks := UsefulTracks(s, limit, ev.tracks);
    AppendShape(s, tracks, ev.savedAdd);
    edit := if !ev.failed && tracks != [] && Append(s, tracks, ev.savedAdd).Some? then Appending(tracks) else Nothing;
    b := Edited(s, edit).value;
  }

  /** The fetch was for the radio that is now playing. */
  predicate InForce(s: Room, fetch: nat)
    requires fetch < |s.refilling.fetches|
  {
    s.radio.Some? && s.radio.value.id == s.refilling.fetches[fetch].radioId
  }

  /** The radio in force delivered something useful and it can be saved. */
  predicate BatchAccepted(s: Room, ev: Event)
    requires ev.FetchReport? && ev.fetch < |s.refilling.fetches|
  {
    && InForce(s, ev.fetch) && Batch(s, ev) != []
    && ev.savedAdd && Cuttable(s.log.sizes, s.revision, AddOps(Batch(s, ev), |s.queue|))
  }

  /** Somebody waits, and an advance from the queue with what was accepted goes through. */
  predicate EndsWait(s: Room, accepted: bool, batch: seq<Entry>, env: Env) {
    && s.refilling.pendingStart
    && if accepted then CanAdvance(s.queue + batch, s.revision + 1, s.log.sizes, env)
       else CanAdvance(s.queue, s.revision, s.log.sizes, env)
  }

  /** A batch from the radio in force ends the wait for it with an advance that goes
      through, from the queue with what was accepted of the batch. */
  predicate FetchStarts(s: Room, ev: Event)
    requires ev.FetchReport? && ev.fetch < |s.refilling.fetches|
  {
    && InForce(s, ev.fetch)
    && EndsWait(s, BatchAccepted(s, ev), Batch(s, ev), ev.env)
  }

  lemma {:induction false} FetchShape(s: Room, ev: Event, edit: Edit, b: Room, d: Room, c: Room,
                                      advance: Option<Cause>, t: Room)
    requires ev.FetchReport? && Enabled(s, ev) && InForce(s, ev.fetch)
    requires edit == if BatchAccepted(s, ev) then Appending(Batch(s, ev)) else Nothing
    requires Edited(TakeFetch(s, ev.fetch), edit) == Some(b)
    requires d == b.(radio := d.radio) && Advances(d, c, advance, t)
    ensures Does(s, ev, Shape(TakeFetch(s, ev.fetch), edit, b, c, advance), t)
  {
    EditedShape(TakeFetch(s, ev.fetch), edit);
  }

  /** The queue and revision an advance after a batch starts from. */
  lemma {:induction false} FetchEdited(s: Room, ev: Event, edit: Edit, b: Room)
    requires ev.FetchReport? && Enabled(s, ev)
    requires edit == if BatchAccepted(s, ev) then Appending(Batch(s, ev)) else Nothing
    requires Edited(TakeFetch(s, ev.fetch), edit) == Some(b)
    ensures b.queue == (if BatchAccepted(s, ev) then s.queue + Batch(s, ev) else s.queue)
    ensures b.revision == (if BatchAccepted(s, ev) then s.revision + 1 else s.revision)
    ensures b.log.sizes == s.log.sizes && b.refilling.pendingStart == s.refilling.pendingStart
    ensures b.refilling.pendingReason == s.refilling.pendingReason
  {
    EditedShape(TakeFetch(s, ev.fetch), edit);
  }

  lemma {:induction false} EndsWaitFrom(s: Room, accepted: bool, batch: seq<Entry>, env: Env, b: Room)
    requires b.queue == if accepted then s.queue + batch else s.queue
    requires b.revision == if accepted then s.revision + 1 else s.revision
    requires b.log.sizes == s.log.sizes && b.refilling.pendingStart == s.refilling.pendingStart
    ensures EndsWait(s, accepted, batch, env)
        <==> b.refilling.pendingStart && CanAdvance(b.queue, b.revision, b.log.sizes, env)
  {
  }

  lemma {:induction false} FetchInForceDoes(s: Room, ev: Event, d: Room, t: Room) returns (h: Shape)
    requires ev.FetchReport? && Enabled(s, ev) && InForce(s, ev.fetch)
    requires d == Receive(TakeFetch(s, ev.fetch), s.refilling.fetches[ev.fetch].limit, ev)
    requires t == CompletePendingStart(d, ev.env)
    ensures Does(s, ev, h, t)
    ensures if BatchAccepted(s, ev) then h.edit.Appending? else h.edit.Nothing?
    ensures h.advance.Some? <==> FetchStarts(s, ev)
    ensures h.advance.Some? ==> h.advance.value == Cause(s.refilling.pendingReason, ev.env)
  {
    var edit, b := ReceiveShape(TakeFetch(s, ev.fetch), s.refilling.fetches[ev.fetch].limit, ev);
    var c, advance := CompletePendingStartShape(d, ev.env);
    FetchEdited(s, ev, edit, b);
    EndsWaitFrom(s, BatchAccepted(s, ev), Batch(s, ev), ev.env, b);
    FetchShape(s, ev, edit, b, d, c, advance, t);
    h := Shape(TakeFetch(s, ev.fetch), edit, b, c, advance);
  }

  lemma {:induction false} StepFetchDoes(s: Room, ev: Event) returns (h: Shape)
    requires ev.FetchReport? && Enabled(s, ev)
    ensures Does(s, ev, h, StepFetchReport(s, ev).0)
    ensures if BatchAccepted(s, ev) then h.edit.Appending? else h.edit.Nothing?
    ensures h.advance.Some? <==> FetchStarts(s, ev)
    ensures h.advance.Some? ==> h.advance.value == Cause(s.refilling.pendingReason, ev.env)
  {
    var a, t := TakeFetch(s, ev.fetch), StepFetchReport(s, ev).0;
    if InForce(s, ev.fetch) {
      h := FetchInForceDoes(s, ev, Receive(a, s.refilling.fetches[ev.fetch].limit, ev), t);
    } else {
      StaleFetchShape(a);
      h := Still(t);
    }
  }

  lemma {:induction false} StepSourceReportShape(s: Room, build: nat, built: bool)
    requires build < |s.sources.builds|
    ensures var t := StepSourceReport(s, build, built).0;
      t == s.(radio := t.radio, sources := t.sources, refilling := t.refilling)
  {
    var a := s.(radio := Some(Radio(s.sources.builds[build].id, s.sources.builds[build].spec)));
    RefillShape(a, true, "");
    RefillShape(a, false, "");
  }

  lemma {:induction false} StepPlaybackUnrecorded(s: Room, ev: Event)
    requires ev.Pause? || ev.Resume? || ev.Seek? || ev.TimerFires?
    requires Enabled(s, ev)
    ensures var t := Step(s, ev).0; Unrecorded(s, t) && t == s.(playback := t.playback, timers := t.timers)
  {
    match ev {
      case Resume(now) => ScheduleEndShape(s.(playback := s.playback.(playing := true, updatedAt := now)), now);
      case Seek(posMs, now) =>
        if s.playback.current.Some? {
          var p := ClampSeek(posMs, s.playback.current.value.durationMs);
          ScheduleEndShape(s.(playback := s.playback.(positionMs := p, updatedAt := now)), now);
        }
      case _ =>
    }
  }

  lemma {:induction false} StepSkipDoes(s: Room, env: Env) returns (h: Shape)
    ensures Does(s, Skip(env), h, TryAdvance(s, "skipped", env).0)
    ensures h.edit.Nothing?
    ensures h.advance.Some? ==> h.advance.value == Cause("skipped", env)
    ensures h.advance.Some? <==> Advancing(s, env)
  {
    var c, advance := TryAdvanceShape(s, "skipped", env);
    h := Shape(s, Nothing, s, c, advance);
  }

  lemma {:induction false} StepTimerEndDoes(s: Room, timer: nat, env: Env) returns (h: Shape)
    ensures Does(s, TimerEnd(timer, env), h, StepTimerEnd(s, timer, env).0)
    ensures h.advance.Some? ==> h.advance.value == Cause("finished", env)
    ensures h.advance.Some? <==> timer == s.timers.seqNo && Advancing(s, env)
    ensures h.edit.Nothing?
  {
    var a := s.(timers := s.timers.(queued := s.timers.queued - {timer}));
    var c, advance := a, None;
    if timer == s.timers.seqNo {
      c, advance := TryAdvanceShape(a, "finished", env);
    }
    h := Shape(a, Nothing, a, c, advance);
  }

  lemma {:induction false} StepUnplayableDoes(s: Room, ref: string, env: Env) returns (h: Shape)
    ensures Does(s, Unplayable(ref, env), h, StepUnplayable(s, ref, env).0)
    ensures h.edit.Nothing?
    ensures h.advance.Some? ==> h.advance.value == Cause("unplayable", env)
    ensures h.advance.Some? <==>
              s.playback.current.Some? && s.playback.current.value.trackRef == ref && Advancing(s, env)
  {
    var c, advance := s, None;
    if s.playback.current.Some? && s.playback.current.value.trackRef == ref {
      c, advance := TryAdvanceShape(s, "unplayable", env);
    }
    h := Shape(s, Nothing, s, c, advance);
  }

  lemma {:induction false} StepStopDoes(s: Room, env: Env) returns (h: Shape)
    ensures Does(s, StopRadio(env), h, StepStopRadio(s, env).0)
    ensures h.edit.Nothing?
    ensures h.advance.Some? <==> s.refilling.pendingStart && CanAdvance(s.queue, s.revision, s.log.sizes, env)
    ensures h.advance.Some? ==> h.advance.value == Cause(s.refilling.pendingReason, env)
  {
    var src := CancelQueued(s.sources.(desiredId := 0, desiredSpec := "", stopped := true));
    var a := s.(sources := src, radio := None);
    var c, advance := CompletePendingStartShape(a, env);
    h := Shape(a, Nothing, a, c, advance);
  }

  /** Whether an event carries out an advance, told by the guards in its way. */
  predicate AdvancesOn(s: Room, ev: Event)
    requires ev.FetchReport? ==> ev.fetch < |s.refilling.fetches|
  {
    match ev
    case AddEntries(_, _, _, _, _, _) => AddStarts(s, ev)
    case Skip(env) => Advancing(s, env)
    case TimerEnd(timer, env) => timer == s.timers.seqNo && Advancing(s, env)
    case Unplayable(ref, env) =>
      s.playback.current.Some? && s.playback.current.value.trackRef == ref && Advancing(s, env)
    case StopRadio(env) => s.refilling.pendingStart && CanAdvance(s.queue, s.revision, s.log.sizes, env)
    case FetchReport(_, _, _, _, _, _) => FetchStarts(s, ev)
    case _ => false
  }

  /** Why an event would advance, and how the outside turns out for that. */
  function CauseOf(s: Room, ev: Event): Cause
    requires MayAdvance(ev)
  {
    match ev
    case AddEntries(_, _, _, _, _, env) => Cause("", env)
    case Skip(env) => Cause("skipped", env)
    case TimerEnd(_, env) => Cause("finished", env)
    case Unplayable(_, env) => Cause("unplayable", env)
    case StopRadio(env) => Cause(s.refilling.pendingReason, env)
    case FetchReport(_, _, _, _, _, env) => Cause(s.refilling.pendingReason, env)
  }

  /** Whether an event appends its batch. */
  predicate Appends(s: Room, ev: Event)
    requires ev.FetchReport? ==> ev.fetch < |s.refilling.fetches|
  {
    (ev.AddEntries? && AddAccepted(s, ev)) || (ev.FetchReport? && BatchAccepted(s, ev))
  }

  /** The edit an event makes, told by the guards in its way. */
  function EditBy(s: Room, ev: Event): Edit
    requires ev.FetchReport? ==> ev.fetch < |s.refilling.fetches|
  {
    match ev
    case AddEntries(_, _, _, _, _, _) => if AddAccepted(s, ev) then Appending(Batch(s, ev)) else Nothing
    case FetchReport(_, _, _, _, _, _) => if BatchAccepted(s, ev) then Appending(Batch(s, ev)) else Nothing
    case RemoveEntry(_, _, _, _) => if RemoveAccepted(s, ev) then Removing(Find(s.queue, ev.entryId)) else Nothing
    case MoveEntry(_, toIndex, _) =>
      if MoveAccepted(s, ev) then Moving(Find(s.queue, ev.entryId), toIndex) else Nothing
    case ClearQueue(saved) => if ClearAccepted(s, saved) then Clearing else Nothing
    case _ => Nothing
  }

  /** A batch of at least one entry, as every caller hands over. */
  ghost predicate NonEmptyAdd(ev: Event) { ev.AddEntries? ==> ev.entries != [] }

  lemma {:induction false} StepAdvancerDoes(s: Room, ev: Event) returns (h: Shape)
    requires Enabled(s, ev) && MayAdvance(ev)
    ensures NonEmptyAdd(ev) ==> (h.advance.Some? <==> AdvancesOn(s, ev))
    ensures h.advance.Some? ==> MayAdvance(ev) && h.advance.value == CauseOf(s, ev)
    ensures h.edit.Appending? <==> Appends(s, ev)
    ensures h.edit == EditBy(s, ev)
    ensures Does(s, ev, h, Step(s, ev).0)
  {
    match ev {
      case AddEntries(_, _, _, _, _, _) => h := StepAddDoes(s, ev);
      case Skip(env) => h := StepSkipDoes(s, env);
      case TimerEnd(timer, env) => h := StepTimerEndDoes(s, timer, env);
      case Unplayable(ref, env) => h := StepUnplayableDoes(s, ref, env);
      case StopRadio(env) => h := StepStopDoes(s, env);
      case FetchReport(_, _, _, _, _, _) => h := StepFetchDoes(s, ev);
    }
  }

  lemma {:induction false} StepEditDoes(s: Room, ev: Event) returns (h: Shape)
    requires ev.RemoveEntry? || ev.MoveEntry? || ev.ClearQueue?
    requires Enabled(s, ev)
    ensures h.edit == EditBy(s, ev) && h.advance.None?
    ensures Does(s, ev, h, Step(s, ev).0)
  {
    var t := Step(s, ev).0;
    var edit := Nothing;
    match ev {
      case RemoveEntry(_, _, _, _) => edit := RemoveEdits(s, ev);
      case MoveEntry(_, _, _) => edit := MoveEdits(s, ev);
      case ClearQueue(saved) => edit := ClearEdits(s, saved);
    }
    EditDoes(s, ev, edit, t);
    h := Shape(s, edit, t, t, None);
  }

  lemma {:induction false} StepUnrecordedDoes(s: Room, ev: Event)
    requires !MayAdvance(ev) && !ev.RemoveEntry? && !ev.MoveEntry? && !ev.ClearQueue?
    requires Enabled(s, ev)
    ensures Does(s, ev, Still(Step(s, ev).0), Step(s, ev).0)
  {
    match ev {
      case SourceReport(build, built) => StepSourceReportShape(s, build, built);
      case PlayRadio(_) =>
      case SetPolicy(_, _) =>
      case Join =>
      case Leave =>
      case Sync =>
      case _ => StepPlaybackUnrecorded(s, ev);
    }
  }

  /** Every event has such a shape, and it is known beforehand which edit it makes,
      whether it advances, and why. */
  lemma {:induction false} StepDoes(s: Room, ev: Event) returns (h: Shape)
    requires Enabled(s, ev)
    ensures NonEmptyAdd(ev) ==> (h.advance.Some? <==> AdvancesOn(s, ev))
    ensures h.advance.Some? ==> MayAdvance(ev) && h.advance.value == CauseOf(s, ev)
    ensures h.edit.Appending? <==> Appends(s, ev)
    ensures h.edit == EditBy(s, ev)
    ensures Does(s, ev, h, Step(s, ev).0)
  {
    if MayAdvance(ev) {
      h := StepAdvancerDoes(s, ev);
    } else if ev.RemoveEntry? || ev.MoveEntry? || ev.ClearQueue? {
      h := StepEditDoes(s, ev);
    } else {
      StepUnrecordedDoes(s, ev);
      h := Still(Step(s, ev).0);
    }
  }
}
