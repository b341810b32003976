/** What a single event can and cannot do: memory never runs ahead of the store, a
    track ends exactly once and only for its own timer, and the queue stays within
    its cap. */
module RoomGuarantees {
  import opened Wrappers
  import opened QueueWire
  import opened QueuePatch
  import opened QueueStore
  import opened RoomPolicy
  import opened RoomModel
  import opened RoomShape
  import opened RoomBooks

  // ---------- saving before believing ----------

  /** What a restart should find. */
  function Pair(s: Room): (Option<Entry>, seq<Entry>) {
    (PersistedCurrent(s.playback.current), PersistedAll(s.queue))
  }

  /** Nothing a listener could notice, in memory or in the store. */
  ghost predicate Untouched(s: Room, t: Room) {
    && t.queue == s.queue && t.revision == s.revision && t.log == s.log && t.conn == s.conn
    && t.playback.current == s.playback.current && t.ledger == s.ledger && t.stored == s.stored
  }

  /** One transaction took the store from the one state to the other. */
  ghost predicate OneCommit(s: Room, t: Room) {
    && |t.stored.images| == |s.stored.images| + 1
    && s.stored.images < t.stored.images
    && t.stored.settled
    && Decode(t.stored.images[|s.stored.images|]) == Pair(t)
  }

  /** The store is as it was, and so is what a restart should find. */
  ghost predicate NoCommit(s: Room, t: Room) { t.stored == s.stored && Pair(t) == Pair(s) }

  lemma {:induction false} EditedCommits(s: Room, edit: Edit)
    requires Applies(edit, s.queue) && Edited(s, edit).Some? && Books(Edited(s, edit).value)
    ensures var t := Edited(s, edit).value; if edit.Nothing? then NoCommit(s, t) else OneCommit(s, t)
  {
    EditedShape(s, edit);
  }

  lemma {:induction false} AdvanceReadyCommits(s: Room, reason: string, env: Env)
    requires Books(s) && AdvanceReady(s, reason, env).Some?
    ensures OneCommit(s, AdvanceReady(s, reason, env).value)
  {
    AdvanceReadyShape(s, reason, env);
    AdvanceReadyBooks(s, reason, env);
  }

  /** The stages of an event and its commits: one for an edit, and one for an advance. */
  lemma {:induction false} ShapeCommits(s: Room, ev: Event, h: Shape, t: Room)
    requires Books(s) && Fresh(s, ev) && Does(s, ev, h, t)
    ensures if h.edit.Nothing? then NoCommit(s, h.c) else OneCommit(s, h.c)
    ensures if h.advance.None? then NoCommit(h.c, t) else OneCommit(h.c, t)
    ensures Books(h.c) && Books(t)
  {
    ShapeBooks(s, ev, h, t);
    EditedCommits(h.a, h.edit);
    if h.advance.Some? {
      AdvanceReadyCommits(h.c, h.advance.value.reason, h.advance.value.env);
    }
  }

  /** An event commits twice when it appends and then advances: an accepted add to a
      room where nothing plays or waits, and an accepted batch that somebody waits for,
      if then the second save goes through as well. */
  predicate CommitsTwice(s: Room, ev: Event)
    requires ev.FetchReport? ==> ev.fetch < |s.refilling.fetches|
  {
    Appends(s, ev) && AdvancesOn(s, ev)
  }

  /** No other edit is followed by an advance. */
  lemma {:induction false} OtherwiseOnce(s: Room, ev: Event, h: Shape, t: Room)
    requires Does(s, ev, h, t) && !h.edit.Appending?
    ensures h.edit.Nothing? || h.advance.None?
  {
  }

  lemma {:induction false} TwiceShape(s: Room, ev: Event) returns (h: Shape)
    requires Enabled(s, ev) && Fresh(s, ev)
    ensures Does(s, ev, h, Step(s, ev).0)
    ensures CommitsTwice(s, ev) <==> !h.edit.Nothing? && h.advance.Some?
    ensures CommitsTwice(s, ev) ==> h.edit.Appending?
  {
    h := StepDoes(s, ev);
    if !h.edit.Appending? {
      OtherwiseOnce(s, ev, h, Step(s, ev).0);
    }
  }

  /** No event saves more than twice, and it is known beforehand which ones do. */
  lemma {:induction false} StepCommits(s: Room, ev: Event)
    requires Books(s) && Enabled(s, ev) && Fresh(s, ev)
    ensures var t := Step(s, ev).0;
      && s.stored.images <= t.stored.images && |t.stored.images| <= |s.stored.images| + 2
      && (|t.stored.images| == |s.stored.images| + 2 <==> CommitsTwice(s, ev))
  {
    var h := TwiceShape(s, ev);
    ShapeCommits(s, ev, h, Step(s, ev).0);
  }

  /** What the store holds between the two commits: the old current track, and the new
      entries pending. */
  function Between(s: Room, ev: Event): (Option<Entry>, seq<Entry>) {
    (PersistedCurrent(s.playback.current), PersistedAll(s.queue + Batch(s, ev)))
  }

  lemma {:induction false} ShapeFound(s: Room, h: Shape, t: Room, k: nat)
    requires s.stored.images != [] && Decode(s.stored.images[|s.stored.images| - 1]) == Pair(s)
    requires if h.edit.Nothing? then NoCommit(s, h.c) else OneCommit(s, h.c)
    requires if h.advance.None? then NoCommit(h.c, t) else OneCommit(h.c, t)
    requires |s.stored.images| - 1 <= k < |t.stored.images|
    ensures Decode(t.stored.images[k])
         == if k == |s.stored.images| - 1 then Pair(s)
            else if !h.edit.Nothing? && h.advance.Some? && k == |s.stored.images| then Pair(h.c)
            else Pair(t)
  {
    if k < |h.c.stored.images| {
      assert t.stored.images[k] == h.c.stored.images[k];
    }
  }

  /** What a crash in the middle of an event should leave once the store has had k + 1
      contents: the pair before the event, the pair after it, or, if the event commits
      twice, the old current track with the batch pending. */
  ghost function Left(s: Room, ev: Event, k: int): (Option<Entry>, seq<Entry>)
    requires Enabled(s, ev)
  {
    if k == |s.stored.images| - 1 then Pair(s)
    else if CommitsTwice(s, ev) && k == |s.stored.images| then Between(s, ev)
    else Pair(Step(s, ev).0)
  }

  /** A crash at any point of any event leaves the store with what a moment of that
      event had. */
  lemma {:induction false} CrashSafe(s: Room, ev: Event, k: nat)
    requires Books(s) && s.stored.settled && Enabled(s, ev) && Fresh(s, ev)
    requires |s.stored.images| - 1 <= k < |Step(s, ev).0.stored.images|
    ensures Decode(Step(s, ev).0.stored.images[k]) == Left(s, ev, k)
  {
    var t := Step(s, ev).0;
    var h := TwiceShape(s, ev);
    ShapeCommits(s, ev, h, t);
    ShapeFound(s, h, t, k);
    if CommitsTwice(s, ev) {
      BetweenShape(s, ev, h, t);
    }
  }

  lemma {:induction false} BetweenShape(s: Room, ev: Event, h: Shape, t: Room)
    requires Does(s, ev, h, t) && h.edit.Appending?
    ensures Pair(h.c) == Between(s, ev)
  {
    EditedShape(h.a, h.edit);
  }

  /** The advance that follows takes at least one entry off the queue. */
  lemma {:induction false} TwiceShortens(s: Room, ev: Event)
    requires Enabled(s, ev) && Fresh(s, ev) && CommitsTwice(s, ev)
    ensures |Step(s, ev).0.queue| < |s.queue + Batch(s, ev)| && Batch(s, ev) != []
  {
    var h := TwiceShape(s, ev);
    EditedShape(h.a, h.edit);
    AdvanceReadyShape(h.c, h.advance.value.reason, h.advance.value.env);
  }

  /** A crash leaves the state before the event or the state after it, unless it comes
      just between the two commits of an event that commits twice; what it leaves then
      is neither. */
  lemma {:induction false} CrashIsBeforeOrAfterUnlessBetween(s: Room, ev: Event, k: nat)
    requires Books(s) && s.stored.settled && Enabled(s, ev) && Fresh(s, ev)
    requires |s.stored.images| - 1 <= k < |Step(s, ev).0.stored.images|
    ensures var t := Step(s, ev).0;
      (Decode(t.stored.images[k]) == Pair(s) || Decode(t.stored.images[k]) == Pair(t))
      <==> !(CommitsTwice(s, ev) && k == |s.stored.images|)
  {
    CrashSafe(s, ev, k);
    if CommitsTwice(s, ev) {
      TwiceShortens(s, ev);
      assert |Between(s, ev).1| == |s.queue + Batch(s, ev)|;
      assert |Pair(s).1| == |s.queue| && |Pair(Step(s, ev).0).1| == |Step(s, ev).0.queue|;
    }
  }

  lemma {:induction false} StillShape(s: Room, ev: Event, h: Shape, t: Room)
    requires Does(s, ev, h, t) && h.edit.Nothing? && h.advance.None?
    ensures Untouched(s, t) || ((ev.Join? || ev.Leave? || ev.Sync?) && Unrecorded(s, t))
  {
  }

  lemma {:induction false} StillConnection(s: Room, ev: Event)
    requires ev.Join? || ev.Leave? || ev.Sync?
    ensures Step(s, ev).0 == s.(conn := Step(s, ev).0.conn)
  {
  }

  /** When nothing was saved nothing changed: no entry moved and no message went out,
      except snapshots to the connection. */
  lemma {:induction false} UnsavedUnchanged(s: Room, ev: Event)
    requires Books(s) && Enabled(s, ev) && Fresh(s, ev)
    requires |Step(s, ev).0.stored.images| == |s.stored.images|
    ensures var t := Step(s, ev).0;
      Untouched(s, t) || ((ev.Join? || ev.Leave? || ev.Sync?) && t == s.(conn := t.conn))
  {
    if ev.Join? || ev.Leave? || ev.Sync? {
      StillConnection(s, ev);
    } else {
      var h := StepDoes(s, ev);
      ShapeCommits(s, ev, h, Step(s, ev).0);
      StillShape(s, ev, h, Step(s, ev).0);
    }
  }

  /** The batch is appended whole, some of it perhaps already taken off again; or nothing changes. */
  ghost predicate Whole(s: Room, added: seq<Entry>, t: Room, done: bool) {
    if done then
      && t.ledger.accepted == s.ledger.accepted + multiset(Ids(added))
      && |t.queue| <= |s.queue + added| && t.queue == (s.queue + added)[|s.queue + added| - |t.queue|..]
    else t == s
  }

  /** A batch is accepted exactly when cap, quota and store let it through, and then
      whole: some of it may already have been taken off by an advance. Otherwise
      nothing changes. */
  lemma {:induction false} AddIsWhole(s: Room, ev: Event)
    requires ev.AddEntries?
    ensures StepAdd(s, ev).1.Done? <==> AddAccepted(s, ev)
    ensures Whole(s, Named(ev.entries, ev.actorName), StepAdd(s, ev).0, AddAccepted(s, ev))
  {
    AddDoneWhen(s, ev);
    if AddAccepted(s, ev) {
      var h := StepAddDoes(s, ev);
      AppendedWhole(s, ev, h, StepAdd(s, ev).0);
    }
  }

  lemma {:induction false} AppendedShape(s: Room, ev: Event, h: Shape, t: Room)
    requires ev.AddEntries? && Does(s, ev, h, t) && h.edit.Appending?
    ensures var added := Named(ev.entries, ev.actorName);
      h.c.queue == s.queue + added && h.c.ledger.accepted == s.ledger.accepted + multiset(Ids(added))
    ensures if h.advance.None? then t == h.c
            else AdvanceReady(h.c, h.advance.value.reason, h.advance.value.env) == Some(t)
  {
    EditedShape(h.a, h.edit);
  }

  lemma {:induction false} AdvancedWhole(s: Room, added: seq<Entry>, c: Room, reason: string, env: Env)
    requires c.queue == s.queue + added && c.ledger.accepted == s.ledger.accepted + multiset(Ids(added))
    requires AdvanceReady(c, reason, env).Some?
    ensures Whole(s, added, AdvanceReady(c, reason, env).value, true)
  {
    AdvanceReadyShape(c, reason, env);
  }

  lemma {:induction false} AppendedWhole(s: Room, ev: Event, h: Shape, t: Room)
    requires ev.AddEntries? && Does(s, ev, h, t) && h.edit.Appending?
    ensures Whole(s, Named(ev.entries, ev.actorName), t, true)
  {
    AppendedShape(s, ev, h, t);
    if h.advance.Some? {
      AdvancedWhole(s, Named(ev.entries, ev.actorName), h.c, h.advance.value.reason, h.advance.value.env);
    }
  }

  // ---------- ends of tracks ----------

  /** Either the track goes on, or it is recorded once and is no longer current. */
  ghost predicate EndsOnce(s: Room, t: Room) {
    if t.ledger.finished == s.ledger.finished then
      s.playback.current.Some? ==> t.playback.current == s.playback.current
    else
      && s.playback.current.Some?
      && |t.ledger.finished| == |s.ledger.finished| + 1
      && s.ledger.finished < t.ledger.finished
      && t.ledger.finished[|s.ledger.finished|].entryId == s.playback.current.value.entryId
      && (t.playback.current.Some? ==> t.playback.current.value.entryId != s.playback.current.value.entryId)
  }

  lemma {:induction false} NextIsAnother(current: Entry, queue: seq<Entry>, quality: Option<(int, int)>)
    requires Unique(Line(Some(current), queue))
    ensures var next := Started(SkimmedOf(queue), quality);
      next.Some? ==> next.value.entryId != current.entryId
  {
    var skimmed := SkimmedOf(queue);
    if Playable(skimmed).Some? {
      var line := Line(Some(current), queue);
      assert line[0] == current;
      assert line[|skimmed|] == skimmed[|skimmed| - 1];
    }
  }

  lemma {:induction false} AdvanceReadyEndsOnce(s: Room, reason: string, env: Env)
    requires Books(s) && AdvanceReady(s, reason, env).Some?
    ensures var t := AdvanceReady(s, reason, env).value;
      EndsOnce(s, t) && t.ledger.finished == Finished(s.playback.current, s.ledger.finished, reason, env.now)
  {
    AdvanceReadyShape(s, reason, env);
    BooksUnique(s);
    if s.playback.current.Some? {
      NextIsAnother(s.playback.current.value, s.queue, env.quality);
    }
  }

  /** Up to the advance the current track goes on, and then the advance decides. */
  lemma {:induction false} ShapeCurrent(s: Room, ev: Event, h: Shape, t: Room)
    requires Does(s, ev, h, t)
    ensures h.c.playback.current == s.playback.current && h.c.ledger.finished == s.ledger.finished
    ensures if h.advance.None? then t == h.c
            else AdvanceReady(h.c, h.advance.value.reason, h.advance.value.env) == Some(t)
  {
    EditedShape(h.a, h.edit);
  }

  lemma {:induction false} ShapeEndsOnce(s: Room, ev: Event, h: Shape, t: Room)
    requires Books(s) && Fresh(s, ev) && Does(s, ev, h, t)
    ensures EndsOnce(s, t)
    ensures t.ledger.finished
         == if h.advance.None? then s.ledger.finished
            else Finished(s.playback.current, s.ledger.finished, h.advance.value.reason, h.advance.value.env.now)
  {
    ShapeBooks(s, ev, h, t);
    ShapeCurrent(s, ev, h, t);
    if h.advance.Some? {
      AdvanceReadyEndsOnce(h.c, h.advance.value.reason, h.advance.value.env);
    }
  }

  /** A track that is current ends with an event exactly when the event advances, and is
      recorded with the event's reason and instant. */
  lemma {:induction false} StepEndsOnce(s: Room, ev: Event)
    requires Books(s) && Enabled(s, ev) && Fresh(s, ev)
    ensures var t := Step(s, ev).0;
      && EndsOnce(s, t)
      && t.ledger.finished
         == (if AdvancesOn(s, ev)
             then Finished(s.playback.current, s.ledger.finished, CauseOf(s, ev).reason, CauseOf(s, ev).env.now)
             else s.ledger.finished)
  {
    var h := StepDoes(s, ev);
    ShapeEndsOnce(s, ev, h, Step(s, ev).0);
  }

  lemma {:induction false} SkipEndsAsSkipped(s: Room, env: Env)
    requires Books(s)
    ensures var t := TryAdvance(s, "skipped", env).0;
      t.ledger.finished == s.ledger.finished
      || t.ledger.finished == Finished(s.playback.current, s.ledger.finished, "skipped", env.now)
  {
    var h := StepSkipDoes(s, env);
    ShapeEndsOnce(s, Skip(env), h, TryAdvance(s, "skipped", env).0);
  }

  /** A timer's action, however late it comes, ends no track but the one the timer
      was set for, and that one as finished. */
  lemma {:induction false} TimerEndsItsOwn(s: Room, timer: nat, env: Env)
    requires Books(s) && timer in s.timers.armed
    ensures var t := StepTimerEnd(s, timer, env).0;
      t.ledger.finished != s.ledger.finished ==>
        && s.playback.current.Some? && s.playback.current.value.entryId == s.timers.armed[timer].entryId
        && t.ledger.finished == Finished(s.playback.current, s.ledger.finished, "finished", env.now)
  {
    var h := StepTimerEndDoes(s, timer, env);
    ShapeEndsOnce(s, TimerEnd(timer, env), h, StepTimerEnd(s, timer, env).0);
  }

  /** A report that a track cannot be played ends that track or none, and as such. */
  lemma {:induction false} UnplayableEndsItsOwn(s: Room, ref: string, env: Env)
    requires Books(s)
    ensures var t := StepUnplayable(s, ref, env).0;
      t.ledger.finished != s.ledger.finished ==>
        && s.playback.current.Some? && s.playback.current.value.trackRef == ref
        && t.ledger.finished == Finished(s.playback.current, s.ledger.finished, "unplayable", env.now)
  {
    var h := StepUnplayableDoes(s, ref, env);
    ShapeEndsOnce(s, Unplayable(ref, env), h, StepUnplayable(s, ref, env).0);
  }

  // ---------- edits ----------

  /** A removal takes out one entry, the listener's own unless it may take any, and
      leaves all others in their order. */
  lemma {:induction false} RemoveTakesOneOut(s: Room, ev: Event)
    requires ev.RemoveEntry? && StepRemove(s, ev).1.Done?
    ensures exists i: nat :: i < |s.queue| && TakenOut(s.queue, ev, i, StepRemove(s, ev).0.queue)
  {
    assert TakenOut(s.queue, ev, Find(s.queue, ev.entryId), StepRemove(s, ev).0.queue);
  }

  ghost predicate TakenOut(q: seq<Entry>, ev: Event, i: nat, next: seq<Entry>)
    requires ev.RemoveEntry? && i < |q|
  {
    && q[i].entryId == ev.entryId && (ev.removeAny || q[i].requestedBy == ev.actorId)
    && next == q[..i] + q[i + 1..]
  }

  /** A move puts the entry where it was asked to be and leaves all others in their order. */
  lemma {:induction false} MovePlacesOne(s: Room, ev: Event)
    requires ev.MoveEntry? && StepMove(s, ev).1.Done?
    ensures var q := StepMove(s, ev).0.queue;
      && |q| == |s.queue| && 0 <= ev.toIndex < |q| && q[ev.toIndex].entryId == ev.entryId
      && (exists i: nat ::
            i < |s.queue| && q[ev.toIndex] == s.queue[i] && RemoveAt(q, ev.toIndex) == RemoveAt(s.queue, i))
  {
    var i: nat := Find(s.queue, ev.entryId);
    MoveResult(s, ev);
    MovedBack(s.queue, i, ev.toIndex);
  }

  lemma {:induction false} MoveResult(s: Room, ev: Event)
    requires ev.MoveEntry? && StepMove(s, ev).1.Done?
    ensures 0 <= ev.toIndex < |s.queue| && Find(s.queue, ev.entryId) >= 0
    ensures var i := Find(s.queue, ev.entryId);
      StepMove(s, ev).0.queue == InsertAt(RemoveAt(s.queue, i), ev.toIndex, s.queue[i])
  {
  }

  lemma {:induction false} MovedBack(q: seq<Entry>, i: nat, to: nat)
    requires i < |q| && to < |q|
    ensures var moved := InsertAt(RemoveAt(q, i), to, q[i]);
      |moved| == |q| && moved[to] == q[i] && RemoveAt(moved, to) == RemoveAt(q, i)
  {
  }

  lemma {:induction false} CountConcat(a: seq<Entry>, b: seq<Entry>, id: string)
    ensures CountRequestedBy(a + b, id) == CountRequestedBy(a, id) + CountRequestedBy(b, id)
    decreases |a|
  {
    if a == [] {
      assert a + b == b;
    } else {
      assert (a + b)[1..] == a[1..] + b;
      CountConcat(a[1..], b, id);
    }
  }

  lemma {:induction false} CountAtMost(q: seq<Entry>, id: string)
    ensures CountRequestedBy(q, id) <= |q|
  {
    if q != [] {
      CountAtMost(q[1..], id);
    }
  }

  lemma {:induction false} CountSuffix(q: seq<Entry>, k: nat, id: string)
    requires k <= |q|
    ensures CountRequestedBy(q[k..], id) <= CountRequestedBy(q, id)
  {
    assert q == q[..k] + q[k..];
    CountConcat(q[..k], q[k..], id);
  }

  /** What an event leaves of the queue: the edited queue, or what an advance leaves of it. */
  lemma {:induction false} ShapeQueue(s: Room, ev: Event, h: Shape, t: Room)
    requires Does(s, ev, h, t)
    ensures Applies(h.edit, s.queue)
    ensures var all := EditedQueue(s.queue, h.edit); |t.queue| <= |all| && t.queue == all[|all| - |t.queue|..]
  {
    EditedShape(h.a, h.edit);
    if h.advance.Some? {
      AdvanceReadyShape(h.c, h.advance.value.reason, h.advance.value.env);
    }
  }

  lemma {:induction false} QuotaOf(queue: seq<Entry>, added: seq<Entry>, left: seq<Entry>, id: string, limit: int)
    requires CountRequestedBy(queue, id) + |added| <= limit
    requires |left| <= |queue + added| && left == (queue + added)[|queue + added| - |left|..]
    ensures CountRequestedBy(left, id) <= limit
  {
    CountConcat(queue, added, id);
    CountAtMost(added, id);
    CountSuffix(queue + added, |queue + added| - |left|, id);
  }

  /** An accepted batch leaves whoever added it with no more pending entries than the
      policy in force allows it. */
  lemma {:induction false} QuotaHolds(s: Room, ev: Event)
    requires ev.AddEntries? && StepAdd(s, ev).1.Done? && LimitOf(s.policy, ev.keys) > 0
    ensures CountRequestedBy(StepAdd(s, ev).0.queue, ev.actorId) <= LimitOf(s.policy, ev.keys)
  {
    AddIsWhole(s, ev);
    QuotaOf(s.queue, Named(ev.entries, ev.actorName), StepAdd(s, ev).0.queue, ev.actorId, LimitOf(s.policy, ev.keys));
  }

  // ---------- the cap ----------

  /** No event makes the queue longer than its cap: it grows only within the cap in
      force, whoever adds. */
  lemma {:induction false} StepKeepsCap(s: Room, ev: Event)
    requires Enabled(s, ev) && s.policy.maxQueue > 0
    ensures var t := Step(s, ev).0; |t.queue| <= |s.queue| || |t.queue| <= s.policy.maxQueue
  {
    var h := StepDoes(s, ev);
    ShapeQueue(s, ev, h, Step(s, ev).0);
  }
}
