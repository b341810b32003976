/** What the room does to the player that ticks: every event is at most one command to
    it, known beforehand, and over any run the room's lazy position is that player's. */
module RoomTimeline {
  import opened Wrappers
  import opened QueueWire
  import opened QueuePatch
  import opened RoomPolicy
  import opened RoomModel
  import opened RoomShape
  import opened RoomClock
  import opened RoomRuns
  import Timeline

  /** The queue an advance takes off from. */
  function QueueThen(s: Room, ev: Event): seq<Entry>
    requires ev.FetchReport? ==> ev.fetch < |s.refilling.fetches|
  {
    if Appends(s, ev) then s.queue + Batch(s, ev) else s.queue
  }

  /** An advance starts the first entry of known duration, or stops the player. */
  function Opening(next: Option<Entry>, policy: Policy): Timeline.Command {
    if next.None? then Timeline.Stop else Timeline.Start(next.value, StartLeadMs(policy))
  }

  /** The command an event gives, told by its guards. */
  function CommandOf(s: Room, ev: Event): (cs: seq<Timeline.Timed>)
    requires ev.FetchReport? ==> ev.fetch < |s.refilling.fetches|
    ensures |cs| <= 1
  {
    if ev.Pause? then [Timeline.Timed(ev.now, Timeline.Pause)]
    else if ev.Resume? then [Timeline.Timed(ev.now, Timeline.Resume)]
    else if ev.Seek? then [Timeline.Timed(ev.now, Timeline.Seek(ev.posMs))]
    else if MayAdvance(ev) && AdvancesOn(s, ev) then
      var env := CauseOf(s, ev).env;
      [Timeline.Timed(env.now, Opening(Started(SkimmedOf(QueueThen(s, ev)), env.quality), s.policy))]
    else []
  }

  lemma {:induction false} TakeOverNotes(s: Room, skimmed: seq<Entry>, reason: string, env: Env)
    ensures TakeOver(s, skimmed, reason, env).playback
         == Timeline.Note(s.playback, Opening(Started(skimmed, env.quality), s.policy), env.now)
  {
    var next := Playable(skimmed);
    if next.Some? {
      var a := Dropped(FinishCurrent(s, reason, env.now), skimmed[..|skimmed| - 1]);
      StartPlayingShape(a, WithQuality(next.value, env.quality), env.now);
    }
  }

  lemma {:induction false} AdvanceNotes(s: Room, reason: string, env: Env)
    requires AdvanceReady(s, reason, env).Some?
    ensures AdvanceReady(s, reason, env).value.playback
         == Timeline.Note(s.playback, Opening(Started(SkimmedOf(s.queue), env.quality), s.policy), env.now)
  {
    if s.queue != [] {
      var skimmed := SkimmedOf(s.queue);
      var rest := s.queue[|skimmed|..];
      CommitShape(s, Playable(skimmed), rest, RemoveOps(skimmed), env.saved);
      TakeOverNotes(Commit(s, Playable(skimmed), rest, RemoveOps(skimmed), env.saved).value, skimmed, reason, env);
    }
  }

  lemma {:induction false} ShapeQueueThen(s: Room, ev: Event, h: Shape, t: Room)
    requires Does(s, ev, h, t) && MayAdvance(ev) && Enabled(s, ev) && (h.edit.Appending? <==> Appends(s, ev))
    ensures h.c.queue == QueueThen(s, ev) && h.c.policy == s.policy
  {
    EditedShape(h.a, h.edit);
  }

  lemma {:induction false} OneCommand(p: Playback, c: Timeline.Timed)
    ensures Timeline.Noted(p, [c]) == Timeline.Note(p, c.command, c.at)
  {
  }

  lemma {:induction false} SetsNoted(s: Room, ev: Event)
    requires SetsClock(ev) && Enabled(s, ev)
    ensures Step(s, ev).0.playback == Timeline.Noted(s.playback, CommandOf(s, ev))
  {
    if CommandOf(s, ev) != [] {
      OneCommand(s.playback, CommandOf(s, ev)[0]);
    }
  }

  /** Every event does to the room's timeline what its command, if any, does to it. */
  lemma {:induction false} StepNoted(s: Room, ev: Event)
    requires Enabled(s, ev) && NonEmptyAdd(ev)
    ensures Step(s, ev).0.playback == Timeline.Noted(s.playback, CommandOf(s, ev))
  {
    if SetsClock(ev) {
      SetsNoted(s, ev);
    } else {
      var t := Step(s, ev).0;
      var h := StepDoes(s, ev);
      ShapeClock(s, ev, h, t);
      if h.advance.Some? {
        ShapeQueueThen(s, ev, h, t);
        AdvanceNotes(h.c, h.advance.value.reason, h.advance.value.env);
        OneCommand(s.playback, CommandOf(s, ev)[0]);
      }
    }
  }

  // ---------- over runs ----------

  /** The commands of a run, in order. */
  ghost function Commands(w: World, run: seq<Action>): seq<Timeline.Timed>
    requires Runs(w, run)
    decreases |run|
  {
    if run == [] then []
    else (if run[0].Happens? then CommandOf(w.room, run[0].event) else []) + Commands(Next(w, run[0]), run[1..])
  }

  lemma {:induction false} NotedConcat(p: Playback, a: seq<Timeline.Timed>, b: seq<Timeline.Timed>)
    ensures Timeline.Noted(p, a + b) == Timeline.Noted(Timeline.Noted(p, a), b)
    decreases |a|
  {
    if a == [] {
      assert a + b == b;
    } else {
      assert (a + b)[1..] == a[1..] + b;
      NotedConcat(Timeline.Note(p, a[0].command, a[0].at), a[1..], b);
    }
  }

  lemma {:induction false} RunNoted(w: World, run: seq<Action>)
    requires Runs(w, run)
    ensures After(w, run).room.playback == Timeline.Noted(w.room.playback, Commands(w, run))
    decreases |run|
  {
    if run != [] {
      var first := if run[0].Happens? then CommandOf(w.room, run[0].event) else [];
      if run[0].Happens? {
        StepNoted(w.room, run[0].event);
      }
      NotedConcat(w.room.playback, first, Commands(Next(w, run[0]), run[1..]));
      RunNoted(Next(w, run[0]), run[1..]);
    }
  }

  /** Over any run whose clock does not go back, at every later instant, the room's lazy
      timeline shows the position of a player that was given the run's commands and has
      counted every millisecond. */
  lemma {:induction false} RoomIsTicking(w: World, run: seq<Action>, player: Timeline.Player, from: int, now: int)
    requires Runs(w, run) && Timeline.Shows(w.room.playback, player, from)
    requires Timeline.InOrder(Commands(w, run), from) && from <= now
    requires Commands(w, run) != [] ==> Commands(w, run)[|Commands(w, run)| - 1].at <= now
    ensures Timeline.Shows(After(w, run).room.playback, Timeline.Played(player, Commands(w, run), from, now), now)
  {
    RunNoted(w, run);
    Timeline.LazyIsTicking(w.room.playback, player, Commands(w, run), from, now);
  }
}
