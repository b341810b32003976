/** The natural end of a track. A timer is set for it, due exactly when the position
    reaches the duration, and it fires once. What it fires is an advance that may fail
    or have to wait, and nobody sets another timer then. */
module RoomClock {
  import opened Wrappers
  import opened QueueWire
  import opened QueuePatch
  import opened RoomPolicy
  import opened RoomModel
  import opened RoomShape

  /** When the position of a running track is its duration; at once if it has passed. */
  function EndsAt(p: Playback, durationMs: int): int {
    p.updatedAt + if durationMs > p.positionMs then durationMs - p.positionMs else 0
  }

  predicate Playing(p: Playback) { p.current.Some? && p.playing }

  /** While a track plays, the newest timer is its own and due at its end. Only the newest
      can still fire, only for a playing track, and only once. */
  ghost predicate Clocked(p: Playback, timers: Timers) {
    && (Playing(p) ==>
          && timers.seqNo in timers.armed
          && timers.armed[timers.seqNo] == Timer(p.current.value.entryId, EndsAt(p, p.current.value.durationMs)))
    && (timers.running.Some? ==>
          Playing(p) && timers.running == Some(timers.seqNo) && timers.seqNo !in timers.queued)
    && (forall n :: n in timers.queued ==> n in timers.armed && n <= timers.seqNo)
  }

  /** Something will still end the playing track by itself: its timer runs, or has fired
      and its action is to come. */
  predicate Watched(p: Playback, timers: Timers) {
    Playing(p) ==> timers.running.Some? || timers.seqNo in timers.queued
  }

  /** The newest timer has not fired before the end of the track it was set for. */
  predicate NotEarly(p: Playback, timers: Timers, now: int) {
    Playing(p) && timers.seqNo in timers.queued ==> EndsAt(p, p.current.value.durationMs) <= now
  }

  // ---------- setting timers ----------

  lemma {:induction false} ScheduleEndClocked(s: Room, now: int, before: Playback)
    requires Clocked(before, s.timers)
    requires Playing(s.playback) ==> s.playback.current.value.durationMs > 0 && s.playback.updatedAt == now
    ensures Clocked(s.playback, ScheduleEnd(s, now).timers)
    ensures Playing(s.playback) ==> ScheduleEnd(s, now).timers.running.Some?
    ensures !Playing(s.playback) ==> ScheduleEnd(s, now).timers == s.timers.(running := None)
  {
  }

  ghost predicate WellSet(p: Playback, timers: Timers) {
    Clocked(p, timers) && (Playing(p) ==> timers.running.Some?)
  }

  lemma {:induction false} StartPlayingClocked(s: Room, next: Entry, now: int)
    requires next.durationMs > 0 && Clocked(s.playback, s.timers)
    ensures var t := StartPlaying(s, next, now); WellSet(t.playback, t.timers) && t.playback.playing
  {
    var a := s.(playback := Playback(Some(next), -StartLeadMs(s.policy), now, true));
    RefillShape(a, false, "");
    var b := if a.radio.Some? && |a.queue| < 3 then Refill(a, false, "") else a;
    ScheduleEndClocked(b, now, s.playback);
    ScheduleEndShape(b, now);
  }

  /** What an advance has started, if anything, plays with a timer of its own. */
  ghost predicate Restarted(p: Playback, timers: Timers) {
    WellSet(p, timers) && (p.playing <==> p.current.Some?)
  }

  lemma {:induction false} TakeOverClocked(s: Room, skimmed: seq<Entry>, reason: string, env: Env)
    requires Clocked(s.playback, s.timers)
    ensures var t := TakeOver(s, skimmed, reason, env); Restarted(t.playback, t.timers)
  {
    var next := Playable(skimmed);
    if next.Some? {
      var a := Dropped(FinishCurrent(s, reason, env.now), skimmed[..|skimmed| - 1]);
      StartPlayingClocked(a, WithQuality(next.value, env.quality), env.now);
    }
  }

  lemma {:induction false} AdvanceReadyClocked(s: Room, reason: string, env: Env)
    requires AdvanceReady(s, reason, env).Some? && Clocked(s.playback, s.timers)
    ensures var t := AdvanceReady(s, reason, env).value; Restarted(t.playback, t.timers)
  {
    if s.queue != [] {
      var skimmed := SkimmedOf(s.queue);
      var rest := s.queue[|skimmed|..];
      CommitShape(s, Playable(skimmed), rest, RemoveOps(skimmed), env.saved);
      TakeOverClocked(Commit(s, Playable(skimmed), rest, RemoveOps(skimmed), env.saved).value, skimmed, reason, env);
    }
  }

  // ---------- the events ----------

  /** A timer's action is handled once. */
  function Handled(timers: Timers, ev: Event): Timers {
    if ev.TimerEnd? then timers.(queued := timers.queued - {ev.timer}) else timers
  }

  predicate SetsClock(ev: Event) { ev.Pause? || ev.Resume? || ev.Seek? || ev.TimerFires? }

  lemma {:induction false} ShapeClock(s: Room, ev: Event, h: Shape, t: Room)
    requires Does(s, ev, h, t) && !SetsClock(ev)
    ensures h.c.playback == s.playback && h.c.timers == Handled(s.timers, ev)
    ensures h.advance.None? ==> t == h.c
    ensures h.advance.Some? ==> AdvanceReady(h.c, h.advance.value.reason, h.advance.value.env) == Some(t)
  {
    EditedShape(h.a, h.edit);
  }

  lemma {:induction false} StepPauseClocked(s: Room, now: int)
    requires Clocked(s.playback, s.timers)
    ensures var t := StepPause(s, now).0;
      Clocked(t.playback, t.timers) && !Playing(t.playback) && t.timers == s.timers.(running := None)
  {
  }

  lemma {:induction false} StepResumeClocked(s: Room, now: int)
    requires Clocked(s.playback, s.timers) && Timed(s.playback.current, s.timers)
    ensures var t := StepResume(s, now).0;
      if s.playback.current.Some? && !s.playback.playing then WellSet(t.playback, t.timers) && Playing(t.playback)
      else t == s
  {
    if s.playback.current.Some? && !s.playback.playing {
      var a := s.(playback := s.playback.(playing := true, updatedAt := now));
      ScheduleEndClocked(a, now, s.playback);
      ScheduleEndShape(a, now);
    }
  }

  lemma {:induction false} StepSeekClocked(s: Room, posMs: int, now: int)
    requires Clocked(s.playback, s.timers) && Timed(s.playback.current, s.timers)
    ensures var t := StepSeek(s, posMs, now).0;
      && WellSet(t.playback, t.timers)
      && t.playback.current == s.playback.current && t.playback.playing == s.playback.playing
      && (!Playing(s.playback) ==> t.timers == s.timers.(running := None))
  {
    if s.playback.current.Some? {
      var p := ClampSeek(posMs, s.playback.current.value.durationMs);
      var a := s.(playback := s.playback.(positionMs := p, updatedAt := now));
      ScheduleEndClocked(a, now, s.playback);
      ScheduleEndShape(a, now);
    }
  }

  /** How an event that does not advance leaves the clock. */
  ghost predicate Ticks(p: Playback, timers: Timers, ev: Event, q: Playback, after: Timers) {
    match ev
    case Pause(_) => q.current == p.current && !Playing(q) && after == timers.(running := None)
    case Resume(_) =>
      if p.current.Some? && !p.playing then q.current == p.current && Playing(q) && WellSet(q, after)
      else q == p && after == timers
    case Seek(_, _) =>
      && q.current == p.current && q.playing == p.playing && WellSet(q, after)
      && (!Playing(p) ==> after == timers.(running := None))
    case TimerFires(now) =>
      && q == p && timers.running.Some? && timers.seqNo in timers.armed && timers.armed[timers.seqNo].dueAt <= now
      && after == timers.(running := None, queued := timers.queued + {timers.seqNo})
    case _ => q == p && after == Handled(timers, ev)
  }

  lemma {:induction false} SetsTicks(s: Room, ev: Event)
    requires Clocked(s.playback, s.timers) && Timed(s.playback.current, s.timers) && Enabled(s, ev) && SetsClock(ev)
    ensures var t := Step(s, ev).0; Ticks(s.playback, s.timers, ev, t.playback, t.timers)
  {
    match ev {
      case Pause(now) => StepPauseClocked(s, now);
      case Resume(now) => StepResumeClocked(s, now);
      case Seek(posMs, now) => StepSeekClocked(s, posMs, now);
      case TimerFires(_) =>
    }
  }

  lemma {:induction false} SpentClocked(p: Playback, timers: Timers, ev: Event)
    requires Clocked(p, timers)
    ensures Clocked(p, Handled(timers, ev))
  {
  }

  lemma {:induction false} StepTicks(s: Room, ev: Event)
    requires Clocked(s.playback, s.timers) && Timed(s.playback.current, s.timers) && Enabled(s, ev) && NonEmptyAdd(ev)
    ensures var t := Step(s, ev).0;
      if AdvancesOn(s, ev) then Restarted(t.playback, t.timers)
      else Ticks(s.playback, s.timers, ev, t.playback, t.timers)
  {
    if SetsClock(ev) {
      SetsTicks(s, ev);
    } else {
      var h := StepDoes(s, ev);
      ShapeClock(s, ev, h, Step(s, ev).0);
      SpentClocked(s.playback, s.timers, ev);
      if h.advance.Some? {
        AdvanceReadyClocked(h.c, h.advance.value.reason, h.advance.value.env);
      }
    }
  }

  /** The newest timer's action comes, and the track it was set for plays on: the
      advance could not be cut or saved, or waits for a batch. */
  predicate Abandons(s: Room, ev: Event) {
    ev.TimerEnd? && ev.timer == s.timers.seqNo && Playing(s.playback) && !Advancing(s, ev.env)
  }

  /** A pause, a seek, or whatever advances. */
  predicate Rescues(s: Room, ev: Event)
    requires ev.FetchReport? ==> ev.fetch < |s.refilling.fetches|
  {
    ev.Pause? || ev.Seek? || AdvancesOn(s, ev)
  }

  /** Every event keeps the timers in order. It leaves a playing track to itself exactly
      when it abandons it, and a track left to itself is taken care of again exactly by
      what rescues it. */
  lemma {:induction false} StepClocked(s: Room, ev: Event)
    requires Clocked(s.playback, s.timers) && Timed(s.playback.current, s.timers) && Enabled(s, ev) && NonEmptyAdd(ev)
    ensures var t := Step(s, ev).0;
      && Clocked(t.playback, t.timers)
      && (Watched(t.playback, t.timers)
          <==> if Watched(s.playback, s.timers) then !Abandons(s, ev) else Rescues(s, ev))
  {
    StepTicks(s, ev);
  }

  /** A timer never fires early, and nothing makes one that has fired early afterwards. */
  lemma {:induction false} StepNotEarly(s: Room, ev: Event, now: int, later: int)
    requires Clocked(s.playback, s.timers) && Timed(s.playback.current, s.timers) && Enabled(s, ev) && NonEmptyAdd(ev)
    requires NotEarly(s.playback, s.timers, now) && now <= later && (ev.TimerFires? ==> ev.now <= later)
    ensures var t := Step(s, ev).0; NotEarly(t.playback, t.timers, later)
  {
    StepTicks(s, ev);
  }

  // ---------- the timers there have been ----------

  /** No action is lost or made up, and every timer stays what it was set for. */
  ghost predicate KeepsTimers(a: Timers, b: Timers) {
    && b.queued == a.queued && a.seqNo <= b.seqNo
    && forall n :: n in a.armed && n <= a.seqNo ==> n in b.armed && b.armed[n] == a.armed[n]
  }

  /** What an event itself does to the actions to come: a timer fires, or one is handled. */
  function Fired(timers: Timers, ev: Event): Timers {
    if ev.TimerFires? && timers.running.Some? then timers.(queued := timers.queued + {timers.running.value})
    else Handled(timers, ev)
  }

  lemma {:induction false} ScheduleEndKeeps(s: Room, now: int)
    ensures KeepsTimers(s.timers, ScheduleEnd(s, now).timers)
  {
  }

  lemma {:induction false} TakeOverKeeps(s: Room, skimmed: seq<Entry>, reason: string, env: Env)
    ensures KeepsTimers(s.timers, TakeOver(s, skimmed, reason, env).timers)
  {
    var next := Playable(skimmed);
    if next.Some? {
      var a := Dropped(FinishCurrent(s, reason, env.now), skimmed[..|skimmed| - 1]);
      var e := WithQuality(next.value, env.quality);
      var b := a.(playback := Playback(Some(e), -StartLeadMs(a.policy), env.now, true));
      RefillShape(b, false, "");
      ScheduleEndKeeps(if b.radio.Some? && |b.queue| < 3 then Refill(b, false, "") else b, env.now);
    }
  }

  lemma {:induction false} AdvanceReadyKeeps(s: Room, reason: string, env: Env)
    requires AdvanceReady(s, reason, env).Some?
    ensures KeepsTimers(s.timers, AdvanceReady(s, reason, env).value.timers)
  {
    if s.queue != [] {
      var skimmed := SkimmedOf(s.queue);
      var rest := s.queue[|skimmed|..];
      CommitShape(s, Playable(skimmed), rest, RemoveOps(skimmed), env.saved);
      TakeOverKeeps(Commit(s, Playable(skimmed), rest, RemoveOps(skimmed), env.saved).value, skimmed, reason, env);
    }
  }

  lemma {:induction false} SetsKeep(s: Room, ev: Event)
    requires Enabled(s, ev) && SetsClock(ev)
    ensures KeepsTimers(Fired(s.timers, ev), Step(s, ev).0.timers)
  {
    match ev {
      case Resume(now) => ScheduleEndKeeps(s.(playback := s.playback.(playing := true, updatedAt := now)), now);
      case Seek(posMs, now) =>
        if s.playback.current.Some? {
          var p := ClampSeek(posMs, s.playback.current.value.durationMs);
          ScheduleEndKeeps(s.(playback := s.playback.(positionMs := p, updatedAt := now)), now);
        }
      case _ =>
    }
  }

  /** Every event leaves exactly the actions to come that its own firing or handling
      leaves, and all earlier timers as they were. */
  lemma {:induction false} StepKeepsTimers(s: Room, ev: Event)
    requires Enabled(s, ev)
    ensures KeepsTimers(Fired(s.timers, ev), Step(s, ev).0.timers)
  {
    if SetsClock(ev) {
      SetsKeep(s, ev);
    } else {
      var h := StepDoes(s, ev);
      ShapeClock(s, ev, h, Step(s, ev).0);
      if h.advance.Some? {
        AdvanceReadyKeeps(h.c, h.advance.value.reason, h.advance.value.env);
      }
    }
  }

  // ---------- paused tracks ----------

  /** Paused before its timer had fired. */
  predicate Resting(s: Room) {
    s.playback.current.Some? && !s.playback.playing && s.timers.seqNo !in s.timers.queued
  }

  /** A track paused before its timer fired rests until it is resumed or something else
      advances; no timer's action does. */
  lemma {:induction false} StepResting(s: Room, ev: Event)
    requires Clocked(s.playback, s.timers) && Timed(s.playback.current, s.timers) && Enabled(s, ev) && NonEmptyAdd(ev)
    requires Resting(s)
    ensures ev.TimerEnd? ==> !AdvancesOn(s, ev)
    ensures Resting(Step(s, ev).0) <==> !ev.Resume? && !AdvancesOn(s, ev)
  {
    StepTicks(s, ev);
  }

  /** A pause does not call back a timer that has fired: its action can still come, and
      ends the paused track exactly when the advance goes through. */
  lemma {:induction false} PauseKeepsFired(s: Room, now: int, env: Env)
    requires Playing(s.playback) && s.timers.seqNo in s.timers.queued
    ensures var t := StepPause(s, now).0;
      && !Playing(t.playback) && Enabled(t, TimerEnd(t.timers.seqNo, env))
      && (AdvancesOn(t, TimerEnd(t.timers.seqNo, env)) <==> Advancing(s, env))
  {
  }
}
