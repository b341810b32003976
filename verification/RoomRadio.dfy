/** Radio mode: which requested source gets installed, and when an advance that
    waits for a batch is sure to be completed. */
module RoomRadio {
  import opened Wrappers
  import opened QueueWire
  import opened QueuePatch
  import opened RoomPolicy
  import opened RoomModel
  import opened RoomShape

  // ---------- source requests ----------

  function AnswerIds(answers: seq<Answer>): (ids: seq<nat>)
    ensures |ids| == |answers|
    ensures forall i :: 0 <= i < |answers| ==> ids[i] == answers[i].id
  {
    seq(|answers|, i requires 0 <= i < |answers| => answers[i].id)
  }

  function BuildIds(builds: seq<Request>): (ids: seq<nat>)
    ensures |ids| == |builds|
    ensures forall i :: 0 <= i < |builds| ==> ids[i] == builds[i].id
  {
    seq(|builds|, i requires 0 <= i < |builds| => builds[i].id)
  }

  function QueuedId(queued: Option<Request>): multiset<nat> {
    if queued.None? then multiset{} else multiset{queued.value.id}
  }

  /** The ids 1..n, once each. */
  function FirstIds(n: nat): multiset<nat> {
    if n == 0 then multiset{} else FirstIds(n - 1) + multiset{n}
  }

  /** At most one construction runs; a waiting request is the newest, and nobody has
      stopped the radio since. */
  ghost predicate Orderly(src: Sources) {
    && |src.builds| <= 1
    && (src.inFlight <==> |src.builds| == 1)
    && (src.queued.Some? ==>
          && src.inFlight && !src.stopped
          && src.queued.value == Request(src.seqNo, src.desiredSpec) && src.desiredId == src.seqNo
          && src.builds[0].id < src.seqNo)
    && (src.inFlight ==>
          && (src.desiredId == src.builds[0].id <==> src.builds[0].id == src.seqNo && !src.stopped)
          && (src.desiredId == src.builds[0].id ==> src.desiredSpec == src.builds[0].spec)
          && 1 <= src.builds[0].id <= src.seqNo)
  }

  /** Every request ever made is answered, running or waiting. */
  function Requests(answers: seq<Answer>, builds: seq<Request>, queued: Option<Request>): multiset<nat> {
    multiset(AnswerIds(answers)) + multiset(BuildIds(builds)) + QueuedId(queued)
  }

  ghost predicate Arbitrated(src: Sources) {
    Orderly(src) && Requests(src.answers, src.builds, src.queued) == FirstIds(src.seqNo)
  }

  lemma {:induction false} FirstIdsCount(n: nat, id: nat)
    ensures FirstIds(n)[id] == if 1 <= id <= n then 1 else 0
  {
    if n > 0 {
      FirstIdsCount(n - 1, id);
    }
  }

  ghost predicate Outstanding(src: Sources, id: nat) {
    || (exists i :: 0 <= i < |src.builds| && src.builds[i].id == id)
    || (src.queued.Some? && src.queued.value.id == id)
  }

  /** Every request is answered exactly once, unless it is still running or waiting,
      and then not yet. */
  lemma {:induction false} AnsweredOnce(src: Sources, id: nat)
    requires Arbitrated(src) && 1 <= id <= src.seqNo
    ensures multiset(AnswerIds(src.answers))[id] == if Outstanding(src, id) then 0 else 1
  {
    FirstIdsCount(src.seqNo, id);
    if src.inFlight {
      assert BuildIds(src.builds) == [src.builds[0].id];
    } else {
      assert BuildIds(src.builds) == [];
    }
  }

  lemma {:induction false} AnswersSnoc(answers: seq<Answer>, a: Answer)
    ensures multiset(AnswerIds(answers + [a])) == multiset(AnswerIds(answers)) + multiset{a.id}
  {
    assert AnswerIds(answers + [a]) == AnswerIds(answers) + [a.id];
  }

  lemma {:induction false} OneBuild(r: Request)
    ensures multiset(BuildIds([r])) == multiset{r.id} && multiset(BuildIds([])) == multiset{}
  {
    assert BuildIds([r]) == [r.id] && BuildIds([]) == [];
  }

  lemma {:induction false} CancelQueuedIds(src: Sources)
    ensures var t := CancelQueued(src);
      && t == src.(queued := None, answers := t.answers)
      && multiset(AnswerIds(t.answers)) == multiset(AnswerIds(src.answers)) + QueuedId(src.queued)
  {
    if src.queued.Some? {
      AnswersSnoc(src.answers, Answer(src.queued.value.id, Canceled));
    }
  }

  lemma {:induction false} RequestedOrderly(src: Sources, request: Request)
    requires Orderly(src) && request.id == src.seqNo + 1
    ensures Orderly(Requested(src, request)) && Requested(src, request).seqNo == request.id
  {
  }

  lemma {:induction false} RequestedAnswered(src: Sources, request: Request)
    requires Orderly(src)
    ensures var t := Requested(src, request);
      Requests(t.answers, t.builds, t.queued) == Requests(src.answers, src.builds, src.queued) + multiset{request.id}
  {
    if src.inFlight {
      CancelQueuedIds(src.(seqNo := request.id, desiredId := request.id, desiredSpec := request.spec, stopped := false));
    } else {
      OneBuild(request);
      assert src.builds == [] && src.builds + [request] == [request];
    }
  }

  lemma {:induction false} RequestedArbitrated(src: Sources, request: Request)
    requires Arbitrated(src) && request.id == src.seqNo + 1
    ensures Arbitrated(Requested(src, request))
  {
    RequestedOrderly(src, request);
    RequestedAnswered(src, request);
  }

  lemma {:induction false} StopRadioArbitrated(src: Sources)
    requires Arbitrated(src)
    ensures Arbitrated(CancelQueued(src.(desiredId := 0, desiredSpec := "", stopped := true)))
  {
    CancelQueuedIds(src.(desiredId := 0, desiredSpec := "", stopped := true));
  }

  lemma {:induction false} ReportOrderly(src: Sources, radio: Option<Radio>, build: nat, built: bool)
    requires Orderly(src) && build < |src.builds|
    ensures var t := AfterReport(src, radio, build, ReportOutcome(src, src.builds[build], built));
      Orderly(t) && t.seqNo == src.seqNo
  {
    assert src.builds == [src.builds[0]] && RemoveAt(src.builds, build) == [];
  }

  lemma {:induction false} ReportAnswered(src: Sources, radio: Option<Radio>, build: nat, outcome: Outcome)
    requires Orderly(src) && build < |src.builds|
    ensures var t := AfterReport(src, radio, build, outcome);
      Requests(t.answers, t.builds, t.queued) == Requests(src.answers, src.builds, src.queued)
  {
    var id := src.builds[build].id;
    assert src.builds == [src.builds[build]] && RemoveAt(src.builds, build) == [];
    OneBuild(src.builds[build]);
    AnswersSnoc(src.answers, Answer(id, outcome));
    ReportQueue(src, radio, build, outcome);
  }

  lemma {:induction false} ReportQueue(src: Sources, radio: Option<Radio>, build: nat, outcome: Outcome)
    requires build < |src.builds| && RemoveAt(src.builds, build) == []
    ensures var t := AfterReport(src, radio, build, outcome);
      && t.answers == src.answers + [Answer(src.builds[build].id, outcome)]
      && t.queued.None? && multiset(BuildIds(t.builds)) == QueuedId(src.queued)
  {
    assert BuildIds([]) == [];
    if src.queued.Some? {
      OneBuild(src.queued.value);
      assert [] + [src.queued.value] == [src.queued.value];
    }
  }

  /** The one running construction has reported and been answered; whoever waits is next. */
  lemma {:induction false} ReportArbitrated(src: Sources, radio: Option<Radio>, build: nat, built: bool)
    requires Arbitrated(src) && build < |src.builds|
    ensures Arbitrated(AfterReport(src, radio, build, ReportOutcome(src, src.builds[build], built)))
  {
    ReportOrderly(src, radio, build, built);
    ReportAnswered(src, radio, build, ReportOutcome(src, src.builds[build], built));
  }

  lemma {:induction false} InstallRadioShape(s: Room, request: Request)
    ensures var t := InstallRadio(s, request);
      t == s.(radio := Some(Radio(request.id, request.spec)), refilling := t.refilling)
  {
    RefillShape(s.(radio := Some(Radio(request.id, request.spec))), true, "");
    RefillShape(s.(radio := Some(Radio(request.id, request.spec))), false, "");
  }

  ghost predicate Newest(src: Sources, request: Request) {
    request.id == src.seqNo && !src.stopped
  }

  lemma {:induction false} DesiredIsNewest(src: Sources, build: nat)
    requires Arbitrated(src) && build < |src.builds|
    ensures IsDesired(src, src.builds[build]) <==> Newest(src, src.builds[build])
  {
  }

  lemma {:induction false} AfterReportShape(src: Sources, radio: Option<Radio>, build: nat, outcome: Outcome)
    requires build < |src.builds|
    ensures var t := AfterReport(src, radio, build, outcome);
      && t.seqNo == src.seqNo && t.stopped == src.stopped
      && t.answers == src.answers + [Answer(src.builds[build].id, outcome)]
  {
  }

  /** A report installs its source exactly when the construction succeeded, the
      request is still the newest and no stop has come since; then it replaces the
      radio, and otherwise, failed or outdated, the radio in force stays. */
  lemma {:induction false} SourceReportInstallsNewest(s: Room, build: nat, built: bool)
    requires Arbitrated(s.sources) && build < |s.sources.builds|
    ensures var request := s.sources.builds[build];
      var t := StepSourceReport(s, build, built).0;
      var newest := Newest(s.sources, request);
      && t.radio == (if newest && built then Some(Radio(request.id, request.spec)) else s.radio)
      && t.sources.answers == s.sources.answers + [Answer(request.id,
           if !newest then Canceled else if built then Installed else BuildFailed)]
  {
    var request := s.sources.builds[build];
    DesiredIsNewest(s.sources, build);
    AfterReportShape(s.sources, s.radio, build, ReportOutcome(s.sources, request, built));
    InstallRadioShape(s, request);
  }

  // ---------- refilling ----------

  /** At most one batch is being fetched, and nobody waits for one without a radio. */
  ghost predicate Refillable(radio: Option<Radio>, r: Refilling) {
    && |r.fetches| <= 1
    && (r.inFlight <==> |r.fetches| == 1)
    && (r.pendingStart ==> radio.Some?)
    && (forall i :: 0 <= i < |r.fetches| ==> 1 <= r.fetches[i].limit <= 10)
  }

  /** Whoever waits for a batch has one under way. */
  ghost predicate Backed(r: Refilling) { r.pendingStart ==> r.inFlight }

  predicate Full(s: Room) { s.policy.maxQueue > 0 && |s.queue| >= s.policy.maxQueue }

  lemma {:induction false} RefillRefilling(s: Room, pendingStart: bool, reason: string)
    requires Refillable(s.radio, s.refilling) && (pendingStart ==> s.radio.Some?)
    ensures var t := Refill(s, pendingStart, reason);
      && Refillable(t.radio, t.refilling)
      && (t.refilling.pendingStart <==> s.refilling.pendingStart || pendingStart)
      && (t.refilling.inFlight <==> s.refilling.inFlight || (s.radio.Some? && !Full(s)))
      && (s.refilling.inFlight ==> t.refilling.fetches == s.refilling.fetches)
      && (!s.refilling.inFlight && s.radio.Some? && !Full(s) ==> t.refilling.fetches[0].radioId == s.radio.value.id)
  {
  }

  lemma {:induction false} AdvanceReadyRefilling(s: Room, reason: string, env: Env)
    requires Refillable(s.radio, s.refilling) && AdvanceReady(s, reason, env).Some?
    ensures var t := AdvanceReady(s, reason, env).value;
      && Refillable(s.radio, t.refilling) && t.radio == s.radio
      && t.refilling.pendingStart == s.refilling.pendingStart
      && (s.refilling.inFlight ==> t.refilling.inFlight && t.refilling.fetches == s.refilling.fetches)
      && (t.refilling.inFlight && !s.refilling.inFlight ==> t.refilling.fetches[0].radioId == s.radio.value.id)
  {
    AdvanceReadyShape(s, reason, env);
    if s.queue != [] {
      var skimmed := SkimmedOf(s.queue);
      var rest := s.queue[|skimmed|..];
      var a := Commit(s, Playable(skimmed), rest, RemoveOps(skimmed), env.saved).value;
      CommitShape(s, Playable(skimmed), rest, RemoveOps(skimmed), env.saved);
      TakeOverRefilling(a, skimmed, reason, env);
    }
  }

  lemma {:induction false} StartPlayingRefilling(s: Room, next: Entry, now: int)
    requires Refillable(s.radio, s.refilling)
    ensures var t := StartPlaying(s, next, now);
      && Refillable(s.radio, t.refilling)
      && t.refilling.pendingStart == s.refilling.pendingStart
      && (s.refilling.inFlight ==> t.refilling.inFlight && t.refilling.fetches == s.refilling.fetches)
      && (t.refilling.inFlight && !s.refilling.inFlight ==> t.refilling.fetches[0].radioId == s.radio.value.id)
  {
    var c := s.(playback := Playback(Some(next), -StartLeadMs(s.policy), now, true));
    RefillRefilling(c, false, "");
    ScheduleEndShape(if c.radio.Some? && |c.queue| < 3 then Refill(c, false, "") else c, now);
  }

  lemma {:induction false} TakeOverRefilling(s: Room, skimmed: seq<Entry>, reason: string, env: Env)
    requires Refillable(s.radio, s.refilling)
    ensures var t := TakeOver(s, skimmed, reason, env);
      && Refillable(s.radio, t.refilling)
      && t.refilling.pendingStart == s.refilling.pendingStart
      && (s.refilling.inFlight ==> t.refilling.inFlight && t.refilling.fetches == s.refilling.fetches)
      && (t.refilling.inFlight && !s.refilling.inFlight ==> t.refilling.fetches[0].radioId == s.radio.value.id)
  {
    var next := Playable(skimmed);
    if next.Some? {
      var a := Dropped(FinishCurrent(s, reason, env.now), skimmed[..|skimmed| - 1]);
      StartPlayingRefilling(a, WithQuality(next.value, env.quality), env.now);
    }
  }

  /** An advance never leaves anybody waiting without a batch: where it starts to
      wait, the queue is empty and so has room. */
  lemma {:induction false} TryAdvanceRefilling(s: Room, reason: string, env: Env)
    requires Refillable(s.radio, s.refilling)
    ensures var t := TryAdvance(s, reason, env).0;
      && Refillable(t.radio, t.refilling)
      && (Backed(s.refilling) ==> Backed(t.refilling))
      && (s.refilling.pendingStart ==> t.refilling == s.refilling && t.playback == s.playback)
      && t.sources == s.sources
  {
    if s.refilling.pendingStart {
    } else if s.queue == [] && s.radio.Some? {
      RefillShape(s, true, reason);
      RefillRefilling(s, true, reason);
    } else if AdvanceReady(s, reason, env).Some? {
      AdvanceReadyRefilling(s, reason, env);
      AdvanceReadyShape(s, reason, env);
    }
  }

  lemma {:induction false} CompletePendingStartRefilling(s: Room, env: Env)
    requires Refillable(s.radio, s.refilling.(pendingStart := false))
    ensures var t := CompletePendingStart(s, env);
      && Refillable(t.radio, t.refilling) && !t.refilling.pendingStart && t.sources == s.sources
  {
    var a := s.(refilling := s.refilling.(pendingStart := false, pendingReason := ""));
    if s.refilling.pendingStart && AdvanceReady(a, s.refilling.pendingReason, env).Some? {
      AdvanceReadyRefilling(a, s.refilling.pendingReason, env);
      AdvanceReadyShape(a, s.refilling.pendingReason, env);
    }
  }

  lemma {:induction false} AppendRefilling(s: Room, added: seq<Entry>, saved: bool)
    requires Append(s, added, saved).Some?
    ensures var t := Append(s, added, saved).value;
      && t.refilling == s.refilling && t.radio == s.radio && t.sources == s.sources && t.playback == s.playback
  {
    CommitShape(s, s.playback.current, s.queue + added, AddOps(added, |s.queue|), saved);
  }

  /** What an add does to the refilling, once appended as `mid`, with or without an advance. */
  lemma {:induction false} AddedRefilling(s: Room, mid: Room, t: Room, env: Env)
    requires Refillable(s.radio, s.refilling)
    requires mid.refilling == s.refilling && mid.radio == s.radio && mid.sources == s.sources && mid.playback == s.playback
    requires t == mid || t == TryAdvance(mid, "", env).0
    ensures Refillable(t.radio, t.refilling)
    ensures Backed(s.refilling) ==> Backed(t.refilling)
    ensures s.refilling.pendingStart ==> t.refilling == s.refilling && t.playback == s.playback
    ensures t.sources == s.sources
  {
    TryAdvanceRefilling(mid, "", env);
  }

  lemma {:induction false} StepAddRefilling(s: Room, ev: Event)
    requires ev.AddEntries? && Refillable(s.radio, s.refilling)
    ensures var t := StepAdd(s, ev).0;
      && Refillable(t.radio, t.refilling)
      && (Backed(s.refilling) ==> Backed(t.refilling))
      && (s.refilling.pendingStart ==> t.refilling == s.refilling && t.playback == s.playback)
      && t.sources == s.sources
  {
    var mid := StepAddCases(s, ev);
    if mid.Some? {
      AppendRefilling(s, Named(ev.entries, ev.actorName), ev.savedAdd);
      AddedRefilling(s, mid.value, StepAdd(s, ev).0, ev.env);
    }
  }

  /** A report about the radio in force always ends the wait; a report about an
      earlier one starts the wait over, if the queue has room. */
  lemma {:induction false} StepFetchRefilling(s: Room, ev: Event)
    requires ev.FetchReport? && Enabled(s, ev) && Refillable(s.radio, s.refilling)
    ensures var t := StepFetchReport(s, ev).0;
      var inForce := s.radio.Some? && s.radio.value.id == s.refilling.fetches[ev.fetch].radioId;
      && Refillable(t.radio, t.refilling) && t.sources == s.sources
      && (inForce ==> !t.refilling.pendingStart)
      && (!inForce ==> t.refilling.pendingStart == s.refilling.pendingStart)
      && (!inForce && s.refilling.pendingStart ==>
            (t.refilling.inFlight <==> !Full(s))
            && (!Full(s) ==> t.refilling.fetches[0].radioId == s.radio.value.id))
  {
    var fetch := s.refilling.fetches[ev.fetch];
    var a := TakeFetch(s, ev.fetch);
    assert RemoveAt(s.refilling.fetches, ev.fetch) == [];
    assert Refillable(a.radio, a.refilling);
    if a.radio.None? || a.radio.value.id != fetch.radioId {
      if a.radio.Some? {
        RefillRefilling(a, a.refilling.pendingStart, a.refilling.pendingReason);
      }
      StaleFetchShape(a);
    } else {
      var tracks := UsefulTracks(a, fetch.limit, ev.tracks);
      if !ev.failed && tracks != [] && Append(a, tracks, ev.savedAdd).Some? {
        AppendRefilling(a, tracks, ev.savedAdd);
      }
      CompletePendingStartRefilling(Receive(a, fetch.limit, ev), ev.env);
    }
  }

  lemma {:induction false} StepSourceRefilling(s: Room, build: nat, built: bool)
    requires Arbitrated(s.sources) && Refillable(s.radio, s.refilling) && build < |s.sources.builds|
    ensures var t := StepSourceReport(s, build, built).0;
      var request := s.sources.builds[build];
      var installs := built && Newest(s.sources, request);
      && Refillable(t.radio, t.refilling)
      && (!installs ==> t.refilling == s.refilling)
      && (installs && Current(s).None? ==>
            t.refilling.pendingStart && (t.refilling.inFlight <==> s.refilling.inFlight || !Full(s)))
      && (installs && Current(s).Some? ==>
            t.refilling.pendingStart == s.refilling.pendingStart && (s.refilling.inFlight ==> t.refilling.inFlight))
  {
    var request := s.sources.builds[build];
    DesiredIsNewest(s.sources, build);
    var a := s.(radio := Some(Radio(request.id, request.spec)));
    RefillRefilling(a, true, "");
    RefillRefilling(a, false, "");
  }

  // ---------- the events ----------

  /** The two occasions on which the room starts or goes on waiting for a batch that
      nobody fetches: the queue is at its cap when a fresh radio is installed in an
      idle room, or when a batch of an earlier radio comes in. */
  ghost predicate RefillBlocked(s: Room, ev: Event)
    requires Enabled(s, ev)
  {
    match ev
    case SourceReport(build, built) =>
      && built && Newest(s.sources, s.sources.builds[build])
      && Current(s).None? && !s.refilling.inFlight && Full(s)
    case FetchReport(fetch, _, _, _, _, _) =>
      && s.refilling.pendingStart && Full(s)
      && s.radio.Some? && s.radio.value.id != s.refilling.fetches[fetch].radioId
    case _ => false
  }

  ghost predicate Radioed(s: Room) { Arbitrated(s.sources) && Refillable(s.radio, s.refilling) }

  /** Of all other events, none touches the source requests, leaves a wait unbacked, or
      does anything to a room that waits. */
  lemma {:induction false} OthersRefilling(s: Room, ev: Event)
    requires Refillable(s.radio, s.refilling) && Enabled(s, ev)
    requires !ev.PlayRadio? && !ev.StopRadio? && !ev.SourceReport? && !ev.FetchReport?
    ensures var t := Step(s, ev).0;
      && t.sources == s.sources
      && Refillable(t.radio, t.refilling) && (Backed(s.refilling) ==> Backed(t.refilling))
      && (s.refilling.pendingStart ==> t.refilling == s.refilling && t.playback.current == s.playback.current)
  {
    match ev {
      case AddEntries(_, _, _, _, _, _) => StepAddRefilling(s, ev);
      case Skip(env) => TryAdvanceRefilling(s, "skipped", env);
      case TimerEnd(timer, env) =>
        TryAdvanceRefilling(s.(timers := s.timers.(queued := s.timers.queued - {timer})), "finished", env);
      case Unplayable(_, env) => TryAdvanceRefilling(s, "unplayable", env);
      case RemoveEntry(_, _, _, _) => StepEditRefilling(s, ev);
      case MoveEntry(_, _, _) => StepEditRefilling(s, ev);
      case ClearQueue(_) => StepEditRefilling(s, ev);
      case Pause(_) => StepPlaybackUnrecorded(s, ev);
      case Resume(_) => StepPlaybackUnrecorded(s, ev);
      case Seek(_, _) => StepPlaybackUnrecorded(s, ev);
      case TimerFires(_) => StepPlaybackUnrecorded(s, ev);
      case Join =>
      case Leave =>
      case Sync =>
      case SetPolicy(_, _) =>
    }
  }

  lemma {:induction false} StopRadioRefilling(s: Room, env: Env)
    requires Radioed(s)
    ensures var t := StepStopRadio(s, env).0;
      && Radioed(t) && !t.refilling.pendingStart && t.radio.None?
      && t.sources == CancelQueued(s.sources.(desiredId := 0, desiredSpec := "", stopped := true))
  {
    StopRadioArbitrated(s.sources);
    var a := CancelQueued(s.sources.(desiredId := 0, desiredSpec := "", stopped := true));
    var b := s.(sources := a, radio := None);
    CompletePendingStartRefilling(b, env);
    CompletePendingStartRadio(b, env);
  }

  /** Only these three events touch the source requests. */
  lemma {:induction false} StepSources(s: Room, ev: Event)
    requires Radioed(s) && Enabled(s, ev)
    ensures var t := Step(s, ev).0.sources;
      match ev
      case PlayRadio(spec) => t == Requested(s.sources, Request(s.sources.seqNo + 1, spec))
      case StopRadio(_) => t == CancelQueued(s.sources.(desiredId := 0, desiredSpec := "", stopped := true))
      case SourceReport(build, built) =>
        t == AfterReport(s.sources, s.radio, build, ReportOutcome(s.sources, s.sources.builds[build], built))
      case _ => t == s.sources
  {
    match ev {
      case StopRadio(env) => StopRadioRefilling(s, env);
      case SourceReport(build, built) =>
      case PlayRadio(spec) =>
      case FetchReport(_, _, _, _, _, _) => StepFetchRefilling(s, ev);
      case _ => OthersRefilling(s, ev);
    }
  }

  lemma {:induction false} StepArbitrated(s: Room, ev: Event)
    requires Radioed(s) && Enabled(s, ev)
    ensures Arbitrated(Step(s, ev).0.sources)
  {
    StepSources(s, ev);
    match ev {
      case PlayRadio(spec) => RequestedArbitrated(s.sources, Request(s.sources.seqNo + 1, spec));
      case StopRadio(_) => StopRadioArbitrated(s.sources);
      case SourceReport(build, built) => ReportArbitrated(s.sources, s.radio, build, built);
      case _ =>
    }
  }

  /** Every event keeps at most one batch under way, and a wait stays backed by a
      batch exactly when the event is not blocked. */
  lemma {:induction false} StepBacked(s: Room, ev: Event)
    requires Radioed(s) && Enabled(s, ev)
    ensures var t := Step(s, ev).0;
      && Refillable(t.radio, t.refilling)
      && (Backed(s.refilling) ==> (Backed(t.refilling) <==> !RefillBlocked(s, ev)))
  {
    match ev {
      case FetchReport(_, _, _, _, _, _) => StepFetchRefilling(s, ev);
      case SourceReport(build, built) => StepSourceRefilling(s, build, built);
      case StopRadio(env) => StopRadioRefilling(s, env);
      case PlayRadio(_) =>
      case _ => OthersRefilling(s, ev);
    }
  }

  lemma {:induction false} StepEditRefilling(s: Room, ev: Event)
    requires ev.RemoveEntry? || ev.MoveEntry? || ev.ClearQueue?
    requires Enabled(s, ev)
    ensures var t := Step(s, ev).0;
      t.refilling == s.refilling && t.radio == s.radio && t.sources == s.sources && t.playback == s.playback
  {
  }

  /** Once it waits unbacked, the room is stuck: whatever listeners do, no track is
      started or ended and the wait goes on, until the radio is stopped or another
      source is installed. */
  lemma {:induction false} UnbackedIsStuck(s: Room, ev: Event)
    requires Radioed(s) && !Backed(s.refilling) && Enabled(s, ev)
    requires !ev.StopRadio? && !ev.SourceReport?
    ensures var t := Step(s, ev).0;
      !Backed(t.refilling) && t.playback.current == s.playback.current
  {
    match ev {
      case FetchReport(_, _, _, _, _, _) =>
      case PlayRadio(_) =>
      case _ => OthersRefilling(s, ev);
    }
  }

  /** A stop ends radio mode and every wait, cancels whoever waits for a construction, and
      what is under construction will not be installed. */
  lemma {:induction false} StopEndsRadio(s: Room, env: Env)
    requires Radioed(s)
    ensures var t := StepStopRadio(s, env).0;
      && t.radio.None? && !t.refilling.pendingStart && t.sources.queued.None?
      && forall i :: 0 <= i < |t.sources.builds| ==> !IsDesired(t.sources, t.sources.builds[i])
  {
    StopRadioRefilling(s, env);
    var a := StepStopRadio(s, env).0.sources;
    forall i | 0 <= i < |a.builds|
      ensures !IsDesired(a, a.builds[i])
    {
      DesiredIsNewest(a, i);
    }
  }

  lemma {:induction false} CompletePendingStartRadio(s: Room, env: Env)
    ensures CompletePendingStart(s, env).radio == s.radio
  {
    var a := s.(refilling := s.refilling.(pendingStart := false, pendingReason := ""));
    if s.refilling.pendingStart && AdvanceReady(a, s.refilling.pendingReason, env).Some? {
      AdvanceReadyShape(a, s.refilling.pendingReason, env);
    }
  }
}
