/** The room's lazy timeline: a position, when it was written down, and whether it
    runs. It is a player that counts every millisecond, read from afar. */
module Timeline {
  import opened Wrappers
  import opened QueueWire
  import opened RoomModel

  // ---------- the player that ticks ----------

  datatype Player = Player(current: Option<Entry>, positionMs: int, playing: bool)

  function Tick(p: Player): Player {
    if p.playing then p.(positionMs := p.positionMs + 1) else p
  }

  function TickMany(p: Player, ms: nat): Player
    decreases ms
  {
    if ms == 0 then p else TickMany(Tick(p), ms - 1)
  }

  lemma {:induction false} TickManyAdds(p: Player, ms: nat)
    ensures TickMany(p, ms) == if p.playing then p.(positionMs := p.positionMs + ms) else p
    decreases ms
  {
    if ms > 0 {
      TickManyAdds(Tick(p), ms - 1);
    }
  }

  // ---------- commands ----------

  datatype Command =
    | Start(entry: Entry, leadMs: int)
    | Pause
    | Resume
    | Seek(posMs: int)
    | Stop

  datatype Timed = Timed(at: int, command: Command)

  /** What the commands do to a player at the moment they come. */
  function Obey(p: Player, c: Command): Player {
    match c
    case Start(entry, leadMs) => Player(Some(entry), -leadMs, true)
    case Pause => if p.current.None? then p else p.(playing := false)
    case Resume => if p.current.None? then p else p.(playing := true)
    case Seek(posMs) => if p.current.None? then p else p.(positionMs := ClampSeek(posMs, p.current.value.durationMs))
    case Stop => Player(None, 0, false)
  }

  /** The same as the room keeps it: nothing is counted, only written down. */
  function Note(p: Playback, c: Command, now: int): Playback {
    match c
    case Start(entry, leadMs) => Playback(Some(entry), -leadMs, now, true)
    case Pause =>
      if p.current.None? || !p.playing then p
      else p.(positionMs := Position(p, now), playing := false, updatedAt := now)
    case Resume => if p.current.None? || p.playing then p else p.(playing := true, updatedAt := now)
    case Seek(posMs) =>
      if p.current.None? then p
      else p.(positionMs := ClampSeek(posMs, p.current.value.durationMs), updatedAt := now)
    case Stop => IDLE
  }

  // ---------- refinement ----------

  ghost predicate InOrder(cs: seq<Timed>, from: int)
    decreases |cs|
  {
    cs != [] ==> from <= cs[0].at && InOrder(cs[1..], cs[0].at)
  }

  /** The player that ticks from `from` to the end, obeying on the way. */
  function Played(p: Player, cs: seq<Timed>, from: int, now: int): Player
    decreases |cs|
  {
    if cs == [] then TickMany(p, if from <= now then now - from else 0)
    else
      var ticked := TickMany(p, if from <= cs[0].at then cs[0].at - from else 0);
      Played(Obey(ticked, cs[0].command), cs[1..], cs[0].at, now)
  }

  function Noted(p: Playback, cs: seq<Timed>): Playback
    decreases |cs|
  {
    if cs == [] then p else Noted(Note(p, cs[0].command, cs[0].at), cs[1..])
  }

  ghost predicate Shows(p: Playback, player: Player, now: int) {
    p.current == player.current && p.playing == player.playing && Position(p, now) == player.positionMs
  }

  lemma {:induction false} ShowsLater(p: Playback, player: Player, now: int, ms: nat)
    requires Shows(p, player, now)
    ensures Shows(p, TickMany(player, ms), now + ms)
  {
    TickManyAdds(player, ms);
  }

  /** After any commands in order, at every later instant, the room's timeline shows
      the position of a player that has counted every millisecond. */
  lemma {:induction false} LazyIsTicking(p: Playback, player: Player, cs: seq<Timed>, from: int, now: int)
    requires Shows(p, player, from) && InOrder(cs, from)
    requires from <= now && (cs != [] ==> cs[|cs| - 1].at <= now)
    ensures Shows(Noted(p, cs), Played(player, cs, from, now), now)
    decreases |cs|
  {
    if cs == [] {
      ShowsLater(p, player, from, now - from);
    } else {
      var c := cs[0];
      LastLast(cs, from);
      ShowsLater(p, player, from, c.at - from);
      LazyIsTicking(Note(p, c.command, c.at), Obey(TickMany(player, c.at - from), c.command), cs[1..], c.at, now);
    }
  }

  lemma {:induction false} LastLast(cs: seq<Timed>, from: int)
    requires InOrder(cs, from) && cs != []
    ensures from <= cs[0].at <= cs[|cs| - 1].at
    ensures |cs| > 1 ==> cs[1..][|cs| - 2] == cs[|cs| - 1]
    decreases |cs|
  {
    if |cs| > 1 {
      LastLast(cs[1..], cs[0].at);
    }
  }

  // ---------- the end of a track ----------

  /** The timer set for a playing track is due at the first instant at which its
      position is the duration, or at once when that has passed. */
  lemma {:induction false} TimerDueAtEnd(s: Room, now: int)
    requires s.playback.playing && s.playback.current.Some? && s.playback.current.value.durationMs > 0
    ensures var t := ScheduleEnd(s, now);
      && t.timers.running.Some? && t.timers.running.value in t.timers.armed
      && var dueAt := t.timers.armed[t.timers.running.value].dueAt;
         && dueAt >= now
         && Position(t.playback, dueAt) >= t.playback.current.value.durationMs
         && (forall at :: now <= at < dueAt ==> Position(t.playback, at) < t.playback.current.value.durationMs)
  {
  }

  // ---------- the client's side ----------

  function ShouldBe(p: Playback, serverNow: int): int {
    if p.playing then p.positionMs + (serverNow - p.updatedAt) else p.positionMs
  }

  function PendingStart(p: Playback, serverNow: int): int {
    if ShouldBe(p, serverNow) < 0 then -ShouldBe(p, serverNow) else 0
  }

  function DisplayPosition(p: Playback, serverNow: int): int {
    if ShouldBe(p, serverNow) > 0 then ShouldBe(p, serverNow) else 0
  }

  /** Client and room agree at every instant, also in the lead-in; what is displayed
      and what is still to wait make up the position, and one of them is zero. */
  lemma {:induction false} ClientAgrees(p: Playback, player: Player, now: int)
    requires Shows(p, player, now)
    ensures ShouldBe(p, now) == player.positionMs
    ensures DisplayPosition(p, now) - PendingStart(p, now) == player.positionMs
    ensures DisplayPosition(p, now) >= 0 && PendingStart(p, now) >= 0
    ensures DisplayPosition(p, now) == 0 || PendingStart(p, now) == 0
  {
  }

  /** A started track reaches its first sample exactly when its lead-in is over. */
  lemma {:induction false} LeadInEnds(entry: Entry, leadMs: int, start: int, now: int)
    requires leadMs >= 0 && start <= now
    ensures var p := Note(IDLE, Start(entry, leadMs), start);
      && (PendingStart(p, now) == 0 <==> start + leadMs <= now)
      && (start + leadMs <= now ==> DisplayPosition(p, now) == now - start - leadMs)
  {
  }
}
