/** Conservation across crashes: what a room recorded as played, removed or dropped is
    not among the rows a crash leaves, in this life of the room or any later one. */
module RoomLives {
  import opened Wrappers
  import opened QueueWire
  import opened QueueChunking
  import opened QueueReplica
  import opened QueueStore
  import opened RoomPolicy
  import opened RoomModel
  import opened RoomShape
  import opened RoomBooks
  import opened RoomGuarantees
  import opened RoomRuns
  import opened RoomTheorems

  // ---------- one crash ----------

  /** What has been played, removed or dropped. */
  function EndedIds(ledger: Ledger): multiset<string> {
    multiset(PlayedIds(ledger.finished)) + ledger.removed + ledger.dropped
  }

  /** The ledger of the moment whose rows a crash leaves. */
  ghost function LedgerLeft(s: Room, ev: Event, k: int): Ledger
    requires Enabled(s, ev)
  {
    if k == |s.stored.images| - 1 then s.ledger
    else if CommitsTwice(s, ev) && k == |s.stored.images| then
      s.ledger.(accepted := s.ledger.accepted + multiset(Ids(Batch(s, ev))))
    else Step(s, ev).0.ledger
  }

  lemma {:induction false} PersistedAccounted(current: Option<Entry>, queue: seq<Entry>, ledger: Ledger)
    requires Accounted(current, queue, ledger)
    ensures Accounted(PersistedCurrent(current), PersistedAll(queue), ledger)
  {
    assert Ids(PersistedAll(queue)) == Ids(queue);
  }

  lemma {:induction false} BetweenLedger(s: Room, ev: Event, h: Shape, t: Room)
    requires Does(s, ev, h, t) && h.edit.Appending?
    ensures h.c.ledger == s.ledger.(accepted := s.ledger.accepted + multiset(Ids(Batch(s, ev))))
  {
    EditedShape(h.a, h.edit);
  }

  lemma {:induction false} PairAccounted(s: Room)
    requires Books(s)
    ensures Accounted(Pair(s).0, Pair(s).1, s.ledger)
  {
    PersistedAccounted(s.playback.current, s.queue, s.ledger);
  }

  lemma {:induction false} BetweenAccounted(s: Room, ev: Event)
    requires Books(s) && Enabled(s, ev) && Fresh(s, ev) && CommitsTwice(s, ev)
    ensures Accounted(Between(s, ev).0, Between(s, ev).1,
                      s.ledger.(accepted := s.ledger.accepted + multiset(Ids(Batch(s, ev)))))
  {
    var t := Step(s, ev).0;
    var h := TwiceShape(s, ev);
    ShapeBooks(s, ev, h, t);
    BetweenShape(s, ev, h, t);
    BetweenLedger(s, ev, h, t);
    PairAccounted(h.c);
  }

  /** At every point of every event, the rows and the ledger of that moment account for
      every accepted entry exactly once. */
  lemma {:induction false} LeftAccounted(s: Room, ev: Event, k: int)
    requires Books(s) && Enabled(s, ev) && Fresh(s, ev)
    ensures Accounted(Left(s, ev, k).0, Left(s, ev, k).1, LedgerLeft(s, ev, k))
  {
    if k == |s.stored.images| - 1 {
      PairAccounted(s);
    } else if CommitsTwice(s, ev) && k == |s.stored.images| {
      BetweenAccounted(s, ev);
    } else {
      StepBooks(s, ev);
      PairAccounted(Step(s, ev).0);
    }
  }

  /** A room that starts has accepted exactly what its rows hold. */
  lemma {:induction false} StartAccepted(sizes: Sizes, policy: Policy, rows: seq<Row>, env: Env)
    ensures Start(sizes, policy, rows, true, env).ledger.accepted
         == IdOf(Decode(rows).0) + multiset(Ids(Decode(rows).1))
  {
    var (found, queue) := Decode(rows);
    var s := Loaded(sizes, policy, rows, true);
    LoadedShape(sizes, policy, rows, true);
    LineIds(found, queue);
    assert (if found.None? then [] else [found.value]) + queue == Line(found, queue);
    if Resumable(found) {
      ScheduleEndShape(s.(playback := Playback(found, -StartLeadMs(policy), env.now, true)), env.now);
    } else {
      var c, advance := TryAdvanceShape(s, "resume-after-restart", env);
      if advance.Some? {
        AdvanceReadyShape(c, "resume-after-restart", env);
      }
    }
  }

  // ---------- lives ----------

  /** A room runs, and then crashes in the middle of an event, which the store survives
      with so many contents; then it starts again from what is there. */
  datatype Life = Life(run: seq<Action>, event: Event, cut: nat, sizes: Sizes, policy: Policy, env: Env)

  /** The room at the event it crashes in. */
  ghost function AtCrash(start: Room, life: Life): Room
    requires Runs(World(start, EMPTY), life.run)
  {
    After(World(start, EMPTY), life.run).room
  }

  ghost predicate Lived(start: Room, life: Life) {
    && JustStarted(start) && Runs(World(start, EMPTY), life.run)
    && var s := AtCrash(start, life);
       && Enabled(s, life.event) && Fresh(s, life.event) && s.stored.settled
       && |s.stored.images| - 1 <= life.cut < |Step(s, life.event).0.stored.images|
  }

  /** The room's next life. */
  ghost function Reborn(start: Room, life: Life): Room
    requires Lived(start, life)
  {
    Start(life.sizes, life.policy, Step(AtCrash(start, life), life.event).0.stored.images[life.cut], true, life.env)
  }

  /** The next life begins with everything accepted in this one but what has ended in it,
      each entry once. */
  lemma {:induction false} LifeConserves(start: Room, life: Life)
    requires Lived(start, life)
    ensures JustStarted(Reborn(start, life))
    ensures var ledger := LedgerLeft(AtCrash(start, life), life.event, life.cut);
      && Reborn(start, life).ledger.accepted + EndedIds(ledger) == ledger.accepted
      && Single(ledger.accepted)
  {
    var w := World(start, EMPTY);
    var s := AtCrash(start, life);
    var rows := Step(s, life.event).0.stored.images[life.cut];
    ReachesSane(w, life.run);
    CrashRestarts(w, life.run, life.event, life.cut, life.sizes, life.policy, true, life.env);
    CrashSafe(s, life.event, life.cut);
    LeftAccounted(s, life.event, life.cut);
    StartAccepted(life.sizes, life.policy, rows, life.env);
  }

  // ---------- what never comes back ----------

  ghost predicate Brings(ev: Event, id: string) {
    match ev
    case AddEntries(entries, _, _, _, _, _) => id in multiset(Ids(entries))
    case FetchReport(_, _, tracks, _, _, _) => id in multiset(Ids(tracks))
    case _ => false
  }

  ghost predicate NeverBrings(run: seq<Action>, id: string) {
    forall i :: 0 <= i < |run| && run[i].Happens? ==> !Brings(run[i].event, id)
  }

  lemma {:induction false} BatchBrings(s: Room, ev: Event, id: string)
    requires ev.AddEntries? || ev.FetchReport?
    ensures id in multiset(Ids(Batch(s, ev))) ==> Brings(ev, id)
  {
    if ev.AddEntries? {
      assert Ids(Batch(s, ev)) == Ids(ev.entries);
    } else {
      var n := |Batch(s, ev)|;
      assert Batch(s, ev) == ev.tracks[..n];
      IdsSplit(ev.tracks, n);
    }
  }

  /** Only the entries an event brings are accepted by it. */
  lemma {:induction false} StepBrings(s: Room, ev: Event, id: string)
    requires Enabled(s, ev) && s.ledger.accepted[id] == 0 && !Brings(ev, id)
    ensures Step(s, ev).0.ledger.accepted[id] == 0
  {
    var h := StepDoes(s, ev);
    EditedShape(h.a, h.edit);
    if h.edit.Appending? {
      BatchBrings(s, ev, id);
    }
    if h.advance.Some? {
      AdvanceReadyShape(h.c, h.advance.value.reason, h.advance.value.env);
    }
  }

  lemma {:induction false} RunBrings(w: World, run: seq<Action>, id: string)
    requires Runs(w, run) && w.room.ledger.accepted[id] == 0 && NeverBrings(run, id)
    ensures After(w, run).room.ledger.accepted[id] == 0
    decreases |run|
  {
    if run != [] {
      if run[0].Happens? {
        assert !Brings(run[0].event, id);
        StepBrings(w.room, run[0].event, id);
      }
      assert NeverBrings(run[1..], id);
      RunBrings(Next(w, run[0]), run[1..], id);
    }
  }

  lemma {:induction false} LeftBrings(s: Room, ev: Event, k: int, id: string)
    requires Enabled(s, ev) && s.ledger.accepted[id] == 0 && !Brings(ev, id)
    ensures LedgerLeft(s, ev, k).accepted[id] == 0
  {
    StepBrings(s, ev, id);
    if CommitsTwice(s, ev) {
      BatchBrings(s, ev, id);
    }
  }

  lemma {:induction false} LifeBrings(start: Room, life: Life, id: string)
    requires Lived(start, life) && start.ledger.accepted[id] == 0
    requires NeverBrings(life.run, id) && !Brings(life.event, id)
    ensures Reborn(start, life).ledger.accepted[id] == 0
  {
    RunBrings(World(start, EMPTY), life.run, id);
    LeftBrings(AtCrash(start, life), life.event, life.cut, id);
    LifeConserves(start, life);
    var ledger := LedgerLeft(AtCrash(start, life), life.event, life.cut);
    PartOf(Reborn(start, life).ledger.accepted, EndedIds(ledger), ledger.accepted, id);
  }

  lemma {:induction false} PartOf(a: multiset<string>, b: multiset<string>, all: multiset<string>, id: string)
    requires a + b == all && all[id] <= 1
    ensures all[id] == 0 || b[id] > 0 ==> a[id] == 0
  {
    assert (a + b)[id] == a[id] + b[id];
  }

  /** What has ended is not among what the next life begins with. */
  lemma {:induction false} EndedNotReborn(start: Room, life: Life, id: string)
    requires Lived(start, life)
    requires EndedIds(LedgerLeft(AtCrash(start, life), life.event, life.cut))[id] > 0
    ensures Reborn(start, life).ledger.accepted[id] == 0
  {
    LifeConserves(start, life);
    var ledger := LedgerLeft(AtCrash(start, life), life.event, life.cut);
    PartOf(Reborn(start, life).ledger.accepted, EndedIds(ledger), ledger.accepted, id);
  }

  ghost predicate Lives(start: Room, lives: seq<Life>)
    decreases |lives|
  {
    lives != [] ==> Lived(start, lives[0]) && Lives(Reborn(start, lives[0]), lives[1..])
  }

  ghost function Outlived(start: Room, lives: seq<Life>): Room
    requires Lives(start, lives)
    decreases |lives|
  {
    if lives == [] then start else Outlived(Reborn(start, lives[0]), lives[1..])
  }

  ghost predicate NoneBrings(lives: seq<Life>, id: string) {
    forall i :: 0 <= i < |lives| ==> NeverBrings(lives[i].run, id) && !Brings(lives[i].event, id)
  }

  lemma {:induction false} LivesBring(start: Room, lives: seq<Life>, id: string)
    requires Lives(start, lives) && start.ledger.accepted[id] == 0 && NoneBrings(lives, id)
    ensures Outlived(start, lives).ledger.accepted[id] == 0
    decreases |lives|
  {
    if lives != [] {
      assert NeverBrings(lives[0].run, id);
      LifeBrings(start, lives[0], id);
      assert NoneBrings(lives[1..], id);
      LivesBring(Reborn(start, lives[0]), lives[1..], id);
    }
  }

  lemma {:induction false} LivesJustStarted(start: Room, lives: seq<Life>)
    requires JustStarted(start) && Lives(start, lives)
    ensures JustStarted(Outlived(start, lives))
    decreases |lives|
  {
    if lives != [] {
      LifeConserves(start, lives[0]);
      LivesJustStarted(Reborn(start, lives[0]), lives[1..]);
    }
  }

  /** Neither current nor pending nor ever played. */
  ghost predicate Absent(s: Room, id: string) {
    IdOf(s.playback.current)[id] + multiset(Ids(s.queue))[id] + multiset(PlayedIds(s.ledger.finished))[id] == 0
  }

  lemma {:induction false} NotAccepted(s: Room, id: string)
    requires Books(s) && s.ledger.accepted[id] == 0
    ensures Absent(s, id)
  {
    assert Placed(s.playback.current, s.queue, s.ledger)[id] == 0;
  }

  lemma {:induction false} AbsentForGood(start: Room, lives: seq<Life>, run: seq<Action>, id: string)
    requires JustStarted(start) && start.ledger.accepted[id] == 0
    requires Lives(start, lives) && Runs(World(Outlived(start, lives), EMPTY), run)
    requires NoneBrings(lives, id) && NeverBrings(run, id)
    ensures Absent(After(World(Outlived(start, lives), EMPTY), run).room, id)
  {
    var w := World(Outlived(start, lives), EMPTY);
    LivesBring(start, lives, id);
    LivesJustStarted(start, lives);
    RunBrings(w, run, id);
    ReachesSane(w, run);
    NotAccepted(After(w, run).room, id);
  }

  /** What had been played, removed or dropped by the moment a crash fell back to is
      never current, pending or played again, in however many later lives and at whatever
      moment of them, as long as no one adds an entry under its id. */
  lemma {:induction false} EndedInEveryLife(start: Room, life: Life, later: seq<Life>, run: seq<Action>, id: string)
    requires Lived(start, life) && Lives(Reborn(start, life), later)
    requires Runs(World(Outlived(Reborn(start, life), later), EMPTY), run)
    requires EndedIds(LedgerLeft(AtCrash(start, life), life.event, life.cut))[id] > 0
    requires NoneBrings(later, id) && NeverBrings(run, id)
    ensures Absent(After(World(Outlived(Reborn(start, life), later), EMPTY), run).room, id)
  {
    LifeConserves(start, life);
    EndedNotReborn(start, life, id);
    AbsentForGood(Reborn(start, life), later, run, id);
  }
}
