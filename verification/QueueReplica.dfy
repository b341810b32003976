/** The client's replica of a room's pending queue: it collects the parts of a
    snapshot or a patch and makes a complete one visible in one step. */
module QueueReplica {
  import opened Wrappers
  import opened QueueWire
  import opened QueuePatch

  // ---------- what the replica does with a message ----------

  /** A snapshot being collected has base == revision; a patch has the two it names. */
  datatype Assembly<T> = Assembly(base: nat, revision: nat, nextPart: int, items: seq<T>)

  datatype Replica = Replica(
    revision: nat,
    items: seq<Entry>,
    ready: bool,
    resyncRequired: bool,
    snapshot: Option<Assembly<Entry>>,
    patch: Option<Assembly<Op>>
  )

  const EMPTY := Replica(0, [], false, false, None, None)

  /** The assembly after a part, or None when the part does not continue it. Part
      zero always starts afresh. */
  function Collect<T>(current: Option<Assembly<T>>, base: nat, revision: nat, part: Part<T>): Option<Assembly<T>> {
    var assembly := if part.number == 0 then Some(Assembly(base, revision, 0, [])) else current;
    if assembly.None? || assembly.value.base != base || assembly.value.revision != revision
       || assembly.value.nextPart != part.number then None
    else Some(Assembly(base, revision, part.number + 1, assembly.value.items + part.items))
  }

  /** None is an error: the replica then gives up both assemblies and asks for a
      fresh baseline. */
  function Accept(c: Replica, m: Message): Option<Replica> {
    match m
    case Snapshot(revision, part) =>
      var assembly := Collect(c.snapshot, revision, revision, part);
      if part.number < 0 || assembly.None? then None
      else if !part.done then
        Some(c.(snapshot := assembly, patch := if part.number == 0 then None else c.patch))
      else
        Some(Replica(revision, assembly.value.items, true, false, None, None))
    case Patch(base, revision, part) =>
      var assembly := Collect(c.patch, base, revision, part);
      if part.number < 0 || revision != base + 1 || assembly.None? then None
      else if !part.done then
        Some(c.(patch := assembly))
      else if !c.ready || c.revision != base then None
      else
        match Apply(c.items, assembly.value.items)
        case None => None
        case Some(next) =>
          Some(c.(items := next, revision := revision, resyncRequired := false, patch := None))
  }

  function Handle(c: Replica, m: Message): Replica {
    match Accept(c, m)
    case Some(next) => next
    case None => c.(resyncRequired := true, snapshot := None, patch := None)
  }

  function HandleAll(c: Replica, ms: seq<Message>): Replica
    decreases |ms|
  {
    if ms == [] then c else HandleAll(Handle(c, ms[0]), ms[1..])
  }

  /** No message of the run is an error, so no resync is ever raised. */
  ghost predicate Quiet(c: Replica, ms: seq<Message>)
    decreases |ms|
  {
    ms != [] ==> Accept(c, ms[0]).Some? && Quiet(Handle(c, ms[0]), ms[1..])
  }

  lemma {:induction false} HandleAllConcat(c: Replica, a: seq<Message>, b: seq<Message>)
    ensures HandleAll(c, a + b) == HandleAll(HandleAll(c, a), b)
    ensures Quiet(c, a + b) <==> Quiet(c, a) && Quiet(HandleAll(c, a), b)
    decreases |a|
  {
    if a == [] {
      assert a + b == b;
    } else {
      assert (a + b)[1..] == a[1..] + b;
      HandleAllConcat(Handle(c, a[0]), a[1..], b);
    }
  }

  // ---------- what is accepted, and what is noticed ----------

  /** The part is the first of its message, or the next one of the message being collected. */
  predicate Continues<T>(current: Option<Assembly<T>>, base: nat, revision: nat, part: Part<T>) {
    || part.number == 0
    || (part.number > 0 && current.Some? && current.value.base == base && current.value.revision == revision
        && current.value.nextPart == part.number)
  }

  function SoFar<T>(current: Option<Assembly<T>>, part: Part<T>): seq<T> {
    (if part.number == 0 || current.None? then [] else current.value.items) + part.items
  }

  /** A snapshot part is accepted exactly if it continues; only the last one shows, and
      then it shows all of them, whatever was there before. */
  lemma {:induction false} SnapshotAccepted(c: Replica, revision: nat, part: Part<Entry>)
    ensures var m := Snapshot(revision, part);
      && (Accept(c, m).Some? <==> Continues(c.snapshot, revision, revision, part))
      && (Accept(c, m).Some? ==>
            var d := Accept(c, m).value;
            if part.done then
              && d.ready && d.revision == revision && d.items == SoFar(c.snapshot, part) && !d.resyncRequired
              && d.snapshot.None? && d.patch.None?
            else
              && d.ready == c.ready && d.revision == c.revision && d.items == c.items
              && d.resyncRequired == c.resyncRequired
              && d.snapshot == Some(Assembly(revision, revision, part.number + 1, SoFar(c.snapshot, part)))
              && (part.number == 0 ==> d.patch.None?) && (part.number > 0 ==> d.patch == c.patch))
  {
  }

  /** A patch part is accepted exactly if it continues and, when it is the last one, leads
      from the very revision the replica shows to the next and can be applied. */
  lemma {:induction false} PatchAccepted(c: Replica, base: nat, revision: nat, part: Part<Op>)
    ensures var m := Patch(base, revision, part);
      && (Accept(c, m).Some? <==>
            && revision == base + 1 && Continues(c.patch, base, revision, part)
            && (part.done ==> c.ready && c.revision == base && Apply(c.items, SoFar(c.patch, part)).Some?))
      && (Accept(c, m).Some? ==>
            var d := Accept(c, m).value;
            d.ready == c.ready && d.snapshot == c.snapshot
            && if part.done then
                 && d.revision == revision && Some(d.items) == Apply(c.items, SoFar(c.patch, part))
                 && !d.resyncRequired && d.patch.None?
               else
                 && d.revision == c.revision && d.items == c.items && d.resyncRequired == c.resyncRequired
                 && d.patch == Some(Assembly(base, revision, part.number + 1, SoFar(c.patch, part))))
  {
  }

  /** The revision a message leads to, if this is its last part. */
  function Completes(m: Message): Option<nat> {
    match m
    case Snapshot(revision, part) => if part.done then Some(revision) else None
    case Patch(_, revision, part) => if part.done then Some(revision) else None
  }

  /** The replica shows the revision or knows that it does not. */
  ghost predicate ShowsOrWants(c: Replica, revision: nat) {
    c.resyncRequired || (c.ready && c.revision == revision)
  }

  /** Whatever had been lost before: with the last part of a message the replica shows
      the revision that message leads to, or it wants a fresh baseline. */
  lemma {:induction false} LastPartDecides(c: Replica, m: Message)
    requires Completes(m).Some?
    ensures ShowsOrWants(Handle(c, m), Completes(m).value)
    ensures Accept(c, m).Some? ==> !Handle(c, m).resyncRequired
  {
  }

  /** An error gives up what is being collected, is remembered, and leaves what shows. */
  lemma {:induction false} ErrorsKeepWhatShows(c: Replica, m: Message)
    requires Accept(c, m).None?
    ensures var d := Handle(c, m);
      && d.resyncRequired && d.snapshot.None? && d.patch.None?
      && d.items == c.items && d.revision == c.revision && d.ready == c.ready
  {
  }

  lemma {:induction false} OtherPartKeeps(c: Replica, m: Message, revision: nat)
    requires Completes(m).None? && ShowsOrWants(c, revision)
    ensures ShowsOrWants(Handle(c, m), revision)
  {
  }

  /** The revision of the message that was completed last. */
  function LastCompleted(ms: seq<Message>, before: Option<nat>): Option<nat>
    decreases |ms|
  {
    if ms == [] then before
    else LastCompleted(ms[1..], if Completes(ms[0]).Some? then Completes(ms[0]) else before)
  }

  /** No gap goes unnoticed: after any messages, lost, repeated or out of order, the
      replica shows the revision of the last message whose end it got, or it wants a
      fresh baseline. */
  lemma {:induction false} GapsAreNoticed(c: Replica, ms: seq<Message>, before: Option<nat>)
    requires before.Some? ==> ShowsOrWants(c, before.value)
    ensures var last := LastCompleted(ms, before);
      last.Some? ==> ShowsOrWants(HandleAll(c, ms), last.value)
    decreases |ms|
  {
    if ms != [] {
      if Completes(ms[0]).Some? {
        LastPartDecides(c, ms[0]);
      } else if before.Some? {
        OtherPartKeeps(c, ms[0], before.value);
      }
      GapsAreNoticed(Handle(c, ms[0]), ms[1..], if Completes(ms[0]).Some? then Completes(ms[0]) else before);
    }
  }

  // ---------- asking for a fresh baseline ----------

  /** A client in a room or in none. `resyncing` is what it believes about requests for a
      baseline, `underway` how many really are. */
  datatype Client = Client(inRoom: bool, replica: Replica, resyncing: bool, underway: nat)

  datatype ClientStep = Receives(message: Message) | Finishes(failed: bool) | SetsRoom(inRoom: bool) | Leaves

  function NextClient(c: Client, step: ClientStep): Client {
    match step
    case Receives(m) =>
      if !c.inRoom then c
      else
        var asks := Accept(c.replica, m).None? && !c.resyncing;
        Client(true, Handle(c.replica, m), c.resyncing || asks, c.underway + if asks then 1 else 0)
    case Finishes(failed) =>
      if c.underway == 0 then c
      else
        c.(replica := c.replica.(resyncRequired := c.replica.resyncRequired || failed), resyncing := false,
           underway := c.underway - 1)
    case SetsRoom(inRoom) => c.(inRoom := inRoom)
    case Leaves => Client(false, EMPTY, false, c.underway)
  }

  function AfterClient(c: Client, steps: seq<ClientStep>): Client
    decreases |steps|
  {
    if steps == [] then c else AfterClient(NextClient(c, steps[0]), steps[1..])
  }

  /** A baseline is wanted and nobody has asked for one. */
  predicate Unasked(c: Client) { c.inRoom && c.replica.resyncRequired && !c.resyncing }

  /** An error always leads to a request, unless one is under way; nothing else leads to
      one. So a wanted baseline is left unasked for exactly when a request ends that
      failed or that has not brought what is wanted by now; and from then on, until a
      message brings it or is an error. */
  lemma {:induction false} UnaskedExactly(c: Client, step: ClientStep)
    ensures Unasked(NextClient(c, step))
        <==> match step
             case Receives(m) =>
               Unasked(c) && Accept(c.replica, m).Some? && Accept(c.replica, m).value.resyncRequired
             case Finishes(failed) =>
               if c.underway == 0 then Unasked(c) else c.inRoom && (failed || c.replica.resyncRequired)
             case SetsRoom(inRoom) => inRoom && c.replica.resyncRequired && !c.resyncing
             case Leaves => false
  {
  }

  /** A client in a room asks at once when it gets the end of a message it has missed
      something before: then it shows the message's revision, or a request is under way. */
  lemma {:induction false} GapsAreAskedAbout(c: Client, m: Message)
    requires c.inRoom && Completes(m).Some?
    ensures var d := NextClient(c, Receives(m));
      && ShowsOrWants(d.replica, Completes(m).value)
      && (d.resyncing || (d.replica.ready && d.replica.revision == Completes(m).value))
      && (m.Patch? && !(c.replica.ready && c.replica.revision == m.baseRevision) ==> d.resyncing)
  {
    LastPartDecides(c.replica, m);
  }

  /** The client knows how many requests are under way: one or none. */
  predicate CountsRequests(c: Client) { c.underway == if c.resyncing then 1 else 0 }

  /** It loses count exactly by leaving the room while one is. */
  lemma {:induction false} CountExactly(c: Client, step: ClientStep)
    requires CountsRequests(c)
    ensures CountsRequests(NextClient(c, step)) <==> !(step.Leaves? && c.resyncing)
  {
  }

  lemma {:induction false} AtMostOneRequest(c: Client, steps: seq<ClientStep>)
    requires CountsRequests(c) && forall i :: 0 <= i < |steps| ==> !steps[i].Leaves?
    ensures CountsRequests(AfterClient(c, steps)) && AfterClient(c, steps).underway <= 1
    decreases |steps|
  {
    if steps != [] {
      CountExactly(c, steps[0]);
      AtMostOneRequest(NextClient(c, steps[0]), steps[1..]);
    }
  }

  /** A wanted baseline has been asked for as long as no request has ended and the client
      has not moved to another room. */
  lemma {:induction false} AskedUntilFinished(c: Client, steps: seq<ClientStep>)
    requires !Unasked(c) && forall i :: 0 <= i < |steps| ==> steps[i].Receives? || steps[i].Leaves?
    ensures !Unasked(AfterClient(c, steps))
    decreases |steps|
  {
    if steps != [] {
      UnaskedExactly(c, steps[0]);
      AskedUntilFinished(NextClient(c, steps[0]), steps[1..]);
    }
  }

  /** A bad message when the baseline has already come in, but not yet its
      acknowledgement: the request succeeds, and what is wanted now nobody asks for. */
  lemma {:induction false} SecondErrorUnasked(c: Client, bad: Message, baseline: Message, worse: Message)
    requires c.inRoom && c.underway == 0 && !c.resyncing
    requires baseline.Snapshot? && baseline.entries.number == 0 && baseline.entries.done
    requires Accept(c.replica, bad).None? && Accept(Handle(c.replica, baseline), worse).None?
    ensures var d := AfterClient(c, [Receives(bad), Receives(baseline), Receives(worse), Finishes(false)]);
      Unasked(d) && d.underway == 0
  {
    var steps := [Receives(bad), Receives(baseline), Receives(worse), Finishes(false)];
    assert steps[1..] == [Receives(baseline), Receives(worse), Finishes(false)];
    assert steps[1..][1..] == [Receives(worse), Finishes(false)];
    assert steps[1..][1..][1..] == [Finishes(false)];
    var asked := NextClient(c, steps[0]);
    var healed := NextClient(asked, steps[1]);
    assert healed == c.(replica := Handle(c.replica, baseline), resyncing := true, underway := 1);
    var worsened := NextClient(healed, steps[2]);
    assert worsened.resyncing && worsened.underway == 1 && worsened.replica.resyncRequired;
    assert AfterClient(c, steps) == AfterClient(asked, steps[1..]) == AfterClient(healed, steps[1..][1..]);
    assert AfterClient(healed, steps[1..][1..]) == AfterClient(worsened, [Finishes(false)]) == NextClient(worsened, Finishes(false));
  }

  // ---------- the client ----------

  class QueueClient {
    var roomId: string
    var resyncing: bool
    var revision: nat
    var items: seq<Entry>
    var ready: bool
    var resyncRequired: bool
    var snapshot: Option<Assembly<Entry>>
    var patch: Option<Assembly<Op>>

    function View(): Replica
      reads this
    {
      Replica(revision, items, ready, resyncRequired, snapshot, patch)
    }

    function State(underway: nat): Client
      reads this
    {
      Client(roomId != "", View(), resyncing, underway)
    }

    constructor (roomId: string)
      ensures this.roomId == roomId && !resyncing && View() == EMPTY
    {
      this.roomId := roomId;
      resyncing := false;
      revision, items, ready, resyncRequired := 0, [], false, false;
      snapshot, patch := None, None;
    }

    method ResetRoom(newRoomId: string)
      modifies this
      ensures roomId == newRoomId && !resyncing && View() == EMPTY
      ensures forall underway {:trigger State(underway)} ::
                State(underway) == NextClient(old(State(underway)), Leaves).(inRoom := newRoomId != "")
    {
      roomId := newRoomId;
      resyncing := false;
      revision, items, ready, resyncRequired := 0, [], false, false;
      snapshot, patch := None, None;
    }

    method AcceptSnapshot(newRevision: nat, part: Part<Entry>) returns (ok: bool)
      requires part.number >= 0
      modifies this`revision, this`items, this`ready, this`resyncRequired, this`snapshot, this`patch
      ensures ok <==> Accept(old(View()), Snapshot(newRevision, part)).Some?
      ensures ok ==> View() == Accept(old(View()), Snapshot(newRevision, part)).value
      ensures !ok ==> revision == old(revision) && items == old(items) && ready == old(ready)
    {
      if part.number == 0 {
        snapshot := Some(Assembly(newRevision, newRevision, 0, []));
        patch := None;
      }
      if snapshot.None? || snapshot.value.revision != newRevision || snapshot.value.base != newRevision
         || snapshot.value.nextPart != part.number {
        return false;
      }
      var assembly := Assembly(newRevision, newRevision, part.number + 1, snapshot.value.items + part.items);
      snapshot := Some(assembly);
      if !part.done {
        return true;
      }
      items := assembly.items;
      revision := newRevision;
      ready := true;
      resyncRequired := false;
      snapshot := None;
      patch := None;
      return true;
    }

    method AcceptPatch(base: nat, newRevision: nat, part: Part<Op>) returns (ok: bool)
      requires part.number >= 0 && newRevision == base + 1
      modifies this`revision, this`items, this`resyncRequired, this`patch
      ensures ok <==> Accept(old(View()), Patch(base, newRevision, part)).Some?
      ensures ok ==> View() == Accept(old(View()), Patch(base, newRevision, part)).value
      ensures !ok ==> revision == old(revision) && items == old(items)
    {
      if part.number == 0 {
        patch := Some(Assembly(base, newRevision, 0, []));
      }
      if patch.None? || patch.value.base != base || patch.value.revision != newRevision
         || patch.value.nextPart != part.number {
        return false;
      }
      var assembly := Assembly(base, newRevision, part.number + 1, patch.value.items + part.items);
      patch := Some(assembly);
      if !part.done {
        return true;
      }
      patch := None;
      if !ready || revision != base {
        return false;
      }
      var next := ApplyQueuePatch(items, assembly.items);
      if next.None? {
        return false;
      }
      items := next.value;
      revision := newRevision;
      resyncRequired := false;
      return true;
    }

    method MarkResync() returns (needsResync: bool)
      modifies this`resyncRequired, this`snapshot, this`patch
      ensures View() == old(View()).(resyncRequired := true, snapshot := None, patch := None)
      ensures needsResync <==> roomId != "" && !resyncing
    {
      resyncRequired := true;
      snapshot := None;
      patch := None;
      return roomId != "" && !resyncing;
    }

    /** Outside a room every queue message is ignored. An error has a resync requested,
        unless one is already running. */
    method HandleQueueMessage(m: Message) returns (request: bool)
      modifies this
      ensures roomId == old(roomId)
      ensures State(if request then 1 else 0) == NextClient(old(State(0)), Receives(m))
    {
      if roomId == "" {
        return false;
      }
      var ok := false;
      match m {
        case Snapshot(newRevision, part) =>
          if part.number >= 0 {
            ok := AcceptSnapshot(newRevision, part);
          }
        case Patch(base, newRevision, part) =>
          if part.number >= 0 && newRevision == base + 1 {
            ok := AcceptPatch(base, newRevision, part);
          }
      }
      request := false;
      if !ok {
        var needsResync := MarkResync();
        if needsResync {
          request := StartResync();
        }
      }
    }

    /** At most one resync request is outstanding. */
    method StartResync() returns (request: bool)
      modifies this`resyncing
      ensures request <==> roomId != "" && !old(resyncing) && resyncRequired
      ensures resyncing == (old(resyncing) || request)
    {
      if roomId == "" || resyncing || !resyncRequired {
        return false;
      }
      resyncing := true;
      return true;
    }

    method FinishResync(failed: bool)
      modifies this`resyncing, this`resyncRequired
      ensures roomId == old(roomId) && State(0) == NextClient(old(State(1)), Finishes(failed))
    {
      resyncing := false;
      if failed {
        resyncRequired := true;
      }
    }
  }

  /** Collects the snapshot parts of one joining, without a replica. */
  class SnapshotCollector {
    var assembly: Option<Assembly<Entry>>

    constructor ()
      ensures assembly.None?
    {
      assembly := None;
    }

    /** A part that does not continue the snapshot is an error and changes nothing. */
    method Add(revision: nat, part: Part<Entry>) returns (ok: bool, whole: Option<(nat, seq<Entry>)>)
      modifies this
      ensures var next := Collect(old(assembly), revision, revision, part);
        && ok == next.Some?
        && (!ok ==> assembly == old(assembly) && whole.None?)
        && (ok && part.done ==> assembly.None? && whole == Some((revision, next.value.items)))
        && (ok && !part.done ==> assembly == next && whole.None?)
    {
      if part.number == 0 {
        assembly := Some(Assembly(revision, revision, 0, []));
      }
      if assembly.None? || assembly.value.base != revision || assembly.value.revision != revision
         || assembly.value.nextPart != part.number {
        return false, None;
      }
      assembly := Some(Assembly(revision, revision, part.number + 1, assembly.value.items + part.items));
      if !part.done {
        return true, None;
      }
      var items := assembly.value.items;
      assembly := None;
      return true, Some((revision, items));
    }
  }
}
