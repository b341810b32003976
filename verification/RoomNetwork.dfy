/** The room's side of the queue protocol: every mutation it commits is one patch
    that any client can apply, and every connection is told in the right order. */
module RoomNetwork {
  import opened Wrappers
  import opened QueueWire
  import opened QueuePatch
  import opened QueueReplica
  import opened QueueAgreement
  import opened RoomModel
  import opened RoomShape

  /** The log ends at the queue, and each patch leads from one revision to the next. */
  ghost predicate Logged(queue: seq<Entry>, revision: nat, log: Log) {
    && revision == |log.patches|
    && Sound(log)
    && log.history[revision] == queue
  }

  /** The connection was sent only parts of the log; read in order, from the first
      snapshot on, they keep a replica in step and never raise a resync. */
  ghost predicate Told(revision: nat, log: Log, conn: Connection) {
    && (forall i :: 0 <= i < |conn.wire| ==> Sent(log, conn.wire[i]))
    && (conn.joined && conn.based ==> Synced(log, HandleAll(EMPTY, conn.wire), revision))
    && (conn.joined && conn.greeted ==> conn.based && Quiet(EMPTY, conn.wire))
  }

  ghost predicate InStep(s: Room) { Logged(s.queue, s.revision, s.log) && Told(s.revision, s.log, s.conn) }

  ghost predicate SameNetwork(s: Room, t: Room) {
    t.queue == s.queue && t.revision == s.revision && t.log == s.log && t.conn == s.conn
  }

  // ---------- sending ----------

  lemma {:induction false} SplitPartsSent(log: Log, base: nat)
    requires base < |log.patches| && PatchParts(log, base).Success?
    ensures var ms := PatchMessages(base, PatchParts(log, base).value);
      forall i :: 0 <= i < |ms| ==> Sent(log, ms[i])
  {
  }

  function Extended(log: Log, next: seq<Entry>, ops: seq<Op>): Log {
    log.(history := log.history + [next], patches := log.patches + [ops])
  }

  lemma {:induction false} ExtendedSound(log: Log, next: seq<Entry>, ops: seq<Op>)
    requires Sound(log) && Apply(log.history[|log.patches|], ops) == Some(next)
    ensures Sound(Extended(log, next, ops)) && Grows(log, Extended(log, next, ops))
  {
    var later := Extended(log, next, ops);
    forall i | 0 <= i < |later.patches|
      ensures Apply(later.history[i], later.patches[i]) == Some(later.history[i + 1])
    {
      if i < |log.patches| {
        assert Apply(log.history[i], log.patches[i]) == Some(log.history[i + 1]);
      }
    }
  }

  /** What a commit does to the log and the connection. */
  lemma {:induction false} CommitSends(s: Room, current: Option<Entry>, next: seq<Entry>, ops: seq<Op>, saved: bool)
    requires Commit(s, current, next, ops, saved).Some? && |s.log.patches| == s.revision
    ensures var t := Commit(s, current, next, ops, saved).value;
      && t.queue == next && t.revision == s.revision + 1 && t.log == Extended(s.log, next, ops)
      && PatchParts(t.log, s.revision).Success?
      && t.conn == if s.conn.joined
                   then s.conn.(wire := s.conn.wire + PatchMessages(s.revision, PatchParts(t.log, s.revision).value))
                   else s.conn
  {
  }

  /** A committed mutation whose operations really lead to the new queue keeps
      everybody in step. */
  lemma {:induction false} CommitInStep(s: Room, current: Option<Entry>, next: seq<Entry>, ops: seq<Op>, saved: bool)
    requires InStep(s) && Apply(s.queue, ops) == Some(next)
    requires Commit(s, current, next, ops, saved).Some?
    ensures var t := Commit(s, current, next, ops, saved).value;
      && InStep(t) && t.queue == next && t.revision == s.revision + 1 && Grows(s.log, t.log)
      && t.conn.joined == s.conn.joined
  {
    CommitSends(s, current, next, ops, saved);
    ExtendedSound(s.log, next, ops);
    CommitTold(s.revision, s.log, Extended(s.log, next, ops), s.conn);
  }

  lemma {:induction false} CommitTold(r: nat, log: Log, later: Log, conn: Connection)
    requires Told(r, log, conn) && Sound(later) && Grows(log, later)
    requires |later.patches| == r + 1 && |log.history| == r + 1
    requires PatchParts(later, r).Success?
    ensures var ms := PatchMessages(r, PatchParts(later, r).value);
      Told(r + 1, later, if conn.joined then conn.(wire := conn.wire + ms) else conn)
  {
    var ms := PatchMessages(r, PatchParts(later, r).value);
    SplitPartsSent(later, r);
    forall i | 0 <= i < |conn.wire|
      ensures Sent(later, conn.wire[i])
    {
      GrowthKeepsSent(log, later, conn.wire[i]);
    }
    if conn.joined && conn.based {
      assert later.history[r] == log.history[r];
      PatchAdvances(later, HandleAll(EMPTY, conn.wire), r);
      HandleAllConcat(EMPTY, conn.wire, ms);
    }
  }

  lemma {:induction false} SendSnapshotInStep(s: Room)
    requires InStep(s) && s.conn.joined
    ensures InStep(SendSnapshot(s).0)
  {
    var (t, ok) := SendSnapshot(s);
    if ok {
      var parts := SnapshotParts(s.log, s.revision).value;
      var ms := SnapshotMessages(s.revision, parts);
      SnapshotHeals(s.log, HandleAll(EMPTY, s.conn.wire), s.revision);
      HandleAllConcat(EMPTY, s.conn.wire, ms);
      assert forall i :: 0 <= i < |ms| ==> Sent(s.log, ms[i]);
    }
  }

  // ---------- advancing ----------

  lemma {:induction false} TakeOverSameNetwork(s: Room, skimmed: seq<Entry>, reason: string, env: Env)
    ensures SameNetwork(s, TakeOver(s, skimmed, reason, env))
  {
  }

  lemma {:induction false} AdvanceReadyInStep(s: Room, reason: string, env: Env)
    requires InStep(s) && Unique(s.queue) && AdvanceReady(s, reason, env).Some?
    ensures InStep(AdvanceReady(s, reason, env).value)
    ensures Grows(s.log, AdvanceReady(s, reason, env).value.log)
  {
    if s.queue != [] {
      var k := Skimmed(s.queue, MAX_DROPPED_PER_ADVANCE);
      var skimmed, rest := s.queue[..k], s.queue[k..];
      RemoveOpsDropPrefix(s.queue, k);
      CommitInStep(s, Playable(skimmed), rest, RemoveOps(skimmed), env.saved);
      TakeOverSameNetwork(Commit(s, Playable(skimmed), rest, RemoveOps(skimmed), env.saved).value, skimmed, reason, env);
    }
  }

  // ---------- edits ----------

  /** What an edit sends is a patch from the old queue to the new one. */
  lemma {:induction false} EditOpsLead(queue: seq<Entry>, edit: Edit)
    requires Applies(edit, queue) && Unique(queue) && (edit.Appending? ==> Unique(queue + edit.added))
    ensures Apply(queue, EditOps(queue, edit)) == Some(EditedQueue(queue, edit))
  {
    match edit {
      case Nothing =>
      case Appending(added) => AddOpsAppend(queue, added);
      case Removing(at) => RemoveOpRemoves(queue, at);
      case Moving(from, to) => MoveOpMoves(queue, from, to);
      case Clearing => ClearOpClears(queue);
    }
  }

  lemma {:induction false} EditedInStep(s: Room, edit: Edit)
    requires InStep(s) && Applies(edit, s.queue) && Edited(s, edit).Some?
    requires Unique(s.queue) && (edit.Appending? ==> Unique(s.queue + edit.added))
    ensures InStep(Edited(s, edit).value) && Grows(s.log, Edited(s, edit).value.log)
  {
    if !edit.Nothing? {
      EditOpsLead(s.queue, edit);
      CommitInStep(s, s.playback.current, EditedQueue(s.queue, edit), EditOps(s.queue, edit), true);
    }
  }

  /** The entries an event may append do not clash with those already pending, and
      neither do those that stay. */
  ghost predicate NoClash(queue: seq<Entry>, edit: Edit) {
    Unique(queue) && (edit.Appending? ==> Unique(queue + edit.added))
  }

  lemma {:induction false} EditedUnique(queue: seq<Entry>, edit: Edit)
    requires Applies(edit, queue) && NoClash(queue, edit)
    ensures Unique(EditedQueue(queue, edit))
  {
    match edit {
      case Removing(at) => RemoveAtUnique(queue, at);
      case Moving(from, to) =>
        RemoveAtUnique(queue, from);
        InsertAtUnique(RemoveAt(queue, from), to, queue[from]);
      case _ =>
    }
  }

  // ---------- the events ----------

  lemma {:induction false} StepJoinInStep(s: Room)
    requires InStep(s)
    ensures InStep(StepJoin(s).0) && StepJoin(s).0.log == s.log
  {
    var a := if s.conn.joined then s else s.(conn := Connection(true, [], false, false));
    SendSnapshotInStep(a);
    if !s.conn.joined && SendSnapshot(a).1 {
      SnapshotHeals(s.log, EMPTY, s.revision);
      assert SendSnapshot(a).0.conn.wire
          == SnapshotMessages(s.revision, SnapshotParts(s.log, s.revision).value);
    }
  }

  lemma {:induction false} ConnectionInStep(s: Room, ev: Event)
    requires InStep(s) && (ev.Join? || ev.Leave? || ev.Sync?)
    ensures InStep(Step(s, ev).0) && Step(s, ev).0.log == s.log
  {
    match ev {
      case Join => StepJoinInStep(s);
      case Sync => if s.conn.joined { SendSnapshotInStep(s); }
      case Leave =>
    }
  }

  /** Every stage of an event keeps the log a faithful account of the queue and the
      connection in step with it. */
  lemma {:induction false} ShapeInStep(s: Room, ev: Event, h: Shape, t: Room)
    requires InStep(s) && Does(s, ev, h, t) && NoClash(s.queue, h.edit) && !ev.Join? && !ev.Leave? && !ev.Sync?
    ensures InStep(t) && Grows(s.log, t.log)
  {
    assert SameNetwork(s, h.a);
    EditedInStep(h.a, h.edit);
    EditedShape(h.a, h.edit);
    assert SameNetwork(h.b, h.c);
    if h.advance.Some? {
      EditedUnique(s.queue, h.edit);
      AdvanceReadyInStep(h.c, h.advance.value.reason, h.advance.value.env);
    }
  }

  lemma {:induction false} StepInStep(s: Room, ev: Event, h: Shape)
    requires InStep(s) && Enabled(s, ev) && Does(s, ev, h, Step(s, ev).0) && NoClash(s.queue, h.edit)
    ensures InStep(Step(s, ev).0) && Grows(s.log, Step(s, ev).0.log)
  {
    if ev.Join? || ev.Leave? || ev.Sync? {
      ConnectionInStep(s, ev);
    } else {
      ShapeInStep(s, ev, h, Step(s, ev).0);
    }
  }

  /** Whoever joins is sent the whole queue of that moment, unless it cannot be cut. */
  lemma {:induction false} JoinGreets(s: Room)
    requires InStep(s) && !s.conn.joined
    ensures var t := StepJoin(s).0;
      && t.conn.joined && (t.conn.greeted <==> SnapshotParts(s.log, s.revision).Success?)
      && (t.conn.greeted ==>
            HandleAll(EMPTY, t.conn.wire) == Replica(s.revision, WireEntries(s.queue), true, false, None, None))
  {
    StepJoinInStep(s);
  }
}
