/** Retried requests: a key is reserved before the handler runs and keeps the answer
    afterwards, so that the handler runs once and later tries are answered alike. */
module Idempotency {
  import opened Wrappers

  const PENDING_MS := 5 * 60 * 1000
  const COMPLETE_MS := 24 * 60 * 60 * 1000

  /** Actor, integration, key, method and path; and the digest of a body, taken to be
      the body itself. */
  datatype Key = Key(actorId: string, integrationId: string, key: string, verb: string, path: string)

  type Digest = string

  datatype Answer = Answer(status: int, body: string)

  datatype Record = Record(hash: Digest, answer: Option<Answer>, expiresAt: int)

  /** What a request is told instead of, or before, running its handler. */
  datatype Verdict = Execute | Conflict | InProgress | Replay(answer: Answer)

  // ---------- the table ----------

  function Unexpired(records: map<Key, Record>, now: int): map<Key, Record> {
    map k | k in records && records[k].expiresAt > now :: records[k]
  }

  function Begun(records: map<Key, Record>, key: Key, hash: Digest, expiresAt: int, now: int): map<Key, Record> {
    var live := Unexpired(records, now);
    if key in live then live else live[key := Record(hash, None, expiresAt)]
  }

  function VerdictOf(records: map<Key, Record>, key: Key, hash: Digest, now: int): Verdict {
    var live := Unexpired(records, now);
    if key !in live then Execute
    else if live[key].hash != hash then Conflict
    else if live[key].answer.None? then InProgress
    else Replay(live[key].answer.value)
  }

  class IdempotencyTable {
    var records: map<Key, Record>

    constructor ()
      ensures records == map[]
    {
      records := map[];
    }

    method Begin(key: Key, hash: Digest, expiresAt: int, now: int) returns (current: Record, created: bool)
      modifies this
      ensures records == Begun(old(records), key, hash, expiresAt, now)
      ensures key in records && current == records[key] && created == (key !in Unexpired(old(records), now))
    {
      Prune(now);
      if key in records {
        return records[key], false;
      }
      current := Record(hash, None, expiresAt);
      records := records[key := current];
      created := true;
    }

    method Complete(key: Key, answer: Answer, expiresAt: int)
      modifies this
      ensures records == if key in old(records)
                         then old(records)[key := Record(old(records)[key].hash, Some(answer), expiresAt)]
                         else old(records)
    {
      if key in records {
        records := records[key := Record(records[key].hash, Some(answer), expiresAt)];
      }
    }

    method Delete(key: Key)
      modifies this
      ensures records == old(records) - {key}
    {
      records := records - {key};
    }

    method Prune(now: int)
      modifies this
      ensures records == Unexpired(old(records), now)
    {
      records := map k | k in records && records[k].expiresAt > now :: records[k];
    }

    /** The middleware up to the handler. */
    method Reserve(key: Key, hash: Digest, requestedAt: int, now: int) returns (verdict: Verdict)
      modifies this
      ensures verdict == VerdictOf(old(records), key, hash, now)
      ensures records == Begun(old(records), key, hash, requestedAt + PENDING_MS, now)
    {
      var current, created := Begin(key, hash, requestedAt + PENDING_MS, now);
      if created {
        return Execute;
      }
      if current.hash != hash {
        return Conflict;
      }
      if current.answer.None? {
        return InProgress;
      }
      return Replay(current.answer.value);
    }

    /** The middleware after the handler; false when the caller is told of a failure
        to store the answer instead. */
    method Conclude(key: Key, response: BufferedResponse, requestedAt: int, works: bool) returns (flushed: bool)
      modifies this
      ensures records == Concluded(old(records), key, Answer(response.status, response.body), requestedAt, works)
      ensures flushed == (response.status >= 500 || works)
    {
      if response.status >= 500 {
        if works {
          Delete(key);
        }
        return true;
      }
      if works {
        Complete(key, Answer(response.status, response.body), requestedAt + COMPLETE_MS);
      }
      return works;
    }
  }

  function Concluded(records: map<Key, Record>, key: Key, answer: Answer, requestedAt: int, works: bool)
    : map<Key, Record>
  {
    if !works then records
    else if answer.status >= 500 then records - {key}
    else if key in records then records[key := Record(records[key].hash, Some(answer), requestedAt + COMPLETE_MS)]
    else records
  }

  /** What a handler writes, held back: the first status counts, writing without one means 200. */
  class BufferedResponse {
    var status: int
    var body: string
    var wroteHeader: bool

    constructor ()
      ensures status == 200 && body == "" && !wroteHeader
    {
      status, body, wroteHeader := 200, "", false;
    }

    method WriteHeader(code: int)
      modifies this
      ensures wroteHeader && body == old(body) && status == if old(wroteHeader) then old(status) else code
    {
      if wroteHeader {
        return;
      }
      status := code;
      wroteHeader := true;
    }

    method Write(data: string)
      modifies this
      ensures wroteHeader && body == old(body) + data && status == old(status)
    {
      wroteHeader := true;
      body := body + data;
    }
  }

  // ---------- runs ----------

  datatype Run = Run(key: Key, hash: Digest, requestedAt: int)

  /** A handler's last answer that was not a server error. */
  datatype Settled = Settled(hash: Digest, answer: Answer, requestedAt: int)

  datatype Ledger = Ledger(records: map<Key, Record>, running: map<nat, Run>, settled: map<Key, Settled>)

  const NOTHING_YET := Ledger(map[], map[], map[])

  datatype Step =
    | Reserve(id: nat, key: Key, hash: Digest, requestedAt: int, at: int)
    | Finish(id: nat, answer: Answer, works: bool, at: int)
    | Prune(at: int)

  function Next(l: Ledger, step: Step): Ledger {
    match step
    case Reserve(id, key, hash, requestedAt, at) =>
      Ledger(Begun(l.records, key, hash, requestedAt + PENDING_MS, at),
             if VerdictOf(l.records, key, hash, at).Execute? then l.running[id := Run(key, hash, requestedAt)]
             else l.running,
             l.settled)
    case Finish(id, answer, works, at) =>
      if id !in l.running then l
      else
        var run := l.running[id];
        Ledger(Concluded(l.records, run.key, answer, run.requestedAt, works),
               l.running - {id},
               if answer.status >= 500 then l.settled
               else l.settled[run.key := Settled(run.hash, answer, run.requestedAt)])
    case Prune(at) => l.(records := Unexpired(l.records, at))
  }

  /** Steps come in order of time; a handler may take as long as it likes, and storing may fail. */
  ghost predicate Possible(l: Ledger, now: int, step: Step) {
    && now <= step.at
    && (step.Reserve? ==> step.id !in l.running)
    && (step.Finish? ==> step.id in l.running)
  }

  ghost predicate Runs(l: Ledger, now: int, run: seq<Step>)
    decreases |run|
  {
    run != [] ==> Possible(l, now, run[0]) && Runs(Next(l, run[0]), run[0].at, run[1..])
  }

  ghost function After(l: Ledger, run: seq<Step>): Ledger
    decreases |run|
  {
    if run == [] then l else After(Next(l, run[0]), run[1..])
  }

  function Clock(now: int, run: seq<Step>): int
    decreases |run|
  {
    if run == [] then now else Clock(run[0].at, run[1..])
  }

  // ---------- what protects a key ----------

  /** A running handler holds its key's reservation, and alone. */
  ghost predicate Reserved(l: Ledger, k: Key) {
    && (forall id :: id in l.running && l.running[id].key == k ==>
          k in l.records && l.records[k] == Record(l.running[id].hash, None, l.running[id].requestedAt + PENDING_MS))
    && (forall i, j :: i in l.running && j in l.running && l.running[i].key == k && l.running[j].key == k ==> i == j)
  }

  /** For a day after its reservation an answer is what the key's record says, and no
      handler runs. */
  ghost predicate Fixed(l: Ledger, now: int, k: Key)
    requires k in l.settled
  {
    var s := l.settled[k];
    now < s.requestedAt + COMPLETE_MS ==>
      && k in l.records && l.records[k] == Record(s.hash, Some(s.answer), s.requestedAt + COMPLETE_MS)
      && (forall id :: id in l.running ==> l.running[id].key != k)
  }

  ghost predicate Protected(l: Ledger, now: int, k: Key) {
    Reserved(l, k) && (k in l.settled ==> Fixed(l, now, k))
  }

  /** Someone looks at the table when a handler of the key has outlived its
      reservation, or its answer could not be stored. */
  ghost predicate Breaks(l: Ledger, step: Step, k: Key) {
    if step.Finish? then
      && step.id in l.running && l.running[step.id].key == k
      && step.answer.status < 500 && !step.works && step.at < l.running[step.id].requestedAt + COMPLETE_MS
    else
      exists id :: id in l.running && l.running[id].key == k && step.at >= l.running[id].requestedAt + PENDING_MS
  }

  lemma {:induction false} ReserveProtects(l: Ledger, now: int, step: Step, k: Key)
    requires Protected(l, now, k) && step.Reserve? && Possible(l, now, step)
    ensures Protected(Next(l, step), step.at, k) <==> !Breaks(l, step, k)
  {
    var m := Next(l, step);
    if id :| id in l.running && l.running[id].key == k && step.at >= l.running[id].requestedAt + PENDING_MS {
      assert k !in Unexpired(l.records, step.at);
      assert id in m.running && m.running[id] == l.running[id];
      if step.key == k {
        assert m.running[step.id].key == k;
      }
    }
  }

  lemma {:induction false} FinishProtects(l: Ledger, now: int, step: Step, k: Key)
    requires Protected(l, now, k) && step.Finish? && Possible(l, now, step)
    ensures Protected(Next(l, step), step.at, k) <==> !Breaks(l, step, k)
  {
  }

  lemma {:induction false} PruneProtects(l: Ledger, now: int, step: Step, k: Key)
    requires Protected(l, now, k) && step.Prune? && Possible(l, now, step)
    ensures Protected(Next(l, step), step.at, k) <==> !Breaks(l, step, k)
  {
  }

  /** A step ends a key's protection exactly when it breaks it. */
  lemma {:induction false} NextProtects(l: Ledger, now: int, step: Step, k: Key)
    requires Protected(l, now, k) && Possible(l, now, step)
    ensures Protected(Next(l, step), step.at, k) <==> !Breaks(l, step, k)
  {
    match step {
      case Reserve(_, _, _, _, _) => ReserveProtects(l, now, step, k);
      case Finish(_, _, _, _) => FinishProtects(l, now, step, k);
      case Prune(_) => PruneProtects(l, now, step, k);
    }
  }

  /** No step of the run breaks the key's protection. */
  ghost predicate Unbroken(l: Ledger, run: seq<Step>, k: Key)
    decreases |run|
  {
    run != [] ==> !Breaks(l, run[0], k) && Unbroken(Next(l, run[0]), run[1..], k)
  }

  lemma {:induction false} RunProtects(l: Ledger, now: int, run: seq<Step>, k: Key)
    requires Protected(l, now, k) && Runs(l, now, run) && Unbroken(l, run, k)
    ensures Protected(After(l, run), Clock(now, run), k)
    decreases |run|
  {
    if run != [] {
      NextProtects(l, now, run[0], k);
      RunProtects(Next(l, run[0]), run[0].at, run[1..], k);
    }
  }

  // ---------- the promises ----------

  /** Whatever else came before: until a day after the reservation of a request that was
      answered without a server error no handler runs for its key again, and then one
      does. The same body gets exactly that answer; a different one is refused. */
  lemma {:induction false} AnsweredOnce(run: seq<Step>, now: int, key: Key, hash: Digest, at: int)
    requires Runs(NOTHING_YET, now, run) && Unbroken(NOTHING_YET, run, key)
    requires key in After(NOTHING_YET, run).settled && Clock(now, run) <= at
    requires Clock(now, run) < After(NOTHING_YET, run).settled[key].requestedAt + COMPLETE_MS
    ensures var l := After(NOTHING_YET, run);
      VerdictOf(l.records, key, hash, at)
      == if at >= l.settled[key].requestedAt + 86_400_000 then Execute
         else if hash == l.settled[key].hash then Replay(l.settled[key].answer)
         else Conflict
  {
    RunProtects(NOTHING_YET, now, run, key);
  }

  /** While a handler runs, another one for its key starts exactly if the pending time is
      over; before that the same body is told to wait, and a different one is refused. */
  lemma {:induction false} OneAtATime(run: seq<Step>, now: int, id: nat, hash: Digest, at: int)
    requires Runs(NOTHING_YET, now, run) && id in After(NOTHING_YET, run).running && Clock(now, run) <= at
    requires Unbroken(NOTHING_YET, run, After(NOTHING_YET, run).running[id].key)
    ensures var l := After(NOTHING_YET, run);
      VerdictOf(l.records, l.running[id].key, hash, at)
      == if at >= l.running[id].requestedAt + 300_000 then Execute
         else if hash == l.running[id].hash then InProgress
         else Conflict
  {
    RunProtects(NOTHING_YET, now, run, After(NOTHING_YET, run).running[id].key);
  }

  lemma {:induction false} NextKeepsSettled(l: Ledger, now: int, step: Step, key: Key)
    requires Protected(l, now, key) && Possible(l, now, step) && key in l.settled
    requires step.at < l.settled[key].requestedAt + COMPLETE_MS
    ensures key in Next(l, step).settled && Next(l, step).settled[key] == l.settled[key]
    ensures !Breaks(l, step, key)
  {
  }

  /** The answer that stands is not replaced during its day, and nothing breaks its
      protection then. */
  lemma {:induction false} AnswerStands(l: Ledger, now: int, run: seq<Step>, key: Key)
    requires Protected(l, now, key) && Runs(l, now, run) && key in l.settled
    requires Clock(now, run) < l.settled[key].requestedAt + COMPLETE_MS
    ensures key in After(l, run).settled && After(l, run).settled[key] == l.settled[key]
    ensures Protected(After(l, run), Clock(now, run), key)
    decreases |run|
  {
    if run != [] {
      ClockGrows(Next(l, run[0]), run[0].at, run[1..]);
      NextKeepsSettled(l, now, run[0], key);
      NextProtects(l, now, run[0], key);
      AnswerStands(Next(l, run[0]), run[0].at, run[1..], key);
    }
  }

  lemma {:induction false} ClockGrows(l: Ledger, now: int, run: seq<Step>)
    requires Runs(l, now, run)
    ensures now <= Clock(now, run)
    decreases |run|
  {
    if run != [] {
      ClockGrows(Next(l, run[0]), run[0].at, run[1..]);
    }
  }

  // ---------- where they end ----------

  /** A handler's answer is stored under whatever body the key's record then has. A
      request with another body is answered with it exactly if the record is that
      request's, until a day after the handler's own reservation. */
  lemma {:induction false} AnswerMisfiledExactly(l: Ledger, id: nat, answer: Answer, t: int, other: Digest, at: int)
    requires id in l.running && answer.status < 500 && other != l.running[id].hash
    ensures var run := l.running[id];
      VerdictOf(Next(l, Finish(id, answer, true, t)).records, run.key, other, at) == Replay(answer)
      <==> && run.key in l.records && l.records[run.key].hash == other && at < run.requestedAt + COMPLETE_MS
  {
  }

  /** A server error frees the key whoever holds it: with two handlers running for it,
      the other one's reservation goes, and any request starts a third. */
  lemma {:induction false} ErrorFreesOthers(l: Ledger, id: nat, j: nat, answer: Answer, t: int, hash: Digest, at: int)
    requires id in l.running && j in l.running && j != id && l.running[j].key == l.running[id].key
    requires answer.status >= 500
    ensures var m := Next(l, Finish(id, answer, true, t));
      && j in m.running && m.running[j].key !in m.records
      && VerdictOf(m.records, m.running[j].key, hash, at).Execute?
  {
  }

  /** A handler has outlived its reservation, and a second request for its key with another
      body has been let in. */
  function Overtaken(key: Key, hash: Digest, other: Digest, at: int): seq<Step> {
    [Reserve(0, key, hash, at, at), Reserve(1, key, other, at + PENDING_MS, at + PENDING_MS)]
  }

  lemma {:induction false} OvertakenRuns(key: Key, hash: Digest, other: Digest, at: int)
    ensures var run := Overtaken(key, hash, other, at);
      && Runs(NOTHING_YET, at, run)
      && After(NOTHING_YET, run)
         == Ledger(map[key := Record(other, None, at + PENDING_MS + PENDING_MS)],
                   map[0 := Run(key, hash, at), 1 := Run(key, other, at + PENDING_MS)], map[])
  {
    var run := Overtaken(key, hash, other, at);
    var first := Next(NOTHING_YET, run[0]);
    assert first == Ledger(map[key := Record(hash, None, at + PENDING_MS)], map[0 := Run(key, hash, at)], map[]);
    var second := Next(first, run[1]);
    assert second.records == map[key := Record(other, None, at + PENDING_MS + PENDING_MS)];
    assert run[1..] == [run[1]] && run[1..][1..] == [];
    assert After(NOTHING_YET, run) == After(first, run[1..]) == After(second, []) == second;
  }

  /** Both happen. When the late handler answers, the second body is answered with it;
      when it fails, the second handler, well within its time, is no longer alone. */
  lemma {:induction false} LateHandlerHarms(key: Key, hash: Digest, other: Digest, answer: Answer, at: int)
    requires hash != other
    ensures Runs(NOTHING_YET, at, Overtaken(key, hash, other, at))
    ensures var l := After(NOTHING_YET, Overtaken(key, hash, other, at));
      var late := Next(l, Finish(0, answer, true, at + PENDING_MS));
      && Possible(l, at + PENDING_MS, Finish(0, answer, true, at + PENDING_MS)) && 1 in late.running
      && VerdictOf(late.records, key, other, at + PENDING_MS)
         == if answer.status < 500 then Replay(answer) else Execute
  {
    OvertakenRuns(key, hash, other, at);
    var l := After(NOTHING_YET, Overtaken(key, hash, other, at));
    if answer.status < 500 {
      AnswerMisfiledExactly(l, 0, answer, at + PENDING_MS, other, at + PENDING_MS);
    } else {
      ErrorFreesOthers(l, 0, 1, answer, at + PENDING_MS, other, at + PENDING_MS);
    }
  }
}
