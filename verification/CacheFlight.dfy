/** Single flight: at most one download per track, however listeners, readers and
    background drains interleave. Every step below is one critical section or one
    channel operation of the original. */
module CacheFlight {
  /** Until it is settled, several workers may compete to end a download. */
  datatype Phase =
    | Running
    | Storing
    | Settled(failed: bool)
    | Unlisted(failed: bool)
    | Closed(failed: bool)

  /** `recorded` remembers that the row was written, `closings` how often the
      download's channel was closed. */
  datatype Download = Download(ref: string, phase: Phase, recorded: bool, closings: nat)

  datatype Follower = Waiting(download: nat) | Refused(download: nat) | Served(download: nat) | Missed(download: nat)

  datatype Flight = Flight(
    inflight: map<string, nat>,
    downloads: seq<Download>,
    rows: set<string>,
    followers: seq<Follower>
  )

  const EMPTY_FLIGHT := Flight(map[], [], {}, [])

  datatype Step =
    | Enter(ref: string)
    | Lose(download: nat)
    | Win(download: nat)
    | Store(download: nat, works: bool)
    | Unlist(download: nat)
    | CloseChannel(download: nat)
    | Wake(follower: nat)
    | Evict(ref: string)

  predicate Live(p: Phase) { p.Running? || p.Storing? || p.Settled? }

  /** A worker goes on only from where it is; the competitors for the end of a
      download may come at any time and any number of times. */
  predicate Enabled(f: Flight, step: Step) {
    match step
    case Enter(_) => true
    case Lose(d) => d < |f.downloads|
    case Win(d) => d < |f.downloads|
    case Store(d, _) => d < |f.downloads| && f.downloads[d].phase.Storing?
    case Unlist(d) => d < |f.downloads| && f.downloads[d].phase.Settled?
    case CloseChannel(d) => d < |f.downloads| && f.downloads[d].phase.Unlisted?
    case Wake(w) =>
      && w < |f.followers| && f.followers[w].Waiting? && f.followers[w].download < |f.downloads|
      && f.downloads[f.followers[w].download].phase.Closed?
    case Evict(_) => true
  }

  function Moved(f: Flight, d: nat, phase: Phase): Flight
    requires d < |f.downloads|
  {
    f.(downloads := f.downloads[d := f.downloads[d].(phase := phase)])
  }

  function Next(f: Flight, step: Step): Flight
    requires Enabled(f, step)
  {
    match step
    case Enter(ref) =>
      if ref in f.inflight then f.(followers := f.followers + [Waiting(f.inflight[ref])])
      else f.(inflight := f.inflight[ref := |f.downloads|],
              downloads := f.downloads + [Download(ref, Running, false, 0)])
    case Lose(d) => if f.downloads[d].phase.Running? then Moved(f, d, Settled(true)) else f
    case Win(d) => if f.downloads[d].phase.Running? then Moved(f, d, Storing) else f
    case Store(d, works) =>
      if works then
        var stored := f.downloads[d].(phase := Settled(false), recorded := true);
        f.(downloads := f.downloads[d := stored], rows := f.rows + {f.downloads[d].ref})
      else Moved(f, d, Settled(true))
    case Unlist(d) => Moved(f, d, Unlisted(f.downloads[d].phase.failed)).(inflight := f.inflight - {f.downloads[d].ref})
    case CloseChannel(d) =>
      var x := f.downloads[d];
      var closed := x.(phase := Closed(x.phase.failed), closings := x.closings + 1);
      f.(downloads := f.downloads[d := closed])
    case Wake(w) =>
      var d := f.followers[w].download;
      var woken := if f.downloads[d].phase.failed then Refused(d)
                   else if f.downloads[d].ref in f.rows then Served(d) else Missed(d);
      f.(followers := f.followers[w := woken])
    case Evict(ref) => f.(rows := f.rows - {ref})
  }

  // ---------- what holds throughout ----------

  ghost predicate Listed(f: Flight, d: nat)
    requires d < |f.downloads|
  {
    f.downloads[d].ref in f.inflight && f.inflight[f.downloads[d].ref] == d
  }

  ghost predicate Settling(x: Download) {
    && (x.phase.Running? || x.phase.Storing? ==> !x.recorded)
    && (x.phase.Settled? || x.phase.Unlisted? || x.phase.Closed? ==> (x.recorded <==> !x.phase.failed))
    && x.closings == (if x.phase.Closed? then 1 else 0)
  }

  /** The table lists exactly the live downloads, each under its own track; a
      follower that was not refused waited for a download whose row was written. */
  ghost predicate Sound(f: Flight) {
    && (forall d :: 0 <= d < |f.downloads| ==> Settling(f.downloads[d]))
    && (forall d :: 0 <= d < |f.downloads| ==> (Live(f.downloads[d].phase) <==> Listed(f, d)))
    && (forall ref :: ref in f.inflight ==> f.inflight[ref] < |f.downloads| && f.downloads[f.inflight[ref]].ref == ref)
    && (forall w :: 0 <= w < |f.followers| ==> FollowerSound(f.downloads, f.followers[w]))
  }

  ghost predicate FollowerSound(downloads: seq<Download>, w: Follower) {
    && w.download < |downloads|
    && (w.Served? || w.Missed? ==> downloads[w.download].phase == Closed(false) && downloads[w.download].recorded)
    && (w.Refused? ==> downloads[w.download].phase == Closed(true) && !downloads[w.download].recorded)
  }

  lemma {:induction false} NextDownloads(f: Flight, step: Step, d: nat)
    requires Sound(f) && Enabled(f, step) && d < |Next(f, step).downloads|
    ensures var g := Next(f, step); Settling(g.downloads[d]) && (Live(g.downloads[d].phase) <==> Listed(g, d))
  {
    if d < |f.downloads| {
      assert Live(f.downloads[d].phase) <==> Listed(f, d);
    }
  }

  lemma {:induction false} NextFollowers(f: Flight, step: Step, w: nat)
    requires Sound(f) && Enabled(f, step) && w < |Next(f, step).followers|
    ensures FollowerSound(Next(f, step).downloads, Next(f, step).followers[w])
  {
    if w < |f.followers| {
      assert FollowerSound(f.downloads, f.followers[w]);
    }
  }

  lemma {:induction false} NextInflight(f: Flight, step: Step, ref: string)
    requires Sound(f) && Enabled(f, step) && ref in Next(f, step).inflight
    ensures var g := Next(f, step); g.inflight[ref] < |g.downloads| && g.downloads[g.inflight[ref]].ref == ref
  {
  }

  lemma {:induction false} NextSound(f: Flight, step: Step)
    requires Sound(f) && Enabled(f, step)
    ensures Sound(Next(f, step))
  {
    var g := Next(f, step);
    forall d | 0 <= d < |g.downloads|
      ensures Settling(g.downloads[d]) && (Live(g.downloads[d].phase) <==> Listed(g, d))
    {
      NextDownloads(f, step, d);
    }
    forall w | 0 <= w < |g.followers|
      ensures FollowerSound(g.downloads, g.followers[w])
    {
      NextFollowers(f, step, w);
    }
    forall ref | ref in g.inflight
      ensures g.inflight[ref] < |g.downloads| && g.downloads[g.inflight[ref]].ref == ref
    {
      NextInflight(f, step, ref);
    }
  }

  ghost predicate Runs(f: Flight, run: seq<Step>)
    decreases |run|
  {
    run != [] ==> Enabled(f, run[0]) && Runs(Next(f, run[0]), run[1..])
  }

  ghost function After(f: Flight, run: seq<Step>): Flight
    requires Runs(f, run)
    decreases |run|
  {
    if run == [] then f else After(Next(f, run[0]), run[1..])
  }

  lemma {:induction false} RunSound(f: Flight, run: seq<Step>)
    requires Sound(f) && Runs(f, run)
    ensures Sound(After(f, run))
    decreases |run|
  {
    if run != [] {
      NextSound(f, run[0]);
      RunSound(Next(f, run[0]), run[1..]);
    }
  }

  // ---------- the promises ----------

  /** At any moment, whatever happened before: one live download per track, and its
      entry in the table is its own. */
  lemma {:induction false} OneLivePerTrack(run: seq<Step>, d: nat, e: nat)
    requires Runs(EMPTY_FLIGHT, run)
    requires var f := After(EMPTY_FLIGHT, run);
      && d < |f.downloads| && e < |f.downloads| && f.downloads[d].ref == f.downloads[e].ref
      && Live(f.downloads[d].phase) && Live(f.downloads[e].phase)
    ensures d == e
  {
    RunSound(EMPTY_FLIGHT, run);
    var f := After(EMPTY_FLIGHT, run);
    assert Listed(f, d) && Listed(f, e);
  }

  /** A download's channel is closed exactly once, and only after it was settled. */
  lemma {:induction false} ClosedOnce(run: seq<Step>, d: nat)
    requires Runs(EMPTY_FLIGHT, run) && d < |After(EMPTY_FLIGHT, run).downloads|
    ensures var x := After(EMPTY_FLIGHT, run).downloads[d]; x.closings == if x.phase.Closed? then 1 else 0
  {
    RunSound(EMPTY_FLIGHT, run);
    assert Settling(After(EMPTY_FLIGHT, run).downloads[d]);
  }

  /** A follower is told of success only when the row had been written before, and
      refused only when it had not. */
  lemma {:induction false} WokenTruly(run: seq<Step>, w: nat)
    requires Runs(EMPTY_FLIGHT, run) && w < |After(EMPTY_FLIGHT, run).followers|
    ensures var f := After(EMPTY_FLIGHT, run);
      f.followers[w].Waiting? || (f.followers[w].download < |f.downloads|
        && (f.downloads[f.followers[w].download].recorded <==> !f.followers[w].Refused?))
  {
    RunSound(EMPTY_FLIGHT, run);
    assert FollowerSound(After(EMPTY_FLIGHT, run).downloads, After(EMPTY_FLIGHT, run).followers[w]);
  }

  lemma {:induction false} NextSettled(f: Flight, step: Step, d: nat)
    requires Sound(f) && Enabled(f, step) && d < |f.downloads|
    ensures var x, y := f.downloads[d], Next(f, step).downloads[d];
      && y.ref == x.ref
      && (!x.phase.Running? && !x.phase.Storing? ==>
            !y.phase.Running? && !y.phase.Storing? && y.phase.failed == x.phase.failed && y.recorded == x.recorded)
  {
  }

  /** Once settled, no late competitor changes how a download ended. */
  lemma {:induction false} OutcomeStands(f: Flight, run: seq<Step>, d: nat)
    requires Sound(f) && Runs(f, run) && d < |f.downloads|
    requires !f.downloads[d].phase.Running? && !f.downloads[d].phase.Storing?
    ensures var g := After(f, run);
      d < |g.downloads| && !g.downloads[d].phase.Running? && !g.downloads[d].phase.Storing?
      && g.downloads[d].phase.failed == f.downloads[d].phase.failed
      && g.downloads[d].recorded == f.downloads[d].recorded
    decreases |run|
  {
    if run != [] {
      NextSound(f, run[0]);
      NextSettled(f, run[0], d);
      OutcomeStands(Next(f, run[0]), run[1..], d);
    }
  }

  /** Whoever enters follows the live download of the track, and starts one exactly if
      there is none. */
  lemma {:induction false} EnterFollowsOrStarts(f: Flight, ref: string)
    requires Sound(f)
    ensures var g := Next(f, Enter(ref));
      var live := exists d :: 0 <= d < |f.downloads| && f.downloads[d].ref == ref && Live(f.downloads[d].phase);
      && g.rows == f.rows
      && (live ==> g.downloads == f.downloads && |g.followers| == |f.followers| + 1
                   && var w := g.followers[|f.followers|];
                      w.Waiting? && w.download < |f.downloads| && f.downloads[w.download].ref == ref
                      && Live(f.downloads[w.download].phase))
      && (!live ==> g.followers == f.followers && g.downloads == f.downloads + [Download(ref, Running, false, 0)])
  {
    if ref in f.inflight {
      assert Listed(f, f.inflight[ref]);
    } else {
      assert forall d :: 0 <= d < |f.downloads| && f.downloads[d].ref == ref ==> !Listed(f, d);
    }
  }

  /** How a download ends is how its end went: a competitor that fails first fails it, and
      storing settles it as it went, with the row there exactly if it worked. */
  lemma {:induction false} EndsAsItWent(f: Flight, d: nat, works: bool)
    requires d < |f.downloads|
    ensures f.downloads[d].phase.Running? ==>
              && Next(f, Lose(d)).downloads[d] == f.downloads[d].(phase := Settled(true))
              && Next(f, Win(d)).downloads[d] == f.downloads[d].(phase := Storing)
    ensures !f.downloads[d].phase.Running? ==> Next(f, Lose(d)) == f && Next(f, Win(d)) == f
    ensures Next(f, Lose(d)).rows == f.rows && Next(f, Win(d)).rows == f.rows
    ensures f.downloads[d].phase.Storing? ==>
              var g := Next(f, Store(d, works));
              && g.downloads[d].phase == Settled(!works) && (works ==> g.downloads[d].recorded)
              && (forall ref :: ref in g.rows <==> ref in f.rows || (works && ref == f.downloads[d].ref))
  {
  }

  /** Evicting a track takes its row and nothing else, whoever downloads or waits. */
  lemma {:induction false} EvictTakesTheRow(f: Flight, ref: string)
    ensures var g := Next(f, Evict(ref));
      && g == f.(rows := g.rows) && forall r :: r in g.rows <==> r in f.rows && r != ref
  {
  }

  /** A follower of a download that ended well is served exactly if its row is still there. */
  lemma {:induction false} WakesByTheRow(f: Flight, w: nat)
    requires Sound(f) && Enabled(f, Wake(w))
    ensures var d := f.followers[w].download;
      var woken := Next(f, Wake(w)).followers[w];
      && woken.download == d
      && (woken.Refused? <==> f.downloads[d].phase == Closed(true))
      && (woken.Served? <==> f.downloads[d].phase == Closed(false) && f.downloads[d].ref in f.rows)
      && (woken.Missed? <==> f.downloads[d].phase == Closed(false) && f.downloads[d].ref !in f.rows)
  {
  }

  // ---------- eviction ----------

  /** One cached object; `stuck` when its file cannot be removed. */
  datatype Row = Row(ref: string, size: nat, stuck: bool)

  function Total(rows: seq<Row>): nat {
    if rows == [] then 0 else rows[0].size + Total(rows[1..])
  }

  predicate Evictable(row: Row, inflight: set<string>) { row.ref !in inflight && !row.stuck }

  /** Those of the given rows that stay because they are in use or cannot be removed. */
  function Spared(rows: seq<Row>, inflight: set<string>): seq<Row> {
    if rows == [] then []
    else
      var last := rows[|rows| - 1];
      Spared(rows[..|rows| - 1], inflight) + if Evictable(last, inflight) then [] else [last]
  }

  /** Rows in order of last use, once the first `stop` of them have been evicted where possible. */
  function Evicted(rows: seq<Row>, inflight: set<string>, stop: nat): seq<Row>
    requires stop <= |rows|
  {
    Spared(rows[..stop], inflight) + rows[stop..]
  }

  lemma {:induction false} TotalConcat(a: seq<Row>, b: seq<Row>)
    ensures Total(a + b) == Total(a) + Total(b)
    decreases |a|
  {
    if a == [] {
      assert a + b == b;
    } else {
      assert (a + b)[1..] == a[1..] + b;
      TotalConcat(a[1..], b);
    }
  }

  lemma {:induction false} EvictedNext(rows: seq<Row>, inflight: set<string>, stop: nat)
    requires stop < |rows|
    ensures Total(Evicted(rows, inflight, stop + 1))
         == Total(Evicted(rows, inflight, stop)) - (if Evictable(rows[stop], inflight) then rows[stop].size else 0)
  {
    var spared, row := Spared(rows[..stop], inflight), rows[stop];
    assert rows[..stop + 1][..stop] == rows[..stop];
    assert rows[stop..] == [row] + rows[stop + 1..];
    TotalConcat(spared, rows[stop..]);
    TotalConcat([row], rows[stop + 1..]);
    TotalConcat(spared + [row], rows[stop + 1..]);
    TotalConcat(spared, [row]);
    TotalConcat(spared, rows[stop + 1..]);
    assert [row][1..] == [];
    assert spared + [] == spared;
  }

  lemma {:induction false} SparedNext(rows: seq<Row>, inflight: set<string>, stop: nat)
    requires stop < |rows|
    ensures Spared(rows[..stop + 1], inflight)
         == Spared(rows[..stop], inflight) + if Evictable(rows[stop], inflight) then [] else [rows[stop]]
  {
    assert rows[..stop + 1][..stop] == rows[..stop];
  }

  /** A row stays exactly if the eviction did not come to it, or it is in use or stuck. */
  ghost predicate Stays(rows: seq<Row>, inflight: set<string>, stop: nat, i: nat)
    requires i < |rows|
  {
    i >= stop || rows[i].ref in inflight || rows[i].stuck
  }

  lemma {:induction false} SparedHas(rows: seq<Row>, inflight: set<string>, x: Row)
    ensures x in Spared(rows, inflight) <==> x in rows && (x.ref in inflight || x.stuck)
    decreases |rows|
  {
    if rows != [] {
      var n := |rows| - 1;
      SparedHas(rows[..n], inflight, x);
      assert rows == rows[..n] + [rows[n]];
    }
  }

  lemma {:induction false} KeptExactly(rows: seq<Row>, inflight: set<string>, stop: nat, x: Row)
    requires stop <= |rows|
    ensures x in Evicted(rows, inflight, stop) <==> exists i: nat :: i < |rows| && rows[i] == x && Stays(rows, inflight, stop, i)
  {
    SparedHas(rows[..stop], inflight, x);
    if x in Spared(rows[..stop], inflight) {
      var i :| 0 <= i < stop && rows[..stop][i] == x;
      assert Stays(rows, inflight, stop, i);
    }
    if x in rows[stop..] {
      var i :| 0 <= i < |rows| - stop && rows[stop..][i] == x;
      assert Stays(rows, inflight, stop, stop + i);
    }
    if i: nat :| i < |rows| && rows[i] == x && Stays(rows, inflight, stop, i) {
      if i >= stop {
        assert rows[stop..][i - stop] == x;
      } else {
        assert rows[..stop][i] == x;
      }
    }
  }

  /** Rows go in order of last use and only as long as the cache is over its limit:
      in the end it is within the limit or nothing more could go, and one row fewer
      would have been too few. */
  method EvictLru(rows: seq<Row>, inflight: set<string>, maxBytes: int) returns (kept: seq<Row>, stop: nat)
    ensures stop <= |rows| && kept == Evicted(rows, inflight, stop)
    ensures Total(kept) <= maxBytes || stop == |rows|
    ensures stop > 0 ==> Total(Evicted(rows, inflight, stop - 1)) > maxBytes
    ensures forall x :: x in kept <==>
                          exists i: nat :: i < |rows| && rows[i] == x && Stays(rows, inflight, stop, i)
  {
    var total := 0;
    assert rows[0..] == rows;
    for i := 0 to |rows|
      invariant total + Total(rows[i..]) == Total(rows)
    {
      total := total + rows[i].size;
      assert rows[i..][1..] == rows[i + 1..];
    }
    var spared: seq<Row> := [];
    stop := 0;
    assert [] + rows[0..] == rows;
    while stop < |rows| && total > maxBytes
      invariant stop <= |rows|
      invariant spared == Spared(rows[..stop], inflight)
      invariant total == Total(Evicted(rows, inflight, stop))
      invariant stop > 0 ==> Total(Evicted(rows, inflight, stop - 1)) > maxBytes
    {
      EvictedNext(rows, inflight, stop);
      SparedNext(rows, inflight, stop);
      var row := rows[stop];
      if row.ref !in inflight && !row.stuck {
        total := total - row.size;
      } else {
        spared := spared + [row];
      }
      stop := stop + 1;
    }
    kept := spared + rows[stop..];
    forall x
      ensures x in kept <==> exists i: nat :: i < |rows| && rows[i] == x && Stays(rows, inflight, stop, i)
    {
      KeptExactly(rows, inflight, stop, x);
    }
  }
}
