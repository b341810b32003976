/** Limits on wrong passwords and access codes. The limiters forget expired counts at
    odd times; they decide as one that forgets nothing and only ignores them. */
module ProbeLimiter {
  import opened Wrappers

  const WINDOW_MS := 10 * 60 * 1000
  const ACCESS_LIMIT: nat := 10
  const GUEST_PASSWORD_LIMIT: nat := 10
  const GLOBAL_PASSWORD_LIMIT: nat := 100
  const PASSWORDLESS_LIMIT: nat := 20

  datatype Bucket = Bucket(count: nat, start: int)

  type Buckets = map<string, Bucket>

  /** What counts for a key now: a bucket whose window is over is none. */
  function Live(m: Buckets, k: string, now: int): Option<Bucket> {
    if k in m && now < m[k].start + WINDOW_MS then Some(m[k]) else None
  }

  function Counted(m: Buckets, k: string, now: int): Buckets {
    match Live(m, k, now)
    case None => m[k := Bucket(1, now)]
    case Some(b) => m[k := Bucket(b.count + 1, b.start)]
  }

  predicate Full(m: Buckets, k: string, now: int, limit: nat) {
    Live(m, k, now).Some? && Live(m, k, now).value.count >= limit
  }

  function Swept(m: Buckets, now: int): Buckets {
    map k | k in m && now < m[k].start + WINDOW_MS :: m[k]
  }

  // ---------- the references: nothing is ever forgotten ----------

  datatype Probe = Probe(key: string, matched: bool, at: int)

  predicate Admits(m: Buckets, p: Probe) {
    p.matched || !Full(m, p.key, p.at, ACCESS_LIMIT)
  }

  function Remember(m: Buckets, p: Probe): Buckets {
    if p.matched then m - {p.key}
    else if Admits(m, p) then Counted(m, p.key, p.at)
    else m
  }

  datatype Login = Login(ip: string, submitted: bool, matched: bool, at: int)

  datatype Logins = Logins(ips: Buckets, guests: Buckets, globalCount: nat, globalStart: Option<int>)

  function Ticked(r: Logins, now: int): Logins {
    if r.globalStart.Some? && now >= r.globalStart.value + WINDOW_MS then r.(globalCount := 0, globalStart := None)
    else r
  }

  /** A wrong password counts against all, whether its own address is blocked or not. */
  function Attempt(r: Logins, l: Login): (Logins, bool) {
    if !l.submitted then
      if Full(r.guests, l.ip, l.at, PASSWORDLESS_LIMIT) then (r, false)
      else (r.(guests := Counted(r.guests, l.ip, l.at)), true)
    else
      var a := Ticked(r, l.at);
      if a.globalCount >= GLOBAL_PASSWORD_LIMIT then (a, false)
      else
        var b := if l.matched then a
                 else a.(globalCount := a.globalCount + 1,
                         globalStart := if a.globalStart.None? then Some(l.at) else a.globalStart);
        if Full(b.ips, l.ip, l.at, GUEST_PASSWORD_LIMIT) then (b, false)
        else if l.matched then (b.(ips := b.ips - {l.ip}), true)
        else (b.(ips := Counted(b.ips, l.ip, l.at)), true)
  }

  // ---------- refinement ----------

  ghost predicate Same(a: Buckets, b: Buckets, now: int) {
    forall k :: Live(a, k, now) == Live(b, k, now)
  }

  lemma {:induction false} SameLater(a: Buckets, b: Buckets, now: int, later: int)
    requires Same(a, b, now) && now <= later
    ensures Same(a, b, later)
  {
    forall k
      ensures Live(a, k, later) == Live(b, k, later)
    {
      assert Live(a, k, now) == Live(b, k, now);
    }
  }

  lemma {:induction false} SameSwept(a: Buckets, b: Buckets, now: int)
    requires Same(a, b, now)
    ensures Same(Swept(a, now), b, now)
  {
    forall k
      ensures Live(Swept(a, now), k, now) == Live(b, k, now)
    {
      assert Live(a, k, now) == Live(b, k, now);
    }
  }

  lemma {:induction false} SameWithout(a: Buckets, b: Buckets, key: string, now: int)
    requires Same(a, b, now)
    ensures Same(a - {key}, b - {key}, now)
    ensures Live(a, key, now).None? ==> Same(a - {key}, b, now)
  {
    forall k
      ensures Live(a - {key}, k, now) == Live(b - {key}, k, now)
      ensures Live(a, key, now).None? ==> Live(a - {key}, k, now) == Live(b, k, now)
    {
      assert Live(a, k, now) == Live(b, k, now);
    }
  }

  lemma {:induction false} SameCounted(a: Buckets, b: Buckets, key: string, now: int)
    requires Same(a, b, now)
    ensures Same(Counted(a, key, now), Counted(b, key, now), now)
  {
    assert Live(a, key, now) == Live(b, key, now);
    forall k
      ensures Live(Counted(a, key, now), k, now) == Live(Counted(b, key, now), k, now)
    {
      assert Live(a, k, now) == Live(b, k, now);
    }
  }

  /** Sweeping and dropping one closed bucket, before anything is decided. */
  lemma {:induction false} SameTidied(a: Buckets, b: Buckets, key: string, clock: int, now: int, sweep: bool)
    requires Same(a, b, clock) && clock <= now
    ensures var swept := if sweep then Swept(a, now) else a;
      var tidy := if key in swept && now >= swept[key].start + WINDOW_MS then swept - {key} else swept;
      && Same(tidy, b, now)
      && Live(b, key, now) == if key in tidy then Some(tidy[key]) else None
  {
    SameLater(a, b, clock, now);
    SameSwept(a, b, now);
    var swept := if sweep then Swept(a, now) else a;
    SameWithout(swept, b, key, now);
    assert Live(swept, key, now) == Live(b, key, now);
  }

  class AccessLimiter {
    var buckets: Buckets
    var lastCleanup: int
    ghost var reference: Buckets
    ghost var clock: int

    ghost predicate Valid()
      reads this
    {
      Same(buckets, reference, clock)
    }

    constructor (now: int)
      ensures Valid() && reference == map[] && clock == now
    {
      buckets, lastCleanup, reference, clock := map[], now, map[], now;
    }

    /** Closed buckets go, all of them now and then and the key's own each time. */
    method Tidy(key: string, now: int)
      requires Valid() && clock <= now
      modifies this`buckets, this`lastCleanup, this`clock
      ensures Valid() && clock == now
      ensures Live(reference, key, now) == if key in buckets then Some(buckets[key]) else None
    {
      SameTidied(buckets, reference, key, clock, now, now >= lastCleanup + WINDOW_MS);
      clock := now;
      if now >= lastCleanup + WINDOW_MS {
        buckets := Swept(buckets, now);
        lastCleanup := now;
      }
      if key in buckets && now >= buckets[key].start + WINDOW_MS {
        buckets := buckets - {key};
      }
    }

    /** Along any clock that does not run backwards it decides as the reference does. */
    method Allow(key: string, matched: bool, now: int) returns (ok: bool)
      requires Valid() && clock <= now
      modifies this
      ensures Valid() && clock == now
      ensures ok == Admits(old(reference), Probe(key, matched, now))
      ensures reference == Remember(old(reference), Probe(key, matched, now))
    {
      Tidy(key, now);
      if matched {
        SameWithout(buckets, reference, key, now);
        buckets := buckets - {key};
        reference := reference - {key};
        return true;
      }
      if key in buckets && buckets[key].count >= ACCESS_LIMIT {
        return false;
      }
      SameCounted(buckets, reference, key, now);
      reference := Counted(reference, key, now);
      if key !in buckets {
        buckets := buckets[key := Bucket(0, now)];
      }
      buckets := buckets[key := buckets[key].(count := buckets[key].count + 1)];
      return true;
    }
  }

  /** The window of all addresses together is open exactly while something counts in it. */
  ghost predicate Started(r: Logins, now: int) {
    && (r.globalStart.None? <==> r.globalCount == 0)
    && (r.globalStart.Some? ==> r.globalStart.value <= now)
  }

  class PasswordLimiter {
    var ips: Buckets
    var guests: Buckets
    var globalCount: nat
    var globalStart: Option<int>
    var lastCleanup: int
    ghost var reference: Logins
    ghost var clock: int

    ghost predicate Valid()
      reads this
    {
      && Same(ips, reference.ips, clock) && Same(guests, reference.guests, clock)
      && globalCount == reference.globalCount && globalStart == reference.globalStart
      && Started(reference, clock)
    }

    constructor (now: int)
      ensures Valid() && reference == Logins(map[], map[], 0, None) && clock == now
    {
      ips, guests, globalCount, globalStart, lastCleanup := map[], map[], 0, None, now;
      reference, clock := Logins(map[], map[], 0, None), now;
    }

    method CleanupExpired(now: int)
      requires Valid() && clock <= now
      modifies this`ips, this`guests, this`lastCleanup, this`clock
      ensures Valid() && clock == now
    {
      SameLater(ips, reference.ips, clock, now);
      SameLater(guests, reference.guests, clock, now);
      clock := now;
      if now < lastCleanup + WINDOW_MS {
        return;
      }
      SameSwept(ips, reference.ips, now);
      SameSwept(guests, reference.guests, now);
      ips, guests := Swept(ips, now), Swept(guests, now);
      lastCleanup := now;
    }

    /** The passwordless login of a guest. */
    method AllowGuest(ip: string, now: int) returns (ok: bool)
      requires Valid() && now == clock
      modifies this`guests, this`reference
      ensures Valid()
      ensures (reference, ok) == Attempt(old(reference), Login(ip, false, false, clock))
    {
      assert Live(guests, ip, now) == Live(reference.guests, ip, now);
      if ip in guests && now >= guests[ip].start + WINDOW_MS {
        SameWithout(guests, reference.guests, ip, now);
        guests := guests - {ip};
      }
      if ip in guests && guests[ip].count >= PASSWORDLESS_LIMIT {
        return false;
      }
      SameCounted(guests, reference.guests, ip, now);
      guests := guests[ip := if ip in guests then Bucket(guests[ip].count + 1, guests[ip].start) else Bucket(1, now)];
      reference := reference.(guests := Counted(reference.guests, ip, now));
      return true;
    }

    /** Against all addresses together. */
    method AllowGlobal(matched: bool, now: int) returns (ok: bool)
      requires Valid() && now == clock
      modifies this`globalCount, this`globalStart, this`reference
      ensures Valid() && reference.ips == old(reference).ips && reference.guests == old(reference).guests
      ensures var a := Ticked(old(reference), clock);
        && ok == (a.globalCount < GLOBAL_PASSWORD_LIMIT)
        && reference == (if !ok || matched then a
                         else a.(globalCount := a.globalCount + 1,
                                 globalStart := if a.globalStart.None? then Some(clock) else a.globalStart))
    {
      if globalStart.Some? && now >= globalStart.value + WINDOW_MS {
        globalCount, globalStart := 0, None;
      }
      reference := Ticked(reference, now);
      if globalCount >= GLOBAL_PASSWORD_LIMIT {
        return false;
      }
      if !matched {
        if globalStart.None? {
          globalStart := Some(now);
        }
        globalCount := globalCount + 1;
        reference := reference.(globalCount := globalCount, globalStart := globalStart);
      }
      return true;
    }

    /** Against one address; a full bucket rejects even the right password. */
    method AllowAddress(ip: string, matched: bool, now: int) returns (ok: bool)
      requires Valid() && now == clock
      modifies this`ips, this`reference
      ensures Valid() && ok == !Full(old(reference).ips, ip, clock, GUEST_PASSWORD_LIMIT)
      ensures reference == (if !ok then old(reference)
                            else if matched then old(reference).(ips := old(reference).ips - {ip})
                            else old(reference).(ips := Counted(old(reference).ips, ip, clock)))
    {
      assert Live(ips, ip, now) == Live(reference.ips, ip, now);
      if ip in ips && now >= ips[ip].start + WINDOW_MS {
        SameWithout(ips, reference.ips, ip, now);
        ips := ips - {ip};
      }
      if ip in ips && ips[ip].count >= GUEST_PASSWORD_LIMIT {
        return false;
      }
      if matched {
        SameWithout(ips, reference.ips, ip, now);
        ips := ips - {ip};
        reference := reference.(ips := reference.ips - {ip});
        return true;
      }
      SameCounted(ips, reference.ips, ip, now);
      ips := ips[ip := if ip in ips then Bucket(ips[ip].count + 1, ips[ip].start) else Bucket(1, now)];
      reference := reference.(ips := Counted(reference.ips, ip, now));
      return true;
    }

    method Allow(ip: string, submitted: bool, matched: bool, now: int) returns (ok: bool)
      requires Valid() && clock <= now
      modifies this
      ensures Valid() && clock == now
      ensures (reference, ok) == Attempt(old(reference), Login(ip, submitted, matched, now))
    {
      CleanupExpired(now);
      if !submitted {
        ok := AllowGuest(ip, now);
        return;
      }
      ok := AllowGlobal(matched, now);
      if !ok {
        return;
      }
      ok := AllowAddress(ip, matched, now);
    }
  }

  // ---------- the limits ----------

  /** How many more failures of a key can be let through before from + WINDOW_MS. */
  function Quota(m: Buckets, k: string, now: int, from: int, limit: nat): nat {
    match Live(m, k, now)
    case None => limit
    case Some(b) =>
      var left := if b.count < limit then limit - b.count else 0;
      if b.start >= from then left else left + limit
  }

  lemma {:induction false} QuotaLater(m: Buckets, k: string, now: int, later: int, from: int, limit: nat)
    requires from <= now <= later < from + WINDOW_MS
    ensures Quota(m, k, later, from, limit) <= Quota(m, k, now, from, limit)
  {
  }

  lemma {:induction false} QuotaCounted(m: Buckets, key: string, k: string, now: int, from: int, limit: nat)
    requires from <= now && limit > 0 && !Full(m, k, now, limit)
    ensures Quota(Counted(m, key, now), k, now, from, limit) + (if key == k then 1 else 0)
         == Quota(m, k, now, from, limit)
  {
  }

  ghost predicate Within(ps: seq<Probe>, now: int, from: int)
    decreases |ps|
  {
    ps != [] ==> now <= ps[0].at < from + WINDOW_MS && Within(ps[1..], ps[0].at, from)
  }

  /** How many failures of a key are let through. */
  function Failures(m: Buckets, ps: seq<Probe>, k: string): nat
    decreases |ps|
  {
    if ps == [] then 0
    else (if ps[0].key == k && !ps[0].matched && Admits(m, ps[0]) then 1 else 0)
         + Failures(Remember(m, ps[0]), ps[1..], k)
  }

  ghost predicate NoReset(ps: seq<Probe>, k: string) {
    forall i :: 0 <= i < |ps| && ps[i].key == k ==> !ps[i].matched
  }

  lemma {:induction false} FailuresWithinQuota(m: Buckets, ps: seq<Probe>, k: string, now: int, from: int)
    requires from <= now < from + WINDOW_MS && Within(ps, now, from) && NoReset(ps, k)
    ensures Failures(m, ps, k) <= Quota(m, k, now, from, ACCESS_LIMIT)
    decreases |ps|
  {
    if ps != [] {
      var p := ps[0];
      var next := Remember(m, p);
      assert NoReset(ps[1..], k);
      FailuresWithinQuota(next, ps[1..], k, p.at, from);
      QuotaLater(m, k, now, p.at, from, ACCESS_LIMIT);
      if p.key == k && Admits(m, p) {
        QuotaCounted(m, k, k, p.at, from, ACCESS_LIMIT);
      }
    }
  }

  /** From the moment a window opens for a key, and until it closes or a right code
      resets it, at most ten failures are let through; in any other stretch of that
      length, at most twenty. */
  lemma {:induction false} AccessFailuresLimited(m: Buckets, ps: seq<Probe>, k: string, from: int)
    requires Within(ps, from, from) && NoReset(ps, k)
    ensures Live(m, k, from).None? ==> Failures(m, ps, k) <= 10
    ensures Failures(m, ps, k) <= 20
  {
    FailuresWithinQuota(m, ps, k, from, from);
  }

  ghost predicate LoginsWithin(ls: seq<Login>, now: int, from: int)
    decreases |ls|
  {
    ls != [] ==> now <= ls[0].at < from + WINDOW_MS && LoginsWithin(ls[1..], ls[0].at, from)
  }

  /** How many wrong passwords, from anywhere, are let through. */
  function WrongPasswords(r: Logins, ls: seq<Login>): nat
    decreases |ls|
  {
    if ls == [] then 0
    else
      var (next, ok) := Attempt(r, ls[0]);
      (if ok && ls[0].submitted && !ls[0].matched then 1 else 0) + WrongPasswords(next, ls[1..])
  }

  function GlobalQuota(r: Logins, now: int, from: int): nat {
    var a := Ticked(r, now);
    var left := if a.globalCount < GLOBAL_PASSWORD_LIMIT then GLOBAL_PASSWORD_LIMIT - a.globalCount else 0;
    if a.globalStart.None? || a.globalStart.value >= from then left else left + GLOBAL_PASSWORD_LIMIT
  }

  lemma {:induction false} AttemptSpendsQuota(r: Logins, l: Login, now: int, from: int)
    requires Started(r, now) && from <= now <= l.at < from + WINDOW_MS
    ensures var (next, ok) := Attempt(r, l);
      && Started(next, l.at)
      && GlobalQuota(next, l.at, from) + (if ok && l.submitted && !l.matched then 1 else 0) <= GlobalQuota(r, now, from)
  {
  }

  lemma {:induction false} WrongPasswordsWithinQuota(r: Logins, ls: seq<Login>, now: int, from: int)
    requires Started(r, now) && from <= now < from + WINDOW_MS && LoginsWithin(ls, now, from)
    ensures WrongPasswords(r, ls) <= GlobalQuota(r, now, from)
    decreases |ls|
  {
    if ls != [] {
      AttemptSpendsQuota(r, ls[0], now, from);
      WrongPasswordsWithinQuota(Attempt(r, ls[0]).0, ls[1..], ls[0].at, from);
    }
  }

  /** However many addresses take part, at most a hundred wrong passwords are let
      through in one window of the server. */
  lemma {:induction false} WrongPasswordsLimited(r: Logins, ls: seq<Login>, from: int)
    requires Started(r, from) && LoginsWithin(ls, from, from)
    ensures Ticked(r, from).globalStart.None? ==> WrongPasswords(r, ls) <= 100
    ensures WrongPasswords(r, ls) <= 200
  {
    WrongPasswordsWithinQuota(r, ls, from, from);
  }

  /** How many wrong passwords from one address are let through. */
  function WrongFrom(r: Logins, ls: seq<Login>, ip: string): nat
    decreases |ls|
  {
    if ls == [] then 0
    else
      var (next, ok) := Attempt(r, ls[0]);
      (if ok && ls[0].submitted && !ls[0].matched && ls[0].ip == ip then 1 else 0) + WrongFrom(next, ls[1..], ip)
  }

  ghost predicate NoLogin(ls: seq<Login>, ip: string) {
    forall i :: 0 <= i < |ls| && ls[i].ip == ip && ls[i].submitted ==> !ls[i].matched
  }

  lemma {:induction false} AttemptSpendsAddressQuota(r: Logins, l: Login, ip: string, now: int, from: int)
    requires from <= now <= l.at < from + WINDOW_MS && (l.ip == ip && l.submitted ==> !l.matched)
    ensures var (next, ok) := Attempt(r, l);
      Quota(next.ips, ip, l.at, from, GUEST_PASSWORD_LIMIT)
      + (if ok && l.submitted && !l.matched && l.ip == ip then 1 else 0)
      <= Quota(r.ips, ip, now, from, GUEST_PASSWORD_LIMIT)
  {
    QuotaLater(r.ips, ip, now, l.at, from, GUEST_PASSWORD_LIMIT);
    if l.submitted && !l.matched && l.ip == ip && !Full(r.ips, ip, l.at, GUEST_PASSWORD_LIMIT) {
      QuotaCounted(r.ips, ip, ip, l.at, from, GUEST_PASSWORD_LIMIT);
    }
  }

  lemma {:induction false} WrongFromWithinQuota(r: Logins, ls: seq<Login>, ip: string, now: int, from: int)
    requires from <= now < from + WINDOW_MS && LoginsWithin(ls, now, from) && NoLogin(ls, ip)
    ensures WrongFrom(r, ls, ip) <= Quota(r.ips, ip, now, from, GUEST_PASSWORD_LIMIT)
    decreases |ls|
  {
    if ls != [] {
      assert NoLogin(ls[1..], ip);
      AttemptSpendsAddressQuota(r, ls[0], ip, now, from);
      WrongFromWithinQuota(Attempt(r, ls[0]).0, ls[1..], ip, ls[0].at, from);
    }
  }

  /** The same for one address, until a right password resets it. */
  lemma {:induction false} AddressLimited(r: Logins, ls: seq<Login>, ip: string, from: int)
    requires LoginsWithin(ls, from, from) && NoLogin(ls, ip)
    ensures Live(r.ips, ip, from).None? ==> WrongFrom(r, ls, ip) <= 10
    ensures WrongFrom(r, ls, ip) <= 20
  {
    WrongFromWithinQuota(r, ls, ip, from, from);
  }

  /** How many logins without a password from one address are let through. */
  function GuestsFrom(r: Logins, ls: seq<Login>, ip: string): nat
    decreases |ls|
  {
    if ls == [] then 0
    else
      var (next, ok) := Attempt(r, ls[0]);
      (if ok && !ls[0].submitted && ls[0].ip == ip then 1 else 0) + GuestsFrom(next, ls[1..], ip)
  }

  lemma {:induction false} AttemptSpendsGuestQuota(r: Logins, l: Login, ip: string, now: int, from: int)
    requires from <= now <= l.at < from + WINDOW_MS
    ensures var (next, ok) := Attempt(r, l);
      Quota(next.guests, ip, l.at, from, PASSWORDLESS_LIMIT) + (if ok && !l.submitted && l.ip == ip then 1 else 0)
      <= Quota(r.guests, ip, now, from, PASSWORDLESS_LIMIT)
  {
    QuotaLater(r.guests, ip, now, l.at, from, PASSWORDLESS_LIMIT);
    if !l.submitted && l.ip == ip && !Full(r.guests, ip, l.at, PASSWORDLESS_LIMIT) {
      QuotaCounted(r.guests, ip, ip, l.at, from, PASSWORDLESS_LIMIT);
    }
  }

  lemma {:induction false} GuestsWithinQuota(r: Logins, ls: seq<Login>, ip: string, now: int, from: int)
    requires from <= now < from + WINDOW_MS && LoginsWithin(ls, now, from)
    ensures GuestsFrom(r, ls, ip) <= Quota(r.guests, ip, now, from, PASSWORDLESS_LIMIT)
    decreases |ls|
  {
    if ls != [] {
      AttemptSpendsGuestQuota(r, ls[0], ip, now, from);
      GuestsWithinQuota(Attempt(r, ls[0]).0, ls[1..], ip, ls[0].at, from);
    }
  }

  /** At most twenty logins without a password are let through from one address in a
      window, and at most forty in any stretch of its length. */
  lemma {:induction false} GuestsLimited(r: Logins, ls: seq<Login>, ip: string, from: int)
    requires LoginsWithin(ls, from, from)
    ensures Live(r.guests, ip, from).None? ==> GuestsFrom(r, ls, ip) <= 20
    ensures GuestsFrom(r, ls, ip) <= 40
  {
    GuestsWithinQuota(r, ls, ip, from, from);
  }

  /** A wrong password counts against all addresses together, also when its own address is
      full; a right one does not, and nothing counts once all together are. */
  lemma {:induction false} WrongCountsAgainstAll(r: Logins, l: Login)
    requires l.submitted
    ensures var (a, next) := (Ticked(r, l.at), Attempt(r, l).0);
      next.globalCount == a.globalCount + if !l.matched && a.globalCount < GLOBAL_PASSWORD_LIMIT then 1 else 0
  {
  }

  // ---------- nobody is refused for less ----------

  /** What the reference remembers after a history. */
  function Remembered(ps: seq<Probe>): Buckets {
    if ps == [] then map[] else Remember(Remembered(ps[..|ps| - 1]), ps[|ps| - 1])
  }

  ghost predicate Past(ps: seq<Probe>, now: int) {
    forall i :: 0 <= i < |ps| ==> ps[i].at <= now
  }

  ghost predicate Ordered(ps: seq<Probe>) {
    forall i, j :: 0 <= i < j < |ps| ==> ps[i].at <= ps[j].at
  }

  /** How many wrong codes were tried for a key at an instant or later and since the last
      right one, let through or not. */
  function WrongSince(ps: seq<Probe>, k: string, since: int): nat {
    if ps == [] then 0
    else
      var p := ps[|ps| - 1];
      if p.key == k && p.matched then 0
      else WrongSince(ps[..|ps| - 1], k, since) + if p.key == k && !p.matched && p.at >= since then 1 else 0
  }

  lemma {:induction false} BucketsCountWrong(ps: seq<Probe>, k: string)
    requires Ordered(ps) && k in Remembered(ps)
    ensures Remembered(ps)[k].count <= WrongSince(ps, k, Remembered(ps)[k].start)
    ensures exists i :: 0 <= i < |ps| && ps[i].at == Remembered(ps)[k].start
    decreases |ps|
  {
    var before, p := ps[..|ps| - 1], ps[|ps| - 1];
    if k in Remembered(before) {
      BucketsCountWrong(before, k);
      var i :| 0 <= i < |before| && before[i].at == Remembered(before)[k].start;
      assert ps[i].at == Remembered(before)[k].start <= p.at;
      assert k in Remembered(ps) && Remembered(ps)[k].start in {Remembered(before)[k].start, p.at};
    }
    if Remembered(ps)[k].start == p.at {
      assert ps[|ps| - 1].at == p.at;
      OneWrong(ps, k);
    }
  }

  lemma {:induction false} OneWrong(ps: seq<Probe>, k: string)
    requires ps != []
    ensures var p := ps[|ps| - 1];
      p.key == k && !p.matched ==> WrongSince(ps, k, p.at) >= 1
  {
  }

  lemma {:induction false} WrongSinceEarlier(ps: seq<Probe>, k: string, since: int, earlier: int)
    requires earlier <= since
    ensures WrongSince(ps, k, since) <= WrongSince(ps, k, earlier)
    decreases |ps|
  {
    if ps != [] {
      WrongSinceEarlier(ps[..|ps| - 1], k, since, earlier);
    }
  }

  /** A right code is always let in, and so is a wrong one unless ten have been tried for
      the key within the last ten minutes and since the last right one. */
  lemma {:induction false} AdmittedBelowLimit(ps: seq<Probe>, p: Probe)
    requires Ordered(ps) && Past(ps, p.at)
    ensures p.matched ==> Admits(Remembered(ps), p)
    ensures WrongSince(ps, p.key, p.at - 600_000 + 1) < 10 ==> Admits(Remembered(ps), p)
  {
    if !Admits(Remembered(ps), p) {
      BucketsCountWrong(ps, p.key);
      WrongSinceEarlier(ps, p.key, Remembered(ps)[p.key].start, p.at - WINDOW_MS + 1);
    }
  }

  function Attempted(ls: seq<Login>): Logins {
    if ls == [] then Logins(map[], map[], 0, None) else Attempt(Attempted(ls[..|ls| - 1]), ls[|ls| - 1]).0
  }

  ghost predicate LoginsOrdered(ls: seq<Login>) {
    forall i, j :: 0 <= i < j < |ls| ==> ls[i].at <= ls[j].at
  }

  ghost predicate LoginsPast(ls: seq<Login>, now: int) {
    forall i :: 0 <= i < |ls| ==> ls[i].at <= now
  }

  /** The password was right and the login was let through. */
  predicate LetIn(ls: seq<Login>, l: Login) { l.submitted && l.matched && Attempt(Attempted(ls), l).1 }

  /** Wrong passwords from an address, since an instant and since it last logged in. */
  function WrongFromSince(ls: seq<Login>, ip: string, since: int): nat {
    if ls == [] then 0
    else
      var before, l := ls[..|ls| - 1], ls[|ls| - 1];
      if l.ip == ip && LetIn(before, l) then 0
      else WrongFromSince(before, ip, since) + if l.ip == ip && l.submitted && !l.matched && l.at >= since then 1 else 0
  }

  /** Wrong passwords from anywhere since an instant. */
  function WrongAllSince(ls: seq<Login>, since: int): nat {
    if ls == [] then 0
    else
      var l := ls[|ls| - 1];
      WrongAllSince(ls[..|ls| - 1], since) + if l.submitted && !l.matched && l.at >= since then 1 else 0
  }

  /** Logins without a password from an address since an instant. */
  function GuestsSince(ls: seq<Login>, ip: string, since: int): nat {
    if ls == [] then 0
    else
      var l := ls[|ls| - 1];
      GuestsSince(ls[..|ls| - 1], ip, since) + if l.ip == ip && !l.submitted && l.at >= since then 1 else 0
  }

  lemma {:induction false} AttemptKinds(r: Logins, l: Login)
    ensures var next := Attempt(r, l).0;
      && (next.ips != r.ips ==> l.submitted && next.ips in {r.ips - {l.ip}, Counted(r.ips, l.ip, l.at)})
      && (l.submitted && next.ips != r.ips && l.matched ==> next.ips == r.ips - {l.ip} && Attempt(r, l).1)
      && (l.submitted && next.ips != r.ips && !l.matched ==> next.ips == Counted(r.ips, l.ip, l.at))
      && (l.submitted ==> next.guests == r.guests)
      && (!l.submitted ==> next.guests in {r.guests, Counted(r.guests, l.ip, l.at)})
      && (l.submitted && l.matched && Attempt(r, l).1 ==> next.ips == r.ips - {l.ip})
  {
  }

  /** A bucket counts no more than there were, and its window opened with one of them. */
  lemma {:induction false} AddressCountsWrong(ls: seq<Login>, ip: string)
    requires LoginsOrdered(ls) && ip in Attempted(ls).ips
    ensures var b := Attempted(ls).ips[ip];
      b.count <= WrongFromSince(ls, ip, b.start) && (exists i :: 0 <= i < |ls| && ls[i].at == b.start)
    decreases |ls|
  {
    var before, l := ls[..|ls| - 1], ls[|ls| - 1];
    AttemptKinds(Attempted(before), l);
    if ip in Attempted(before).ips {
      AddressCountsWrong(before, ip);
      var i :| 0 <= i < |before| && before[i].at == Attempted(before).ips[ip].start;
      assert ls[i].at == Attempted(before).ips[ip].start <= l.at;
    }
    assert ls[|ls| - 1].at == l.at;
  }

  lemma {:induction false} GuestsAreCounted(ls: seq<Login>, ip: string)
    requires LoginsOrdered(ls) && ip in Attempted(ls).guests
    ensures var b := Attempted(ls).guests[ip];
      b.count <= GuestsSince(ls, ip, b.start) && (exists i :: 0 <= i < |ls| && ls[i].at == b.start)
    decreases |ls|
  {
    var before, l := ls[..|ls| - 1], ls[|ls| - 1];
    AttemptKinds(Attempted(before), l);
    if ip in Attempted(before).guests {
      GuestsAreCounted(before, ip);
      var i :| 0 <= i < |before| && before[i].at == Attempted(before).guests[ip].start;
      assert ls[i].at == Attempted(before).guests[ip].start <= l.at;
    }
    assert ls[|ls| - 1].at == l.at;
  }

  lemma {:induction false} AllAreCounted(ls: seq<Login>)
    requires LoginsOrdered(ls)
    ensures var r := Attempted(ls);
      && (r.globalStart.None? ==> r.globalCount == 0)
      && (r.globalStart.Some? ==>
            && r.globalCount <= WrongAllSince(ls, r.globalStart.value)
            && exists i :: 0 <= i < |ls| && ls[i].at == r.globalStart.value)
    decreases |ls|
  {
    if ls != [] {
      var before, l := ls[..|ls| - 1], ls[|ls| - 1];
      AllAreCounted(before);
      if Attempted(before).globalStart.Some? {
        var i :| 0 <= i < |before| && before[i].at == Attempted(before).globalStart.value;
        assert ls[i].at == Attempted(before).globalStart.value <= l.at;
      }
      assert ls[|ls| - 1].at == l.at;
    }
  }

  lemma {:induction false} EarlierCountsMore(ls: seq<Login>, ip: string, since: int, earlier: int)
    requires earlier <= since
    ensures WrongFromSince(ls, ip, since) <= WrongFromSince(ls, ip, earlier)
    ensures WrongAllSince(ls, since) <= WrongAllSince(ls, earlier)
    ensures GuestsSince(ls, ip, since) <= GuestsSince(ls, ip, earlier)
    decreases |ls|
  {
    if ls != [] {
      EarlierCountsMore(ls[..|ls| - 1], ip, since, earlier);
    }
  }

  /** A login is refused only for a reason of the last ten minutes: without a password,
      twenty such logins from the address; with one, a hundred wrong passwords from
      anywhere, or ten from the address since it last logged in. */
  lemma {:induction false} RefusedForAReason(ls: seq<Login>, l: Login)
    requires LoginsOrdered(ls) && LoginsPast(ls, l.at) && !Attempt(Attempted(ls), l).1
    ensures var since := l.at - 600_000 + 1;
      if l.submitted then WrongAllSince(ls, since) >= 100 || WrongFromSince(ls, l.ip, since) >= 10
      else GuestsSince(ls, l.ip, since) >= 20
  {
    var r, since := Attempted(ls), l.at - WINDOW_MS + 1;
    if !l.submitted {
      GuestsAreCounted(ls, l.ip);
      EarlierCountsMore(ls, l.ip, r.guests[l.ip].start, since);
    } else if Ticked(r, l.at).globalCount >= GLOBAL_PASSWORD_LIMIT {
      AllAreCounted(ls);
      EarlierCountsMore(ls, l.ip, r.globalStart.value, since);
    } else {
      AddressCountsWrong(ls, l.ip);
      EarlierCountsMore(ls, l.ip, r.ips[l.ip].start, since);
    }
  }
}
