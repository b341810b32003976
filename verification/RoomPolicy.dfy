/** Governance of one room: the cap on the pending queue, per-identity limits and
    the lead-in before a track starts. */
module RoomPolicy {
  import opened Wrappers

  /** As stored; a lead-in may be absent. */
  datatype RawPolicy = RawPolicy(
    maxQueue: int, queueLimits: map<string, int>, radioControl: string, startLeadMs: Option<int>)

  /** As in force. A room whose stored policy does not parse runs with the raw
      values, so a cap of zero or less, meaning none, is possible there. */
  datatype Policy = Policy(maxQueue: int, queueLimits: map<string, int>, startLeadMs: Option<int>)

  const DEFAULT_MAX_QUEUE := 50
  const DEFAULT_START_LEAD_MS := 600
  const MAX_START_LEAD_MS := 5000

  ghost predicate Valid(p: Policy) {
    && p.maxQueue >= 1
    && (forall k :: k in p.queueLimits ==> p.queueLimits[k] >= 0)
    && (p.startLeadMs.Some? ==> 0 <= p.startLeadMs.value <= MAX_START_LEAD_MS)
  }

  /** The values as far as they are read, in range or not: a missing cap is the default one. */
  function Parsed(raw: RawPolicy): Policy {
    Policy(if raw.maxQueue == 0 then DEFAULT_MAX_QUEUE else raw.maxQueue, raw.queueLimits, raw.startLeadMs)
  }

  /** Accepted exactly when every number is in range, and then the cap is at least one. */
  function ParsePolicy(raw: RawPolicy): (r: Option<Policy>)
    ensures r.Some? ==> Valid(r.value)
    ensures r.None? <==>
            || raw.maxQueue < 0
            || (exists k :: k in raw.queueLimits && raw.queueLimits[k] < 0)
            || raw.radioControl !in {"", "controller", "requester"}
            || (raw.startLeadMs.Some? && !(0 <= raw.startLeadMs.value <= MAX_START_LEAD_MS))
  {
    if raw.maxQueue < 0 || (exists k :: k in raw.queueLimits && raw.queueLimits[k] < 0)
       || raw.radioControl !in {"", "controller", "requester"}
       || (raw.startLeadMs.Some? && (raw.startLeadMs.value < 0 || raw.startLeadMs.value > MAX_START_LEAD_MS)) then
      None
    else
      Some(Parsed(raw))
  }

  function StartLeadMs(p: Policy): int {
    if p.startLeadMs.Some? then p.startLeadMs.value else DEFAULT_START_LEAD_MS
  }

  /** What a policy that is accepted puts in force: the values given, and where none is
      given a cap of fifty and a lead-in of six hundred milliseconds. */
  lemma {:induction false} AcceptedInForce(raw: RawPolicy)
    requires ParsePolicy(raw).Some?
    ensures var p := ParsePolicy(raw).value;
      && Valid(p) && p.queueLimits == raw.queueLimits
      && (raw.maxQueue > 0 ==> p.maxQueue == raw.maxQueue) && (raw.maxQueue == 0 ==> p.maxQueue == 50)
      && (raw.startLeadMs.Some? ==> StartLeadMs(p) == raw.startLeadMs.value)
      && (raw.startLeadMs.None? ==> StartLeadMs(p) == 600)
  {
  }

  /** The pending cap of an identity, 0 meaning none: an explicit 0 on any matching
      key wins, otherwise the largest matching limit. */
  ghost predicate IsQueueLimit(p: Policy, keys: seq<string>, limit: int) {
    var zero := exists i :: 0 <= i < |keys| && keys[i] in p.queueLimits && p.queueLimits[keys[i]] == 0;
    && (zero ==> limit == 0)
    && (!zero ==> forall i :: 0 <= i < |keys| && keys[i] in p.queueLimits ==> p.queueLimits[keys[i]] <= limit)
    && (limit != 0 ==> exists i :: 0 <= i < |keys| && keys[i] in p.queueLimits && p.queueLimits[keys[i]] == limit)
    && limit >= 0
  }

  /** The largest positive limit on any of the keys, 0 when there is none. */
  function LargestLimit(p: Policy, keys: seq<string>): (limit: int)
    ensures limit >= 0
    ensures forall i :: 0 <= i < |keys| && keys[i] in p.queueLimits ==> p.queueLimits[keys[i]] <= limit
    ensures limit != 0 ==> exists i :: 0 <= i < |keys| && keys[i] in p.queueLimits && p.queueLimits[keys[i]] == limit
  {
    if keys == [] then 0
    else
      var n := |keys| - 1;
      var before := LargestLimit(p, keys[..n]);
      if keys[n] in p.queueLimits && p.queueLimits[keys[n]] > before then p.queueLimits[keys[n]] else before
  }

  function LimitOf(p: Policy, keys: seq<string>): (limit: int)
    ensures IsQueueLimit(p, keys, limit)
  {
    if exists i :: 0 <= i < |keys| && keys[i] in p.queueLimits && p.queueLimits[keys[i]] == 0 then 0
    else LargestLimit(p, keys)
  }

  /** There is only one. */
  lemma {:induction false} QueueLimitUnique(p: Policy, keys: seq<string>, a: int, b: int)
    requires IsQueueLimit(p, keys, a) && IsQueueLimit(p, keys, b)
    ensures a == b
  {
  }

  method QueueLimit(p: Policy, keys: seq<string>) returns (limit: int)
    ensures IsQueueLimit(p, keys, limit) && limit == LimitOf(p, keys)
  {
    limit := SearchLimit(p, keys);
    QueueLimitUnique(p, keys, limit, LimitOf(p, keys));
  }

  method SearchLimit(p: Policy, keys: seq<string>) returns (limit: int)
    ensures IsQueueLimit(p, keys, limit)
  {
    limit := 0;
    for i := 0 to |keys|
      invariant limit >= 0
      invariant forall j :: 0 <= j < i && keys[j] in p.queueLimits ==> p.queueLimits[keys[j]] != 0
      invariant forall j :: 0 <= j < i && keys[j] in p.queueLimits ==> p.queueLimits[keys[j]] <= limit
      invariant limit != 0 ==> exists j :: 0 <= j < i && keys[j] in p.queueLimits && p.queueLimits[keys[j]] == limit
    {
      if keys[i] in p.queueLimits {
        var v := p.queueLimits[keys[i]];
        if v == 0 {
          return 0;
        }
        if v > limit {
          limit := v;
        }
      }
    }
  }
}
