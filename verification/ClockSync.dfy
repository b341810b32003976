/** How a client estimates the server's clock from the fastest of several exchanges. */
module ClockSync {
  import opened RoomModel
  import opened Timeline

  /** One exchange: when the client sent and received by its clock, and what the
      server's clock showed in between. */
  datatype Exchange = Exchange(sent: int, serverTime: int, received: int)

  const NO_ROUND_TRIP := 0x4000_0000_0000_0000

  /** The server answered at some instant between the two, its clock `offset` ahead. */
  predicate Honest(x: Exchange, offset: int) {
    x.sent <= x.serverTime - offset <= x.received && x.received - x.sent < NO_ROUND_TRIP
  }

  function RoundTrip(x: Exchange): int { x.received - x.sent }

  function Half(ms: int): int
    requires ms >= 0
  {
    (ms + 1) / 2
  }

  /** The estimate of one exchange: the server is taken to have answered halfway. */
  function Estimate(x: Exchange): int { x.serverTime + RoundTrip(x) / 2 - x.received }

  function Apart(a: int, b: int): int { if a >= b then a - b else b - a }

  /** No exchange was faster, and all before it were slower. */
  ghost predicate FirstFastest(rounds: seq<Exchange>, i: int)
    requires 0 <= i < |rounds|
  {
    && (forall j :: 0 <= j < |rounds| ==> RoundTrip(rounds[i]) <= RoundTrip(rounds[j]))
    && (forall j :: 0 <= j < i ==> RoundTrip(rounds[i]) < RoundTrip(rounds[j]))
  }

  /** The fastest exchange decides, the first one among equals. */
  method Sync(rounds: seq<Exchange>, ghost offset: int) returns (estimate: int, bestRoundTrip: int)
    requires forall i :: 0 <= i < |rounds| ==> Honest(rounds[i], offset)
    ensures rounds == [] ==> estimate == 0
    ensures rounds != [] ==>
              && (exists i :: 0 <= i < |rounds| && FirstFastest(rounds, i)
                              && bestRoundTrip == RoundTrip(rounds[i]) && estimate == Estimate(rounds[i]))
              && 0 <= bestRoundTrip && Apart(estimate, offset) <= Half(bestRoundTrip)
  {
    estimate, bestRoundTrip := 0, NO_ROUND_TRIP;
    ghost var best := 0;
    for i := 0 to |rounds|
      invariant i == 0 ==> estimate == 0 && bestRoundTrip == NO_ROUND_TRIP
      invariant i > 0 ==>
                  && 0 <= best < i && FirstFastest(rounds[..i], best)
                  && bestRoundTrip == RoundTrip(rounds[best]) && estimate == Estimate(rounds[best])
      invariant i > 0 ==> 0 <= bestRoundTrip < NO_ROUND_TRIP && Apart(estimate, offset) <= Half(bestRoundTrip)
    {
      var x := rounds[i];
      assert Honest(x, offset);
      var roundTrip := x.received - x.sent;
      if roundTrip < bestRoundTrip {
        bestRoundTrip := roundTrip;
        estimate := x.serverTime + roundTrip / 2 - x.received;
        best := i;
      }
    }
    assert rounds[..|rounds|] == rounds;
  }

  /** A client whose estimate is off by so much places a playing track off by no more,
      and a paused one not at all. */
  lemma {:induction false} PositionWithin(p: Playback, localNow: int, estimate: int, offset: int, bound: int)
    requires Apart(estimate, offset) <= bound
    ensures Apart(ShouldBe(p, localNow + estimate), Position(p, localNow + offset)) <= bound
    ensures !p.playing ==> ShouldBe(p, localNow + estimate) == Position(p, localNow + offset)
  {
  }

  /** The bound cannot be improved: with a round trip of any length there is an honest
      exchange that leaves the estimate off by half of it. */
  lemma {:induction false} HalfIsReached(sent: int, roundTrip: int, offset: int)
    requires 0 <= roundTrip < NO_ROUND_TRIP
    ensures var x := Exchange(sent, sent + offset, sent + roundTrip);
      Honest(x, offset) && Apart(Estimate(x), offset) == Half(roundTrip)
  {
  }
}
