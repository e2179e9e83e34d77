/** The client's estimate of the server clock: an exponential average in truncating
    integer arithmetic (GameLogic/src/TimeSync.cpp). */
module Clock {
  import opened Basics

  datatype Sample = Sample(clientSent: Time, serverReceived: Time, clientReceived: Time)

  datatype State = State(hasSample: bool, offset: int, rtt: int, delay: int)

  const UNSET := State(false, 0, 0, 100)

  function Rtt(s: Sample): nat {
    if s.clientReceived >= s.clientSent then s.clientReceived - s.clientSent else 0
  }

  function Measured(s: Sample): int {
    s.serverReceived - (s.clientSent + Rtt(s) / 2)
  }

  function Smoothed(old_: int, measured: int): int {
    TruncDiv(old_ * 7 + measured, 8)
  }

  function Recorded(c: State, s: Sample): State {
    var rtt := if c.hasSample then Smoothed(c.rtt, Rtt(s)) else Rtt(s);
    State(true, if c.hasSample then Smoothed(c.offset, Measured(s)) else Measured(s), rtt,
          Clamp(TruncDiv(rtt, 2) + 50, 50, 250))
  }

  function RecordedAll(samples: seq<Sample>): State {
    if samples == [] then UNSET else Recorded(RecordedAll(samples[..|samples| - 1]), samples[|samples| - 1])
  }

  function EstimateServerTime(c: State, local: Time): Time {
    if local + c.offset <= 0 then 0 else local + c.offset
  }

  class NetworkClock {
    var hasSample: bool
    var offset: int
    var rtt: int
    var delay: int

    function Reading(): State
      reads this
    {
      State(hasSample, offset, rtt, delay)
    }

    constructor ()
      ensures Reading() == UNSET
    {
      hasSample, offset, rtt, delay := false, 0, 0, 100;
    }

    method RecordSample(s: Sample)
      modifies this
      ensures Reading() == Recorded(old(Reading()), s)
    {
      var measuredRtt := if s.clientReceived >= s.clientSent then s.clientReceived - s.clientSent else 0;
      var midpoint := s.clientSent + measuredRtt / 2;
      var measuredOffset := s.serverReceived - midpoint;
      if !hasSample {
        offset := measuredOffset;
        rtt := measuredRtt;
        hasSample := true;
      } else {
        offset := TruncDiv(offset * 7 + measuredOffset, 8);
        rtt := TruncDiv(rtt * 7 + measuredRtt, 8);
      }
      delay := Clamp(TruncDiv(rtt, 2) + 50, 50, 250);
    }

    method ServerTimeAt(local: Time) returns (estimated: Time)
      ensures estimated == EstimateServerTime(Reading(), local)
    {
      if local + offset <= 0 {
        return 0;
      }
      return local + offset;
    }
  }

  // --- one step of smoothing ---

  lemma SmoothedInHull(old_: int, measured: int, lo: int, hi: int)
    requires lo <= old_ <= hi && lo <= measured <= hi
    ensures lo <= Smoothed(old_, measured) <= hi
  {
  }

  /** Under a constant measurement the distance never grows, the estimate does not cross
      it, and while eight or more away it gets closer. */
  lemma SmoothedApproaches(old_: int, measured: int)
    ensures Abs(Smoothed(old_, measured) - measured) <= Abs(old_ - measured)
    ensures Abs(old_ - measured) >= 8 ==> Abs(Smoothed(old_, measured) - measured) < Abs(old_ - measured)
  {
  }

  // --- one sample ---

  /** One more sample moves offset and round trip an eighth of the way to what it measures,
      but for the truncation: what the server read, less when it was sent and half its
      round trip. The first sample is taken as it is. */
  lemma EighthOfTheWay(c: State, s: Sample)
    requires s.clientReceived >= s.clientSent
    ensures var next := Recorded(c, s);
            var trip := s.clientReceived - s.clientSent;
            var measured := s.serverReceived - s.clientSent - trip / 2;
            && next.hasSample
            && (!c.hasSample ==> next.offset == measured && next.rtt == trip)
            && (c.hasSample ==> Abs(8 * next.offset - (7 * c.offset + measured)) < 8 && Abs(8 * next.rtt - (7 * c.rtt + trip)) < 8)
  {
  }

  // --- all samples ---

  ghost predicate InHull(samples: seq<Sample>, lo: int, hi: int) {
    forall k :: 0 <= k < |samples| ==> lo <= Measured(samples[k]) <= hi
  }

  /** The offset never leaves the hull of the measured offsets. */
  lemma {:induction false} OffsetInHull(samples: seq<Sample>, lo: int, hi: int)
    requires samples != [] && InHull(samples, lo, hi)
    ensures lo <= RecordedAll(samples).offset <= hi && RecordedAll(samples).hasSample
  {
    var front := samples[..|samples| - 1];
    var last := samples[|samples| - 1];
    assert lo <= Measured(last) <= hi;
    hide Measured, Smoothed;
    if front != [] {
      OffsetInHull(front, lo, hi);
      SmoothedInHull(RecordedAll(front).offset, Measured(last), lo, hi);
    }
  }

  /** A sample whose server reading was taken, on a clock ahead by `ahead`, between the
      client's sending and receiving. */
  ghost predicate Honest(s: Sample, ahead: int) {
    s.clientSent <= s.clientReceived && s.clientSent <= s.serverReceived - ahead <= s.clientReceived
  }

  lemma MeasuredIsNear(s: Sample, ahead: int)
    requires Honest(s, ahead)
    ensures Abs(Measured(s) - ahead) <= (Rtt(s) + 1) / 2
  {
  }

  /** Against a constant true offset the estimate errs by at most half the largest round
      trip, rounded up. */
  lemma OffsetIsNear(samples: seq<Sample>, ahead: int, largest: nat)
    requires samples != []
    requires forall k :: 0 <= k < |samples| ==> Honest(samples[k], ahead) && Rtt(samples[k]) <= largest
    ensures Abs(RecordedAll(samples).offset - ahead) <= (largest + 1) / 2
  {
    var bound := (largest + 1) / 2;
    forall k | 0 <= k < |samples|
      ensures ahead - bound <= Measured(samples[k]) <= ahead + bound
    {
      MeasuredIsNear(samples[k], ahead);
    }
    OffsetInHull(samples, ahead - bound, ahead + bound);
  }

  // --- constant samples ---

  function Repeated(start: State, s: Sample, n: nat): State {
    if n == 0 then start else Recorded(Repeated(start, s, n - 1), s)
  }

  /** Repeating one sample: from any state the distance to what it measures never grows,
      and after as many repetitions as that distance it is at most 7, for good. */
  lemma {:induction false} RepeatedConverges(start: State, s: Sample, n: nat)
    requires start.hasSample
    ensures var c := Repeated(start, s, n);
            && c.hasSample
            && Abs(c.offset - Measured(s)) <= Abs(start.offset - Measured(s))
            && Abs(c.offset - Measured(s)) <= Max(7, Abs(start.offset - Measured(s)) - n)
    ensures n > 0 ==> Abs(Repeated(start, s, n).offset - Measured(s)) <= Abs(Repeated(start, s, n - 1).offset - Measured(s))
  {
    hide Measured, Smoothed;
    if n > 0 {
      RepeatedConverges(start, s, n - 1);
      SmoothedApproaches(Repeated(start, s, n - 1).offset, Measured(s));
    }
  }

  /** Seven is the best bound: truncation can leave an estimate seven away for good. */
  lemma SevenCanStay(start: State, s: Sample, n: nat)
    requires start.hasSample && start.offset == 100 && Measured(s) == 107
    ensures Repeated(start, s, n).offset == 100
    ensures Repeated(start, s, n).hasSample
  {
    hide Measured;
    if n > 0 {
      SevenCanStay(start, s, n - 1);
    }
  }

  // --- what the clock is used for ---

  /** The estimated server time errs by no more than the offset does: half the largest
      round trip, rounded up. */
  lemma EstimateIsNear(samples: seq<Sample>, ahead: int, largest: nat, local: Time)
    requires samples != [] && local + ahead >= 0
    requires forall k :: 0 <= k < |samples| ==> Honest(samples[k], ahead) && Rtt(samples[k]) <= largest
    ensures Abs(EstimateServerTime(RecordedAll(samples), local) - (local + ahead)) <= (largest + 1) / 2
  {
    OffsetIsNear(samples, ahead, largest);
    hide RecordedAll;
  }

  function DelayFor(rtt: int): int {
    Clamp(TruncDiv(rtt, 2) + 50, 50, 250)
  }

  /** The smoothed round trip stays within the measured ones, and the interpolation delay
      follows it: half of it and a margin of 50, never below 50 or above 250. */
  lemma {:induction false} DelayFollowsRoundTrips(samples: seq<Sample>, lo: nat, hi: nat)
    requires samples != []
    requires forall k :: 0 <= k < |samples| ==> lo <= Rtt(samples[k]) <= hi
    ensures var c := RecordedAll(samples);
            c.hasSample && lo <= c.rtt <= hi && DelayFor(lo) <= c.delay == DelayFor(c.rtt) <= DelayFor(hi)
  {
    var front := samples[..|samples| - 1];
    var last := samples[|samples| - 1];
    assert lo <= Rtt(last) <= hi;
    if front != [] {
      DelayFollowsRoundTrips(front, lo, hi);
      SmoothedInHull(RecordedAll(front).rtt, Rtt(last), lo, hi);
    }
    hide Rtt, Smoothed, Measured;
  }
}
