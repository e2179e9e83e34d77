/** The in-memory transport whose conditions drop and delay envelopes
    (Networking/src/LoopbackTransport.cpp). One lane is one direction of a pair. */
module Loopback {
  import opened Basics
  import opened Frame

  datatype Conditions = Conditions(dropEvery: nat, delayEvery: nat)

  datatype Lane = Lane(
    ordinal: nat, queued: seq<Envelope>, delayed: seq<Envelope>, sent: nat, dropped: nat, delays: nat)

  const EMPTY := Lane(0, [], [], 0, 0, 0)

  predicate Hits(every: nat, ordinal: nat) {
    every != 0 && ordinal % every == 0
  }

  function Release(l: Lane): Lane {
    if l.delayed == [] then l
    else l.(delayed := l.delayed[1..], queued := l.queued + [l.delayed[0]], sent := l.sent + 1)
  }

  function Send(conditions: Conditions, l: Lane, e: Envelope): Lane {
    if !Valid(e) then l
    else
      var counted := l.(ordinal := l.ordinal + 1);
      if Hits(conditions.dropEvery, counted.ordinal) then counted.(dropped := l.dropped + 1)
      else if Hits(conditions.delayEvery, counted.ordinal)
      then counted.(delayed := l.delayed + [e], delays := l.delays + 1)
      else Release(counted.(queued := l.queued + [e], sent := l.sent + 1))
  }

  function Flush(l: Lane): Lane
    decreases |l.delayed|
  {
    if l.delayed == [] then l else Flush(Release(l))
  }

  function Poll(l: Lane): (Lane, Option<Envelope>) {
    if l.queued == [] then (l, None)
    else (l.(queued := l.queued[1..]), if Valid(l.queued[0]) then Some(l.queued[0]) else None)
  }

  // --- runs of one lane ---

  datatype Action = Sends(e: Envelope) | Updates | Flushes | Polls | Sets(conditions: Conditions)

  /** A lane with what was accepted, dropped and polled so far. */
  datatype History = History(
    lane: Lane, conditions: Conditions, accepted: seq<Envelope>, lost: seq<Envelope>, polled: seq<Envelope>)

  function Step(h: History, action: Action): History {
    match action
    case Sends(e) =>
      var next := Send(h.conditions, h.lane, e);
      h.(lane := next,
         accepted := if Valid(e) then h.accepted + [e] else h.accepted,
         lost := if next.dropped > h.lane.dropped then h.lost + [e] else h.lost)
    case Updates => h.(lane := Release(h.lane))
    case Flushes => h.(lane := Flush(h.lane))
    case Polls =>
      var (next, polled) := Poll(h.lane);
      h.(lane := next, polled := if polled.Some? then h.polled + [polled.value] else h.polled)
    case Sets(conditions) => h.(conditions := conditions)
  }

  function Run(conditions: Conditions, actions: seq<Action>): History {
    if actions == [] then History(EMPTY, conditions, [], [], [])
    else Step(Run(conditions, actions[..|actions| - 1]), actions[|actions| - 1])
  }

  /** Everything accepted is in exactly one place: polled, queued, held back or lost. */
  ghost predicate Conserved(h: History) {
    && multiset(h.accepted) == multiset(h.polled) + multiset(h.lane.queued) + multiset(h.lane.delayed) + multiset(h.lost)
    && h.lane.ordinal == |h.accepted| && h.lane.dropped == |h.lost|
    && h.lane.sent + h.lane.dropped + |h.lane.delayed| == h.lane.ordinal
    && (forall e :: e in h.accepted ==> Valid(e))
  }

  lemma ReleaseConserves(h: History)
    requires Conserved(h)
    ensures Conserved(h.(lane := Release(h.lane)))
  {
    if h.lane.delayed != [] {
      assert h.lane.delayed == [h.lane.delayed[0]] + h.lane.delayed[1..];
    }
  }

  lemma {:induction false} FlushConserves(h: History)
    requires Conserved(h)
    ensures Conserved(h.(lane := Flush(h.lane)))
    ensures Flush(h.lane).delayed == []
    decreases |h.lane.delayed|
  {
    if h.lane.delayed != [] {
      ReleaseConserves(h);
      hide Conserved;
      FlushConserves(h.(lane := Release(h.lane)));
    }
  }

  lemma PolledWasAccepted(h: History, e: Envelope)
    requires Conserved(h) && e in h.polled + h.lane.queued + h.lane.delayed
    ensures e in h.accepted
  {
    assert e in multiset(h.accepted);
  }

  lemma PollConserves(h: History)
    requires Conserved(h)
    ensures Conserved(Step(h, Polls))
  {
    if h.lane.queued != [] {
      var e := h.lane.queued[0];
      PolledWasAccepted(h, e);
      assert h.lane.queued == [e] + h.lane.queued[1..];
    }
  }

  lemma SendConserves(h: History, e: Envelope)
    requires Conserved(h)
    ensures Conserved(Step(h, Sends(e)))
  {
    if Valid(e) {
      var counted := h.lane.(ordinal := h.lane.ordinal + 1);
      if !Hits(h.conditions.dropEvery, counted.ordinal) && !Hits(h.conditions.delayEvery, counted.ordinal) {
        var pushed := h.(lane := counted.(queued := counted.queued + [e], sent := counted.sent + 1), accepted := h.accepted + [e]);
        assert Conserved(pushed);
        ReleaseConserves(pushed);
      }
    }
  }

  /** No envelope is invented, duplicated or silently lost, whatever the conditions and
      however they change; the counters say where each one is. */
  lemma {:induction false} RunConserves(conditions: Conditions, actions: seq<Action>)
    ensures Conserved(Run(conditions, actions))
  {
    if actions != [] {
      var before := Run(conditions, actions[..|actions| - 1]);
      RunConserves(conditions, actions[..|actions| - 1]);
      var action := actions[|actions| - 1];
      hide Conserved;
      match action {
        case Sends(e) => SendConserves(before, e);
        case Updates => ReleaseConserves(before);
        case Flushes => FlushConserves(before);
        case Polls => PollConserves(before);
        case Sets(c) => SettingConserves(before, c);
      }
    }
  }

  lemma SettingConserves(h: History, c: Conditions)
    requires Conserved(h)
    ensures Conserved(h.(conditions := c))
  {
  }

  // --- one more action ---

  /** What a send does: an invalid envelope is refused; every so many accepted ones are
      lost, every so many of the others held back; any other is queued, and the oldest one
      held back is let go behind it. */
  ghost predicate SendDoes(h: History, next: History, e: Envelope) {
    var n := |h.accepted| + 1;
    var c := h.conditions;
    next.polled == h.polled && next.conditions == c &&
    if !Valid(e) then next == h
    else
      next.accepted == h.accepted + [e] &&
      if c.dropEvery > 0 && n % c.dropEvery == 0
      then next.lost == h.lost + [e] && next.lane.queued == h.lane.queued && next.lane.delayed == h.lane.delayed
      else
        next.lost == h.lost &&
        if c.delayEvery > 0 && n % c.delayEvery == 0
        then next.lane.queued == h.lane.queued && next.lane.delayed == h.lane.delayed + [e]
        else next.lane.queued + next.lane.delayed == h.lane.queued + [e] + h.lane.delayed
             && |next.lane.queued| == |h.lane.queued| + 1 + (if h.lane.delayed == [] then 0 else 1)
  }

  lemma {:induction false} FlushLetsAllGo(l: Lane)
    ensures Flush(l).queued == l.queued + l.delayed && Flush(l).delayed == []
    decreases |l.delayed|
  {
    if l.delayed != [] {
      FlushLetsAllGo(Release(l));
    }
  }

  /** A poll hands out the oldest queued envelope, and nothing only if none is queued; an
      update lets the oldest held back go, a flush all of them. */
  ghost predicate ActionDoes(h: History, next: History, action: Action) {
    match action
    case Sends(e) => SendDoes(h, next, e)
    case Polls =>
      && next.accepted == h.accepted && next.lost == h.lost && next.lane.delayed == h.lane.delayed
      && next.polled + next.lane.queued == h.polled + h.lane.queued
      && |next.polled| == |h.polled| + (if h.lane.queued == [] then 0 else 1)
    case Updates =>
      && next.accepted == h.accepted && next.lost == h.lost && next.polled == h.polled
      && next.lane.queued + next.lane.delayed == h.lane.queued + h.lane.delayed
      && |next.lane.queued| == |h.lane.queued| + (if h.lane.delayed == [] then 0 else 1)
    case Flushes =>
      && next.accepted == h.accepted && next.lost == h.lost && next.polled == h.polled
      && next.lane.queued == h.lane.queued + h.lane.delayed && next.lane.delayed == []
    case Sets(c) => next == h.(conditions := c)
  }

  lemma SendingDoes(h: History, e: Envelope)
    requires Conserved(h)
    ensures SendDoes(h, Step(h, Sends(e)), e)
  {
    hide Valid;
  }

  lemma PollingDoes(h: History)
    requires Conserved(h)
    ensures ActionDoes(h, Step(h, Polls), Polls)
  {
    if h.lane.queued != [] {
      PolledWasAccepted(h, h.lane.queued[0]);
      assert h.lane.queued == [h.lane.queued[0]] + h.lane.queued[1..];
    }
    hide Valid, SendDoes, Conserved;
  }

  lemma ReleasingDoes(h: History)
    ensures ActionDoes(h, Step(h, Updates), Updates) && ActionDoes(h, Step(h, Flushes), Flushes)
  {
    FlushLetsAllGo(h.lane);
    if h.lane.delayed != [] {
      assert h.lane.delayed == [h.lane.delayed[0]] + h.lane.delayed[1..];
    }
    hide Flush, SendDoes;
  }

  /** After any run one more action does exactly that. */
  lemma NextActionDoes(conditions: Conditions, actions: seq<Action>, action: Action)
    ensures ActionDoes(Run(conditions, actions), Run(conditions, actions + [action]), action)
  {
    var h := Run(conditions, actions);
    assert (actions + [action])[..|actions|] == actions;
    RunConserves(conditions, actions);
    hide Run, SendDoes, Conserved, Send, Poll, Release;
    match action {
      case Sends(e) => SendingDoes(h, e);
      case Polls => PollingDoes(h);
      case Updates => ReleasingDoes(h);
      case Flushes => ReleasingDoes(h);
      case Sets(_) =>
    }
  }

  // --- which conditions keep the order ---

  /** The accepted envelopes that a fixed drop rule lets through. */
  function Survivors(dropEvery: nat, accepted: seq<Envelope>): seq<Envelope> {
    if accepted == [] then []
    else
      Survivors(dropEvery, accepted[..|accepted| - 1])
      + (if Hits(dropEvery, |accepted|) then [] else [accepted[|accepted| - 1]])
  }

  lemma SurvivorsSnoc(dropEvery: nat, accepted: seq<Envelope>, e: Envelope)
    ensures Survivors(dropEvery, accepted + [e])
         == Survivors(dropEvery, accepted) + (if Hits(dropEvery, |accepted| + 1) then [] else [e])
  {
    assert (accepted + [e])[..|accepted|] == accepted;
  }

  /** Nothing is ever delayed, or everything that survives is, or whatever would be
      delayed is dropped first. */
  predicate Straight(c: Conditions) {
    c.delayEvery <= 1 || (c.dropEvery != 0 && c.delayEvery % c.dropEvery == 0)
  }

  /** What has been polled and waits to be polled is what was sent and not dropped, in the
      order in which it was sent, as far as it has come. */
  ghost predicate ArrivesInOrder(h: History) {
    h.polled + h.lane.queued <= Survivors(h.conditions.dropEvery, h.accepted)
  }

  /** One first-in first-out lane: polled, queued, then held back. */
  ghost predicate InOrder(h: History) {
    && h.lane.ordinal == |h.accepted|
    && h.polled + h.lane.queued + h.lane.delayed == Survivors(h.conditions.dropEvery, h.accepted)
    && (h.conditions.delayEvery != 1 ==> h.lane.delayed == [])
    && (forall e :: e in h.lane.queued || e in h.lane.delayed ==> Valid(e))
  }

  lemma MultipleOfMultiple(n: nat, m: nat, k: nat)
    requires m > 0 && k > 0 && n % m == 0 && m % k == 0
    ensures n % k == 0
  {
    var q, r := n / m, m / k;
    assert n == q * m && m == r * k;
    assert n == (q * r) * k;
    RemainderIs(n, k, q * r, 0);
  }

  lemma RemainderIs(a: nat, m: nat, q: nat, r: nat)
    requires a == q * m + r && r < m
    ensures a % m == r
  {
    var p := a / m;
    assert a == p * m + a % m;
    assert (p + 1) * m == p * m + m && (q + 1) * m == q * m + m;
    if p < q {
      MoreTimes(p + 1, q, m);
    } else if q < p {
      MoreTimes(q + 1, p, m);
    }
  }

  lemma MoreTimes(a: nat, b: nat, m: nat)
    requires a <= b
    ensures a * m <= b * m
  {
  }

  lemma ReleaseKeepsOrder(h: History)
    requires InOrder(h)
    ensures InOrder(h.(lane := Release(h.lane)))
  {
    if h.lane.delayed != [] {
      assert h.lane.delayed == [h.lane.delayed[0]] + h.lane.delayed[1..];
      assert h.polled + (h.lane.queued + [h.lane.delayed[0]]) + h.lane.delayed[1..]
          == h.polled + h.lane.queued + h.lane.delayed;
    }
  }

  lemma {:induction false} FlushKeepsOrder(h: History)
    requires InOrder(h)
    ensures InOrder(h.(lane := Flush(h.lane)))
    decreases |h.lane.delayed|
  {
    if h.lane.delayed != [] {
      ReleaseKeepsOrder(h);
      hide InOrder;
      FlushKeepsOrder(h.(lane := Release(h.lane)));
    }
  }

  lemma SendKeepsOrder(h: History, e: Envelope)
    requires InOrder(h) && Straight(h.conditions)
    ensures InOrder(Step(h, Sends(e)))
  {
    var d, k, n := h.conditions.dropEvery, h.conditions.delayEvery, h.lane.ordinal + 1;
    if Valid(e) {
      SurvivorsSnoc(d, h.accepted, e);
      if k > 1 && Hits(k, n) {
        MultipleOfMultiple(n, k, d);
      }
      assert k == 1 ==> Hits(k, n);
      hide Survivors;
      if !Hits(d, n) {
        if k == 1 {
          assert h.polled + h.lane.queued + (h.lane.delayed + [e]) == h.polled + h.lane.queued + h.lane.delayed + [e];
        } else {
          assert h.polled + (h.lane.queued + [e]) + [] == h.polled + h.lane.queued + h.lane.delayed + [e];
        }
      }
    }
  }

  lemma PollKeepsOrder(h: History)
    requires InOrder(h)
    ensures InOrder(Step(h, Polls))
  {
    if h.lane.queued != [] {
      var e := h.lane.queued[0];
      assert h.lane.queued == [e] + h.lane.queued[1..];
      assert h.polled + [e] + h.lane.queued[1..] + h.lane.delayed == h.polled + h.lane.queued + h.lane.delayed;
    }
  }

  ghost predicate NoSets(actions: seq<Action>) {
    forall k :: 0 <= k < |actions| ==> !actions[k].Sets?
  }

  /** Under straight conditions a lane is one queue: polled, queued and held back are
      exactly the survivors, in order. */
  lemma {:induction false} StraightIsInOrder(conditions: Conditions, actions: seq<Action>)
    requires Straight(conditions) && NoSets(actions)
    ensures var h := Run(conditions, actions);
            && h.polled + h.lane.queued + h.lane.delayed == Survivors(conditions.dropEvery, h.accepted)
            && h.conditions == conditions
    ensures InOrder(Run(conditions, actions))
  {
    if actions != [] {
      var before := Run(conditions, actions[..|actions| - 1]);
      StraightIsInOrder(conditions, actions[..|actions| - 1]);
      hide InOrder, Survivors, Straight;
      match actions[|actions| - 1] {
        case Sends(e) => SendKeepsOrder(before, e);
        case Updates => ReleaseKeepsOrder(before);
        case Flushes => FlushKeepsOrder(before);
        case Polls => PollKeepsOrder(before);
      }
      InOrderMeans(Run(conditions, actions));
    }
  }

  lemma InOrderMeans(h: History)
    requires InOrder(h)
    ensures h.polled + h.lane.queued + h.lane.delayed == Survivors(h.conditions.dropEvery, h.accepted)
  {
  }

  /** With no delays a lane delivers exactly the survivors, in order. */
  lemma UndelayedIsInOrder(dropEvery: nat, actions: seq<Action>)
    requires NoSets(actions)
    ensures var h := Run(Conditions(dropEvery, 0), actions);
            h.polled + h.lane.queued == Survivors(dropEvery, h.accepted)
  {
    StraightIsInOrder(Conditions(dropEvery, 0), actions);
    hide Run, Survivors;
  }

  // --- how other conditions break it ---

  /** The n-th of a series of different valid envelopes. */
  function Numbered(n: nat): Envelope {
    Envelope(PROTOCOL_VERSION, 1, MovementInput, ClientInput, n, [])
  }

  function Series(n: nat): seq<Action> {
    if n == 0 then [] else Series(n - 1) + [Sends(Numbered(n))]
  }

  lemma SeriesStep(conditions: Conditions, n: nat)
    ensures NoSets(Series(n))
    ensures n > 0 ==> Run(conditions, Series(n)) == Step(Run(conditions, Series(n - 1)), Sends(Numbered(n)))
  {
    if n > 0 {
      SeriesStep(conditions, n - 1);
      assert Series(n)[..|Series(n)| - 1] == Series(n - 1);
    }
  }

  /** The lane after n numbered sends, when nothing has come out of order yet. */
  ghost predicate SoFar(h: History, conditions: Conditions, n: nat, delayed: seq<Envelope>) {
    && h.conditions == conditions && |h.accepted| == n == h.lane.ordinal && h.polled == []
    && h.lane.delayed == delayed
    && h.lane.queued + delayed == Survivors(conditions.dropEvery, h.accepted)
  }

  /** What one more numbered send does: it is lost, held back, or pushed with the oldest
      held-back envelope behind it. */
  lemma NextInSeries(conditions: Conditions, n: nat, delayed: seq<Envelope>)
    requires SoFar(Run(conditions, Series(n)), conditions, n, delayed)
    ensures var h, next := Run(conditions, Series(n)), Run(conditions, Series(n + 1));
            var e := Numbered(n + 1);
            && next.conditions == conditions && |next.accepted| == n + 1 == next.lane.ordinal && next.polled == []
            && (if Hits(conditions.dropEvery, n + 1) then
                  next.lane.delayed == delayed && next.lane.queued == h.lane.queued
                  && Survivors(conditions.dropEvery, next.accepted) == h.lane.queued + delayed
                else
                  && Survivors(conditions.dropEvery, next.accepted) == h.lane.queued + delayed + [e]
                  && (if Hits(conditions.delayEvery, n + 1) then
                        next.lane.delayed == delayed + [e] && next.lane.queued == h.lane.queued
                      else if delayed == [] then
                        next.lane.delayed == [] && next.lane.queued == h.lane.queued + [e]
                      else
                        next.lane.delayed == delayed[1..] && next.lane.queued == h.lane.queued + [e] + [delayed[0]]))
  {
    SeriesStep(conditions, n + 1);
    var h := Run(conditions, Series(n));
    SurvivorsSnoc(conditions.dropEvery, h.accepted, Numbered(n + 1));
    hide Run, Survivors, Series, Hits;
  }

  /** Before the first delay everything that survives is queued in order. */
  lemma {:induction false} BeforeTheDelay(conditions: Conditions, n: nat)
    requires n < conditions.delayEvery
    ensures SoFar(Run(conditions, Series(n)), conditions, n, [])
  {
    if n > 0 {
      BeforeTheDelay(conditions, n - 1);
      RemainderIs(n, conditions.delayEvery, 0, n);
      assert !Hits(conditions.delayEvery, n);
      hide Run, Survivors, Series, Hits;
      NextInSeries(conditions, n - 1, []);
    }
  }

  /** A dropped envelope changes nothing about what waits. */
  lemma ADrop(conditions: Conditions, n: nat, delayed: seq<Envelope>)
    requires SoFar(Run(conditions, Series(n)), conditions, n, delayed) && Hits(conditions.dropEvery, n + 1)
    ensures SoFar(Run(conditions, Series(n + 1)), conditions, n + 1, delayed)
  {
    hide Run, Survivors, Series, Hits;
    NextInSeries(conditions, n, delayed);
  }

  lemma AnotherDelay(conditions: Conditions, n: nat, delayed: seq<Envelope>)
    requires SoFar(Run(conditions, Series(n)), conditions, n, delayed)
    requires !Hits(conditions.dropEvery, n + 1) && Hits(conditions.delayEvery, n + 1)
    ensures SoFar(Run(conditions, Series(n + 1)), conditions, n + 1, delayed + [Numbered(n + 1)])
  {
    hide Run, Survivors, Series, Hits;
    NextInSeries(conditions, n, delayed);
    var queued := Run(conditions, Series(n)).lane.queued;
    assert queued + (delayed + [Numbered(n + 1)]) == queued + delayed + [Numbered(n + 1)];
  }

  lemma EveryHitsItself(k: nat)
    requires k > 0
    ensures Hits(k, k)
  {
    RemainderIs(k, k, 1, 0);
  }

  /** The envelope that is delayed first is held back alone. */
  lemma TheDelay(conditions: Conditions)
    requires conditions.delayEvery >= 2 && !Hits(conditions.dropEvery, conditions.delayEvery)
    ensures var k := conditions.delayEvery;
            SoFar(Run(conditions, Series(k)), conditions, k, [Numbered(k)])
  {
    var k := conditions.delayEvery;
    EveryHitsItself(k);
    BeforeTheDelay(conditions, k - 1);
    hide Run, Survivors, Series, Hits, SoFar;
    AnotherDelay(conditions, k - 1, []);
    assert [] + [Numbered(k)] == [Numbered(k)];
  }

  /** The next one that is neither dropped nor delayed overtakes what is held back. */
  lemma Overtakes(conditions: Conditions, n: nat, delayed: seq<Envelope>)
    requires SoFar(Run(conditions, Series(n)), conditions, n, delayed)
    requires delayed != [] && delayed[0] != Numbered(n + 1)
    requires !Hits(conditions.dropEvery, n + 1) && !Hits(conditions.delayEvery, n + 1)
    ensures !ArrivesInOrder(Run(conditions, Series(n + 1))) && NoSets(Series(n + 1))
  {
    SeriesStep(conditions, n + 1);
    hide Run, Survivors, Series, Hits;
    NextInSeries(conditions, n, delayed);
    var h, next := Run(conditions, Series(n)), Run(conditions, Series(n + 1));
    var at := |h.lane.queued|;
    assert Survivors(conditions.dropEvery, next.accepted)[at] == delayed[0];
    assert next.polled + next.lane.queued == next.lane.queued;
    assert (next.polled + next.lane.queued)[at] == Numbered(n + 1);
  }

  lemma OneMoreIsNoMultiple(k: nat, n: nat)
    requires k >= 2 && n % k == 0
    ensures (n + 1) % k == 1
  {
    assert n == (n / k) * k;
    RemainderIs(n + 1, k, n / k, 1);
  }

  /** Conditions that are not straight break the order of some series: at the first
      delayed ordinal something is held back that a later envelope overtakes. */
  lemma CrookedBreaksOrder(conditions: Conditions) returns (n: nat)
    requires !Straight(conditions)
    ensures NoSets(Series(n)) && !ArrivesInOrder(Run(conditions, Series(n)))
  {
    var d, k := conditions.dropEvery, conditions.delayEvery;
    TheDelay(conditions);
    RemainderIs(k, k, 1, 0);
    OneMoreIsNoMultiple(k, k);
    hide Run, Series, SoFar, ArrivesInOrder;
    if !Hits(d, k + 1) {
      Overtakes(conditions, k, [Numbered(k)]);
      n := k + 1;
    } else {
      ADrop(conditions, k, [Numbered(k)]);
      assert k % 1 == 0;
      OneMoreIsNoMultiple(d, k + 1);
      if k == 2 {
        assert d == 3;
        AnotherDelay(conditions, 3, [Numbered(2)]);
        Overtakes(conditions, 4, [Numbered(2)] + [Numbered(4)]);
        n := 5;
      } else {
        RemainderIs(k + 2, k, 1, 2);
        Overtakes(conditions, k + 1, [Numbered(k)]);
        n := k + 2;
      }
    }
  }

  /** Order is kept on every run under fixed conditions if and only if these are straight. */
  lemma OrderIsKeptIff(conditions: Conditions)
    ensures Straight(conditions) <==>
            forall actions :: NoSets(actions) ==> ArrivesInOrder(Run(conditions, actions))
  {
    if Straight(conditions) {
      forall actions | NoSets(actions)
        ensures ArrivesInOrder(Run(conditions, actions))
      {
        StraightIsInOrder(conditions, actions);
        hide Run, Survivors;
      }
    } else {
      var n := CrookedBreaksOrder(conditions);
      hide Run, Series, ArrivesInOrder;
      assert NoSets(Series(n));
    }
  }

  /** The smallest such series: with every second envelope delayed and none dropped, the
      third of three sends arrives before the second. */
  lemma ThirdOvertakesSecond()
    ensures Run(Conditions(0, 2), Series(3)).lane.queued == [Numbered(1), Numbered(3), Numbered(2)]
  {
    var c := Conditions(0, 2);
    assert Series(0) == [] && Run(c, []).lane == EMPTY;
    assert !Hits(2, 1) && Hits(2, 2) && !Hits(2, 3) && !Hits(0, 1) && !Hits(0, 2) && !Hits(0, 3);
    BeforeTheDelay(c, 0);
    BeforeTheDelay(c, 1);
    TheDelay(c);
    hide Run, Survivors, Series, Hits;
    NextInSeries(c, 0, []);
    NextInSeries(c, 1, []);
    NextInSeries(c, 2, [Numbered(2)]);
  }

  // --- the transport object ---

  class SharedState {
    var aToB: seq<Envelope>
    var bToA: seq<Envelope>
    var delayedAToB: seq<Envelope>
    var delayedBToA: seq<Envelope>

    constructor ()
      ensures aToB == bToA == delayedAToB == delayedBToA == []
    {
      aToB, bToA, delayedAToB, delayedBToA := [], [], [], [];
    }
  }

  class LoopbackTransport {
    const state: SharedState
    const atA: bool
    var conditions: Conditions
    var connected: bool
    var ordinal: nat
    var sent: nat
    var dropped: nat
    var delays: nat
    var sendFailures: nat

    function Outgoing(): Lane
      reads this, state
    {
      Lane(ordinal, if atA then state.aToB else state.bToA, if atA then state.delayedAToB else state.delayedBToA,
           sent, dropped, delays)
    }

    function Incoming(): seq<Envelope>
      reads state
    {
      if atA then state.bToA else state.aToB
    }

    function OtherDelayed(): seq<Envelope>
      reads state
    {
      if atA then state.delayedBToA else state.delayedAToB
    }

    constructor (state: SharedState, atA: bool, conditions: Conditions)
      requires (if atA then state.aToB else state.bToA) == [] && (if atA then state.delayedAToB else state.delayedBToA) == []
      ensures this.state == state && this.atA == atA && this.conditions == conditions && connected
      ensures Outgoing() == EMPTY
    {
      this.state, this.atA, this.conditions := state, atA, conditions;
      connected, ordinal, sent, dropped, delays, sendFailures := true, 0, 0, 0, 0, 0;
    }

    method PushOutgoing(e: Envelope)
      modifies this`sent, state
      ensures Outgoing() == old(Outgoing()).(queued := old(Outgoing()).queued + [e], sent := old(sent) + 1)
      ensures Incoming() == old(Incoming()) && OtherDelayed() == old(OtherDelayed())
    {
      sent := sent + 1;
      if atA {
        state.aToB := state.aToB + [e];
      } else {
        state.bToA := state.bToA + [e];
      }
    }

    method ReleaseOneDelayed()
      modifies this`sent, state
      ensures Outgoing() == Release(old(Outgoing()))
      ensures Incoming() == old(Incoming()) && OtherDelayed() == old(OtherDelayed())
    {
      var delayed := Outgoing().delayed;
      if delayed == [] {
        return;
      }
      if atA {
        state.delayedAToB := state.delayedAToB[1..];
      } else {
        state.delayedBToA := state.delayedBToA[1..];
      }
      PushOutgoing(delayed[0]);
    }

    method FlushDelayed()
      modifies this`sent, state
      ensures Outgoing() == Flush(old(Outgoing()))
      ensures Incoming() == old(Incoming()) && OtherDelayed() == old(OtherDelayed())
    {
      while Outgoing().delayed != []
        invariant Flush(Outgoing()) == Flush(old(Outgoing()))
        invariant Incoming() == old(Incoming()) && OtherDelayed() == old(OtherDelayed())
        decreases |Outgoing().delayed|
      {
        ReleaseOneDelayed();
      }
    }

    method SendEnvelope(e: Envelope) returns (accepted: bool)
      modifies this, state
      ensures accepted <==> old(connected) && Valid(e)
      ensures Outgoing() == if old(connected) then Send(old(conditions), old(Outgoing()), e) else old(Outgoing())
      ensures Incoming() == old(Incoming()) && connected == old(connected) && conditions == old(conditions)
      ensures sendFailures == old(sendFailures) + if accepted then 0 else 1
    {
      if !connected {
        sendFailures := sendFailures + 1;
        return false;
      }
      if !Valid(e) {
        sendFailures := sendFailures + 1;
        return false;
      }
      ordinal := ordinal + 1;
      if conditions.dropEvery != 0 && ordinal % conditions.dropEvery == 0 {
        dropped := dropped + 1;
        return true;
      }
      if conditions.delayEvery != 0 && ordinal % conditions.delayEvery == 0 {
        if atA {
          state.delayedAToB := state.delayedAToB + [e];
        } else {
          state.delayedBToA := state.delayedBToA + [e];
        }
        delays := delays + 1;
        return true;
      }
      PushOutgoing(e);
      ReleaseOneDelayed();
      return true;
    }

    method PollEnvelope() returns (e: Option<Envelope>)
      modifies state
      ensures Outgoing() == old(Outgoing())
      ensures !connected ==> e == None && Incoming() == old(Incoming())
      ensures connected && old(Incoming()) == [] ==> e == None && Incoming() == []
      ensures connected && old(Incoming()) != [] ==>
                && Incoming() == old(Incoming())[1..]
                && e == if Valid(old(Incoming())[0]) then Some(old(Incoming())[0]) else None
    {
      if !connected || Incoming() == [] {
        return None;
      }
      var first := Incoming()[0];
      if atA {
        state.bToA := state.bToA[1..];
      } else {
        state.aToB := state.aToB[1..];
      }
      if !Valid(first) {
        return None;
      }
      return Some(first);
    }
  }
}
