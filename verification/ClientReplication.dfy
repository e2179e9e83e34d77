/** What the server keeps per client: the acknowledged snapshot, the interest set and
    the table of unacknowledged reliable events with exponential backoff
    (Server/include/Server/ServerClientReplicationState.hpp). */
module ClientReplication {
  import opened Basics
  import opened Events
  import opened Interest

  datatype PendingEvent = PendingEvent(
    event: NetworkEvent, firstSentAt: Time, lastSentAt: Time, sendCount: nat)

  type Table = map<EventId, PendingEvent>

  datatype ClientState = ClientState(
    acked: SnapshotId, nextSendAt: Time, known: set<EntityId>, pending: Table)

  const FRESH_CLIENT := ClientState(0, 0, {}, map[])

  function Tracked(pending: Table, event: NetworkEvent, now: Time): Table {
    var id := event.eventId;
    if id in pending && pending[id].sendCount > 0
    then pending[id := pending[id].(lastSentAt := now, sendCount := pending[id].sendCount + 1)]
    else pending[id := PendingEvent(event, now, now, 1)]
  }

  function Pow2(n: nat): (p: nat)
    ensures p >= 1
  {
    if n == 0 then 1 else 2 * Pow2(n - 1)
  }

  /** How often the base interval is waited after `sendCount` copies: once, doubled up
      to four times. */
  function Doublings(sendCount: nat): nat {
    Pow2(Min(if sendCount > 0 then sendCount - 1 else 0, 4))
  }

  function Delay(base: Time, sendCount: nat): Time {
    base * Doublings(sendCount)
  }

  predicate IsDue(p: PendingEvent, now: Time, base: Time, maxSendCount: nat) {
    && (maxSendCount == 0 || p.sendCount < maxSendCount)
    && now >= p.lastSentAt + Delay(base, p.sendCount)
  }

  function DueEvents(pending: Table, walk: seq<EventId>, now: Time, base: Time, maxSendCount: nat): (due: seq<NetworkEvent>)
    requires forall id :: id in walk ==> id in pending
  {
    if walk == [] then []
    else
      var front := walk[..|walk| - 1];
      var p := pending[walk[|walk| - 1]];
      assert forall id :: id in front ==> id in walk;
      DueEvents(pending, front, now, base, maxSendCount)
      + (if IsDue(p, now, base, maxSendCount) then [p.event] else [])
  }

  ghost predicate DistinctEvents(events: seq<NetworkEvent>) {
    forall i, j :: 0 <= i < j < |events| ==> events[i].eventId != events[j].eventId
  }

  /** The due list holds exactly the due entries, each once. */
  lemma {:induction false} DueEventsAreDue(pending: Table, walk: seq<EventId>, now: Time, base: Time, maxSendCount: nat)
    requires Distinct(walk)
    requires forall id :: id in walk ==> id in pending
    requires forall id :: id in pending ==> pending[id].event.eventId == id
    ensures var due := DueEvents(pending, walk, now, base, maxSendCount);
            && (forall k :: 0 <= k < |due| ==>
                  && due[k].eventId in walk
                  && pending[due[k].eventId].event == due[k]
                  && IsDue(pending[due[k].eventId], now, base, maxSendCount))
            && (forall id :: id in walk && IsDue(pending[id], now, base, maxSendCount) ==> pending[id].event in due)
            && DistinctEvents(due)
  {
    if walk != [] {
      var front := walk[..|walk| - 1];
      assert forall id :: id in walk <==> id in front || id == walk[|walk| - 1];
      DueEventsAreDue(pending, front, now, base, maxSendCount);
    }
  }

  // --- backoff ---

  /** Send times that respect the backoff between consecutive copies. */
  ghost predicate Paced(times: seq<Time>, base: Time) {
    forall k :: 0 <= k < |times| - 1 ==> times[k + 1] >= times[k] + Delay(base, k + 1)
  }

  /** The sum of the waits before the last of n copies. */
  function MinElapsed(base: Time, n: nat): nat {
    if n <= 1 then 0 else MinElapsed(base, n - 1) + Delay(base, n - 1)
  }

  lemma {:induction false} PacedElapsed(times: seq<Time>, base: Time)
    requires Paced(times, base) && times != []
    ensures times[|times| - 1] - times[0] >= MinElapsed(base, |times|)
  {
    if |times| > 1 {
      PacedElapsed(times[..|times| - 1], base);
      assert times[|times| - 2 + 1] >= times[|times| - 2] + Delay(base, |times| - 1);
    }
  }

  /** All waits before the n-th copy, in base intervals. */
  function Waits(n: nat): nat {
    if n <= 1 then 0 else Waits(n - 1) + Doublings(n - 1)
  }

  lemma Distribute(base: nat, a: nat, b: nat)
    ensures base * (a + b) == base * a + base * b
  {
  }

  lemma {:induction false} MinElapsedIsWaits(base: Time, n: nat)
    ensures MinElapsed(base, n) == base * Waits(n)
  {
    hide Doublings;
    if n > 1 {
      MinElapsedIsWaits(base, n - 1);
      Distribute(base, Waits(n - 1), Doublings(n - 1));
    }
  }

  lemma {:induction false} WaitsClosedForm(n: nat)
    requires n >= 1
    ensures n <= 6 ==> Waits(n) == Pow2(n - 1) - 1
    ensures n >= 6 ==> Waits(n) == 16 * n - 65
  {
    if n > 1 {
      WaitsClosedForm(n - 1);
      Pow2Values();
    }
  }

  lemma Pow2Values()
    ensures Pow2(0) == 1 && Pow2(1) == 2 && Pow2(2) == 4 && Pow2(3) == 8 && Pow2(4) == 16 && Pow2(5) == 32
  {
    assert Pow2(2) == 2 * Pow2(1);
    assert Pow2(3) == 2 * Pow2(2);
    assert Pow2(4) == 2 * Pow2(3);
    assert Pow2(5) == 2 * Pow2(4);
  }

  class ServerClientReplicationState {
    var acked: SnapshotId
    var nextSendAt: Time
    const interest: InterestTracker
    var pending: Table

    function State(): ClientState
      reads this, interest
    {
      ClientState(acked, nextSendAt, interest.known, pending)
    }

    constructor ()
      ensures State() == FRESH_CLIENT && fresh(interest)
    {
      acked, nextSendAt, pending := 0, 0, map[];
      interest := new InterestTracker();
    }

    method AcknowledgeSnapshot(id: SnapshotId) returns (accepted: bool)
      modifies this`acked
      ensures accepted <==> id > old(acked)
      ensures acked == if accepted then id else old(acked)
    {
      if id <= acked {
        return false;
      }
      acked := id;
      return true;
    }

    method ShouldSendSnapshot(now: Time) returns (should: bool)
      ensures should <==> now >= nextSendAt
    {
      should := now >= nextSendAt;
    }

    method MarkSnapshotSent(now: Time, interval: Time)
      modifies this`nextSendAt
      ensures nextSendAt == now + interval
    {
      nextSendAt := now + interval;
    }

    method TrackReliableEvent(event: NetworkEvent, now: Time)
      modifies this`pending
      ensures pending == Tracked(old(pending), event, now)
    {
      var id := event.eventId;
      var entry := if id in pending then pending[id] else PendingEvent(event, 0, 0, 0);
      if entry.sendCount == 0 {
        entry := entry.(firstSentAt := now, event := event);
      }
      entry := entry.(lastSentAt := now, sendCount := entry.sendCount + 1);
      pending := pending[id := entry];
    }

    method AcknowledgeReliableEvent(id: EventId) returns (erased: bool)
      modifies this`pending
      ensures erased <==> id in old(pending)
      ensures pending == old(pending) - {id}
    {
      erased := id in pending;
      pending := pending - {id};
    }

    method ReliableEventsDueForResend(walk: seq<EventId>, now: Time, base: Time, maxSendCount: nat)
      returns (due: seq<NetworkEvent>)
      requires Enumerates(walk, pending.Keys)
      ensures due == DueEvents(pending, walk, now, base, maxSendCount)
    {
      due := [];
      var i := 0;
      while i < |walk|
        invariant i <= |walk|
        invariant forall id :: id in walk[..i] ==> id in pending
        invariant due == DueEvents(pending, walk[..i], now, base, maxSendCount)
      {
        assert walk[..i + 1][..i] == walk[..i];
        assert walk[i] in walk;
        var entry := pending[walk[i]];
        i := i + 1;
        if maxSendCount != 0 && entry.sendCount >= maxSendCount {
          continue;
        }
        var shift := Min(if entry.sendCount > 0 then entry.sendCount - 1 else 0, 4);
        if now >= entry.lastSentAt + base * Pow2(shift) {
          due := due + [entry.event];
        }
      }
      assert walk[..|walk|] == walk;
    }
  }
}
