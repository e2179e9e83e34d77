/** Rewinding to the world a client saw: a bounded history of snapshots, the lookup in it,
    and the closed form of the whole query on a running server
    (GameLogic/include/GameLogic/LagCompensation.hpp, GameLogic/src/LagCompensation.cpp,
    Server/src/ServerRuntime.cpp). */
module LagCompensation {
  import opened Basics
  import opened Replication
  import opened Motion
  import Simulation
  import opened Replicas
  import Game
  import Prediction
  import Mirrors

  const MAX_SNAPSHOTS: nat := 128

  datatype Config = Config(maxRewind: Time, futureTolerance: Time)
  datatype Query = Query(clientTime: Time, offset: int, serverNow: Time)
  datatype Reason = Accepted | TooOld | FromFuture | HistoryUnavailable
  datatype Result = Result(reason: Reason, target: Time, snapshot: Option<Snapshot>)

  // --- the history ---

  function Kept(history: seq<Snapshot>, capacity: nat): seq<Snapshot> {
    if |history| > capacity then history[|history| - capacity..] else history
  }

  function Closest(history: seq<Snapshot>, time: Time): Option<Snapshot> {
    if history == [] then None
    else if history[|history| - 1].serverTime <= time then Some(history[|history| - 1])
    else Closest(history[..|history| - 1], time)
  }

  class LagCompensationHistory {
    const maxSnapshots: nat
    var snapshots: seq<Snapshot>

    constructor (maxSnapshots: nat)
      ensures this.maxSnapshots == maxSnapshots && snapshots == []
    {
      this.maxSnapshots := maxSnapshots;
      snapshots := [];
    }

    method Record(snapshot: Snapshot)
      modifies this
      ensures snapshots == Kept(old(snapshots) + [snapshot], maxSnapshots)
    {
      ghost var all := snapshots + [snapshot];
      snapshots := snapshots + [snapshot];
      ghost var k := 0;
      while |snapshots| > maxSnapshots
        invariant k <= |all| && snapshots == all[k..]
        invariant |all| <= maxSnapshots ==> k == 0
        invariant |all| > maxSnapshots ==> k <= |all| - maxSnapshots
      {
        snapshots := snapshots[1..];
        k := k + 1;
      }
    }

    method ClosestAtOrBefore(time: Time) returns (result: Option<Snapshot>)
      ensures result == Closest(snapshots, time)
    {
      result := None;
      var i := 0;
      while i < |snapshots|
        invariant i <= |snapshots|
        invariant result == Closest(snapshots[..i], time)
      {
        assert snapshots[..i + 1][..i] == snapshots[..i];
        if snapshots[i].serverTime <= time {
          result := Some(snapshots[i]);
        }
        i := i + 1;
      }
      assert snapshots[..|snapshots|] == snapshots;
    }
  }

  /** With rising times the lookup finds the newest snapshot that is not too new. */
  lemma {:induction false} ClosestIsNewest(history: seq<Snapshot>, time: Time, k: nat)
    requires forall i, j :: 0 <= i < j < |history| ==> history[i].serverTime < history[j].serverTime
    requires k <= |history|
    requires forall i :: 0 <= i < k ==> history[i].serverTime <= time
    requires forall i :: k <= i < |history| ==> history[i].serverTime > time
    ensures Closest(history, time) == if k == 0 then None else Some(history[k - 1])
  {
    if |history| > k {
      ClosestIsNewest(history[..|history| - 1], time, k);
    }
  }

  // --- the query ---

  function MapClientTimeToServerTime(query: Query): Time {
    if query.clientTime + query.offset <= 0 then 0 else query.clientTime + query.offset
  }

  function Answer(config: Config, history: seq<Snapshot>, query: Query): Result {
    var target := MapClientTimeToServerTime(query);
    if target > query.serverNow + config.futureTolerance then Result(FromFuture, target, None)
    else if query.serverNow > target && query.serverNow - target > config.maxRewind then Result(TooOld, target, None)
    else
      match Closest(history, target)
      case None => Result(HistoryUnavailable, target, None)
      case Some(snapshot) => Result(Accepted, target, Some(snapshot))
  }

  // --- a running server ---

  /** The snapshot a server records after its k-th tick. */
  function Recorded(config: Simulation.Config, order: Order, rounds: seq<seq<Game.Action>>, k: nat): Snapshot
    requires Chunked(config.rules.map_) && k <= |rounds|
  {
    BuildSnapshot(config, order, Prediction.Played(config, order, Game.NEW_GAME, rounds, k).world, 0, k, 0)
  }

  /** What a server remembers of a tick: the world just after it, numbered with the tick's
      number, with everything in it as long as nobody plays as client zero. */
  lemma RecordedIsTheWorld(config: Simulation.Config, order: Order, rounds: seq<seq<Game.Action>>, k: nat)
    requires Chunked(config.rules.map_) && k <= |rounds| && ValidOrder(order)
    ensures var w := Prediction.Played(config, order, Game.NEW_GAME, rounds, k).world;
            var s := Recorded(config, order, rounds, k);
            && Mirrors.TakenFrom(w, 0, s) && s.snapshotId == k && s.baselineId == 0 && s.serverTick == w.tick && s.deliveryKind == Full
            && (0 !in w.playerByClient ==> forall id :: Mirrors.Names(s, id) <==> id in w.entities)
  {
    var w := Prediction.Played(config, order, Game.NEW_GAME, rounds, k).world;
    Mirrors.BuiltIsTaken(config, order, w, 0, k, 0);
    hide Prediction.Played, BuildSnapshot, Visible, Mirrors.TakenFrom, Mirrors.Names;
    if 0 !in w.playerByClient {
      forall id | id in w.entities
        ensures Visible(config, w, 0, id)
      {
        assert forall self :: !Mirrors.SelfIs(w, 0, self);
        Mirrors.OthersAreSeen(config, w, 0, id);
      }
    }
  }

  /** The history after n ticks, each preceded by any commands. */
  function History(config: Simulation.Config, order: Order, rounds: seq<seq<Game.Action>>, n: nat, capacity: nat): seq<Snapshot>
    requires Chunked(config.rules.map_) && n <= |rounds|
  {
    if n == 0 then []
    else Kept(History(config, order, rounds, n - 1, capacity) + [Recorded(config, order, rounds, n)], capacity)
  }

  lemma {:induction false} CommandsKeepTime(config: Simulation.Config, order: Order, g: Game.Game, commands: seq<Game.Action>, n: nat)
    requires n <= |commands| && (forall j :: 0 <= j < |commands| ==> !commands[j].Tick?)
    ensures Prediction.Prepared(config, order, g, commands, n).world.time == g.world.time
  {
    if n > 0 {
      CommandsKeepTime(config, order, g, commands, n - 1);
      Prediction.StepCommand(config, order, Prediction.Prepared(config, order, g, commands, n - 1), commands[n - 1]);
      hide Game.Step;
    }
  }

  /** The commands between two ticks are no ticks themselves. */
  ghost predicate OnlyCommands(rounds: seq<seq<Game.Action>>) {
    forall i :: 0 <= i < |rounds| ==> forall j :: 0 <= j < |rounds[i]| ==> !rounds[i][j].Tick?
  }

  /** The time of the k-th tick. */
  function Stamp(k: nat, dt: nat): nat {
    k * dt
  }

  lemma StampSteps(k: nat, dt: nat)
    requires k > 0
    ensures Stamp(k - 1, dt) + dt == Stamp(k, dt) && Stamp(0, dt) == 0
  {
  }

  lemma TickTakesTime(config: Simulation.Config, order: Order, ready: Game.Game)
    ensures Game.Step(config, order, ready, Game.Tick).world.time == ready.world.time + config.rules.tickMs
  {
    Prediction.StepTick(config, order, ready);
    Game.TickKeepsCommands(config, order, ready.world);
    hide Game.Step, Simulation.TickFixed;
  }

  /** The server's clock counts its ticks. */
  lemma {:induction false} TicksTakeTime(config: Simulation.Config, order: Order, rounds: seq<seq<Game.Action>>, k: nat)
    requires k <= |rounds| && OnlyCommands(rounds)
    ensures Prediction.Played(config, order, Game.NEW_GAME, rounds, k).world.time == Stamp(k, config.rules.tickMs)
  {
    hide Game.Step, Simulation.TickFixed, Prediction.Prepared, Stamp;
    if k > 0 {
      TicksTakeTime(config, order, rounds, k - 1);
      CommandsKeepTime(config, order, Prediction.Played(config, order, Game.NEW_GAME, rounds, k - 1), rounds[k - 1], |rounds[k - 1]|);
      TickTakesTime(config, order, Prediction.Ready(config, order, Game.NEW_GAME, rounds, k - 1));
      StampSteps(k, config.rules.tickMs);
    } else {
      StampSteps(1, config.rules.tickMs);
    }
  }

  /** The first tick still remembered after n ticks. */
  function FirstKept(n: nat, capacity: nat): nat {
    if n > capacity then n - capacity + 1 else 1
  }

  ghost predicate IsRun(config: Simulation.Config, order: Order, rounds: seq<seq<Game.Action>>, h: seq<Snapshot>, first: nat)
    requires Chunked(config.rules.map_) && first + |h| <= |rounds| + 1
  {
    forall i: nat :: i < |h| ==> h[i] == Recorded(config, order, rounds, first + i)
  }

  /** The history holds the last snapshots, newest last, as many as fit. */
  lemma {:induction false} HistoryIsRecent(config: Simulation.Config, order: Order, rounds: seq<seq<Game.Action>>, n: nat, capacity: nat)
    requires Chunked(config.rules.map_) && n <= |rounds|
    ensures var h := History(config, order, rounds, n, capacity);
            FirstKept(n, capacity) + |h| == n + 1 && IsRun(config, order, rounds, h, FirstKept(n, capacity))
  {
    hide Recorded;
    if n > 0 {
      HistoryIsRecent(config, order, rounds, n - 1, capacity);
    }
  }

  lemma RecordedTime(config: Simulation.Config, order: Order, rounds: seq<seq<Game.Action>>, k: nat)
    requires Chunked(config.rules.map_) && k <= |rounds| && OnlyCommands(rounds)
    ensures Recorded(config, order, rounds, k).serverTime == Stamp(k, config.rules.tickMs)
  {
    TicksTakeTime(config, order, rounds, k);
    hide Prediction.Played;
  }

  lemma StampsRise(a: nat, b: nat, dt: nat)
    requires dt > 0
    ensures a < b ==> Stamp(a, dt) < Stamp(b, dt)
    ensures a <= b ==> Stamp(a, dt) <= Stamp(b, dt)
  {
    if a < b {
      MonotoneProduct(a + 1, b, dt);
      assert (a + 1) * dt == a * dt + dt;
    }
  }

  /** The last tick at or before a time. */
  function LastTick(time: Time, dt: nat): nat
    requires dt > 0
  {
    time / dt
  }

  /** Which ticks are not too new for the target. */
  lemma Cut(k: nat, target: Time, dt: nat)
    requires dt > 0
    ensures Stamp(k, dt) <= target <==> k <= LastTick(target, dt)
  {
    var q := target / dt;
    assert target == q * dt + target % dt;
    assert Stamp(q, dt) <= target;
    assert (q + 1) * dt == q * dt + dt;
    assert target < Stamp(q + 1, dt);
    StampsRise(k, q, dt);
    StampsRise(q + 1, k, dt);
    hide Stamp;
  }

  /** The snapshots carry the times of consecutive ticks. */
  ghost predicate Timed(h: seq<Snapshot>, first: nat, dt: nat) {
    forall i: nat :: i < |h| ==> h[i].serverTime == Stamp(first + i, dt)
  }

  /** A lookup among consecutive ticks' snapshots. */
  lemma LookupInRun(h: seq<Snapshot>, first: nat, target: Time, dt: nat, last: nat)
    requires dt > 0 && h != [] && first >= 1 && last == LastTick(target, dt)
    requires Timed(h, first, dt)
    requires first == 1 || last >= first
    ensures last == 0 ==> Closest(h, target) == None
    ensures last > 0 ==>
              var k := Min(first + |h| - 1, last) - first;
              0 <= k < |h| && Closest(h, target) == Some(h[k])
  {
    hide Stamp, LastTick;
    forall i | 0 <= i < |h|
      ensures h[i].serverTime <= target <==> first + i <= last
    {
      Cut(first + i, target, dt);
    }
    forall i, j | 0 <= i < j < |h|
      ensures h[i].serverTime < h[j].serverTime
    {
      StampsRise(first + i, first + j, dt);
    }
    ClosestIsNewest(h, target, if last == 0 then 0 else Min(first + |h| - 1, last) - first + 1);
  }

  lemma RunIsTimed(config: Simulation.Config, order: Order, rounds: seq<seq<Game.Action>>, h: seq<Snapshot>, first: nat)
    requires Chunked(config.rules.map_) && OnlyCommands(rounds) && first + |h| <= |rounds| + 1
    requires IsRun(config, order, rounds, h, first)
    ensures Timed(h, first, config.rules.tickMs)
  {
    hide Recorded, Stamp, OnlyCommands;
    forall i: nat | i < |h|
      ensures h[i].serverTime == Stamp(first + i, config.rules.tickMs)
    {
      RecordedTime(config, order, rounds, first + i);
    }
  }

  lemma LookupInHistory(config: Simulation.Config, order: Order, rounds: seq<seq<Game.Action>>, h: seq<Snapshot>, first: nat, n: nat, target: Time, last: nat)
    requires Chunked(config.rules.map_) && config.rules.tickMs > 0 && n <= |rounds| && OnlyCommands(rounds)
    requires h != [] && first >= 1 && first + |h| == n + 1 && IsRun(config, order, rounds, h, first)
    requires last == LastTick(target, config.rules.tickMs) && (first == 1 || last >= first)
    ensures Closest(h, target) == if last == 0 then None else Some(Recorded(config, order, rounds, Min(n, last)))
  {
    hide *;
    RunIsTimed(config, order, rounds, h, first);
    LookupInRun(h, first, target, config.rules.tickMs, last);
    assert first + |h| - 1 == n;
    if last > 0 {
      RunHas(config, order, rounds, h, first, Min(n, last) - first);
    }
  }

  lemma LookupFindsTick(config: Simulation.Config, order: Order, rounds: seq<seq<Game.Action>>, n: nat, capacity: nat, target: Time, last: nat)
    requires Chunked(config.rules.map_) && config.rules.tickMs > 0 && 1 <= n <= |rounds| && capacity > 0
    requires OnlyCommands(rounds) && last == LastTick(target, config.rules.tickMs)
    requires n > capacity ==> last >= n - capacity + 1
    ensures Closest(History(config, order, rounds, n, capacity), target)
         == if last == 0 then None else Some(Recorded(config, order, rounds, Min(n, last)))
  {
    HistoryIsRecent(config, order, rounds, n, capacity);
    LookupInHistory(config, order, rounds, History(config, order, rounds, n, capacity), FirstKept(n, capacity), n, target, last);
    hide Recorded, History, Stamp, OnlyCommands, IsRun, Closest, LastTick;
  }

  lemma RunHas(config: Simulation.Config, order: Order, rounds: seq<seq<Game.Action>>, h: seq<Snapshot>, first: nat, i: nat)
    requires Chunked(config.rules.map_) && first + |h| <= |rounds| + 1
    requires IsRun(config, order, rounds, h, first) && i < |h|
    ensures h[i] == Recorded(config, order, rounds, first + i)
  {
  }

  lemma WindowStaysInHistory(n: nat, now: Time, target: Time, maxRewind: Time, dt: nat)
    requires dt > 0 && now == Stamp(n, dt) && n > MAX_SNAPSHOTS && Stamp(127, dt) >= maxRewind
    requires !(now > target && now - target > maxRewind)
    ensures LastTick(target, dt) >= n - MAX_SNAPSHOTS + 1
  {
    assert (n - 127) * dt == n * dt - 127 * dt;
    Cut(n - 127, target, dt);
  }

  /** Where a query looks, and what is refused: the target is the client's time shifted by
      its offset, not before zero; beyond the tolerance it is from the future, beyond the
      rewind too old; in between the last snapshot not after it answers, if there is one. */
  lemma AnswersAre(limits: Config, history: seq<Snapshot>, query: Query)
    ensures var target := if query.clientTime + query.offset < 0 then 0 else query.clientTime + query.offset;
            var answer := Answer(limits, history, query);
            && answer.target == target
            && (answer.reason == FromFuture <==> target > query.serverNow + limits.futureTolerance)
            && (answer.reason == TooOld <==> query.serverNow > target + limits.maxRewind)
            && (answer.reason == HistoryUnavailable <==>
                  && target <= query.serverNow + limits.futureTolerance && query.serverNow <= target + limits.maxRewind
                  && forall k :: 0 <= k < |history| ==> history[k].serverTime > target)
            && (answer.reason == Accepted <==> answer.snapshot.Some?)
            && (answer.reason == Accepted ==>
                  exists k :: 0 <= k < |history| && answer.snapshot == Some(history[k]) && history[k].serverTime <= target
                              && forall j :: k < j < |history| ==> history[j].serverTime > target)
  {
    ClosestIsLast(history, MapClientTimeToServerTime(query));
    hide Closest;
  }

  lemma {:induction false} ClosestIsLast(history: seq<Snapshot>, time: Time)
    ensures Closest(history, time).None? <==> forall k :: 0 <= k < |history| ==> history[k].serverTime > time
    ensures Closest(history, time).Some? ==>
              exists k :: 0 <= k < |history| && Closest(history, time) == Some(history[k]) && history[k].serverTime <= time
                          && forall j :: k < j < |history| ==> history[j].serverTime > time
  {
    if history != [] && history[|history| - 1].serverTime > time {
      var front := history[..|history| - 1];
      ClosestIsLast(front, time);
      if Closest(front, time).Some? {
        var k :| 0 <= k < |front| && Closest(front, time) == Some(front[k]) && front[k].serverTime <= time
                 && forall j :: k < j < |front| ==> front[j].serverTime > time;
        assert history[k] == front[k];
        assert forall j :: k < j < |front| ==> history[j] == front[j];
      }
    }
  }

  lemma InWindow(config: Simulation.Config, limits: Config, order: Order, rounds: seq<seq<Game.Action>>, n: nat, query: Query)
    requires Chunked(config.rules.map_) && config.rules.tickMs > 0 && 1 <= n <= |rounds|
    requires OnlyCommands(rounds)
    requires 127 * config.rules.tickMs >= limits.maxRewind
    requires query.serverNow == Prediction.Played(config, order, Game.NEW_GAME, rounds, n).world.time
    requires var target := MapClientTimeToServerTime(query);
             && target <= query.serverNow + limits.futureTolerance
             && !(query.serverNow > target && query.serverNow - target > limits.maxRewind)
    ensures var target := MapClientTimeToServerTime(query);
            var answer := Answer(limits, History(config, order, rounds, n, MAX_SNAPSHOTS), query);
            && (answer.reason == Accepted <==> target >= config.rules.tickMs)
            && (answer.reason != Accepted ==> answer.reason == HistoryUnavailable)
            && (answer.reason == Accepted ==>
                  answer.snapshot == Some(Recorded(config, order, rounds, Min(n, target / config.rules.tickMs))))
  {
    var target := MapClientTimeToServerTime(query);
    var dt := config.rules.tickMs;
    TicksTakeTime(config, order, rounds, n);
    Cut(1, target, dt);
    assert Stamp(1, dt) == dt && Stamp(127, dt) == 127 * dt;
    assert LastTick(target, dt) == target / config.rules.tickMs;
    hide Recorded, History, Prediction.Played, Closest, OnlyCommands, Stamp, LastTick, Chunked;
    if n > MAX_SNAPSHOTS {
      WindowStaysInHistory(n, query.serverNow, target, limits.maxRewind, dt);
    }
    LookupFindsTick(config, order, rounds, n, MAX_SNAPSHOTS, target, LastTick(target, dt));
  }

  /** The whole query on a running server in closed form: refused beyond the future
      tolerance or the rewind, without history before the first tick, and otherwise
      answered with the world recorded after tick min(n, target / dt). That older
      snapshots have been evicted never matters. */
  lemma QueryClosedForm(config: Simulation.Config, limits: Config, order: Order, rounds: seq<seq<Game.Action>>, n: nat, query: Query)
    requires Chunked(config.rules.map_) && config.rules.tickMs > 0 && 1 <= n <= |rounds|
    requires OnlyCommands(rounds)
    requires 127 * config.rules.tickMs >= limits.maxRewind
    requires query.serverNow == Prediction.Played(config, order, Game.NEW_GAME, rounds, n).world.time
    ensures var target := if query.clientTime + query.offset < 0 then 0 else query.clientTime + query.offset;
            Answer(limits, History(config, order, rounds, n, MAX_SNAPSHOTS), query)
            == if target > query.serverNow + limits.futureTolerance then Result(FromFuture, target, None)
               else if query.serverNow > target + limits.maxRewind then Result(TooOld, target, None)
               else if target < config.rules.tickMs then Result(HistoryUnavailable, target, None)
               else Result(Accepted, target, Some(Recorded(config, order, rounds, Min(n, target / config.rules.tickMs))))
  {
    var history := History(config, order, rounds, n, MAX_SNAPSHOTS);
    var target := MapClientTimeToServerTime(query);
    AnswersAre(limits, history, query);
    if target <= query.serverNow + limits.futureTolerance && query.serverNow <= target + limits.maxRewind {
      InWindow(config, limits, order, rounds, n, query);
    }
    hide Recorded, History, Prediction.Played, Closest, OnlyCommands, Chunked;
  }
}
