/** Players between shots, told without the simulation's own passes: who is admitted, what
    an input does, who shoots what and where it appears, who comes back when and where. */
module Shots {
  import opened Basics
  import opened Replication
  import opened Events
  import opened Motion
  import opened Simulation
  import opened Structure
  import opened TickEnd
  import opened Flights

  // --- commands ---

  /** Where a client's player appears: one of four hundred tiles from (10, 10) on. */
  function Home(config: Config, client: ClientId): Body {
    var size := config.rules.map_.tileSize * 1000;
    Body((10 + client % 20) * size, (10 + client / 20 % 20) * size, 0, 0)
  }

  lemma HomeIsSpawn(config: Config, client: ClientId)
    ensures var home := Home(config, client);
            Spawn(config, client) == (home.x, home.y) && home.vx == 0 && home.vy == 0
  {
    var tile := config.rules.map_.tileSize;
    Regroup(10 + client % 20, tile);
    Regroup(10 + client / 20 % 20, tile);
  }

  lemma Regroup(n: nat, tile: int)
    ensures n * tile * 1000 == n * (tile * 1000)
  {
  }

  /** A login is admitted if the client is new and there is room: then a healthy player
      stands at its home, looking along x with an idle weapon. Otherwise nothing happens. */
  lemma LoginAdmits(config: Config, w: World, client: ClientId, sequence: Sequence)
    ensures var next := Login(config, w, client, sequence);
            if client in w.playerByClient || |w.playerByClient| >= config.maxPlayers then next == w
            else
              var home := Home(config, client);
              && next.playerByClient == w.playerByClient[client := w.nextId]
              && next.lastAccepted == w.lastAccepted[client := sequence]
              && next.nextId == w.nextId + 1 && next.pending == w.pending && next.time == w.time && next.tick == w.tick
              && next.entities == w.entities[w.nextId :=
                   Entity(home, Some(Aim(1000, 0)), None, Some(Player(client, config.maxHealth, config.maxHealth, false, 0)),
                          Some(Weapon(config.defaultWeapon, false, 0, 0)), None, Some(client), config.mode == ClientPrediction)]
              && next.events == w.events + [PlayerSpawned(w.nextId, client, home.x, home.y)]
  {
    HomeIsSpawn(config, client);
    hide Spawn, Home;
  }

  /** An input is queued if and only if its client has a player and it is newer than the
      last accepted one. */
  lemma NewerInputsAreQueued(w: World, input: Input)
    ensures var next := Submit(w, input);
            var accepted := input.client in w.playerByClient
                            && (input.client in w.lastAccepted ==> w.lastAccepted[input.client] < input.sequence);
            && next.pending == (if accepted then w.pending + [input] else w.pending)
            && next.lastAccepted == (if accepted then w.lastAccepted[input.client := input.sequence] else w.lastAccepted)
            && next == w.(pending := next.pending, lastAccepted := next.lastAccepted)
  {
  }

  // --- inputs ---

  /** An input begins a warm-up: it fires an idle weapon that has the k-th definition. */
  ghost predicate Draws(config: Config, e: Entity, frame: InputFrame, k: nat) {
    && frame.fire && e.weapon.Some? && e.weapon.value.weaponType != NoWeapon && !e.weapon.value.warming
    && Defines(config.weapons, e.weapon.value.weaponType, k)
  }

  /** The player with this input's intent, aiming where the input points if it points
      anywhere, along x if it never has. */
  ghost predicate Heeds(e: Entity, after: Entity, frame: InputFrame) {
    && after == e.(intent := Some(frame), aim := after.aim, weapon := after.weapon)
    && after.aim == (if frame.aimX != 0 || frame.aimY != 0 then Some(Aim(frame.aimX, frame.aimY))
                     else if e.aim.Some? then e.aim
                     else Some(Aim(1000, 0)))
  }

  /** What one input does to the player it is for. */
  ghost predicate InputDoes(config: Config, w: World, next: World, id: EntityId, frame: InputFrame)
    requires id in w.entities
  {
    var e := w.entities[id];
    id in next.entities && next == w.(entities := w.entities[id := next.entities[id]], events := next.events) &&
    if e.player.Some? && e.player.value.defeated then next == w
    else
      var after := next.entities[id];
      && Heeds(e, after, frame)
      && (forall k: nat :: Draws(config, e, frame, k) ==>
            var done := w.time + config.weapons[k].warmup;
            && after.weapon == Some(Weapon(e.weapon.value.weaponType, true, w.time, done))
            && next.events == w.events + [WarmupStarted(id, w.time, done, e.weapon.value.weaponType)])
      && ((forall k: nat :: !Draws(config, e, frame, k)) ==> after.weapon == e.weapon && next.events == w.events)
  }

  lemma OneDefinition(weapons: seq<WeaponDefinition>, weaponType: WeaponType, k: nat)
    requires Defines(weapons, weaponType, k)
    ensures FindWeapon(weapons, weaponType) == Some(weapons[k])
  {
    var m := FoundIsFirst(weapons, weaponType);
  }

  lemma DrawsIsStart(config: Config, e: Entity, frame: InputFrame)
    ensures WarmupStart(config, e, frame).None? <==> forall k: nat :: !Draws(config, e, frame, k)
    ensures forall k: nat :: Draws(config, e, frame, k) ==> WarmupStart(config, e, frame) == Some(config.weapons[k])
  {
    if e.weapon.Some? {
      var m := FoundIsFirst(config.weapons, e.weapon.value.weaponType);
      forall k: nat | Draws(config, e, frame, k)
        ensures WarmupStart(config, e, frame) == Some(config.weapons[k])
      {
        OneDefinition(config.weapons, e.weapon.value.weaponType, k);
      }
      if WarmupStart(config, e, frame).Some? {
        assert Draws(config, e, frame, m);
      }
    }
    hide FindWeapon;
  }

  /** An input for a client without a player is ignored; any other is heeded unless its
      player is defeated, and it begins a warm-up exactly if it fires an idle weapon. */
  lemma InputsAreHeeded(config: Config, w: World, input: Input)
    ensures var next := ApplyInput(config, w, input);
            if input.client in w.playerByClient && w.playerByClient[input.client] in w.entities
            then InputDoes(config, w, next, w.playerByClient[input.client], input.frame)
            else next == w
  {
    if input.client in w.playerByClient && w.playerByClient[input.client] in w.entities {
      var id := w.playerByClient[input.client];
      DrawsIsStart(config, w.entities[id], input.frame);
      hide WarmupStart, Draws;
      assert w.entities[id := w.entities[id]] == w.entities;
      assert w.events + [] == w.events;
    }
  }

  // --- movement ---

  /** A defeated player stands still where it fell; anyone else moves, and a player's move is
      reported with where it began and ended if it came to another place. */
  lemma StepsAreReported(config: Config, w: World, id: EntityId)
    requires id in w.entities
    ensures var e := w.entities[id];
            var next := Integrate(config, w, id);
            && id in next.entities && next == w.(entities := w.entities[id := next.entities[id]], events := next.events)
            && var after := next.entities[id];
            && after == e.(body := after.body)
            && (if e.player.Some? && e.player.value.defeated
                then after.body == Body(e.body.x, e.body.y, 0, 0) && next.events == w.events
                else
                  && after.body == Moved(config.rules, e.body, e.intent)
                  && next.events == w.events
                     + if e.player.Some? && (after.body.x, after.body.y) != (e.body.x, e.body.y)
                       then [PlayerMoved(id, e.body.x, e.body.y, after.body.x, after.body.y)]
                       else [])
  {
    hide Moved;
  }

  // --- shots ---

  /** This player's warm-up is over. */
  ghost predicate Loosed(e: Entity, time: Time) {
    && !(e.player.Some? && e.player.value.defeated)
    && e.weapon.Some? && e.weapon.value.warming && time >= e.weapon.value.completesAt
  }

  /** It shoots with the k-th weapon definition; only the server lets anyone shoot. */
  ghost predicate Shoots(config: Config, w: World, id: EntityId, k: nat) {
    && id in w.entities && w.entities[id].aim.Some? && Loosed(w.entities[id], w.time)
    && config.mode == ServerAuthoritative && Defines(config.weapons, w.entities[id].weapon.value.weaponType, k)
  }

  /** The arrow of a shot: where the shooter stands, along its aim, for its lifetime. */
  function ShotOf(config: Config, w: World, id: EntityId, k: nat): Entity
    requires Shoots(config, w, id, k)
  {
    var e, d := w.entities[id], config.weapons[k];
    Entity(Body(e.body.x, e.body.y, TruncDiv(d.projectileSpeed * e.aim.value.x, 1000), TruncDiv(d.projectileSpeed * e.aim.value.y, 1000)),
           None, None, None, None, Some(Projectile(id, w.time, w.time + d.lifetime, d.weaponType)), None, false)
  }

  /** A weapon is idle once its warm-up is over or its bearer is defeated. */
  ghost predicate Lowers(e: Entity, after: Entity, time: Time) {
    if e.weapon.Some? && e.aim.Some? && ((e.player.Some? && e.player.value.defeated) || Loosed(e, time))
    then after == e.(weapon := Some(e.weapon.value.(warming := false)))
    else after == e
  }

  ghost predicate Asks(config: Config, w: World, r: Request, id: EntityId, k: nat)
  {
    && Shoots(config, w, id, k) && config.weapons[k].spawns
    && r == Request(id, w.entities[id].body.x, w.entities[id].body.y, w.entities[id].aim.value, config.weapons[k])
  }

  /** What the warm-up of one entity does. */
  ghost predicate WarmDoes(config: Config, w: World, next: World, id: EntityId)
    requires id in w.entities
  {
    && id in next.entities && Lowers(w.entities[id], next.entities[id], w.time)
    && next == w.(entities := w.entities[id := next.entities[id]], events := next.events, requests := next.requests)
    && ((forall k: nat :: !Shoots(config, w, id, k)) ==> next.events == w.events && next.requests == w.requests)
    && (forall k: nat :: Shoots(config, w, id, k) ==>
          && next.events == w.events + [BowFired(id, w.time, w.entities[id].weapon.value.weaponType)]
          && (!config.weapons[k].spawns ==> next.requests == w.requests)
          && (config.weapons[k].spawns ==>
                |next.requests| == |w.requests| + 1 && w.requests <= next.requests
                && Asks(config, w, next.requests[|w.requests|], id, k)))
  }

  lemma ShootsIsFiring(config: Config, w: World, id: EntityId)
    requires id in w.entities && w.entities[id].aim.Some?
    ensures Firing(config, w.entities[id], w.time).None? <==> forall k: nat :: !Shoots(config, w, id, k)
    ensures forall k: nat :: Shoots(config, w, id, k) ==> Firing(config, w.entities[id], w.time) == Some(config.weapons[k])
  {
    var e := w.entities[id];
    if e.weapon.Some? {
      var m := FoundIsFirst(config.weapons, e.weapon.value.weaponType);
      forall k: nat | Shoots(config, w, id, k)
        ensures Firing(config, e, w.time) == Some(config.weapons[k])
      {
        OneDefinition(config.weapons, e.weapon.value.weaponType, k);
      }
      if Firing(config, e, w.time).Some? {
        assert Shoots(config, w, id, m);
      }
    }
    hide FindWeapon;
  }

  /** A warm-up that is over ends in a shot, reported, and asked for as an arrow if the
      weapon spawns one; nothing else ends in a shot. */
  lemma WarmupsEnd(config: Config, w: World, id: EntityId)
    requires id in w.entities
    ensures WarmDoes(config, w, Warm(config, w, id), id)
  {
    var e := w.entities[id];
    assert w.entities[id := e] == w.entities && w.events + [] == w.events && w.requests + [] == w.requests;
    if e.weapon.Some? && e.aim.Some? {
      ShootsIsFiring(config, w, id);
      assert Cooled(e, w.time) == e || Lowers(e, Cooled(e, w.time), w.time);
      hide Firing, FindWeapon, Defines;
    }
  }

  // --- the pass over the shooters ---

  /** After some of the walk: their weapons are lowered and each shot so far has asked for
      one arrow; nobody else has asked. */
  ghost predicate WarmedTo(config: Config, w: World, u: World, walk: seq<EntityId>, n: nat)
    requires n <= |walk|
  {
    && u.entities.Keys == w.entities.Keys
    && u == w.(entities := u.entities, events := u.events, requests := u.requests)
    && (forall q :: q in w.entities ==> if q in walk[..n] then Lowers(w.entities[q], u.entities[q], w.time) else u.entities[q] == w.entities[q])
    && AllAsked(config, w, u.requests, walk, n)
  }

  /** These requests are those of the shooters so far, one each. */
  ghost predicate AllAsked(config: Config, w: World, requests: seq<Request>, walk: seq<EntityId>, n: nat)
    requires n <= |walk|
  {
    && (forall j :: 0 <= j < |requests| ==> requests[j].owner in walk[..n] && Asked(config, w, requests[j]))
    && (forall i, j :: 0 <= i < j < |requests| ==> requests[i].owner != requests[j].owner)
    && (forall q, k: nat :: q in walk[..n] && Shoots(config, w, q, k) && config.weapons[k].spawns ==> HasAsked(requests, q))
  }

  ghost predicate Asked(config: Config, w: World, r: Request) {
    exists k: nat :: Asks(config, w, r, r.owner, k)
  }

  ghost predicate HasAsked(requests: seq<Request>, q: EntityId) {
    exists j :: 0 <= j < |requests| && requests[j].owner == q
  }

  lemma WalkOne(walk: seq<EntityId>, n: nat)
    requires n < |walk| && Distinct(walk)
    ensures forall q :: q in walk[..n + 1] <==> q in walk[..n] || q == walk[n]
    ensures walk[n] !in walk[..n]
  {
    assert walk[..n + 1] == walk[..n] + [walk[n]];
  }

  /** An entity not yet visited shoots as it did at the start of the pass. */
  lemma ShootsAsBefore(config: Config, w: World, u: World, id: EntityId, k: nat)
    requires id in w.entities && id in u.entities && u.entities[id] == w.entities[id] && u.time == w.time
    ensures Shoots(config, u, id, k) <==> Shoots(config, w, id, k)
    ensures forall r :: Asks(config, u, r, id, k) <==> Asks(config, w, r, id, k)
  {
  }

  lemma WarmedOne(config: Config, w: World, u: World, next: World, walk: seq<EntityId>, n: nat)
    requires n < |walk| && Distinct(walk) && WarmedTo(config, w, u, walk, n)
    requires walk[n] in w.entities && walk[n] in u.entities && WarmDoes(config, u, next, walk[n])
    ensures WarmedTo(config, w, next, walk, n + 1)
  {
    var id := walk[n];
    WalkOne(walk, n);
    forall k: nat
      ensures Shoots(config, u, id, k) <==> Shoots(config, w, id, k)
      ensures forall r :: Asks(config, u, r, id, k) <==> Asks(config, w, r, id, k)
    {
      ShootsAsBefore(config, w, u, id, k);
    }
    RequestsGrow(config, w, u, next, walk, n);
    hide AllAsked, Asks, Shoots, Lowers, Defines;
    assert next.entities.Keys == u.entities.Keys;
  }

  lemma OneMoreAsks(config: Config, w: World, requests: seq<Request>, r: Request, walk: seq<EntityId>, n: nat)
    requires n < |walk| && AllAsked(config, w, requests, walk, n) && walk[n] !in walk[..n]
    requires forall q :: q in walk[..n + 1] <==> q in walk[..n] || q == walk[n]
    requires r.owner == walk[n] && Asked(config, w, r)
    ensures AllAsked(config, w, requests + [r], walk, n + 1)
  {
    hide Asked, Shoots;
    var more := requests + [r];
    assert more[|requests|] == r;
    forall q | HasAsked(requests, q)
      ensures HasAsked(more, q)
    {
      var j :| 0 <= j < |requests| && requests[j].owner == q;
      assert more[j] == requests[j];
    }
    assert HasAsked(more, walk[n]);
    hide HasAsked;
  }

  lemma NoMoreAsk(config: Config, w: World, requests: seq<Request>, walk: seq<EntityId>, n: nat)
    requires n < |walk| && AllAsked(config, w, requests, walk, n)
    requires forall q :: q in walk[..n + 1] <==> q in walk[..n] || q == walk[n]
    requires forall k: nat :: Shoots(config, w, walk[n], k) ==> !config.weapons[k].spawns
    ensures AllAsked(config, w, requests, walk, n + 1)
  {
    hide Asked, Shoots, HasAsked;
  }

  lemma RequestsGrow(config: Config, w: World, u: World, next: World, walk: seq<EntityId>, n: nat)
    requires n < |walk| && AllAsked(config, w, u.requests, walk, n) && walk[n] !in walk[..n]
    requires forall q :: q in walk[..n + 1] <==> q in walk[..n] || q == walk[n]
    requires walk[n] in u.entities && WarmDoes(config, u, next, walk[n])
    requires forall k: nat :: Shoots(config, u, walk[n], k) <==> Shoots(config, w, walk[n], k)
    requires forall k: nat, r :: Asks(config, u, r, walk[n], k) <==> Asks(config, w, r, walk[n], k)
    ensures AllAsked(config, w, next.requests, walk, n + 1)
  {
    var id := walk[n];
    var m := |u.requests|;
    hide AllAsked, Defines;
    if next.requests != u.requests {
      var k: nat :| Shoots(config, u, id, k);
      assert Asks(config, u, next.requests[m], id, k) && next.requests[m].owner == id;
      assert next.requests == u.requests + [next.requests[m]];
      hide Shoots, Asks, Lowers;
      OneMoreAsks(config, w, u.requests, next.requests[m], walk, n);
    } else {
      assert forall k: nat :: Shoots(config, w, id, k) ==> !config.weapons[k].spawns;
      hide Shoots, Asks, Lowers;
      NoMoreAsk(config, w, u.requests, walk, n);
    }
  }

  lemma DoWarmUnfold(config: Config, order: Order, w: World, id: EntityId)
    ensures Do(config, order, w, DoWarm(id)) == Warm(config, w, id)
  {
  }

  lemma NobodyWarmed(config: Config, w: World, walk: seq<EntityId>)
    requires w.requests == []
    ensures WarmedTo(config, w, w, walk, 0)
  {
  }

  lemma StillThere(config: Config, w: World, u: World, walk: seq<EntityId>, n: nat)
    requires n < |walk| && WarmedTo(config, w, u, walk, n) && walk[n] in w.entities
    ensures walk[n] in u.entities
  {
  }

  lemma {:induction false} WarmPass(config: Config, order: Order, w: World, walk: seq<EntityId>, ops: seq<Op>, n: nat)
    requires w.requests == [] && n <= |walk| == |ops| && Distinct(walk)
    requires forall k :: 0 <= k < |ops| ==> ops[k] == DoWarm(walk[k]) && walk[k] in w.entities
    ensures WarmedTo(config, w, Exec(config, order, w, ops, n), walk, n)
  {
    hide *;
    ExecUnfold(config, order, w, ops, n);
    if n > 0 {
      var u := Exec(config, order, w, ops, n - 1);
      WarmPass(config, order, w, walk, ops, n - 1);
      StillThere(config, w, u, walk, n - 1);
      WarmupsEnd(config, u, walk[n - 1]);
      DoWarmUnfold(config, order, u, walk[n - 1]);
      WarmedOne(config, w, u, Warm(config, u, walk[n - 1]), walk, n - 1);
    } else {
      NobodyWarmed(config, w, walk);
    }
  }

  /** After n launches: the first n requests have become arrows, numbered in their order. */
  ghost predicate LaunchedTo(u: World, next: World, n: nat)
    requires n <= |u.requests|
  {
    && next.time == u.time && next.nextId == u.nextId + n && next.requests == u.requests[n..]
    && (forall q :: q in next.entities <==> q in u.entities || u.nextId <= q < u.nextId + n)
    && (forall q :: q in u.entities ==> next.entities[q] == u.entities[q])
    && (forall j :: 0 <= j < n ==> u.nextId + j in next.entities && next.entities[u.nextId + j] == Arrow(u.time, u.requests[j]))
  }

  lemma LaunchedOne(u: World, next: World, n: nat)
    requires n < |u.requests| && LaunchedTo(u, next, n) && (forall q :: q in u.entities ==> q < u.nextId)
    ensures LaunchedTo(u, Launch(next), n + 1)
  {
    assert next.requests[0] == u.requests[n] && next.requests[1..] == u.requests[n + 1..];
    hide Arrow;
  }

  lemma {:induction false} LaunchesPass(config: Config, order: Order, u: World, ops: seq<Op>, n: nat)
    requires n <= |u.requests| == |ops| && (forall k :: 0 <= k < |ops| ==> ops[k] == DoLaunch)
    requires forall q :: q in u.entities ==> q < u.nextId
    ensures LaunchedTo(u, Exec(config, order, u, ops, n), n)
  {
    hide Arrow, Launch;
    if n > 0 {
      LaunchesPass(config, order, u, ops, n - 1);
      hide LaunchedTo;
      LaunchedOne(u, Exec(config, order, u, ops, n - 1), n - 1);
    }
  }

  // --- the results ---

  /** The warm-up pass of a tick: every weapon whose warm-up is over is lowered, everyone
      who shoots a weapon with arrows has exactly one new arrow, and every new arrow is
      such a shot's. */
  ghost predicate ShotsFired(config: Config, w: World, next: World) {
    && next.time == w.time
    && (forall q :: q in next.entities <==> q in w.entities || w.nextId <= q < next.nextId)
    && (forall q :: q in w.entities && w.entities[q].aim.Some? && w.entities[q].weapon.Some? ==>
          Lowers(w.entities[q], next.entities[q], w.time))
    && (forall q :: q in w.entities && (w.entities[q].aim.None? || w.entities[q].weapon.None?) ==>
          next.entities[q] == w.entities[q])
    && (forall p :: w.nextId <= p < next.nextId ==> IsShot(config, w, next, p))
    && (forall p, r :: w.nextId <= p < r < next.nextId ==> Differ(next, p, r))
    && (forall q, k: nat :: Shoots(config, w, q, k) && config.weapons[k].spawns ==> HasArrow(w, next, q))
  }

  ghost predicate Differ(next: World, p: EntityId, r: EntityId) {
    && p in next.entities && r in next.entities && next.entities[p].projectile.Some? && next.entities[r].projectile.Some?
    && next.entities[p].projectile.value.owner != next.entities[r].projectile.value.owner
  }

  ghost predicate IsShot(config: Config, w: World, next: World, p: EntityId) {
    p in next.entities
    && exists q, k: nat :: Shoots(config, w, q, k) && config.weapons[k].spawns && next.entities[p] == ShotOf(config, w, q, k)
  }

  ghost predicate HasArrow(w: World, next: World, q: EntityId) {
    exists p :: w.nextId <= p < next.nextId && p in next.entities && next.entities[p].projectile.Some?
                && next.entities[p].projectile.value.owner == q
  }

  lemma RequestIsShot(config: Config, w: World, u: World, next: World, walk: seq<EntityId>, j: nat)
    requires WarmedTo(config, w, u, walk, |walk|) && LaunchedTo(u, next, |u.requests|) && j < |u.requests|
    ensures IsShot(config, w, next, w.nextId + j)
    ensures next.entities[w.nextId + j].projectile.Some? && next.entities[w.nextId + j].projectile.value.owner == u.requests[j].owner
  {
    var r := u.requests[j];
    assert Asked(config, w, r);
    var k: nat :| Asks(config, w, r, r.owner, k);
    assert Arrow(u.time, r) == ShotOf(config, w, r.owner, k);
    assert u.nextId + j in next.entities;
  }

  lemma AskedHaveArrows(config: Config, w: World, u: World, next: World, walk: seq<EntityId>, q: EntityId, k: nat)
    requires Enumerates(walk, Armed(w)) && WarmedTo(config, w, u, walk, |walk|) && LaunchedTo(u, next, |u.requests|)
    requires Shoots(config, w, q, k) && config.weapons[k].spawns
    ensures HasArrow(w, next, q)
  {
    assert walk[..|walk|] == walk;
    assert q in Armed(w) && q in walk;
    assert HasAsked(u.requests, q);
    var j :| 0 <= j < |u.requests| && u.requests[j].owner == q;
    RequestIsShot(config, w, u, next, walk, j);
    assert w.nextId <= w.nextId + j < next.nextId;
    hide Asked, IsShot, Lowers, Arrow;
  }

  lemma WeaponsAreLowered(config: Config, w: World, u: World, next: World, walk: seq<EntityId>)
    requires Enumerates(walk, Armed(w)) && WarmedTo(config, w, u, walk, |walk|) && LaunchedTo(u, next, |u.requests|)
    ensures next.time == w.time && forall q :: q in next.entities <==> q in w.entities || w.nextId <= q < next.nextId
    ensures forall q :: q in w.entities && w.entities[q].aim.Some? && w.entities[q].weapon.Some? ==>
              Lowers(w.entities[q], next.entities[q], w.time)
    ensures forall q :: q in w.entities && (w.entities[q].aim.None? || w.entities[q].weapon.None?) ==>
              next.entities[q] == w.entities[q]
  {
    assert walk[..|walk|] == walk;
    assert forall q :: q in walk <==> q in Armed(w);
    hide AllAsked, Lowers, Arrow;
  }

  lemma ArrowAt(config: Config, w: World, u: World, next: World, walk: seq<EntityId>, p: EntityId)
    requires WarmedTo(config, w, u, walk, |walk|) && LaunchedTo(u, next, |u.requests|) && w.nextId <= p < next.nextId
    ensures p - w.nextId < |u.requests| && IsShot(config, w, next, p)
    ensures next.entities[p].projectile.Some? && next.entities[p].projectile.value.owner == u.requests[p - w.nextId].owner
  {
    hide AllAsked, Arrow, Lowers;
    RequestIsShot(config, w, u, next, walk, p - w.nextId);
  }

  lemma ArrowsDiffer(config: Config, w: World, u: World, next: World, walk: seq<EntityId>, p: EntityId, r: EntityId)
    requires WarmedTo(config, w, u, walk, |walk|) && LaunchedTo(u, next, |u.requests|) && w.nextId <= p < r < next.nextId
    ensures Differ(next, p, r)
  {
    ArrowAt(config, w, u, next, walk, p);
    ArrowAt(config, w, u, next, walk, r);
    hide Arrow, Lowers, Asked, HasAsked, Shoots, LaunchedTo;
  }

  lemma ArrowsAreShots(config: Config, w: World, u: World, next: World, walk: seq<EntityId>)
    requires WarmedTo(config, w, u, walk, |walk|) && LaunchedTo(u, next, |u.requests|)
    ensures forall p :: w.nextId <= p < next.nextId ==> IsShot(config, w, next, p)
    ensures forall p, r :: w.nextId <= p < r < next.nextId ==> Differ(next, p, r)
  {
    hide *;
    forall p | w.nextId <= p < next.nextId
      ensures IsShot(config, w, next, p)
    {
      ArrowAt(config, w, u, next, walk, p);
    }
    forall p, r | w.nextId <= p < r < next.nextId
      ensures Differ(next, p, r)
    {
      ArrowsDiffer(config, w, u, next, walk, p, r);
    }
  }

  lemma AllAreFired(config: Config, w: World, u: World, next: World, walk: seq<EntityId>)
    requires Enumerates(walk, Armed(w)) && WarmedTo(config, w, u, walk, |walk|) && LaunchedTo(u, next, |u.requests|)
    ensures ShotsFired(config, w, next)
  {
    WeaponsAreLowered(config, w, u, next, walk);
    ArrowsAreShots(config, w, u, next, walk);
    hide IsShot, HasArrow, Differ, Lowers, WarmedTo, LaunchedTo;
    forall q, k: nat | Shoots(config, w, q, k) && config.weapons[k].spawns
      ensures HasArrow(w, next, q)
    {
      AskedHaveArrows(config, w, u, next, walk, q, k);
    }
    hide Shoots;
  }

  /** From any state of the right shape, the warm-up pass fires exactly the shots due. */
  lemma WarmupPassShoots(config: Config, order: Order, w: World)
    requires Shaped(config, w) && ValidOrder(order) && w.requests == []
    ensures ShotsFired(config, w, ProcessWeaponWarmups(config, order, w))
  {
    var walk := order(w.tick, 1, Armed(w));
    assert Enumerates(walk, Armed(w));
    var ops := WarmOps(order, w);
    forall k | 0 <= k < |ops|
      ensures ops[k] == DoWarm(walk[k]) && walk[k] in w.entities
    {
      assert walk[k] in walk;
    }
    WarmPass(config, order, w, walk, ops, |walk|);
    var u := Pass(config, order, w, ops);
    forall q | q in u.entities
      ensures q < u.nextId
    {
      EntityOkUnfold(config, w, q);
    }
    LaunchesPass(config, order, u, LaunchOps(u), |u.requests|);
    hide Shaped, WarmOps, Exec, ShotsFired;
    AllAreFired(config, w, u, ProcessWeaponWarmups(config, order, w), walk);
  }

  // --- respawns ---

  /** A player whose respawn is due is back in full health at its home, at rest and with an
      idle weapon; everyone else is left alone. */
  ghost predicate ComesBack(config: Config, time: Time, e: Entity, after: Entity) {
    if e.player.Some? && e.player.value.defeated && time >= e.player.value.respawnAt
    then
      var p := e.player.value;
      after == e.(body := Home(config, p.client),
                  player := Some(Player(p.client, p.maxHealth, p.maxHealth, false, 0)),
                  weapon := if e.weapon.None? then None else Some(Weapon(e.weapon.value.weaponType, false, 0, 0)))
    else after == e
  }

  lemma RespawnComesBack(config: Config, w: World, id: EntityId)
    requires id in w.entities
    ensures var next := Respawn(config, w, id);
            && id in next.entities && ComesBack(config, w.time, w.entities[id], next.entities[id])
            && next == w.(entities := w.entities[id := next.entities[id]], events := next.events)
            && (next.entities[id] != w.entities[id] ==>
                  next.events == w.events + [PlayerRespawned(id, next.entities[id].body.x, next.entities[id].body.y)])
  {
    assert w.entities[id := w.entities[id]] == w.entities;
    if w.entities[id].player.Some? {
      HomeIsSpawn(config, w.entities[id].player.value.client);
    }
    hide Spawn, Home;
  }

  ghost predicate BackTo(config: Config, w: World, u: World, walk: seq<EntityId>, n: nat)
    requires n <= |walk|
  {
    && u == w.(entities := u.entities, events := u.events) && u.entities.Keys == w.entities.Keys
    && (forall q :: q in w.entities ==>
          if q in walk[..n] then ComesBack(config, w.time, w.entities[q], u.entities[q]) else u.entities[q] == w.entities[q])
  }

  lemma BackOne(config: Config, w: World, u: World, walk: seq<EntityId>, n: nat)
    requires n < |walk| && Distinct(walk) && walk[n] in w.entities && BackTo(config, w, u, walk, n)
    ensures BackTo(config, w, Respawn(config, u, walk[n]), walk, n + 1)
  {
    WalkOne(walk, n);
    RespawnComesBack(config, u, walk[n]);
    hide ComesBack, Respawn;
    var next := Respawn(config, u, walk[n]);
    assert next.entities.Keys == u.entities.Keys;
  }

  lemma NobodyBack(config: Config, w: World, walk: seq<EntityId>)
    ensures BackTo(config, w, w, walk, 0)
  {
  }

  lemma DoRespawnUnfold(config: Config, order: Order, w: World, id: EntityId)
    ensures Do(config, order, w, DoRespawn(id)) == Respawn(config, w, id)
  {
  }

  lemma {:induction false} BackPass(config: Config, order: Order, w: World, walk: seq<EntityId>, ops: seq<Op>, n: nat)
    requires n <= |walk| == |ops| && Distinct(walk)
    requires forall k :: 0 <= k < |ops| ==> ops[k] == DoRespawn(walk[k]) && walk[k] in w.entities
    ensures BackTo(config, w, Exec(config, order, w, ops, n), walk, n)
  {
    hide *;
    ExecUnfold(config, order, w, ops, n);
    if n > 0 {
      BackPass(config, order, w, walk, ops, n - 1);
      DoRespawnUnfold(config, order, Exec(config, order, w, ops, n - 1), walk[n - 1]);
      BackOne(config, w, Exec(config, order, w, ops, n - 1), walk, n - 1);
    } else {
      NobodyBack(config, w, walk);
    }
  }

  /** The respawn pass brings back exactly the players who are due. */
  lemma RespawnPassBringsBack(config: Config, order: Order, w: World, q: EntityId)
    requires ValidOrder(order)
    ensures var next := ProcessRespawns(config, order, w);
            && next.entities.Keys == w.entities.Keys
            && (q in w.entities ==> ComesBack(config, w.time, w.entities[q], next.entities[q]))
  {
    var walk := order(w.tick, 3, Players(w));
    assert Enumerates(walk, Players(w));
    var ops := RespawnOps(order, w);
    forall k | 0 <= k < |ops|
      ensures ops[k] == DoRespawn(walk[k]) && walk[k] in w.entities
    {
      assert walk[k] in walk;
    }
    BackPass(config, order, w, walk, ops, |walk|);
    assert walk[..|walk|] == walk;
    hide RespawnOps, Exec;
  }
}
