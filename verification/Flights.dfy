/** The projectile pass told by positions and distances alone: which arrow hits whom, with
    what damage, which arrows go on flying and which are gone. */
module Flights {
  import opened Basics
  import opened Replication
  import opened Events
  import opened Motion
  import opened Simulation
  import opened Structure
  import opened TickEnd

  // --- one arrow ---

  /** The definition an arrow was shot with, or any weapon is used with: the first listed. */
  ghost predicate Defines(weapons: seq<WeaponDefinition>, weaponType: WeaponType, k: nat) {
    k < |weapons| && weapons[k].weaponType == weaponType && forall j :: 0 <= j < k ==> weapons[j].weaponType != weaponType
  }

  lemma {:induction false} FoundIsFirst(weapons: seq<WeaponDefinition>, weaponType: WeaponType) returns (k: nat)
    ensures FindWeapon(weapons, weaponType).None? ==> forall j :: 0 <= j < |weapons| ==> weapons[j].weaponType != weaponType
    ensures FindWeapon(weapons, weaponType).Some? ==>
              Defines(weapons, weaponType, k) && FindWeapon(weapons, weaponType) == Some(weapons[k])
  {
    k := 0;
    if weapons != [] && weapons[0].weaponType != weaponType {
      var m := FoundIsFirst(weapons[1..], weaponType);
      k := m + 1;
    }
  }

  /** The damage of a weapon: its definition's, or none without a definition. */
  ghost predicate Damages(config: Config, weaponType: WeaponType, damage: int) {
    || (exists k: nat :: Defines(config.weapons, weaponType, k) && damage == config.weapons[k].damage)
    || (damage == 0 && forall j :: 0 <= j < |config.weapons| ==> config.weapons[j].weaponType != weaponType)
  }

  lemma DamageIsDefined(config: Config, weaponType: WeaponType)
    ensures Damages(config, weaponType, DamageOf(config, weaponType))
  {
    var k := FoundIsFirst(config.weapons, weaponType);
  }

  /** Where a body is one tick later. */
  function Ahead(config: Config, b: Body): Body {
    var ms := config.rules.tickMs;
    Body(b.x + TruncDiv(b.vx * ms, 1000), b.y + TruncDiv(b.vy * ms, 1000), b.vx, b.vy)
  }

  ghost predicate Outside(config: Config, b: Body) {
    var m := config.rules.map_;
    b.x < 0 || b.y < 0 || b.x >= m.widthTiles * m.tileSize * 1000 || b.y >= m.heightTiles * m.tileSize * 1000
  }

  /** Two bodies within 42 units, in thousandths. */
  ghost predicate Near(a: Body, b: Body) {
    var dx, dy := a.x - b.x, a.y - b.y;
    dx * dx + dy * dy <= 42000 * 42000
  }

  /** Someone an arrow of this owner hits from here. */
  ghost predicate InReach(w: World, owner: EntityId, at: Body, t: EntityId) {
    t in w.entities && t != owner && w.entities[t].player.Some? && !w.entities[t].player.value.defeated
    && Near(at, w.entities[t].body)
  }

  /** A hit for so much damage: health floored at zero; at zero, defeat and a respawn time. */
  ghost predicate Wounded(config: Config, time: Time, damage: int, before: Entity, after: Entity) {
    before.player.Some? &&
    var health := if before.player.value.health - damage < 0 then 0 else before.player.value.health - damage;
    after == before.(player := Some(
      if health == 0 then before.player.value.(health := 0, defeated := true, respawnAt := time + config.respawnDelay)
      else before.player.value.(health := health)))
  }

  /** The arrow at `moved` has hit t for so much damage, and that is all that happened. */
  ghost predicate HitsFor(config: Config, w: World, next: World, id: EntityId, moved: Entity, t: EntityId, damage: int)
    requires t in w.entities && moved.projectile.Some?
  {
    var owner := moved.projectile.value.owner;
    && Damages(config, moved.projectile.value.source, damage)
    && t in next.entities && next.entities[t].player.Some?
    && var after := next.entities[t];
    && Wounded(config, w.time, damage, w.entities[t], after)
    && next == w.(entities := w.entities[id := moved][t := after], doomed := w.doomed + [id],
                  events := w.events + [HitConfirmed(owner, t, id, w.time), PlayerDamaged(t, owner, damage, after.player.value.health)]
                            + (if after.player.value.health == 0 then [PlayerDied(t, owner, w.time + config.respawnDelay)] else []))
  }

  ghost predicate HitsOne(config: Config, w: World, next: World, id: EntityId, moved: Entity, t: EntityId)
    requires t in w.entities && moved.projectile.Some?
  {
    exists damage :: HitsFor(config, w, next, id, moved, t, damage)
  }

  /** One arrow's turn: it moves ahead; expired or off the map it is marked; otherwise it
      hits someone in reach if there is anyone, is marked, and flies on if there is nobody. */
  ghost predicate Flies(config: Config, w: World, next: World, id: EntityId)
    requires id in Projectiles(w)
  {
    var e := w.entities[id];
    var p := e.projectile.value;
    var moved := e.(body := Ahead(config, e.body));
    if w.time >= p.expiresAt || Outside(config, moved.body)
    then next == w.(entities := w.entities[id := moved], doomed := w.doomed + [id])
    else if forall t :: !InReach(w, p.owner, moved.body, t)
    then next == w.(entities := w.entities[id := moved])
    else exists t :: InReach(w, p.owner, moved.body, t) && HitsOne(config, w, next, id, moved, t)
  }

  lemma ExposedInReach(config: Config, w: World, id: EntityId, moved: Entity, owner: EntityId, t: EntityId)
    requires id in w.entities && w.entities[id].player.None? && moved.player.None?
    ensures Exposed(w.Change(id, moved, []), owner, moved.body, t) <==> InReach(w, owner, moved.body, t)
  {
  }

  lemma StrikeHits(config: Config, w: World, id: EntityId, moved: Entity, t: EntityId)
    requires t in w.entities && t != id && w.entities[t].player.Some? && moved.projectile.Some?
    ensures HitsOne(config, w, Strike(config, w.Change(id, moved, []), id, moved.projectile.value, t), id, moved, t)
  {
    var source := moved.projectile.value;
    var damage := DamageOf(config, source.source);
    DamageIsDefined(config, source.source);
    hide DamageOf, Damages;
    var next := Strike(config, w.Change(id, moved, []), id, source, t);
    assert w.events + [] == w.events;
    assert HitsFor(config, w, next, id, moved, t, damage);
  }

  lemma FlyFlies(config: Config, order: Order, w: World, id: EntityId)
    requires ValidOrder(order) && id in Projectiles(w) && w.entities[id].player.None?
    ensures Flies(config, w, Fly(config, order, w, id), id)
  {
    var e := w.entities[id];
    var p := e.projectile.value;
    var moved := e.(body := Ahead(config, e.body));
    assert moved.body == Drifted(config.rules.tickMs, e.body);
    assert w.events + [] == w.events;
    var flown := w.Change(id, moved, []);
    var walk := order(w.tick, 4 + id, Players(flown));
    assert Enumerates(walk, Players(flown));
    var hit := FirstHit(flown, p.owner, moved.body, walk);
    forall t
      ensures Exposed(flown, p.owner, moved.body, t) <==> InReach(w, p.owner, moved.body, t)
      ensures Exposed(flown, p.owner, moved.body, t) ==> t in walk
    {
      ExposedInReach(config, w, id, moved, p.owner, t);
    }
    hide Exposed, Near, Ahead, Drifted;
    if hit.Some? {
      assert InReach(w, p.owner, moved.body, hit.value);
      StrikeHits(config, w, id, moved, hit.value);
      hide HitsOne, Strike, InReach, FirstHit;
    } else {
      hide HitsOne, Strike, FirstHit;
    }
  }

  // --- the whole pass ---

  /** Between two moments of a pass nobody comes, goes or moves but for arrows, and a
      defeated player stays defeated. */
  ghost predicate SameStage(w: World, u: World) {
    && u.time == w.time && u.tick == w.tick && u.entities.Keys == w.entities.Keys && w.events <= u.events
    && Projectiles(u) == Projectiles(w)
    && (forall q :: q in w.entities ==> u.entities[q].player.Some? == w.entities[q].player.Some?)
    && (forall q :: q in w.entities && w.entities[q].player.Some? ==>
          && u.entities[q] == w.entities[q].(player := u.entities[q].player)
          && (w.entities[q].Defeated() ==> u.entities[q].Defeated()))
  }

  /** A confirmed hit of the pass is one of an arrow that was there, had not expired and was
      on the map, on a player other than its owner, within reach of the arrow. */
  ghost predicate CloseHit(config: Config, w: World, event: DomainEvent)
    requires event.HitConfirmed?
  {
    && event.projectileId in Projectiles(w) && event.serverTime == w.time
    && var e := w.entities[event.projectileId];
    && event.attackerId == e.projectile.value.owner && event.attackerId != event.targetId
    && w.time < e.projectile.value.expiresAt && !Outside(config, Ahead(config, e.body))
    && event.targetId in w.entities && w.entities[event.targetId].player.Some?
    && Near(Ahead(config, e.body), w.entities[event.targetId].body)
  }

  ghost predicate CloseHits(config: Config, w: World, u: World) {
    forall k :: |w.events| <= k < |u.events| && u.events[k].HitConfirmed? ==> CloseHit(config, w, u.events[k])
  }

  /** A hit of this arrow has been confirmed since. */
  ghost predicate Confirmed(w: World, u: World, id: EntityId) {
    exists k :: |w.events| <= k < |u.events| && u.events[k].HitConfirmed? && u.events[k].projectileId == id
  }

  /** What became of an arrow: moved ahead; marked if expired or off the map; otherwise
      marked exactly if a hit of it was confirmed, and if none was, everybody but its owner
      within its reach is defeated. */
  ghost predicate Outcome(config: Config, w: World, u: World, id: EntityId)
    requires id in Projectiles(w)
  {
    var e := w.entities[id];
    var p := e.projectile.value;
    var at := Ahead(config, e.body);
    && id in u.entities && u.entities[id] == e.(body := at)
    && if w.time >= p.expiresAt || Outside(config, at)
       then id in u.doomed && !Confirmed(w, u, id)
       else && (id in u.doomed <==> Confirmed(w, u, id))
            && (id !in u.doomed ==>
                  forall t :: t in w.entities && t != p.owner && w.entities[t].player.Some? && Near(at, w.entities[t].body)
                    ==> t in u.entities && u.entities[t].Defeated())
  }

  /** An arrow whose turn has not come. */
  ghost predicate Waits(w: World, u: World, id: EntityId)
    requires id in Projectiles(w)
  {
    id in u.entities && u.entities[id] == w.entities[id] && id !in u.doomed && !Confirmed(w, u, id)
  }

  /** What one turn does to the world around it. */
  ghost predicate TurnOf(config: Config, u: World, next: World, id: EntityId)
    requires id in Projectiles(u)
  {
    && SameStage(u, next)
    && (forall q :: q in u.entities && u.entities[q].player.None? && q != id ==> next.entities[q] == u.entities[q])
    && (next.doomed == u.doomed || next.doomed == u.doomed + [id])
    && (forall k :: |u.events| <= k < |next.events| && next.events[k].HitConfirmed? ==> next.events[k].projectileId == id)
    && CloseHits(config, u, next)
    && (id !in u.doomed ==> Outcome(config, u, next, id))
  }

  lemma MissIsTurn(config: Config, u: World, next: World, id: EntityId)
    requires id in Projectiles(u) && u.entities[id].player.None? && Flies(config, u, next, id)
    requires next.events == u.events
    ensures TurnOf(config, u, next, id)
  {
    hide Near, Outside, Ahead;
    var e := u.entities[id];
    var at := Ahead(config, e.body);
    if !(u.time >= e.projectile.value.expiresAt || Outside(config, at)) {
      forall t | t in u.entities && t != e.projectile.value.owner && u.entities[t].player.Some? && Near(at, u.entities[t].body)
        ensures next.entities[t].Defeated()
      {
        assert !InReach(u, e.projectile.value.owner, at, t);
      }
    }
  }

  lemma HitIsTurn(config: Config, u: World, next: World, id: EntityId, t: EntityId)
    requires id in Projectiles(u) && u.entities[id].player.None?
    requires var e := u.entities[id];
             var moved := e.(body := Ahead(config, e.body));
             && u.time < e.projectile.value.expiresAt && !Outside(config, moved.body)
             && InReach(u, e.projectile.value.owner, moved.body, t) && HitsOne(config, u, next, id, moved, t)
    ensures TurnOf(config, u, next, id) && next.events != u.events
  {
    hide Near, Outside, Ahead, Damages;
    var e := u.entities[id];
    var owner := e.projectile.value.owner;
    var n := |u.events|;
    assert |next.events| > n && next.events[n] == HitConfirmed(owner, t, id, u.time);
    assert forall k :: n < k < |next.events| ==> !next.events[k].HitConfirmed?;
    assert CloseHit(config, u, next.events[n]);
    hide CloseHit;
    assert Confirmed(u, next, id);
    assert Projectiles(next) == Projectiles(u);
  }

  lemma FliesIsTurn(config: Config, u: World, next: World, id: EntityId)
    requires id in Projectiles(u) && u.entities[id].player.None? && Flies(config, u, next, id)
    ensures TurnOf(config, u, next, id)
  {
    var e := u.entities[id];
    var moved := e.(body := Ahead(config, e.body));
    if next.events == u.events {
      MissIsTurn(config, u, next, id);
    } else {
      var t :| InReach(u, e.projectile.value.owner, moved.body, t) && HitsOne(config, u, next, id, moved, t);
      hide HitsOne, InReach, Outside, Ahead;
      HitIsTurn(config, u, next, id, t);
    }
    hide TurnOf;
  }

  lemma StageTransitive(w: World, u: World, next: World)
    requires SameStage(w, u) && SameStage(u, next)
    ensures SameStage(w, next)
  {
  }

  lemma HitsStayClose(config: Config, w: World, u: World, next: World, id: EntityId)
    requires SameStage(w, u) && CloseHits(config, w, u) && id in Projectiles(w) && u.entities[id] == w.entities[id]
    requires TurnOf(config, u, next, id)
    ensures CloseHits(config, w, next)
  {
    forall k | |w.events| <= k < |next.events| && next.events[k].HitConfirmed?
      ensures CloseHit(config, w, next.events[k])
    {
      if k < |u.events| {
        assert next.events[k] == u.events[k];
      } else {
        assert CloseHit(config, u, next.events[k]);
      }
    }
  }

  /** Confirmations of other arrows are as they were. */
  lemma ConfirmedSame(config: Config, w: World, u: World, next: World, id: EntityId, q: EntityId)
    requires SameStage(w, u) && id in Projectiles(u) && TurnOf(config, u, next, id) && q != id
    ensures Confirmed(w, next, q) <==> Confirmed(w, u, q)
  {
    hide Outcome, CloseHits;
    if Confirmed(w, next, q) {
      var k :| |w.events| <= k < |next.events| && next.events[k].HitConfirmed? && next.events[k].projectileId == q;
      assert next.events[k] == u.events[k];
    }
    if Confirmed(w, u, q) {
      var k :| |w.events| <= k < |u.events| && u.events[k].HitConfirmed? && u.events[k].projectileId == q;
      assert next.events[k] == u.events[k];
    }
  }

  lemma OutcomeStays(config: Config, w: World, u: World, next: World, id: EntityId, q: EntityId)
    requires SameStage(w, u) && id in Projectiles(u) && TurnOf(config, u, next, id) && q != id
    requires q in Projectiles(w) && w.entities[q].player.None? && Outcome(config, w, u, q)
    ensures Outcome(config, w, next, q)
  {
    ConfirmedSame(config, w, u, next, id, q);
    hide Confirmed, CloseHits, Near, Outside, Ahead;
  }

  lemma WaitStays(config: Config, w: World, u: World, next: World, id: EntityId, q: EntityId)
    requires SameStage(w, u) && id in Projectiles(u) && TurnOf(config, u, next, id) && q != id
    requires q in Projectiles(w) && w.entities[q].player.None? && Waits(w, u, q)
    ensures Waits(w, next, q)
  {
    ConfirmedSame(config, w, u, next, id, q);
    hide Confirmed, CloseHits, Near, Outside, Ahead, Outcome;
  }

  lemma OutcomeComes(config: Config, w: World, u: World, next: World, id: EntityId)
    requires SameStage(w, u) && id in Projectiles(w) && w.entities[id].player.None? && Waits(w, u, id) && TurnOf(config, u, next, id)
    ensures Outcome(config, w, next, id)
  {
    assert Outcome(config, u, next, id);
    hide CloseHits, Near, Outside, Ahead;
    assert Confirmed(w, next, id) <==> Confirmed(u, next, id) by {
      if Confirmed(w, next, id) {
        var k :| |w.events| <= k < |next.events| && next.events[k].HitConfirmed? && next.events[k].projectileId == id;
        assert !(exists k :: |w.events| <= k < |u.events| && u.events[k].HitConfirmed? && u.events[k].projectileId == id);
        assert u.events <= next.events;
        assert k >= |u.events|;
      }
    }
    hide Confirmed;
  }

  /** Halfway through a pass: the arrows before position n have had their turn. */
  ghost predicate FlownTo(config: Config, w: World, u: World, walk: seq<EntityId>, n: nat)
    requires n <= |walk| && forall q :: q in walk ==> q in Projectiles(w)
  {
    && SameStage(w, u) && CloseHits(config, w, u)
    && (forall k :: 0 <= k < n ==> walk[k] in Projectiles(w) && Outcome(config, w, u, walk[k]))
    && (forall k :: n <= k < |walk| ==> walk[k] in Projectiles(w) && Waits(w, u, walk[k]))
    && (forall q :: q in u.doomed ==> q in walk)
  }

  ghost predicate OnlyArrows(w: World) {
    forall q :: q in Projectiles(w) ==> w.entities[q].player.None?
  }

  lemma ShapedArrows(config: Config, w: World)
    requires Shaped(config, w)
    ensures OnlyArrows(w)
  {
    forall q | q in Projectiles(w)
      ensures w.entities[q].player.None?
    {
      EntityOkUnfold(config, w, q);
    }
  }

  lemma FlownOne(config: Config, w: World, u: World, next: World, walk: seq<EntityId>, n: nat)
    requires n < |walk| && Distinct(walk) && (forall q :: q in walk ==> q in Projectiles(w)) && OnlyArrows(w)
    requires FlownTo(config, w, u, walk, n)
    requires walk[n] in Projectiles(u) && TurnOf(config, u, next, walk[n])
    ensures FlownTo(config, w, next, walk, n + 1)
  {
    var id := walk[n];
    StageTransitive(w, u, next);
    HitsStayClose(config, w, u, next, id);
    OutcomeComes(config, w, u, next, id);
    forall k | 0 <= k < n
      ensures Outcome(config, w, next, walk[k])
    {
      OutcomeStays(config, w, u, next, id, walk[k]);
    }
    forall k | n < k < |walk|
      ensures Waits(w, next, walk[k])
    {
      WaitStays(config, w, u, next, id, walk[k]);
    }
    hide Outcome, Waits, SameStage, CloseHits;
  }

  lemma NobodyFlown(config: Config, w: World, walk: seq<EntityId>)
    requires (forall q :: q in walk ==> q in Projectiles(w)) && w.doomed == []
    ensures FlownTo(config, w, w, walk, 0)
  {
    hide Outcome;
  }

  lemma FlightStep(config: Config, order: Order, w: World, u: World, walk: seq<EntityId>, n: nat)
    requires Shaped(config, u) && ValidOrder(order) && OnlyArrows(w)
    requires n < |walk| && Distinct(walk) && (forall q :: q in walk ==> q in Projectiles(w))
    requires FlownTo(config, w, u, walk, n)
    ensures FlownTo(config, w, Fly(config, order, u, walk[n]), walk, n + 1)
  {
    ShapedArrows(config, u);
    assert walk[n] in walk && Projectiles(u) == Projectiles(w);
    hide Shaped, Fly, CloseHits, Outcome;
    FlyFlies(config, order, u, walk[n]);
    FliesIsTurn(config, u, Fly(config, order, u, walk[n]), walk[n]);
    hide Flies, TurnOf, FlownTo;
    FlownOne(config, w, u, Fly(config, order, u, walk[n]), walk, n);
  }

  lemma {:induction false} FlightPass(config: Config, order: Order, w: World, walk: seq<EntityId>, ops: seq<Op>, n: nat)
    requires Shaped(config, w) && ValidOrder(order) && OnlyArrows(w) && w.doomed == [] && n <= |walk| == |ops|
    requires Distinct(walk) && forall q :: q in walk ==> q in Projectiles(w)
    requires forall k :: 0 <= k < |ops| ==> ops[k] == DoFly(walk[k])
    ensures FlownTo(config, w, Exec(config, order, w, ops, n), walk, n)
  {
    hide *;
    ExecUnfold(config, order, w, ops, n);
    if n > 0 {
      FlightPass(config, order, w, walk, ops, n - 1);
      ExecKeepsShape(config, order, w, ops, n - 1);
      FlightStep(config, order, w, Exec(config, order, w, ops, n - 1), walk, n - 1);
      DoFlyUnfold(config, order, Exec(config, order, w, ops, n - 1), walk[n - 1]);
    } else {
      NobodyFlown(config, w, walk);
    }
  }

  /** The walk of a pass: every arrow once. */
  lemma FlyWalk(config: Config, order: Order, w: World)
    requires Shaped(config, w) && ValidOrder(order)
    ensures var walk := order(w.tick, 2, Projectiles(w));
            && Enumerates(walk, Projectiles(w)) && OnlyArrows(w) && |FlyOps(order, w)| == |walk|
            && (forall q :: q in walk ==> q in Projectiles(w))
            && (forall k :: 0 <= k < |walk| ==> FlyOps(order, w)[k] == DoFly(walk[k]))
  {
    ShapedArrows(config, w);
    hide Shaped;
  }

  /** The n-th turn of the pass is a turn of the n-th arrow, which until then has waited. */
  lemma PassIsTurns(config: Config, order: Order, w: World, n: nat)
    requires Shaped(config, w) && ValidOrder(order) && w.doomed == [] && n < |FlyOps(order, w)|
    ensures var walk := order(w.tick, 2, Projectiles(w));
            var u, next := Exec(config, order, w, FlyOps(order, w), n), Exec(config, order, w, FlyOps(order, w), n + 1);
            && SameStage(w, u) && walk[n] in Projectiles(u) && u.entities[walk[n]] == w.entities[walk[n]]
            && Flies(config, u, next, walk[n])
  {
    var walk := order(w.tick, 2, Projectiles(w));
    FlyWalk(config, order, w);
    FlightPass(config, order, w, walk, FlyOps(order, w), n);
    var u := Exec(config, order, w, FlyOps(order, w), n);
    ExecKeepsShape(config, order, w, FlyOps(order, w), n);
    ShapedArrows(config, u);
    hide Shaped, Fly, Flies, CloseHits, Outcome, FlyOps;
    assert walk[n] in walk && walk[n] in Projectiles(w);
    assert Projectiles(u) == Projectiles(w);
    FlyFlies(config, order, u, walk[n]);
    ExecUnfold(config, order, w, FlyOps(order, w), n + 1);
    DoFlyUnfold(config, order, u, walk[n]);
    hide Exec, Do;
  }

  // --- damage ---

  /** All damage dealt to a player. */
  function DamageTo(events: seq<DomainEvent>, t: EntityId): int {
    if events == [] then 0
    else
      var last := events[|events| - 1];
      DamageTo(events[..|events| - 1], t) + (if last.PlayerDamaged? && last.entityId == t then last.damage else 0)
  }

  lemma {:induction false} DamageAppend(a: seq<DomainEvent>, b: seq<DomainEvent>, t: EntityId)
    ensures DamageTo(a + b, t) == DamageTo(a, t) + DamageTo(b, t)
  {
    if b == [] {
      assert a + b == a;
    } else {
      DamageAppend(a, b[..|b| - 1], t);
      assert (a + b)[..|a + b| - 1] == a + b[..|b| - 1];
    }
  }

  /** A player's health falls by the damage dealt to it and stops at zero. */
  ghost predicate HealthFalls(w: World, u: World, t: EntityId) {
    IsPlayer(w, t) && w.entities[t].player.value.health >= 0 ==>
      && IsPlayer(u, t)
      && DamageTo(w.events, t) <= DamageTo(u.events, t)
      && u.entities[t].player.value.health
         == Max(0, w.entities[t].player.value.health - (DamageTo(u.events, t) - DamageTo(w.events, t)))
  }

  lemma HealthFallsOn(w: World, u: World, next: World, t: EntityId)
    requires HealthFalls(w, u, t) && HealthFalls(u, next, t)
    ensures HealthFalls(w, next, t)
  {
    hide DamageTo;
  }

  ghost predicate NoHealing(config: Config) {
    forall k :: 0 <= k < |config.weapons| ==> config.weapons[k].damage >= 0
  }

  lemma NewsDamage(attacker: EntityId, target: EntityId, projectile: EntityId, time: Time, damage: int, health: int, died: seq<DomainEvent>, t: EntityId)
    requires died == [] || exists r: Time :: died == [PlayerDied(target, attacker, r)]
    ensures DamageTo([HitConfirmed(attacker, target, projectile, time), PlayerDamaged(target, attacker, damage, health)] + died, t)
         == if t == target then damage else 0
  {
    var hit := [HitConfirmed(attacker, target, projectile, time)];
    var hurt := [PlayerDamaged(target, attacker, damage, health)];
    DamageAppend(hit, hurt, t);
    DamageAppend(hit + hurt, died, t);
    assert hit + hurt == [HitConfirmed(attacker, target, projectile, time), PlayerDamaged(target, attacker, damage, health)];
    assert DamageTo(hit[..0], t) == 0 && DamageTo(hurt[..0], t) == 0;
    if died != [] {
      assert died[..0] == [];
    }
  }

  lemma HitHurts(config: Config, u: World, next: World, id: EntityId, moved: Entity, target: EntityId, t: EntityId)
    requires NoHealing(config) && target in u.entities && moved.projectile.Some?
    requires id in u.entities && u.entities[id].player.None? && moved.player.None?
    requires HitsOne(config, u, next, id, moved, target)
    ensures HealthFalls(u, next, t)
  {
    var damage :| HitsFor(config, u, next, id, moved, target, damage);
    var after := next.entities[target].player.value;
    var owner := moved.projectile.value.owner;
    assert damage >= 0;
    var died := if after.health == 0 then [PlayerDied(target, owner, u.time + config.respawnDelay)] else [];
    var news := [HitConfirmed(owner, target, id, u.time), PlayerDamaged(target, owner, damage, after.health)] + died;
    NewsDamage(owner, target, id, u.time, damage, after.health, died, t);
    assert next.events == u.events + news;
    DamageAppend(u.events, news, t);
    hide DamageTo, Damages;
  }

  lemma FlightHurts(config: Config, u: World, next: World, id: EntityId, t: EntityId)
    requires NoHealing(config) && id in Projectiles(u) && u.entities[id].player.None? && Flies(config, u, next, id)
    ensures HealthFalls(u, next, t)
  {
    var e := u.entities[id];
    var moved := e.(body := Ahead(config, e.body));
    if next.events != u.events {
      var target :| InReach(u, e.projectile.value.owner, moved.body, target) && HitsOne(config, u, next, id, moved, target);
      hide HitsOne, InReach, Outside, Ahead, DamageTo;
      HitHurts(config, u, next, id, moved, target, t);
    } else {
      hide Outside, Ahead, DamageTo, Near, Damages;
    }
  }

  lemma {:induction false} PassHurts(config: Config, order: Order, w: World, walk: seq<EntityId>, ops: seq<Op>, n: nat, t: EntityId)
    requires NoHealing(config) && Shaped(config, w) && ValidOrder(order) && OnlyArrows(w) && w.doomed == [] && n <= |walk| == |ops|
    requires Distinct(walk) && forall q :: q in walk ==> q in Projectiles(w)
    requires forall k :: 0 <= k < |ops| ==> ops[k] == DoFly(walk[k])
    ensures HealthFalls(w, Exec(config, order, w, ops, n), t)
  {
    hide *;
    ExecUnfold(config, order, w, ops, n);
    if n > 0 {
      var u := Exec(config, order, w, ops, n - 1);
      PassHurts(config, order, w, walk, ops, n - 1, t);
      ExecKeepsShape(config, order, w, ops, n - 1);
      FlightPass(config, order, w, walk, ops, n - 1);
      ArrowIsThere(config, w, u, walk, n - 1);
      ShapedArrows(config, u);
      FlyFlies(config, order, u, walk[n - 1]);
      FlightHurts(config, u, Fly(config, order, u, walk[n - 1]), walk[n - 1], t);
      DoFlyUnfold(config, order, u, walk[n - 1]);
      HealthFallsOn(w, u, Do(config, order, u, ops[n - 1]), t);
    } else {
      NotYetHurt(w, t);
    }
  }

  lemma ArrowIsThere(config: Config, w: World, u: World, walk: seq<EntityId>, n: nat)
    requires n < |walk| && (forall q :: q in walk ==> q in Projectiles(w)) && FlownTo(config, w, u, walk, n)
    ensures walk[n] in Projectiles(u)
    ensures OnlyArrows(u) ==> u.entities[walk[n]].player.None?
  {
    assert walk[n] in walk && Projectiles(u) == Projectiles(w);
  }

  lemma NotYetHurt(w: World, t: EntityId)
    ensures HealthFalls(w, w, t)
  {
  }

  // --- the results ---

  /** What is left of an arrow after the pass: nothing if it expired, left the map or hit;
      otherwise the arrow one tick ahead, and everybody else within its reach is defeated. */
  ghost predicate Landed(config: Config, w: World, next: World, id: EntityId)
    requires id in Projectiles(w)
  {
    var e := w.entities[id];
    var p := e.projectile.value;
    var at := Ahead(config, e.body);
    if w.time >= p.expiresAt || Outside(config, at) then id !in next.entities && !Confirmed(w, next, id)
    else
      && (id !in next.entities <==> Confirmed(w, next, id))
      && (id in next.entities ==>
            && next.entities[id] == e.(body := at)
            && forall t :: t in w.entities && t != p.owner && w.entities[t].player.Some? && Near(at, w.entities[t].body)
                 ==> t in next.entities && next.entities[t].Defeated())
  }

  /** Whoever is not an arrow stays, unchanged but for the health of players. */
  ghost predicate Stays(w: World, next: World, q: EntityId) {
    q in w.entities && w.entities[q].projectile.None? ==>
      && q in next.entities
      && next.entities[q] == w.entities[q].(player := next.entities[q].player)
      && next.entities[q].player.Some? == w.entities[q].player.Some?
  }

  lemma DestroyLands(config: Config, w: World, flown: World, next: World, walk: seq<EntityId>, q: EntityId)
    requires OnlyArrows(w) && Enumerates(walk, Projectiles(w)) && (forall q :: q in walk ==> q in Projectiles(w))
    requires FlownTo(config, w, flown, walk, |walk|)
    requires next == flown.(entities := next.entities, doomed := [])
    requires forall id :: id in next.entities <==> id in flown.entities && id !in flown.doomed
    requires forall id :: id in next.entities ==> next.entities[id] == flown.entities[id]
    ensures q in Projectiles(w) ==> Landed(config, w, next, q)
    ensures forall t :: IsPlayer(w, t) ==> t in next.entities && next.entities[t] == flown.entities[t]
  {
    forall t | IsPlayer(w, t)
      ensures t in next.entities && next.entities[t] == flown.entities[t]
    {
      assert t !in Projectiles(w) && t !in walk;
    }
    if q in Projectiles(w) {
      assert q in walk;
      var k :| 0 <= k < |walk| && walk[k] == q;
      assert Outcome(config, w, flown, walk[k]);
      assert Confirmed(w, next, q) <==> Confirmed(w, flown, q);
    }
    hide Near, Ahead, Outside, Confirmed, CloseHits, Waits;
  }

  lemma NonArrowStays(config: Config, w: World, flown: World, next: World, walk: seq<EntityId>, q: EntityId)
    requires forall q :: q in walk ==> q in Projectiles(w)
    requires Shaped(config, w) && FlownTo(config, w, flown, walk, |walk|)
    requires forall t :: IsPlayer(w, t) ==> t in next.entities && next.entities[t] == flown.entities[t]
    ensures Stays(w, next, q)
  {
    if q in w.entities && w.entities[q].projectile.None? {
      EntityOkUnfold(config, w, q);
      assert IsPlayer(w, q);
    }
    hide Shaped, Outcome, Waits, CloseHits;
  }

  lemma DestroyTakesMarked(config: Config, order: Order, w: World)
    ensures var flown := Exec(config, order, w, FlyOps(order, w), |FlyOps(order, w)|);
            var next := ProcessProjectiles(config, order, w);
            && next == flown.(entities := next.entities, doomed := [])
            && (forall id :: id in next.entities <==> id in flown.entities && id !in flown.doomed)
            && (forall id :: id in next.entities ==> next.entities[id] == flown.entities[id])
  {
    var flown := Exec(config, order, w, FlyOps(order, w), |FlyOps(order, w)|);
    DestroyPass(config, order, flown, DestroyOps(flown), |flown.doomed|);
    assert flown.doomed[..|flown.doomed|] == flown.doomed;
    hide FlyOps, Do;
  }

  lemma StageHurts(w: World, flown: World, next: World, q: EntityId)
    requires SameStage(w, flown) && HealthFalls(w, flown, q) && next.events == flown.events
    requires forall t :: IsPlayer(w, t) ==> t in next.entities && next.entities[t] == flown.entities[t]
    requires forall id :: id in next.entities ==> id in flown.entities
    ensures HealthFalls(w, next, q) && (q !in w.entities ==> q !in next.entities)
  {
    hide DamageTo;
  }

  /** The projectile pass as a whole, from any state of the right shape: every confirmed
      hit is close, every arrow ends as it must, nobody else comes, goes or moves, and a
      player's health falls by exactly the damage dealt to it. */
  lemma ProjectilePass(config: Config, order: Order, w: World, q: EntityId)
    requires Shaped(config, w) && ValidOrder(order) && w.doomed == [] && NoHealing(config)
    ensures var next := ProcessProjectiles(config, order, w);
            && CloseHits(config, w, next)
            && (q in Projectiles(w) ==> Landed(config, w, next, q))
            && Stays(w, next, q)
            && (q !in w.entities ==> q !in next.entities)
            && HealthFalls(w, next, q)
  {
    var walk := order(w.tick, 2, Projectiles(w));
    var ops := FlyOps(order, w);
    FlyWalk(config, order, w);
    FlightPass(config, order, w, walk, ops, |walk|);
    PassHurts(config, order, w, walk, ops, |walk|, q);
    DestroyTakesMarked(config, order, w);
    var flown := Exec(config, order, w, ops, |ops|);
    var next := ProcessProjectiles(config, order, w);
    assert SameStage(w, flown) && CloseHits(config, w, flown);
    hide *;
    DestroyLands(config, w, flown, next, walk, q);
    NonArrowStays(config, w, flown, next, walk, q);
    StageHurts(w, flown, next, q);
    CloseHitsSame(config, w, flown, next);
  }

  lemma CloseHitsSame(config: Config, w: World, u: World, next: World)
    requires CloseHits(config, w, u) && next.events == u.events
    ensures CloseHits(config, w, next)
  {
  }
}
