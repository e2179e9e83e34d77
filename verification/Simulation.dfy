/** The simulation's state and one fixed tick of it, on values
    (GameLogic/src/Simulation.cpp, SimulationMovement.cpp, SimulationCombat.cpp). A tick is
    a list of small operations, each on one entity; SimulationObject.dfy holds the class
    that carries them out in place. */
module Simulation {
  import opened Basics
  import opened Replication
  import opened Events
  import opened Motion

  datatype WeaponDefinition = WeaponDefinition(
    weaponType: WeaponType, warmup: Time, projectileSpeed: int, lifetime: Time, damage: int, spawns: bool)

  datatype Mode = ServerAuthoritative | ClientPrediction

  datatype Config = Config(
    mode: Mode, rules: Rules, maxPlayers: nat, maxHealth: int, respawnDelay: Time,
    defaultWeapon: WeaponType, weapons: seq<WeaponDefinition>)

  datatype Player = Player(client: ClientId, health: int, maxHealth: int, defeated: bool, respawnAt: Time)
  datatype Weapon = Weapon(weaponType: WeaponType, warming: bool, startedAt: Time, completesAt: Time)
  datatype Projectile = Projectile(owner: EntityId, spawnedAt: Time, expiresAt: Time, source: WeaponType)

  /** One entity with the components it may have. */
  datatype Entity = Entity(
    body: Body, aim: Option<Aim>, intent: Option<InputFrame>, player: Option<Player>,
    weapon: Option<Weapon>, projectile: Option<Projectile>, owner: Option<ClientId>, predicted: bool)
  {
    predicate Defeated() { player.Some? && player.value.defeated }
    predicate Warming() { weapon.Some? && weapon.value.warming }
  }

  datatype Input = Input(client: ClientId, sequence: Sequence, frame: InputFrame)

  datatype Request = Request(owner: EntityId, x: int, y: int, aim: Aim, weapon: WeaponDefinition)

  /** The simulation between and during ticks: `requests` and `doomed` are the lists that
      the warm-up and projectile passes fill before acting on them. */
  datatype World = World(
    tick: nat, time: Time, nextId: EntityId, entities: map<EntityId, Entity>,
    playerByClient: map<ClientId, EntityId>, lastAccepted: map<ClientId, Sequence>,
    pending: seq<Input>, events: seq<DomainEvent>,
    requests: seq<Request>, doomed: seq<EntityId>)
  {
    /** One entity replaced and some events queued. */
    function Change(id: EntityId, e: Entity, news: seq<DomainEvent>): World {
      this.(entities := entities[id := e], events := events + news)
    }
  }

  const NEW_WORLD := World(0, 0, 1, map[], map[], map[], [], [], [], [])

  function FindWeapon(weapons: seq<WeaponDefinition>, weaponType: WeaponType): Option<WeaponDefinition> {
    if weapons == [] then None
    else if weapons[0].weaponType == weaponType then Some(weapons[0])
    else FindWeapon(weapons[1..], weaponType)
  }

  // --- commands ---

  function Spawn(config: Config, client: ClientId): (int, int) {
    var tile := config.rules.map_.tileSize;
    ((10 + client % 20) * tile * FIXED_ONE, (10 + (client / 20) % 20) * tile * FIXED_ONE)
  }

  function NewPlayer(config: Config, client: ClientId): Entity {
    var at := Spawn(config, client);
    Entity(Body(at.0, at.1, 0, 0), Some(Aim(1000, 0)), None,
           Some(Player(client, config.maxHealth, config.maxHealth, false, 0)),
           Some(Weapon(config.defaultWeapon, false, 0, 0)), None, Some(client),
           config.mode == ClientPrediction)
  }

  function Login(config: Config, w: World, client: ClientId, sequence: Sequence): World {
    if client in w.playerByClient || |w.playerByClient| >= config.maxPlayers then w
    else
      var at := Spawn(config, client);
      w.Change(w.nextId, NewPlayer(config, client), [PlayerSpawned(w.nextId, client, at.0, at.1)])
       .(lastAccepted := w.lastAccepted[client := sequence],
         nextId := w.nextId + 1,
         playerByClient := w.playerByClient[client := w.nextId])
  }

  predicate Admissible(w: World, input: Input) {
    && input.client in w.playerByClient
    && (input.client in w.lastAccepted ==> input.sequence > w.lastAccepted[input.client])
  }

  function Submit(w: World, input: Input): World {
    if !Admissible(w, input) then w
    else w.(lastAccepted := w.lastAccepted[input.client := input.sequence], pending := w.pending + [input])
  }

  // --- movement ---

  /** The entity with the intent and aim of one input. */
  function Intending(e: Entity, frame: InputFrame): Entity {
    e.(intent := Some(frame), aim := Some(Aimed(e.aim, frame)))
  }

  /** An input starts a warm-up when it fires an idle weapon that has a definition. */
  function WarmupStart(config: Config, e: Entity, frame: InputFrame): (start: Option<WeaponDefinition>)
    ensures start.Some? ==> e.weapon.Some?
  {
    if !frame.fire || e.weapon.None? || e.weapon.value.weaponType == NoWeapon || e.weapon.value.warming then None
    else FindWeapon(config.weapons, e.weapon.value.weaponType)
  }

  function Responding(config: Config, time: Time, e: Entity, frame: InputFrame): Entity {
    match WarmupStart(config, e, frame)
    case None => Intending(e, frame)
    case Some(definition) =>
      Intending(e, frame).(weapon := Some(e.weapon.value.(
        warming := true, startedAt := time, completesAt := time + definition.warmup)))
  }

  function WarmupEvents(config: Config, time: Time, id: EntityId, e: Entity, frame: InputFrame): seq<DomainEvent> {
    match WarmupStart(config, e, frame)
    case None => []
    case Some(definition) => [WarmupStarted(id, time, time + definition.warmup, e.weapon.value.weaponType)]
  }

  function ApplyTo(config: Config, w: World, id: EntityId, frame: InputFrame): World
    requires id in w.entities
  {
    var e := w.entities[id];
    if e.Defeated() then w
    else w.Change(id, Responding(config, w.time, e, frame), WarmupEvents(config, w.time, id, e, frame))
  }

  function ApplyInput(config: Config, w: World, input: Input): World {
    if input.client in w.playerByClient && w.playerByClient[input.client] in w.entities
    then ApplyTo(config, w, w.playerByClient[input.client], input.frame)
    else w
  }

  function Stepped(rules: Rules, e: Entity): Entity {
    if e.Defeated() then e.(body := e.body.(vx := 0, vy := 0))
    else e.(body := Moved(rules, e.body, e.intent))
  }

  function MoveEvents(id: EntityId, e: Entity, next: Body): seq<DomainEvent> {
    if (next.x != e.body.x || next.y != e.body.y) && e.player.Some?
    then [PlayerMoved(id, e.body.x, e.body.y, next.x, next.y)]
    else []
  }

  function Integrate(config: Config, w: World, id: EntityId): World {
    if id !in w.entities then w
    else
      var e := w.entities[id];
      var next := Stepped(config.rules, e);
      w.Change(id, next, MoveEvents(id, e, next.body))
  }

  function WithoutIntent(e: Entity): Entity {
    e.(intent := None)
  }

  function ClearIntents(w: World): World {
    w.(entities := map id | id in w.entities :: WithoutIntent(w.entities[id]))
  }

  // --- combat ---

  predicate Ready(e: Entity, time: Time) {
    !e.Defeated() && e.weapon.Some? && e.weapon.value.warming && time >= e.weapon.value.completesAt
  }

  /** The weapon definition an entity fires with now. */
  function Firing(config: Config, e: Entity, time: Time): Option<WeaponDefinition> {
    if Ready(e, time) && config.mode == ServerAuthoritative
    then FindWeapon(config.weapons, e.weapon.value.weaponType)
    else None
  }

  function Cooled(e: Entity, time: Time): Entity {
    if e.weapon.Some? && (e.Defeated() || Ready(e, time))
    then e.(weapon := Some(e.weapon.value.(warming := false)))
    else e
  }

  function FireEvents(config: Config, id: EntityId, e: Entity, time: Time): seq<DomainEvent> {
    if Firing(config, e, time).Some? && e.weapon.Some? then [BowFired(id, time, e.weapon.value.weaponType)] else []
  }

  function FireRequests(config: Config, id: EntityId, e: Entity, time: Time): seq<Request> {
    var definition := Firing(config, e, time);
    if definition.Some? && definition.value.spawns && e.aim.Some?
    then [Request(id, e.body.x, e.body.y, e.aim.value, definition.value)]
    else []
  }

  function Warm(config: Config, w: World, id: EntityId): World {
    if id !in w.entities || w.entities[id].weapon.None? || w.entities[id].aim.None? then w
    else
      var e := w.entities[id];
      w.Change(id, Cooled(e, w.time), FireEvents(config, id, e, w.time))
       .(requests := w.requests + FireRequests(config, id, e, w.time))
  }

  function Arrow(time: Time, r: Request): Entity {
    Entity(Body(r.x, r.y, TruncDiv(r.weapon.projectileSpeed * r.aim.x, FIXED_ONE),
                TruncDiv(r.weapon.projectileSpeed * r.aim.y, FIXED_ONE)),
           None, None, None, None,
           Some(Projectile(r.owner, time, time + r.weapon.lifetime, r.weapon.weaponType)), None, false)
  }

  /** Create the projectile of the oldest request. */
  function Launch(w: World): World {
    if w.requests == [] then w
    else
      var r := w.requests[0];
      w.Change(w.nextId, Arrow(w.time, r), [ProjectileSpawned(w.nextId, r.owner, r.x, r.y, r.weapon.weaponType)])
       .(nextId := w.nextId + 1, requests := w.requests[1..])
  }

  const HIT_RADIUS := 42 * FIXED_ONE

  predicate CloseEnough(a: Body, b: Body) {
    (a.x - b.x) * (a.x - b.x) + (a.y - b.y) * (a.y - b.y) <= HIT_RADIUS * HIT_RADIUS
  }

  /** A player whom a projectile of `owner` at `at` can hit. */
  predicate Exposed(w: World, owner: EntityId, at: Body, id: EntityId) {
    && id != owner
    && id in w.entities
    && w.entities[id].player.Some?
    && !w.entities[id].player.value.defeated
    && CloseEnough(at, w.entities[id].body)
  }

  function FirstHit(w: World, owner: EntityId, at: Body, walk: seq<EntityId>): (hit: Option<EntityId>)
    ensures hit.None? ==> forall id :: id in walk ==> !Exposed(w, owner, at, id)
    ensures hit.Some? ==> hit.value in walk && Exposed(w, owner, at, hit.value)
  {
    if walk == [] then None
    else if Exposed(w, owner, at, walk[0]) then Some(walk[0])
    else FirstHit(w, owner, at, walk[1..])
  }

  function DamageOf(config: Config, source: WeaponType): int {
    match FindWeapon(config.weapons, source)
    case None => 0
    case Some(definition) => definition.damage
  }

  function Struck(config: Config, time: Time, p: Player, damage: int): Player {
    var health := Max(0, p.health - damage);
    if health <= 0 then p.(health := health, defeated := true, respawnAt := time + config.respawnDelay)
    else p.(health := health)
  }

  function HitEvents(projectile: EntityId, owner: EntityId, target: EntityId, time: Time, damage: int, after: Player): seq<DomainEvent> {
    [HitConfirmed(owner, target, projectile, time), PlayerDamaged(target, owner, damage, after.health)]
    + (if after.health <= 0 then [PlayerDied(target, owner, after.respawnAt)] else [])
  }

  function Hurt(config: Config, time: Time, source: Projectile, e: Entity): Entity {
    if e.player.None? then e
    else e.(player := Some(Struck(config, time, e.player.value, DamageOf(config, source.source))))
  }

  function HurtEvents(config: Config, time: Time, projectile: EntityId, source: Projectile, target: EntityId, e: Entity): seq<DomainEvent> {
    if e.player.None? then []
    else
      var damage := DamageOf(config, source.source);
      HitEvents(projectile, source.owner, target, time, damage, Struck(config, time, e.player.value, damage))
  }

  function Strike(config: Config, w: World, projectile: EntityId, source: Projectile, target: EntityId): World
    requires target in w.entities
  {
    var e := w.entities[target];
    w.Change(target, Hurt(config, w.time, source, e), HurtEvents(config, w.time, projectile, source, target, e))
     .(doomed := w.doomed + [projectile])
  }

  predicate OffMap(config: Config, b: Body) {
    var m := config.rules.map_;
    b.x < 0 || b.y < 0 || b.x >= m.Width() || b.y >= m.Height()
  }

  function Players(w: World): set<EntityId> {
    set id | id in w.entities && w.entities[id].player.Some?
  }

  function Projectiles(w: World): set<EntityId> {
    set id | id in w.entities && w.entities[id].projectile.Some?
  }

  function Armed(w: World): set<EntityId> {
    set id | id in w.entities && w.entities[id].aim.Some? && w.entities[id].weapon.Some?
  }

  /** Move one projectile; it is marked for destruction when it expires, leaves the map
      or hits the first exposed player on the walk. */
  function Fly(config: Config, order: Order, w: World, id: EntityId): World {
    if id !in w.entities || w.entities[id].projectile.None? then w
    else
      var e := w.entities[id];
      var body := Drifted(config.rules.tickMs, e.body);
      var flown := w.Change(id, e.(body := body), []);
      if w.time >= e.projectile.value.expiresAt || OffMap(config, body)
      then flown.(doomed := flown.doomed + [id])
      else
        match FirstHit(flown, e.projectile.value.owner, body, order(w.tick, 4 + id, Players(flown)))
        case None => flown
        case Some(target) => Strike(config, flown, id, e.projectile.value, target)
  }

  /** Destroy the oldest entity marked for destruction. */
  function Destroy(w: World): World {
    if w.doomed == [] then w
    else w.(entities := w.entities - {w.doomed[0]}, doomed := w.doomed[1..])
  }

  function Revived(config: Config, e: Entity): Entity
    requires e.player.Some?
  {
    var p := e.player.value;
    var at := Spawn(config, p.client);
    e.(player := Some(p.(health := p.maxHealth, defeated := false, respawnAt := 0)),
       body := Body(at.0, at.1, 0, 0),
       weapon := if e.weapon.None? then None
                 else Some(e.weapon.value.(warming := false, startedAt := 0, completesAt := 0)))
  }

  function Respawn(config: Config, w: World, id: EntityId): World {
    if id !in w.entities || !w.entities[id].Defeated() || w.time < w.entities[id].player.value.respawnAt then w
    else
      var e := Revived(config, w.entities[id]);
      w.Change(id, e, [PlayerRespawned(id, e.body.x, e.body.y)])
  }

  // --- the tick ---

  datatype Op =
    | DoInput(input: Input)
    | DoClearPending
    | DoIntegrate(id: EntityId)
    | DoClearIntents
    | DoWarm(id: EntityId)
    | DoLaunch
    | DoFly(id: EntityId)
    | DoDestroy
    | DoRespawn(id: EntityId)

  function Do(config: Config, order: Order, w: World, op: Op): World {
    match op
    case DoInput(input) => ApplyInput(config, w, input)
    case DoClearPending => w.(pending := [])
    case DoIntegrate(id) => Integrate(config, w, id)
    case DoClearIntents => ClearIntents(w)
    case DoWarm(id) => Warm(config, w, id)
    case DoLaunch => Launch(w)
    case DoFly(id) => Fly(config, order, w, id)
    case DoDestroy => Destroy(w)
    case DoRespawn(id) => Respawn(config, w, id)
  }

  /** The world after the first n operations of a list. */
  function Exec(config: Config, order: Order, w: World, ops: seq<Op>, n: nat): World
    requires n <= |ops|
  {
    if n == 0 then w else Do(config, order, Exec(config, order, w, ops, n - 1), ops[n - 1])
  }

  function Pass(config: Config, order: Order, w: World, ops: seq<Op>): World {
    Exec(config, order, w, ops, |ops|)
  }

  function InputOps(w: World): seq<Op> {
    seq(|w.pending|, k requires 0 <= k < |w.pending| => DoInput(w.pending[k])) + [DoClearPending]
  }

  function MoveOps(order: Order, w: World): seq<Op> {
    var walk := order(w.tick, 0, Players(w));
    seq(|walk|, k requires 0 <= k < |walk| => DoIntegrate(walk[k])) + [DoClearIntents]
  }

  function WarmOps(order: Order, w: World): seq<Op> {
    var walk := order(w.tick, 1, Armed(w));
    seq(|walk|, k requires 0 <= k < |walk| => DoWarm(walk[k]))
  }

  function LaunchOps(w: World): seq<Op> {
    seq(|w.requests|, k => DoLaunch)
  }

  function FlyOps(order: Order, w: World): seq<Op> {
    var walk := order(w.tick, 2, Projectiles(w));
    seq(|walk|, k requires 0 <= k < |walk| => DoFly(walk[k]))
  }

  function DestroyOps(w: World): seq<Op> {
    seq(|w.doomed|, k => DoDestroy)
  }

  function RespawnOps(order: Order, w: World): seq<Op> {
    var walk := order(w.tick, 3, Players(w));
    seq(|walk|, k requires 0 <= k < |walk| => DoRespawn(walk[k]))
  }

  function ProcessInputs(config: Config, order: Order, w: World): World {
    var applied := Pass(config, order, w, InputOps(w));
    Pass(config, order, applied, MoveOps(order, applied))
  }

  function ProcessWeaponWarmups(config: Config, order: Order, w: World): World {
    var warmed := Pass(config, order, w, WarmOps(order, w));
    Pass(config, order, warmed, LaunchOps(warmed))
  }

  function ProcessProjectiles(config: Config, order: Order, w: World): World {
    var flown := Pass(config, order, w, FlyOps(order, w));
    Pass(config, order, flown, DestroyOps(flown))
  }

  function ProcessRespawns(config: Config, order: Order, w: World): World {
    Pass(config, order, w, RespawnOps(order, w))
  }

  function Advance(config: Config, w: World): World {
    w.(tick := w.tick + 1, time := w.time + config.rules.tickMs)
  }

  function TickFixed(config: Config, order: Order, w: World): World {
    var moved := ProcessInputs(config, order, Advance(config, w));
    var fired := ProcessWeaponWarmups(config, order, moved);
    var flown := ProcessProjectiles(config, order, fired);
    ProcessRespawns(config, order, flown)
  }
}
