/** The event stream as a journal: folding every event a server simulation has queued
    gives each player's position, health, defeat, respawn time and warm-up. */
module Journal {
  import opened Basics
  import opened Replication
  import opened Events
  import opened Motion
  import opened Simulation
  import opened Structure
  import opened LifeCycle

  datatype View = View(x: int, y: int, health: int, defeated: bool, respawnAt: Time, warming: bool)

  type Views = map<EntityId, View>

  /** What a player looks like from outside: warming counts only while not defeated. */
  function ViewOf(e: Entity): View
    requires e.player.Some?
  {
    var p := e.player.value;
    View(e.body.x, e.body.y, p.health, p.defeated, p.respawnAt, e.Warming() && !p.defeated)
  }

  function PlayerViews(w: World): Views {
    map id | id in Players(w) :: ViewOf(w.entities[id])
  }

  // --- folding ---

  /** The player an event is about, if it changes one. */
  function Subject(event: DomainEvent): Option<EntityId> {
    match event
    case PlayerMoved(id, _, _, _, _) => Some(id)
    case WarmupStarted(id, _, _, _) => Some(id)
    case BowFired(id, _, _) => Some(id)
    case PlayerDamaged(id, _, _, _) => Some(id)
    case PlayerDied(id, _, _) => Some(id)
    case PlayerRespawned(id, _, _) => Some(id)
    case _ => None
  }

  function Effect(maxHealth: int, v: View, event: DomainEvent): View {
    match event
    case PlayerMoved(_, _, _, x, y) => v.(x := x, y := y)
    case WarmupStarted(_, _, _, _) => v.(warming := true)
    case BowFired(_, _, _) => v.(warming := false)
    case PlayerDamaged(_, _, _, health) => v.(health := health)
    case PlayerDied(_, _, respawnAt) => v.(defeated := true, respawnAt := respawnAt, warming := false)
    case PlayerRespawned(_, x, y) => View(x, y, maxHealth, false, 0, false)
    case _ => v
  }

  function Record(maxHealth: int, views: Views, event: DomainEvent): Views {
    match event
    case PlayerSpawned(id, _, x, y) => views[id := View(x, y, maxHealth, false, 0, false)]
    case _ =>
      match Subject(event)
      case None => views
      case Some(id) => if id in views then views[id := Effect(maxHealth, views[id], event)] else views
  }

  function Fold(maxHealth: int, views: Views, events: seq<DomainEvent>): Views {
    if events == [] then views
    else Record(maxHealth, Fold(maxHealth, views, events[..|events| - 1]), events[|events| - 1])
  }

  function Effects(maxHealth: int, v: View, events: seq<DomainEvent>): View {
    if events == [] then v
    else Effect(maxHealth, Effects(maxHealth, v, events[..|events| - 1]), events[|events| - 1])
  }

  lemma {:induction false} FoldAppend(maxHealth: int, views: Views, a: seq<DomainEvent>, b: seq<DomainEvent>)
    ensures Fold(maxHealth, views, a + b) == Fold(maxHealth, Fold(maxHealth, views, a), b)
  {
    if b == [] {
      assert a + b == a;
    } else {
      FoldAppend(maxHealth, views, a, b[..|b| - 1]);
      assert (a + b)[..|a + b| - 1] == a + b[..|b| - 1];
      hide Record;
    }
  }

  // --- where the moves start ---

  /** A move in the journal starts where the events before it left the player. */
  ghost predicate MoveStartsRight(maxHealth: int, journal: seq<DomainEvent>, i: nat)
    requires i < |journal|
  {
    journal[i].PlayerMoved? ==>
      var before := Fold(maxHealth, map[], journal[..i]);
      var move := journal[i];
      move.entityId in before
      && before[move.entityId].x == move.fromX && before[move.entityId].y == move.fromY
  }

  ghost predicate MovesChain(maxHealth: int, journal: seq<DomainEvent>) {
    forall i: nat :: i < |journal| ==> MoveStartsRight(maxHealth, journal, i)
  }

  // --- deaths and respawns ---

  function NetDeath(event: DomainEvent): int {
    if event.PlayerDied? then 1 else if event.PlayerRespawned? then -1 else 0
  }

  function NetDeaths(events: seq<DomainEvent>): int {
    if events == [] then 0 else NetDeaths(events[..|events| - 1]) + NetDeath(events[|events| - 1])
  }

  lemma {:induction false} NetDeathsAppend(a: seq<DomainEvent>, b: seq<DomainEvent>)
    ensures NetDeaths(a + b) == NetDeaths(a) + NetDeaths(b)
  {
    if b == [] {
      assert a + b == a;
    } else {
      NetDeathsAppend(a, b[..|b| - 1]);
      assert (a + b)[..|a + b| - 1] == a + b[..|b| - 1];
    }
  }

  function DefeatedIds(w: World): set<EntityId> {
    set id | id in w.entities && w.entities[id].Defeated()
  }

  // --- the invariant ---

  ghost predicate Tells(config: Config, past: seq<DomainEvent>, w: World) {
    && Fold(config.maxHealth, map[], past + w.events) == PlayerViews(w)
    && MovesChain(config.maxHealth, past + w.events)
    && NetDeaths(past + w.events) == |DefeatedIds(w)|
  }

  /** The events tell how one player changed from a to b. */
  ghost predicate Told(maxHealth: int, id: EntityId, a: Entity, b: Entity, news: seq<DomainEvent>) {
    && a.player.Some? && b.player.Some?
    && (forall k :: 0 <= k < |news| ==> !news[k].PlayerSpawned?)
    && (forall k :: 0 <= k < |news| ==> Subject(news[k]).None? || Subject(news[k]) == Some(id))
    && (forall k :: 0 <= k < |news| && news[k].PlayerMoved? ==>
          k == 0 && news[k].fromX == a.body.x && news[k].fromY == a.body.y)
    && Effects(maxHealth, ViewOf(a), news) == ViewOf(b)
    && NetDeaths(news) == (if b.Defeated() then 1 else 0) - (if a.Defeated() then 1 else 0)
  }

  // --- one entity ---

  lemma TakesOne(maxHealth: int, v: View, e: DomainEvent)
    ensures Effects(maxHealth, v, [e]) == Effect(maxHealth, v, e)
    ensures NetDeaths([e]) == NetDeath(e)
  {
    assert [e][..0] == [];
    assert Effects(maxHealth, v, []) == v;
    assert NetDeaths([]) == 0;
  }

  lemma RespondingTold(config: Config, time: Time, id: EntityId, e: Entity, frame: InputFrame)
    requires e.player.Some? && !e.Defeated()
    ensures Told(config.maxHealth, id, e, Responding(config, time, e, frame), WarmupEvents(config, time, id, e, frame))
  {
    var news := WarmupEvents(config, time, id, e, frame);
    if news != [] {
      TakesOne(config.maxHealth, ViewOf(e), news[0]);
    }
    hide FindWeapon;
  }

  lemma SteppedTold(config: Config, id: EntityId, e: Entity)
    requires e.player.Some?
    ensures var next := Stepped(config.rules, e);
            Told(config.maxHealth, id, e, next, MoveEvents(id, e, next.body))
  {
    hide Moved;
    var next := Stepped(config.rules, e);
    var news := MoveEvents(id, e, next.body);
    if news != [] {
      TakesOne(config.maxHealth, ViewOf(e), news[0]);
    }
  }

  lemma CooledTold(config: Config, time: Time, id: EntityId, e: Entity)
    requires config.mode == ServerAuthoritative && e.player.Some? && Lives(config, time, e)
    ensures Told(config.maxHealth, id, e, Cooled(e, time), FireEvents(config, id, e, time))
  {
    var news := FireEvents(config, id, e, time);
    if news != [] {
      TakesOne(config.maxHealth, ViewOf(e), news[0]);
    }
    hide FindWeapon, InMap, SpeedOk;
  }

  lemma HurtTold(config: Config, time: Time, projectile: EntityId, source: Projectile, target: EntityId, e: Entity)
    requires e.player.Some? && !e.Defeated()
    ensures Told(config.maxHealth, target, e, Hurt(config, time, source, e), HurtEvents(config, time, projectile, source, target, e))
  {
    hide DamageOf;
    var news := HurtEvents(config, time, projectile, source, target, e);
    var v := ViewOf(e);
    var hit := [news[0]];
    TakesOne(config.maxHealth, v, news[0]);
    assert news[..2][..1] == hit;
    var damaged := Effects(config.maxHealth, v, news[..2]);
    assert damaged == Effect(config.maxHealth, v, news[1]);
    assert NetDeaths(news[..2]) == 0;
    if |news| == 3 {
      assert news[..3] == news;
    } else {
      assert news[..2] == news;
    }
  }

  lemma RevivedTold(config: Config, time: Time, id: EntityId, e: Entity)
    requires e.player.Some? && e.Defeated() && Lives(config, time, e)
    ensures var next := Revived(config, e);
            Told(config.maxHealth, id, e, next, [PlayerRespawned(id, next.body.x, next.body.y)])
  {
    hide Spawn, InMap, SpeedOk, FindWeapon;
    var next := Revived(config, e);
    TakesOne(config.maxHealth, ViewOf(e), PlayerRespawned(id, next.body.x, next.body.y));
  }

  // --- the world ---

  /** Events about one known player change exactly its view. */
  lemma {:induction false} FoldOnOne(maxHealth: int, views: Views, id: EntityId, news: seq<DomainEvent>)
    requires id in views
    requires forall k :: 0 <= k < |news| ==> !news[k].PlayerSpawned?
    requires forall k :: 0 <= k < |news| ==> Subject(news[k]).None? || Subject(news[k]) == Some(id)
    ensures Fold(maxHealth, views, news) == views[id := Effects(maxHealth, views[id], news)]
  {
    if news != [] {
      FoldOnOne(maxHealth, views, id, news[..|news| - 1]);
      EffectOfNone(maxHealth, Effects(maxHealth, views[id], news[..|news| - 1]), news[|news| - 1]);
      hide Effect, Subject;
    }
  }

  lemma EffectOfNone(maxHealth: int, v: View, event: DomainEvent)
    ensures Subject(event).None? ==> Effect(maxHealth, v, event) == v
  {
  }

  lemma {:induction false} MovesAppend(maxHealth: int, journal: seq<DomainEvent>, news: seq<DomainEvent>)
    requires MovesChain(maxHealth, journal)
    requires forall i: nat :: |journal| <= i < |journal + news| ==> MoveStartsRight(maxHealth, journal + news, i)
    ensures MovesChain(maxHealth, journal + news)
  {
    hide Fold;
    forall i: nat | i < |journal + news|
      ensures MoveStartsRight(maxHealth, journal + news, i)
    {
      if i < |journal| {
        assert (journal + news)[..i] == journal[..i];
        assert MoveStartsRight(maxHealth, journal, i);
      }
    }
  }

  lemma ToldMovesStartRight(config: Config, journal: seq<DomainEvent>, id: EntityId, a: Entity, b: Entity, news: seq<DomainEvent>, k: nat)
    requires Told(config.maxHealth, id, a, b, news) && k < |news|
    requires var views := Fold(config.maxHealth, map[], journal);
             id in views && views[id] == ViewOf(a)
    ensures MoveStartsRight(config.maxHealth, journal + news, |journal| + k)
  {
    hide Fold, Effects, NetDeaths;
    if news[k].PlayerMoved? {
      assert (journal + news)[..|journal|] == journal;
      assert (journal + news)[|journal|] == news[0];
    }
  }

  lemma ChangedDefeated(w: World, id: EntityId, e: Entity, news: seq<DomainEvent>)
    requires id in w.entities
    ensures |DefeatedIds(w.Change(id, e, news))|
         == |DefeatedIds(w)| + (if e.Defeated() then 1 else 0) - (if w.entities[id].Defeated() then 1 else 0)
  {
    var rest := DefeatedIds(w) - {id};
    assert DefeatedIds(w) == if w.entities[id].Defeated() then rest + {id} else rest;
    assert DefeatedIds(w.Change(id, e, news)) == if e.Defeated() then rest + {id} else rest;
  }

  lemma ChangedViews(w: World, id: EntityId, e: Entity, news: seq<DomainEvent>)
    requires e.player.Some?
    ensures PlayerViews(w.Change(id, e, news)) == PlayerViews(w)[id := ViewOf(e)]
  {
  }

  lemma PlayerHasView(w: World, id: EntityId)
    requires IsPlayer(w, id)
    ensures id in PlayerViews(w) && PlayerViews(w)[id] == ViewOf(w.entities[id])
  {
  }

  lemma ChangeTells(config: Config, past: seq<DomainEvent>, w: World, id: EntityId, e: Entity, news: seq<DomainEvent>)
    requires Tells(config, past, w) && IsPlayer(w, id) && Told(config.maxHealth, id, w.entities[id], e, news)
    ensures Tells(config, past, w.Change(id, e, news))
  {
    var next := w.Change(id, e, news);
    var journal := past + w.events;
    assert past + next.events == journal + news;
    PlayerHasView(w, id);
    FoldAppend(config.maxHealth, map[], journal, news);
    FoldOnOne(config.maxHealth, PlayerViews(w), id, news);
    ChangedViews(w, id, e, news);
    NetDeathsAppend(journal, news);
    ChangedDefeated(w, id, e, news);
    hide Fold, Effects, NetDeaths, PlayerViews, DefeatedIds, ViewOf, MovesChain;
    forall i: nat | |journal| <= i < |journal + news|
      ensures MoveStartsRight(config.maxHealth, journal + news, i)
    {
      ToldMovesStartRight(config, journal, id, w.entities[id], e, news, i - |journal|);
    }
    MovesAppend(config.maxHealth, journal, news);
  }

  /** A step that changes no player's view and says nothing about players. */
  lemma QuietStepTells(config: Config, past: seq<DomainEvent>, w: World, next: World, news: seq<DomainEvent>)
    requires Tells(config, past, w) && next.events == w.events + news
    requires forall k :: 0 <= k < |news| ==> !news[k].PlayerSpawned? && Subject(news[k]).None?
    requires PlayerViews(next) == PlayerViews(w) && DefeatedIds(next) == DefeatedIds(w)
    ensures Tells(config, past, next)
  {
    var journal := past + w.events;
    assert past + next.events == journal + news;
    FoldAppend(config.maxHealth, map[], journal, news);
    QuietFold(config.maxHealth, PlayerViews(w), news);
    NetDeathsAppend(journal, news);
    hide Fold, NetDeaths, PlayerViews, DefeatedIds;
    forall i: nat | |journal| <= i < |journal + news|
      ensures MoveStartsRight(config.maxHealth, journal + news, i)
    {
      assert (journal + news)[i] == news[i - |journal|];
    }
    MovesAppend(config.maxHealth, journal, news);
  }

  lemma {:induction false} QuietFold(maxHealth: int, views: Views, news: seq<DomainEvent>)
    requires forall k :: 0 <= k < |news| ==> !news[k].PlayerSpawned? && Subject(news[k]).None?
    ensures Fold(maxHealth, views, news) == views && NetDeaths(news) == 0
  {
    if news != [] {
      QuietFold(maxHealth, views, news[..|news| - 1]);
      assert Subject(news[|news| - 1]).None?;
    }
  }

  lemma SameWorldTells(config: Config, past: seq<DomainEvent>, w: World, next: World)
    requires Tells(config, past, w) && next.entities == w.entities && next.events == w.events
    ensures Tells(config, past, next)
  {
    assert PlayerViews(next) == PlayerViews(w);
    assert DefeatedIds(next) == DefeatedIds(w);
    hide Fold, MovesChain, NetDeaths, PlayerViews, DefeatedIds;
  }

  // --- the operations ---

  lemma InputTells(config: Config, past: seq<DomainEvent>, w: World, input: Input)
    requires Shaped(config, w) && Tells(config, past, w)
    ensures Tells(config, past, ApplyInput(config, w, input))
  {
    if input.client in w.playerByClient {
      var id := w.playerByClient[input.client];
      assert IsPlayer(w, id);
      var e := w.entities[id];
      hide Tells, Shaped, Responding, WarmupEvents, Told;
      if !e.Defeated() {
        RespondingTold(config, w.time, id, e, input.frame);
        ChangeTells(config, past, w, id, Responding(config, w.time, e, input.frame), WarmupEvents(config, w.time, id, e, input.frame));
      }
    }
  }

  lemma NonPlayerChangeIsQuiet(w: World, id: EntityId, e: Entity, news: seq<DomainEvent>)
    requires (id in w.entities ==> w.entities[id].player.None?) && e.player.None?
    ensures PlayerViews(w.Change(id, e, news)) == PlayerViews(w)
    ensures DefeatedIds(w.Change(id, e, news)) == DefeatedIds(w)
  {
  }

  lemma NonPlayerChangeTells(config: Config, past: seq<DomainEvent>, w: World, id: EntityId, e: Entity, news: seq<DomainEvent>)
    requires Tells(config, past, w)
    requires (id in w.entities ==> w.entities[id].player.None?) && e.player.None?
    requires forall k :: 0 <= k < |news| ==> !news[k].PlayerSpawned? && Subject(news[k]).None?
    ensures Tells(config, past, w.Change(id, e, news))
  {
    NonPlayerChangeIsQuiet(w, id, e, news);
    hide Tells, PlayerViews, DefeatedIds;
    QuietStepTells(config, past, w, w.Change(id, e, news), news);
  }

  lemma IntegrateTells(config: Config, past: seq<DomainEvent>, w: World, id: EntityId)
    requires Tells(config, past, w)
    ensures Tells(config, past, Integrate(config, w, id))
  {
    if id in w.entities {
      var e := w.entities[id];
      var next := Stepped(config.rules, e);
      if e.player.Some? {
        SteppedTold(config, id, e);
        assert IsPlayer(w, id);
        hide Tells, Stepped, MoveEvents, Told;
        ChangeTells(config, past, w, id, next, MoveEvents(id, e, next.body));
      } else {
        assert next.player.None?;
        hide Tells, Stepped;
        NonPlayerChangeTells(config, past, w, id, next, []);
      }
    }
  }

  lemma ClearIntentsTells(config: Config, past: seq<DomainEvent>, w: World)
    requires Tells(config, past, w)
    ensures Tells(config, past, ClearIntents(w))
  {
    var next := ClearIntents(w);
    assert PlayerViews(next) == PlayerViews(w);
    assert DefeatedIds(next) == DefeatedIds(w);
    assert next.events == w.events + [];
    hide Tells, PlayerViews, DefeatedIds, ClearIntents;
    QuietStepTells(config, past, w, next, []);
  }

  lemma WarmTells(config: Config, past: seq<DomainEvent>, w: World, id: EntityId)
    requires Sane(config) && Shaped(config, w) && AllLive(config, w) && Tells(config, past, w)
    ensures Tells(config, past, Warm(config, w, id))
  {
    if id in w.entities && w.entities[id].weapon.Some? && w.entities[id].aim.Some? {
      var e := w.entities[id];
      EntityOkUnfold(config, w, id);
      assert IsPlayer(w, id) && Lives(config, w.time, e);
      CooledTold(config, w.time, id, e);
      hide Tells, Shaped, EntityOk, AllLive, Lives, Cooled, FireEvents, FireRequests, Told;
      var changed := w.Change(id, Cooled(e, w.time), FireEvents(config, id, e, w.time));
      ChangeTells(config, past, w, id, Cooled(e, w.time), FireEvents(config, id, e, w.time));
      SameWorldTells(config, past, changed, Warm(config, w, id));
    }
  }

  lemma LaunchTells(config: Config, past: seq<DomainEvent>, w: World)
    requires Shaped(config, w) && Tells(config, past, w)
    ensures Tells(config, past, Launch(w))
  {
    if w.requests != [] {
      NewIdIsFree(config, w);
      var r := w.requests[0];
      var news := [ProjectileSpawned(w.nextId, r.owner, r.x, r.y, r.weapon.weaponType)];
      assert Arrow(w.time, r).player.None?;
      hide Tells, Shaped, Arrow;
      var changed := w.Change(w.nextId, Arrow(w.time, r), news);
      NonPlayerChangeTells(config, past, w, w.nextId, Arrow(w.time, r), news);
      SameWorldTells(config, past, changed, Launch(w));
    }
  }

  lemma StrikeTells(config: Config, past: seq<DomainEvent>, w: World, projectile: EntityId, source: Projectile, target: EntityId)
    requires Tells(config, past, w) && IsPlayer(w, target) && !w.entities[target].Defeated()
    ensures Tells(config, past, Strike(config, w, projectile, source, target))
  {
    var e := w.entities[target];
    var news := HurtEvents(config, w.time, projectile, source, target, e);
    HurtTold(config, w.time, projectile, source, target, e);
    hide Tells, Hurt, HurtEvents, Told;
    ChangeTells(config, past, w, target, Hurt(config, w.time, source, e), news);
    SameWorldTells(config, past, w.Change(target, Hurt(config, w.time, source, e), news), Strike(config, w, projectile, source, target));
  }

  lemma FlyTells(config: Config, order: Order, past: seq<DomainEvent>, w: World, id: EntityId)
    requires Shaped(config, w) && Tells(config, past, w)
    ensures Tells(config, past, Fly(config, order, w, id))
  {
    if id in w.entities && w.entities[id].projectile.Some? {
      EntityOkUnfold(config, w, id);
      var e := w.entities[id];
      var body := Drifted(config.rules.tickMs, e.body);
      var flown := w.Change(id, e.(body := body), []);
      hide Shaped, EntityOk, Tells, CloseEnough, Drifted, Strike, FirstHit;
      NonPlayerChangeTells(config, past, w, id, e.(body := body), []);
      SameWorldTells(config, past, flown, flown.(doomed := flown.doomed + [id]));
      var hit := FirstHit(flown, e.projectile.value.owner, body, order(w.tick, 4 + id, Players(flown)));
      if hit.Some? {
        StrikeTells(config, past, flown, id, e.projectile.value, hit.value);
      }
    }
  }

  lemma RemovalIsQuiet(w: World, gone: EntityId, next: World)
    requires !IsPlayer(w, gone) && next.entities == w.entities - {gone}
    ensures PlayerViews(next) == PlayerViews(w) && DefeatedIds(next) == DefeatedIds(w)
  {
    forall id
      ensures id in DefeatedIds(next) <==> id in DefeatedIds(w)
      ensures id in Players(next) <==> id in Players(w)
    {
    }
    assert Players(next) == Players(w);
  }

  lemma DestroyIsQuiet(config: Config, w: World)
    requires Shaped(config, w) && w.doomed != []
    ensures PlayerViews(Destroy(w)) == PlayerViews(w) && DefeatedIds(Destroy(w)) == DefeatedIds(w)
  {
    assert !IsPlayer(w, w.doomed[0]);
    hide Shaped, IsPlayer, PlayerViews, DefeatedIds;
    RemovalIsQuiet(w, w.doomed[0], Destroy(w));
  }

  lemma DestroyTells(config: Config, past: seq<DomainEvent>, w: World)
    requires Shaped(config, w) && Tells(config, past, w)
    ensures Tells(config, past, Destroy(w))
  {
    if w.doomed != [] {
      var next := Destroy(w);
      DestroyIsQuiet(config, w);
      hide Tells, PlayerViews, DefeatedIds, Shaped;
      assert next.events == w.events + [];
      QuietStepTells(config, past, w, next, []);
    }
  }

  lemma RespawnTells(config: Config, past: seq<DomainEvent>, w: World, id: EntityId)
    requires AllLive(config, w) && Tells(config, past, w)
    ensures Tells(config, past, Respawn(config, w, id))
  {
    if id in w.entities && w.entities[id].Defeated() && w.time >= w.entities[id].player.value.respawnAt {
      var e := Revived(config, w.entities[id]);
      assert IsPlayer(w, id) && Lives(config, w.time, w.entities[id]);
      RevivedTold(config, w.time, id, w.entities[id]);
      hide Tells, AllLive, Lives, Revived, Told;
      ChangeTells(config, past, w, id, e, [PlayerRespawned(id, e.body.x, e.body.y)]);
    }
  }

  lemma DoTells(config: Config, order: Order, past: seq<DomainEvent>, w: World, op: Op)
    requires Sane(config) && Shaped(config, w) && AllLive(config, w) && Tells(config, past, w)
    ensures Tells(config, past, Do(config, order, w, op))
  {
    hide AllLive, Shaped, Sane, Tells;
    match op {
      case DoInput(input) => InputTells(config, past, w, input);
      case DoClearPending => SameWorldTells(config, past, w, w.(pending := []));
      case DoIntegrate(id) => IntegrateTells(config, past, w, id);
      case DoClearIntents => ClearIntentsTells(config, past, w);
      case DoWarm(id) => WarmTells(config, past, w, id);
      case DoLaunch => LaunchTells(config, past, w);
      case DoFly(id) => FlyTells(config, order, past, w, id);
      case DoDestroy => DestroyTells(config, past, w);
      case DoRespawn(id) => RespawnTells(config, past, w, id);
    }
  }

  lemma {:induction false} ExecTells(config: Config, order: Order, past: seq<DomainEvent>, w: World, ops: seq<Op>, n: nat)
    requires Sane(config) && Shaped(config, w) && AllLive(config, w) && Tells(config, past, w) && n <= |ops|
    ensures Tells(config, past, Exec(config, order, w, ops, n))
  {
    hide *;
    ExecUnfold(config, order, w, ops, n);
    if n > 0 {
      ExecTells(config, order, past, w, ops, n - 1);
      ExecKeepsLives(config, order, w, ops, n - 1);
      ExecKeepsShape(config, order, w, ops, n - 1);
      DoTells(config, order, past, Exec(config, order, w, ops, n - 1), ops[n - 1]);
    }
  }

  /** A player who has just been created. */
  lemma CreationTells(config: Config, past: seq<DomainEvent>, w: World, client: ClientId)
    requires Tells(config, past, w) && w.nextId !in w.entities
    ensures var at := Spawn(config, client);
            Tells(config, past, w.Change(w.nextId, NewPlayer(config, client), [PlayerSpawned(w.nextId, client, at.0, at.1)]))
  {
    var at := Spawn(config, client);
    var e := PlayerSpawned(w.nextId, client, at.0, at.1);
    var next := w.Change(w.nextId, NewPlayer(config, client), [e]);
    var journal := past + w.events;
    assert past + next.events == journal + [e];
    FoldAppend(config.maxHealth, map[], journal, [e]);
    assert [e][..0] == [];
    assert Fold(config.maxHealth, PlayerViews(w), []) == PlayerViews(w);
    assert Fold(config.maxHealth, PlayerViews(w), [e]) == Record(config.maxHealth, PlayerViews(w), e);
    NetDeathsAppend(journal, [e]);
    TakesOne(config.maxHealth, View(0, 0, 0, false, 0, false), e);
    ChangedViews(w, w.nextId, NewPlayer(config, client), [e]);
    assert ViewOf(NewPlayer(config, client)) == View(at.0, at.1, config.maxHealth, false, 0, false);
    CreatedDefeated(w, NewPlayer(config, client), [e]);
    hide Fold, Effects, NetDeaths, PlayerViews, DefeatedIds, Spawn, ViewOf, NewPlayer;
    forall i: nat | |journal| <= i < |journal + [e]|
      ensures MoveStartsRight(config.maxHealth, journal + [e], i)
    {
      assert (journal + [e])[i] == e;
    }
    MovesAppend(config.maxHealth, journal, [e]);
  }

  lemma CreatedDefeated(w: World, e: Entity, news: seq<DomainEvent>)
    requires w.nextId !in w.entities && !e.Defeated()
    ensures DefeatedIds(w.Change(w.nextId, e, news)) == DefeatedIds(w)
  {
  }

  lemma LoginTells(config: Config, past: seq<DomainEvent>, w: World, client: ClientId, sequence: Sequence)
    requires Shaped(config, w) && Tells(config, past, w)
    ensures Tells(config, past, Login(config, w, client, sequence))
  {
    if client !in w.playerByClient && |w.playerByClient| < config.maxPlayers {
      NewIdIsFree(config, w);
      CreationTells(config, past, w, client);
      hide Tells, Shaped, Spawn, NewPlayer;
      var at := Spawn(config, client);
      var created := w.Change(w.nextId, NewPlayer(config, client), [PlayerSpawned(w.nextId, client, at.0, at.1)]);
      SameWorldTells(config, past, created, Login(config, w, client, sequence));
    }
  }
}
