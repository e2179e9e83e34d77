/** How one server tick moves one player, whatever else happens in the world: by that
    player's own input alone. */
module Stance {
  import opened Basics
  import opened Events
  import opened Motion
  import opened Simulation
  import opened Structure
  import opened TickEnd

  datatype Stance = Stance(body: Body, aim: Option<Aim>, intent: Option<InputFrame>, defeated: bool)

  function StanceOf(e: Entity): Stance {
    Stance(e.body, e.aim, e.intent, e.Defeated())
  }

  /** The player is there and not defeated, with this stance. */
  ghost predicate Stands(w: World, id: EntityId, s: Stance) {
    IsPlayer(w, id) && !s.defeated && StanceOf(w.entities[id]) == s
  }

  ghost predicate DiesIn(events: seq<DomainEvent>, k: nat, id: EntityId)
    requires k < |events|
  {
    events[k].PlayerDied? && events[k].entityId == id
  }

  /** Nothing queued between the two worlds reports the death of this player. */
  ghost predicate Survives(w: World, next: World, id: EntityId) {
    && w.events <= next.events
    && (forall k: nat :: |w.events| <= k < |next.events| ==> !DiesIn(next.events, k, id))
  }

  /** Operations that have no business with this player's movement. */
  predicate Elsewhere(op: Op, client: ClientId, id: EntityId) {
    match op
    case DoInput(input) => input.client != client
    case DoIntegrate(q) => q != id
    case DoClearIntents => false
    case _ => true
  }

  // --- one operation ---

  lemma EventsGrow(config: Config, order: Order, w: World, op: Op)
    ensures w.events <= Do(config, order, w, op).events
  {
    hide Responding, WarmupEvents, Stepped, MoveEvents, Cooled, FireEvents, FireRequests, FirstHit, Hurt, HurtEvents, Drifted, OffMap, Revived, Arrow;
  }

  lemma ChangeElsewhere(w: World, id: EntityId, q: EntityId, e: Entity, news: seq<DomainEvent>, s: Stance)
    requires Stands(w, id, s) && q != id
    ensures Stands(w.Change(q, e, news), id, s)
  {
  }

  lemma ChangeKeepsStance(w: World, id: EntityId, e: Entity, news: seq<DomainEvent>, s: Stance)
    requires Stands(w, id, s) && e.player.Some? && StanceOf(e) == StanceOf(w.entities[id])
    ensures Stands(w.Change(id, e, news), id, s)
  {
  }

  lemma OtherInputStands(config: Config, w: World, input: Input, client: ClientId, id: EntityId, s: Stance)
    requires Shaped(config, w) && Stands(w, id, s) && client in w.playerByClient && w.playerByClient[client] == id
    requires input.client != client
    ensures Stands(ApplyInput(config, w, input), id, s)
  {
    if input.client in w.playerByClient {
      var q := w.playerByClient[input.client];
      assert IsPlayer(w, q) && w.entities[q].player.value.client == input.client;
      assert w.entities[id].player.value.client == client;
      hide Shaped, Stands, Responding, WarmupEvents;
      if !w.entities[q].Defeated() {
        ChangeElsewhere(w, id, q, Responding(config, w.time, w.entities[q], input.frame),
                        WarmupEvents(config, w.time, q, w.entities[q], input.frame), s);
      }
    }
  }

  lemma WarmStands(config: Config, w: World, q: EntityId, id: EntityId, s: Stance)
    requires Stands(w, id, s)
    ensures Stands(Warm(config, w, q), id, s)
  {
    if q in w.entities {
      var e := w.entities[q];
      var news := FireEvents(config, q, e, w.time);
      if q == id {
        assert StanceOf(Cooled(e, w.time)) == StanceOf(e) && Cooled(e, w.time).player == e.player;
      }
      hide Cooled, FireEvents, FireRequests;
      if q != id {
        ChangeElsewhere(w, id, q, Cooled(e, w.time), news, s);
      } else {
        ChangeKeepsStance(w, id, Cooled(e, w.time), news, s);
      }
    }
  }

  lemma HurtStands(config: Config, time: Time, projectile: EntityId, source: Projectile, id: EntityId, e: Entity)
    requires e.player.Some? && !e.Defeated()
    ensures var news := HurtEvents(config, time, projectile, source, id, e);
            (forall k: nat :: k < |news| ==> !DiesIn(news, k, id)) ==> StanceOf(Hurt(config, time, source, e)) == StanceOf(e)
  {
    hide DamageOf;
    var news := HurtEvents(config, time, projectile, source, id, e);
    if Hurt(config, time, source, e).Defeated() {
      assert DiesIn(news, 2, id);
    }
  }

  lemma StrikeStands(config: Config, w: World, projectile: EntityId, source: Projectile, target: EntityId, id: EntityId, s: Stance)
    requires Stands(w, id, s) && target in w.entities
    requires Survives(w, Strike(config, w, projectile, source, target), id)
    ensures Stands(Strike(config, w, projectile, source, target), id, s)
  {
    var e := w.entities[target];
    var news := HurtEvents(config, w.time, projectile, source, target, e);
    var next := Strike(config, w, projectile, source, target);
    if target == id {
      HurtStands(config, w.time, projectile, source, id, e);
      assert Hurt(config, w.time, source, e).player.Some?;
      hide Hurt, HurtEvents;
      forall k: nat | k < |news|
        ensures !DiesIn(news, k, id)
      {
        assert next.events[|w.events| + k] == news[k];
        assert !DiesIn(next.events, |w.events| + k, id);
      }
      ChangeKeepsStance(w, id, Hurt(config, w.time, source, e), news, s);
    } else {
      hide Hurt, HurtEvents;
      ChangeElsewhere(w, id, target, Hurt(config, w.time, source, e), news, s);
    }
  }

  lemma FlyStands(config: Config, order: Order, w: World, q: EntityId, id: EntityId, s: Stance)
    requires Shaped(config, w) && Stands(w, id, s)
    requires Survives(w, Fly(config, order, w, q), id)
    ensures Stands(Fly(config, order, w, q), id, s)
  {
    if q in w.entities && w.entities[q].projectile.Some? {
      EntityOkUnfold(config, w, q);
      assert q != id;
      var e := w.entities[q];
      var body := Drifted(config.rules.tickMs, e.body);
      var flown := w.Change(q, e.(body := body), []);
      ChangeElsewhere(w, id, q, e.(body := body), [], s);
      hide Shaped, EntityOk, Drifted, Strike, FirstHit, OffMap;
      assert flown.events == w.events;
      var hit := FirstHit(flown, e.projectile.value.owner, body, order(w.tick, 4 + q, Players(flown)));
      if w.time < e.projectile.value.expiresAt && !OffMap(config, body) && hit.Some? {
        StrikeStands(config, flown, q, e.projectile.value, hit.value, id, s);
      }
    }
  }

  lemma LaunchStands(config: Config, w: World, id: EntityId, s: Stance)
    requires Shaped(config, w) && Stands(w, id, s)
    ensures Stands(Launch(w), id, s)
  {
    NewIdIsFree(config, w);
    hide Shaped;
  }

  lemma DestroyStands(config: Config, w: World, id: EntityId, s: Stance)
    requires Shaped(config, w) && Stands(w, id, s)
    ensures Stands(Destroy(w), id, s)
  {
    if w.doomed != [] {
      assert !IsPlayer(w, w.doomed[0]);
      hide Shaped;
    }
  }

  lemma RespawnStands(config: Config, w: World, q: EntityId, id: EntityId, s: Stance)
    requires Stands(w, id, s)
    ensures Stands(Respawn(config, w, q), id, s)
  {
    hide Revived;
  }

  /** An operation elsewhere leaves a surviving player's stance alone. */
  lemma DoElsewhere(config: Config, order: Order, w: World, op: Op, client: ClientId, id: EntityId, s: Stance)
    requires Shaped(config, w) && Stands(w, id, s) && client in w.playerByClient && w.playerByClient[client] == id
    requires Elsewhere(op, client, id) && Survives(w, Do(config, order, w, op), id)
    ensures Stands(Do(config, order, w, op), id, s)
  {
    hide Shaped, Stands, Survives;
    match op {
      case DoInput(input) => OtherInputStands(config, w, input, client, id, s);
      case DoClearPending => SameEntitiesStand(w, w.(pending := []), id, s);
      case DoIntegrate(q) =>
        if q in w.entities {
          var next := Stepped(config.rules, w.entities[q]);
          ChangeElsewhere(w, id, q, next, MoveEvents(q, w.entities[q], next.body), s);
        }
      case DoWarm(q) => WarmStands(config, w, q, id, s);
      case DoLaunch => LaunchStands(config, w, id, s);
      case DoFly(q) => FlyStands(config, order, w, q, id, s);
      case DoDestroy => DestroyStands(config, w, id, s);
      case DoRespawn(q) => RespawnStands(config, w, q, id, s);
    }
  }

  lemma SameEntitiesStand(w: World, next: World, id: EntityId, s: Stance)
    requires Stands(w, id, s) && next.entities == w.entities
    ensures Stands(next, id, s)
  {
  }

  // --- many operations ---

  lemma DoKeepsIndex(config: Config, order: Order, w: World, op: Op)
    ensures Do(config, order, w, op).playerByClient == w.playerByClient
  {
    hide Responding, WarmupEvents, Stepped, MoveEvents, Cooled, FireEvents, FireRequests, FirstHit, Hurt, HurtEvents, Drifted, OffMap, Revived, Arrow;
  }

  lemma {:induction false} ExecGrows(config: Config, order: Order, w: World, ops: seq<Op>, n: nat)
    requires n <= |ops|
    ensures w.events <= Exec(config, order, w, ops, n).events
    ensures Exec(config, order, w, ops, n).playerByClient == w.playerByClient
  {
    if n > 0 {
      ExecGrows(config, order, w, ops, n - 1);
      EventsGrow(config, order, Exec(config, order, w, ops, n - 1), ops[n - 1]);
      DoKeepsIndex(config, order, Exec(config, order, w, ops, n - 1), ops[n - 1]);
      hide Do;
    }
  }

  lemma SurvivesWithin(a: World, b: World, c: World, d: World, id: EntityId)
    requires Survives(a, d, id) && a.events <= b.events <= c.events <= d.events
    ensures Survives(b, c, id)
  {
    forall k: nat | |b.events| <= k < |c.events|
      ensures !DiesIn(c.events, k, id)
    {
      assert c.events[k] == d.events[k];
      assert !DiesIn(d.events, k, id);
    }
  }

  lemma {:induction false} ExecElsewhere(config: Config, order: Order, w: World, ops: seq<Op>, n: nat, client: ClientId, id: EntityId, s: Stance)
    requires Shaped(config, w) && Stands(w, id, s) && client in w.playerByClient && w.playerByClient[client] == id
    requires n <= |ops| && (forall k :: 0 <= k < |ops| ==> Elsewhere(ops[k], client, id))
    requires Survives(w, Exec(config, order, w, ops, n), id)
    ensures Stands(Exec(config, order, w, ops, n), id, s)
  {
    hide *;
    ExecUnfold(config, order, w, ops, n);
    if n > 0 {
      var before := Exec(config, order, w, ops, n - 1);
      var after := Exec(config, order, w, ops, n);
      ExecGrows(config, order, w, ops, n - 1);
      EventsGrow(config, order, before, ops[n - 1]);
      SurvivesWithin(w, w, before, after, id);
      SurvivesWithin(w, before, after, after, id);
      ExecElsewhere(config, order, w, ops, n - 1, client, id, s);
      ExecKeepsShape(config, order, w, ops, n - 1);
      DoElsewhere(config, order, before, ops[n - 1], client, id, s);
    }
  }

  // --- the three operations that matter ---

  lemma OwnInputTurns(config: Config, w: World, input: Input, id: EntityId, s: Stance)
    requires Stands(w, id, s) && input.client in w.playerByClient && w.playerByClient[input.client] == id
    ensures Stands(ApplyInput(config, w, input), id, s.(aim := Some(Aimed(s.aim, input.frame)), intent := Some(input.frame)))
  {
    hide FindWeapon, Aimed;
  }

  lemma OwnStepMoves(config: Config, w: World, id: EntityId, s: Stance)
    requires Stands(w, id, s)
    ensures Stands(Integrate(config, w, id), id, s.(body := Moved(config.rules, s.body, s.intent)))
  {
    hide Moved;
  }

  lemma ClearingForgets(w: World, id: EntityId, s: Stance)
    requires Stands(w, id, s)
    ensures Stands(ClearIntents(w), id, s.(intent := None))
  {
  }

  // --- a tick's operations around one player ---

  function FilterBy(inputs: seq<Input>, client: ClientId): seq<Input> {
    if inputs == [] then []
    else FilterBy(inputs[..|inputs| - 1], client) + (if inputs[|inputs| - 1].client == client then [inputs[|inputs| - 1]] else [])
  }

  ghost predicate AllElsewhere(ops: seq<Op>, client: ClientId, id: EntityId) {
    forall k :: 0 <= k < |ops| ==> Elsewhere(ops[k], client, id)
  }

  ghost predicate NoneOf(inputs: seq<Input>, client: ClientId) {
    forall k :: 0 <= k < |inputs| ==> inputs[k].client != client
  }

  lemma {:induction false} FilterNone(inputs: seq<Input>, client: ClientId)
    requires FilterBy(inputs, client) == []
    ensures NoneOf(inputs, client)
  {
    if inputs != [] {
      FilterNone(inputs[..|inputs| - 1], client);
    }
  }

  /** A queue with exactly one input of a client. */
  lemma {:induction false} FilterOne(inputs: seq<Input>, client: ClientId, input: Input) returns (m: nat)
    requires FilterBy(inputs, client) == [input]
    ensures m < |inputs| && inputs[m] == input && input.client == client
    ensures NoneOf(inputs[..m], client) && NoneOf(inputs[m + 1..], client)
  {
    var last := inputs[|inputs| - 1];
    var front := inputs[..|inputs| - 1];
    if last.client == client {
      assert (FilterBy(front, client) + [last])[|FilterBy(front, client)|] == last;
      assert FilterBy(front, client) == [];
      FilterNone(front, client);
      m := |inputs| - 1;
    } else {
      m := FilterOne(front, client, input);
      assert inputs[..m] == front[..m];
      assert inputs[m + 1..] == front[m + 1..] + [last];
    }
  }

  lemma MoveOpsSplit(order: Order, w: World, client: ClientId, id: EntityId) returns (a: seq<Op>, b: seq<Op>)
    requires ValidOrder(order) && IsPlayer(w, id)
    ensures MoveOps(order, w) == a + [DoIntegrate(id)] + b + [DoClearIntents]
    ensures AllElsewhere(a, client, id) && AllElsewhere(b, client, id)
  {
    var walk := order(w.tick, 0, Players(w));
    assert Enumerates(walk, Players(w));
    assert id in walk;
    var m :| 0 <= m < |walk| && walk[m] == id;
    var ops := MoveOps(order, w);
    a := ops[..m];
    b := ops[m + 1..|walk|];
    assert ops == a + [DoIntegrate(id)] + b + [DoClearIntents];
  }

  // --- a whole tick ---

  function Tracked(rules: Rules, s: Stance, frame: InputFrame): Stance {
    Stance(Moved(rules, s.body, Some(frame)), Some(Aimed(s.aim, frame)), None, s.defeated)
  }

  lemma PassGrows(config: Config, order: Order, w: World, ops: seq<Op>)
    ensures w.events <= Pass(config, order, w, ops).events
    ensures Pass(config, order, w, ops).playerByClient == w.playerByClient
  {
    ExecGrows(config, order, w, ops, |ops|);
  }

  lemma PassElsewhere(config: Config, order: Order, w: World, ops: seq<Op>, client: ClientId, id: EntityId, s: Stance)
    requires Shaped(config, w) && Stands(w, id, s) && client in w.playerByClient && w.playerByClient[client] == id
    requires AllElsewhere(ops, client, id) && Survives(w, Pass(config, order, w, ops), id)
    ensures var next := Pass(config, order, w, ops);
            Shaped(config, next) && Stands(next, id, s) && next.playerByClient == w.playerByClient
  {
    hide Exec, Shaped, Stands, Survives;
    ExecElsewhere(config, order, w, ops, |ops|, client, id, s);
    PassKeepsShape(config, order, w, ops);
    PassGrows(config, order, w, ops);
  }

  lemma PassOne(config: Config, order: Order, w: World, op: Op)
    ensures Pass(config, order, w, [op]) == Do(config, order, w, op)
  {
    assert Exec(config, order, w, [op], 0) == w;
    hide Do;
  }

  /** Operations elsewhere, then one that turns stance s into t, then operations elsewhere. */
  lemma PassAround(config: Config, order: Order, w: World, a: seq<Op>, op: Op, b: seq<Op>, client: ClientId, id: EntityId, s: Stance, t: Stance)
    requires Shaped(config, w) && Stands(w, id, s) && client in w.playerByClient && w.playerByClient[client] == id
    requires AllElsewhere(a, client, id) && AllElsewhere(b, client, id)
    requires Survives(w, Pass(config, order, w, a + [op] + b), id)
    requires var mid := Pass(config, order, w, a); Stands(mid, id, s) && mid.playerByClient == w.playerByClient ==> Stands(Do(config, order, mid, op), id, t)
    ensures var next := Pass(config, order, w, a + [op] + b);
            Shaped(config, next) && Stands(next, id, t) && next.playerByClient == w.playerByClient
  {
    hide Exec, Pass, Shaped, Stands, Survives, AllElsewhere, Do;
    var next := Pass(config, order, w, a + [op] + b);
    var mid := Pass(config, order, w, a);
    var done := Do(config, order, mid, op);
    PassAppend(config, order, w, a + [op], b);
    PassAppend(config, order, w, a, [op]);
    PassOne(config, order, mid, op);
    PassGrows(config, order, w, a);
    EventsGrow(config, order, mid, op);
    DoKeepsIndex(config, order, mid, op);
    PassGrows(config, order, done, b);
    SurvivesWithin(w, w, mid, next, id);
    SurvivesWithin(w, done, next, next, id);
    PassElsewhere(config, order, w, a, client, id, s);
    DoKeepsShape(config, order, mid, op);
    PassElsewhere(config, order, done, b, client, id, t);
  }

  /** The stance after a player's own inputs of a tick: each one turns it, the last one is
      what it intends. */
  function Turned(s: Stance, inputs: seq<Input>): Stance {
    if inputs == [] then s
    else
      var front, frame := Turned(s, inputs[..|inputs| - 1]), inputs[|inputs| - 1].frame;
      front.(aim := Some(Aimed(front.aim, frame)), intent := Some(frame))
  }

  lemma TurnedSnoc(s: Stance, inputs: seq<Input>, input: Input)
    ensures Turned(s, inputs + [input])
         == Turned(s, inputs).(aim := Some(Aimed(Turned(s, inputs).aim, input.frame)), intent := Some(input.frame))
  {
    assert (inputs + [input])[..|inputs|] == inputs;
  }

  lemma {:induction false} TurnedKeepsBody(s: Stance, inputs: seq<Input>)
    ensures Turned(s, inputs).body == s.body && Turned(s, inputs).defeated == s.defeated
  {
    if inputs != [] {
      TurnedKeepsBody(s, inputs[..|inputs| - 1]);
    }
  }

  lemma NothingTurns(s: Stance, client: ClientId)
    ensures Turned(s, FilterBy([], client)) == s
  {
  }

  lemma OneInputTurns(config: Config, order: Order, w: World, input: Input, before: seq<Input>, client: ClientId, id: EntityId, s: Stance)
    requires Shaped(config, w) && client in w.playerByClient && w.playerByClient[client] == id
    requires Stands(w, id, Turned(s, FilterBy(before, client)))
    ensures Stands(Do(config, order, w, DoInput(input)), id, Turned(s, FilterBy(before + [input], client)))
  {
    assert (before + [input])[..|before|] == before;
    var t := Turned(s, FilterBy(before, client));
    if input.client == client {
      TurnedSnoc(s, FilterBy(before, client), input);
      OwnInputTurns(config, w, input, id, t);
    } else {
      assert FilterBy(before, client) + [] == FilterBy(before, client);
      OtherInputStands(config, w, input, client, id, t);
    }
    hide Shaped, Stands, ApplyInput, Turned, FilterBy;
  }

  lemma {:induction false} InputsTurn(config: Config, order: Order, w: World, ops: seq<Op>, n: nat, client: ClientId, id: EntityId, s: Stance)
    requires Shaped(config, w) && Stands(w, id, s) && client in w.playerByClient && w.playerByClient[client] == id
    requires n <= |w.pending| <= |ops| && (forall k :: 0 <= k < |w.pending| ==> ops[k] == DoInput(w.pending[k]))
    ensures Stands(Exec(config, order, w, ops, n), id, Turned(s, FilterBy(w.pending[..n], client)))
  {
    hide *;
    ExecUnfold(config, order, w, ops, n);
    if n > 0 {
      InputsTurn(config, order, w, ops, n - 1, client, id, s);
      ExecKeepsShape(config, order, w, ops, n - 1);
      ExecGrows(config, order, w, ops, n - 1);
      OneInputTurns(config, order, Exec(config, order, w, ops, n - 1), w.pending[n - 1], w.pending[..n - 1], client, id, s);
      assert w.pending[..n - 1] + [w.pending[n - 1]] == w.pending[..n];
    } else {
      assert w.pending[..0] == [];
      NothingTurns(s, client);
    }
  }

  lemma InputPassTurns(config: Config, order: Order, w: World, client: ClientId, id: EntityId, s: Stance)
    requires Shaped(config, w) && Stands(w, id, s) && client in w.playerByClient && w.playerByClient[client] == id
    ensures var next := Pass(config, order, w, InputOps(w));
            && Shaped(config, next) && next.playerByClient == w.playerByClient
            && Stands(next, id, Turned(s, FilterBy(w.pending, client)))
  {
    var ops := InputOps(w);
    var n := |w.pending|;
    PassKeepsShape(config, order, w, ops);
    PassGrows(config, order, w, ops);
    InputsTurn(config, order, w, ops, n, client, id, s);
    ExecUnfold(config, order, w, ops, n + 1);
    assert w.pending[..n] == w.pending;
    var applied := Exec(config, order, w, ops, n);
    SameEntitiesStand(applied, applied.(pending := []), id, Turned(s, FilterBy(w.pending, client)));
    hide Exec, Shaped, Stands, Turned, FilterBy;
  }

  lemma MovesMove(config: Config, order: Order, w: World, client: ClientId, id: EntityId, s: Stance)
    requires Shaped(config, w) && Stands(w, id, s) && client in w.playerByClient && w.playerByClient[client] == id
    requires ValidOrder(order) && Survives(w, Pass(config, order, w, MoveOps(order, w)), id)
    ensures var next := Pass(config, order, w, MoveOps(order, w));
            && Shaped(config, next) && next.playerByClient == w.playerByClient
            && Stands(next, id, s.(body := Moved(config.rules, s.body, s.intent), intent := None))
  {
    var a, b := MoveOpsSplit(order, w, client, id);
    hide Shaped, Stands, Survives, Pass, Integrate, ClearIntents, Moved;
    var mid := Pass(config, order, w, a);
    var t := s.(body := Moved(config.rules, s.body, s.intent));
    if Stands(mid, id, s) && mid.playerByClient == w.playerByClient {
      OwnStepMoves(config, mid, id, s);
    }
    var ops := a + [DoIntegrate(id)] + b;
    var moved := Pass(config, order, w, ops);
    PassAppend(config, order, w, ops, [DoClearIntents]);
    PassOne(config, order, moved, DoClearIntents);
    PassGrows(config, order, w, ops);
    EventsGrow(config, order, moved, DoClearIntents);
    SurvivesWithin(w, w, moved, Pass(config, order, w, MoveOps(order, w)), id);
    PassAround(config, order, w, a, DoIntegrate(id), b, client, id, s, t);
    ClearingForgets(moved, id, t);
    DoKeepsShape(config, order, moved, DoClearIntents);
    DoKeepsIndex(config, order, moved, DoClearIntents);
  }

  lemma RestIsElsewhere(config: Config, order: Order, w: World, client: ClientId, id: EntityId) returns (rest: seq<Op>)
    ensures var start := Advance(config, w);
            var applied := Pass(config, order, start, InputOps(start));
            TickOps(config, order, w) == InputOps(start) + MoveOps(order, applied) + rest
    ensures AllElsewhere(rest, client, id)
  {
    var start := Advance(config, w);
    var applied := Pass(config, order, start, InputOps(start));
    var moved := Pass(config, order, applied, MoveOps(order, applied));
    var warmed := Pass(config, order, moved, WarmOps(order, moved));
    var fired := Pass(config, order, warmed, LaunchOps(warmed));
    var flown := Pass(config, order, fired, FlyOps(order, fired));
    var landed := Pass(config, order, flown, DestroyOps(flown));
    hide Pass, InputOps, MoveOps;
    rest := WarmOps(order, moved) + LaunchOps(warmed) + FlyOps(order, fired) + DestroyOps(flown) + RespawnOps(order, landed);
    var front := InputOps(start) + MoveOps(order, applied);
    assert TickOps(config, order, w) == front + rest;
  }

  /** A stance after a whole tick with these own inputs: turned by all of them, moved once
      by what is intended at the end, or slowed down without any. */
  function Ticked(rules: Rules, s: Stance, inputs: seq<Input>): Stance {
    var turned := Turned(s, inputs);
    turned.(body := Moved(rules, s.body, turned.intent), intent := None)
  }

  /** A tick moves and turns a surviving player by its own inputs of that tick, however
      many they are, and by nothing else. */
  lemma TickTurns(config: Config, order: Order, w: World, client: ClientId, id: EntityId, s: Stance)
    requires Shaped(config, w) && ValidOrder(order) && Stands(w, id, s)
    requires client in w.playerByClient && w.playerByClient[client] == id
    requires Survives(w, TickFixed(config, order, w), id)
    ensures Stands(TickFixed(config, order, w), id, Ticked(config.rules, s, FilterBy(w.pending, client)))
  {
    var start := Advance(config, w);
    var rest := RestIsElsewhere(config, order, w, client, id);
    var own := FilterBy(w.pending, client);
    assert Stands(start, id, s) && start.events == w.events && start.playerByClient == w.playerByClient && start.pending == w.pending;
    AdvanceKeepsShape(config, w);
    TickIsOps(config, order, w);
    TurnedKeepsBody(s, own);
    hide Shaped, Stands, Survives, Pass, InputOps, MoveOps, TickOps, AllElsewhere, TickFixed, Advance, FilterBy, Moved, Turned;
    var next := TickFixed(config, order, w);
    var applied := Pass(config, order, start, InputOps(start));
    var moved := Pass(config, order, applied, MoveOps(order, applied));
    PassAppend(config, order, start, InputOps(start) + MoveOps(order, applied), rest);
    PassAppend(config, order, start, InputOps(start), MoveOps(order, applied));
    PassGrows(config, order, start, InputOps(start));
    PassGrows(config, order, applied, MoveOps(order, applied));
    PassGrows(config, order, moved, rest);
    SurvivesWithin(w, start, applied, next, id);
    SurvivesWithin(w, applied, moved, next, id);
    SurvivesWithin(w, moved, next, next, id);
    InputPassTurns(config, order, start, client, id, s);
    MovesMove(config, order, applied, client, id, Turned(s, own));
    PassElsewhere(config, order, moved, rest, client, id, Ticked(config.rules, s, own));
  }

  /** With exactly one input, a tick is one step of the replay. */
  lemma TickTracks(config: Config, order: Order, w: World, client: ClientId, id: EntityId, s: Stance, input: Input)
    requires Shaped(config, w) && ValidOrder(order) && Stands(w, id, s)
    requires client in w.playerByClient && w.playerByClient[client] == id
    requires FilterBy(w.pending, client) == [input]
    requires Survives(w, TickFixed(config, order, w), id)
    ensures Stands(TickFixed(config, order, w), id, Tracked(config.rules, s, input.frame))
  {
    TickTurns(config, order, w, client, id, s);
    TurnedSnoc(s, [], input);
    assert [] + [input] == [input];
    hide Shaped, Stands, Survives, TickFixed, FilterBy, Moved;
  }
}
