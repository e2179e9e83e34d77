/** Fixed-point movement: how an input or its absence changes one body in one tick
    (GameLogic/src/SimulationMovement.cpp, GameLogic/include/GameLogic/FixedPoint.hpp,
    Math.hpp and Map.hpp). */
module Motion {
  import opened Basics

  const FIXED_ONE := 1000

  datatype MapConfig = MapConfig(
    tileSize: int, widthTiles: int, heightTiles: int, chunkTiles: int, interestRadius: int)
  {
    function Width(): int { widthTiles * tileSize * FIXED_ONE }
    function Height(): int { heightTiles * tileSize * FIXED_ONE }
  }

  datatype Rules = Rules(map_: MapConfig, tickMs: nat, acceleration: int, maxSpeed: int)

  /** One player's input of one frame. */
  datatype InputFrame = InputFrame(moveX: int, moveY: int, aimX: int, aimY: int, fire: bool)

  datatype Body = Body(x: int, y: int, vx: int, vy: int)
  datatype Aim = Aim(x: int, y: int)

  function PerTick(perSecond: int, tickMs: nat): int {
    TruncDiv(perSecond * tickMs, 1000)
  }

  function Sign(v: int): int {
    if v > 0 then 1 else if v < 0 then -1 else 0
  }

  function NormalizeDigitalInput(moveX: int, moveY: int): (int, int) {
    var x, y := Sign(moveX), Sign(moveY);
    if x != 0 && y != 0 then (x * 707, y * 707) else (x * 1000, y * 1000)
  }

  function Accelerated(v: int, delta: int, input: int): int {
    v + TruncDiv(delta * input, FIXED_ONE)
  }

  function Friction(v: int): int {
    TruncDiv(v * 72, 100)
  }

  function ClampToMap(m: MapConfig, b: Body): Body {
    b.(x := Clamp(b.x, 0, m.Width() - 1), y := Clamp(b.y, 0, m.Height() - 1))
  }

  /** The velocity for this tick, before it moves the body. */
  function Steered(rules: Rules, b: Body, intent: Option<InputFrame>): Body {
    var v := match intent
             case Some(input) =>
               var n := NormalizeDigitalInput(input.moveX, input.moveY);
               var delta := PerTick(rules.acceleration, rules.tickMs);
               (Accelerated(b.vx, delta, n.0), Accelerated(b.vy, delta, n.1))
             case None => (Friction(b.vx), Friction(b.vy));
    b.(vx := Clamp(v.0, -rules.maxSpeed, rules.maxSpeed), vy := Clamp(v.1, -rules.maxSpeed, rules.maxSpeed))
  }

  function Drifted(tickMs: nat, b: Body): Body {
    b.(x := b.x + PerTick(b.vx, tickMs), y := b.y + PerTick(b.vy, tickMs))
  }

  /** One tick of movement of a player who is not defeated. */
  function Moved(rules: Rules, b: Body, intent: Option<InputFrame>): Body {
    ClampToMap(rules.map_, Drifted(rules.tickMs, Steered(rules, b, intent)))
  }

  function Aimed(aim: Option<Aim>, input: InputFrame): Aim {
    if input.aimX != 0 || input.aimY != 0 then Aim(input.aimX, input.aimY)
    else if aim.Some? then aim.value
    else Aim(1000, 0)
  }

  // --- what the arithmetic means ---

  ghost predicate InMap(m: MapConfig, x: int, y: int) {
    0 <= x < m.Width() && 0 <= y < m.Height()
  }

  ghost predicate SpeedOk(rules: Rules, b: Body) {
    Abs(b.vx) <= rules.maxSpeed && Abs(b.vy) <= rules.maxSpeed
  }

  /** Whatever the body was, after a tick it is on the map and within the speed limit. */
  lemma MovedIsBounded(rules: Rules, b: Body, intent: Option<InputFrame>)
    requires rules.map_.Width() > 0 && rules.map_.Height() > 0 && rules.maxSpeed >= 0
    ensures var next := Moved(rules, b, intent);
            InMap(rules.map_, next.x, next.y) && SpeedOk(rules, next)
  {
    hide Drifted, NormalizeDigitalInput, Accelerated, Friction, PerTick, MapConfig.Width, MapConfig.Height;
    DriftKeepsVelocity(rules.tickMs, Steered(rules, b, intent));
  }

  lemma DriftKeepsVelocity(tickMs: nat, b: Body)
    ensures Drifted(tickMs, b).vx == b.vx && Drifted(tickMs, b).vy == b.vy
  {
  }

  /** Truncation makes friction bring every velocity strictly closer to zero, without
      ever turning it around. */
  lemma FrictionDecays(v: int)
    ensures v > 0 ==> 0 <= Friction(v) < v
    ensures v < 0 ==> v < Friction(v) <= 0
    ensures Friction(v) == -Friction(-v)
    ensures Friction(v) == 0 <==> Abs(v) <= 1
  {
  }

  // --- one axis at a time ---

  /** What an input adds to a velocity: the acceleration of one tick in its direction, all
      of it along one axis, 707 thousandths on each of two. */
  function Push(rules: Rules, along: int, across: int): int {
    var perTick := TruncDiv(rules.acceleration * rules.tickMs, 1000);
    var size := if across == 0 then perTick else TruncDiv(perTick * 707, 1000);
    if along > 0 then size else if along < 0 then -size else 0
  }

  ghost predicate Within(v: int, wanted: int, lo: int, hi: int) {
    v == if wanted < lo then lo else if wanted > hi then hi else wanted
  }

  /** One axis of a move: the velocity wanted before the speed limit, and what comes of it. */
  ghost predicate AxisMoves(rules: Rules, size: int, x: int, wanted: int, x1: int, v1: int) {
    && Within(v1, wanted, -rules.maxSpeed, rules.maxSpeed)
    && Within(x1, x + TruncDiv(v1 * rules.tickMs, 1000), 0, size - 1)
  }

  lemma PushIsAcceleration(rules: Rules, v: int, along: int, across: int)
    ensures Accelerated(v, PerTick(rules.acceleration, rules.tickMs), NormalizeDigitalInput(along, across).0) == v + Push(rules, along, across)
    ensures Accelerated(v, PerTick(rules.acceleration, rules.tickMs), NormalizeDigitalInput(across, along).1) == v + Push(rules, along, across)
  {
    var delta := PerTick(rules.acceleration, rules.tickMs);
    assert TruncDiv(delta * 1000, 1000) == delta && TruncDiv(delta * -1000, 1000) == -delta;
    assert TruncDiv(delta * -707, 1000) == -TruncDiv(delta * 707, 1000);
  }

  /** A tick of movement on both axes: the input pushes the velocity its own way, or
      friction takes 28 hundredths of it; the speed limit holds; the new velocity moves
      the position; the map's edge holds. */
  lemma MovedByAxis(rules: Rules, b: Body, intent: Option<InputFrame>)
    ensures var next := Moved(rules, b, intent);
            var wantedX := if intent.Some? then b.vx + Push(rules, intent.value.moveX, intent.value.moveY) else TruncDiv(b.vx * 72, 100);
            var wantedY := if intent.Some? then b.vy + Push(rules, intent.value.moveY, intent.value.moveX) else TruncDiv(b.vy * 72, 100);
            && AxisMoves(rules, rules.map_.widthTiles * rules.map_.tileSize * 1000, b.x, wantedX, next.x, next.vx)
            && AxisMoves(rules, rules.map_.heightTiles * rules.map_.tileSize * 1000, b.y, wantedY, next.y, next.vy)
  {
    if intent.Some? {
      PushIsAcceleration(rules, b.vx, intent.value.moveX, intent.value.moveY);
      PushIsAcceleration(rules, b.vy, intent.value.moveY, intent.value.moveX);
    }
    hide Push, Accelerated, NormalizeDigitalInput;
  }

  /** An input never pushes against itself: within the speed limit the velocity changes
      only in the direction of the input, and an idle axis keeps its velocity. */
  lemma InputPushesItsWay(rules: Rules, b: Body, input: InputFrame)
    requires SpeedOk(rules, b) && rules.acceleration >= 0
    ensures var next := Moved(rules, b, Some(input));
            && (input.moveX >= 0 ==> next.vx >= b.vx) && (input.moveX <= 0 ==> next.vx <= b.vx)
            && (input.moveY >= 0 ==> next.vy >= b.vy) && (input.moveY <= 0 ==> next.vy <= b.vy)
  {
    MovedByAxis(rules, b, Some(input));
    PushHasSign(rules, input.moveX, input.moveY);
    PushHasSign(rules, input.moveY, input.moveX);
    hide Moved, Push;
  }

  lemma PushHasSign(rules: Rules, along: int, across: int)
    requires rules.acceleration >= 0
    ensures along >= 0 ==> Push(rules, along, across) >= 0
    ensures along <= 0 ==> Push(rules, along, across) <= 0
  {
    var perTick := TruncDiv(rules.acceleration * rules.tickMs, 1000);
    assert rules.acceleration * rules.tickMs >= 0;
    assert perTick >= 0;
  }

  /** A body left without input for some ticks. */
  function Coasted(rules: Rules, b: Body, ticks: nat): Body {
    if ticks == 0 then b else Moved(rules, Coasted(rules, b, ticks - 1), None)
  }

  lemma CoastingStep(rules: Rules, b: Body)
    requires SpeedOk(rules, b)
    ensures var next := Moved(rules, b, None);
            && SpeedOk(rules, next)
            && Abs(next.vx) <= Max(0, Abs(b.vx) - 1) && Abs(next.vy) <= Max(0, Abs(b.vy) - 1)
            && (next.vx == 0 || (next.vx > 0 <==> b.vx > 0)) && (next.vy == 0 || (next.vy > 0 <==> b.vy > 0))
  {
    MovedByAxis(rules, b, None);
    FrictionDecays(b.vx);
    FrictionDecays(b.vy);
    hide Moved;
  }

  /** Without input a body stops, after no more ticks than its speed. */
  lemma {:induction false} CoastingStops(rules: Rules, b: Body, ticks: nat)
    requires SpeedOk(rules, b)
    ensures var after := Coasted(rules, b, ticks);
            && SpeedOk(rules, after)
            && Abs(after.vx) <= Max(0, Abs(b.vx) - ticks) && Abs(after.vy) <= Max(0, Abs(b.vy) - ticks)
            && (ticks >= Abs(b.vx) ==> after.vx == 0) && (ticks >= Abs(b.vy) ==> after.vy == 0)
  {
    if ticks > 0 {
      CoastingStops(rules, b, ticks - 1);
      CoastingStep(rules, Coasted(rules, b, ticks - 1));
      hide Moved;
    }
  }

  lemma RestStep(rules: Rules, b: Body)
    requires InMap(rules.map_, b.x, b.y) && b.vx == 0 && b.vy == 0 && rules.maxSpeed >= 0
    ensures Moved(rules, b, None) == b
  {
    hide MapConfig.Width, MapConfig.Height;
    assert PerTick(0, rules.tickMs) == 0;
    assert Steered(rules, b, None) == b;
    hide PerTick, Steered;
  }

  /** A body at rest stays where it is. */
  lemma {:induction false} RestingStays(rules: Rules, b: Body, ticks: nat)
    requires InMap(rules.map_, b.x, b.y) && b.vx == 0 && b.vy == 0 && rules.maxSpeed >= 0
    ensures Coasted(rules, b, ticks) == b
  {
    hide Moved, InMap;
    if ticks > 0 {
      RestingStays(rules, b, ticks - 1);
      RestStep(rules, b);
    }
  }

  lemma MonotoneProduct(a: nat, b: nat, k: nat)
    requires a <= b
    ensures a * k <= b * k
  {
  }

  /** A tick moves a body by no more than the speed limit allows. */
  lemma PerTickBound(v: int, limit: nat, tickMs: nat)
    requires Abs(v) <= limit
    ensures Abs(PerTick(v, tickMs)) <= PerTick(limit, tickMs)
  {
    MonotoneProduct(Abs(v), limit, tickMs);
    var a, b := Abs(v) * tickMs, limit * tickMs;
    assert Abs(v * tickMs) == a;
    QuotientMonotone(a, b);
  }

  lemma QuotientMonotone(a: nat, b: nat)
    requires a <= b
    ensures a / 1000 <= b / 1000
  {
  }

  ghost predicate Int32(v: int) {
    -0x8000_0000 <= v < 0x8000_0000
  }

  /** Maps and speeds for which every intermediate fits in 32 bits. */
  ghost predicate Narrow(rules: Rules) {
    && rules.maxSpeed >= 0
    && 0 < rules.map_.Width() && 0 < rules.map_.Height()
    && rules.map_.Width() + PerTick(rules.maxSpeed, rules.tickMs) < 0x8000_0000
    && rules.map_.Height() + PerTick(rules.maxSpeed, rules.tickMs) < 0x8000_0000
    && PerTick(rules.maxSpeed, rules.tickMs) >= 0
    && rules.maxSpeed + Abs(PerTick(rules.acceleration, rules.tickMs)) < 0x8000_0000
  }

  lemma AccelerationBound(v: int, delta: int, input: int)
    requires Abs(input) <= 1000
    ensures Abs(Accelerated(v, delta, input)) <= Abs(v) + Abs(delta)
  {
    MonotoneProduct(Abs(input), 1000, Abs(delta));
    assert Abs(delta * input) == Abs(input) * Abs(delta);
    var q := TruncDiv(delta * input, FIXED_ONE);
    assert Abs(q) * 1000 <= Abs(delta * input);
  }

  /** Narrowing to 32 bits loses nothing: the steered velocity before its clamp, the
      velocity, and the position before it is brought back onto the map all fit. */
  lemma NarrowingIsLossless(rules: Rules, b: Body, intent: Option<InputFrame>)
    requires Narrow(rules) && InMap(rules.map_, b.x, b.y) && SpeedOk(rules, b)
    ensures var s := Steered(rules, b, intent);
            var d := Drifted(rules.tickMs, s);
            Int32(s.vx) && Int32(s.vy) && Int32(d.x) && Int32(d.y)
    ensures intent.Some? ==>
              var n := NormalizeDigitalInput(intent.value.moveX, intent.value.moveY);
              var delta := PerTick(rules.acceleration, rules.tickMs);
              Int32(delta) && Int32(Accelerated(b.vx, delta, n.0)) && Int32(Accelerated(b.vy, delta, n.1))
  {
    var s := Steered(rules, b, intent);
    if intent.Some? {
      var n := NormalizeDigitalInput(intent.value.moveX, intent.value.moveY);
      var delta := PerTick(rules.acceleration, rules.tickMs);
      AccelerationBound(b.vx, delta, n.0);
      AccelerationBound(b.vy, delta, n.1);
    }
    hide PerTick, Accelerated, Friction, MapConfig.Width, MapConfig.Height, NormalizeDigitalInput;
    PerTickBound(s.vx, rules.maxSpeed, rules.tickMs);
    PerTickBound(s.vy, rules.maxSpeed, rules.tickMs);
  }
}
