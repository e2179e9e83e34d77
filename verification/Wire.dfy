/** Snapshots and network events on the wire (GameLogic/src/Serialization.cpp). */
module Wire {
  import opened Basics
  import opened Replication
  import opened Events
  import opened Fields

  // --- records of the replicated data ---

  const MOVEMENT: Record := [U32, I32, I32, I32, I32, I16, I16]
  const COMBAT: Record := [U32, I32, I32, Enumerated(1), Boolean, U64, Boolean, U64, Boolean, U32]
  const REPLICA: Record := [U32, U32, Enumerated(1), Enumerated(2)]
  const SNAPSHOT_HEAD: Record := [U32, U32, Enumerated(1), U64, U64, U32]
  const EVENT_HEAD: Record := [U32, U64, U64, Enumerated(9)]

  function Flag(b: bool): int { if b then 1 else 0 }
  function WeaponCode(w: WeaponType): int { if w == NoWeapon then 0 else 1 }
  function WeaponOf(v: int): WeaponType { if v == 0 then NoWeapon else Bow }
  function KindCode(k: EntityKind): int { if k == PlayerKind then 0 else 1 }
  function KindOf(v: int): EntityKind { if v == 0 then PlayerKind else ProjectileKind }
  function PriorityCode(p: Priority): int { match p case Low => 0 case Medium => 1 case High => 2 }
  function PriorityOf(v: int): Priority { if v == 0 then Low else if v == 1 then Medium else High }
  function DeliveryCode(d: DeliveryKind): int { if d == Full then 0 else 1 }
  function DeliveryOf(v: int): DeliveryKind { if v == 0 then Full else DeltaEligible }

  function MovementValues(m: MovementState): (vs: seq<int>) {
    [m.entityId, m.x, m.y, m.vx, m.vy, m.aimX, m.aimY]
  }

  function MovementFrom(vs: seq<int>): MovementState
    requires |vs| == 7 && vs[0] >= 0
  {
    MovementState(vs[0], vs[1], vs[2], vs[3], vs[4], vs[5], vs[6])
  }

  function CombatValues(c: CombatState): (vs: seq<int>) {
    [c.entityId, c.health, c.maxHealth, WeaponCode(c.weaponType), Flag(c.weaponWarming), c.weaponWarmupCompletesAt,
     Flag(c.defeated), c.respawnAt, Flag(c.serverOwnedProjectile), c.projectileOwner]
  }

  function CombatFrom(vs: seq<int>): CombatState
    requires |vs| == 10 && vs[0] >= 0 && vs[5] >= 0 && vs[7] >= 0 && vs[9] >= 0
  {
    CombatState(vs[0], vs[1], vs[2], WeaponOf(vs[3]), vs[4] != 0, vs[5], vs[6] != 0, vs[7], vs[8] != 0, vs[9])
  }

  function ReplicaValues(r: ReplicaState): (vs: seq<int>) {
    [r.entityId, r.owner, KindCode(r.kind), PriorityCode(r.priority)]
  }

  function ReplicaFrom(vs: seq<int>): ReplicaState
    requires |vs| == 4 && vs[0] >= 0 && vs[1] >= 0
  {
    ReplicaState(vs[0], vs[1], KindOf(vs[2]), PriorityOf(vs[3]))
  }

  // --- entities ---

  /** Values that fit the wire's widths. */
  ghost predicate EntityFits(e: EntityState) {
    && AllFit(MOVEMENT, MovementValues(e.movement))
    && (e.combat.Some? ==> AllFit(COMBAT, CombatValues(e.combat.value)))
    && AllFit(REPLICA, ReplicaValues(e.replica))
  }

  function EncodeCombat(c: Option<CombatState>): seq<byte> {
    if c.Some? then Encode(COMBAT, CombatValues(c.value)) else []
  }

  function EncodeEntity(e: EntityState): seq<byte> {
    Encode(MOVEMENT, MovementValues(e.movement))
    + Encode([Boolean], [Flag(e.combat.Some?)])
    + EncodeCombat(e.combat)
    + Encode(REPLICA, ReplicaValues(e.replica))
  }

  lemma Regroup<T>(a: seq<T>, b: seq<T>, c: seq<T>, d: seq<T>, rest: seq<T>)
    ensures a + b + c + d + rest == a + (b + (c + (d + rest)))
  {
  }

  function ParseMovement(bytes: seq<byte>): (r: Option<(MovementState, seq<byte>)>)
  {
    match Parse(MOVEMENT, bytes)
    case None => None
    case Some((vs, rest)) => if |vs| == 7 && vs[0] >= 0 then Some((MovementFrom(vs), rest)) else None
  }

  function ParseFlag(bytes: seq<byte>): Option<(bool, seq<byte>)> {
    match Parse([Boolean], bytes)
    case None => None
    case Some((vs, rest)) => if |vs| == 1 then Some((vs[0] != 0, rest)) else None
  }

  function ParseCombat(bytes: seq<byte>): Option<(CombatState, seq<byte>)> {
    match Parse(COMBAT, bytes)
    case None => None
    case Some((vs, rest)) =>
      if |vs| == 10 && vs[0] >= 0 && vs[5] >= 0 && vs[7] >= 0 && vs[9] >= 0 then Some((CombatFrom(vs), rest)) else None
  }

  function ParseReplica(bytes: seq<byte>): Option<(ReplicaState, seq<byte>)> {
    match Parse(REPLICA, bytes)
    case None => None
    case Some((vs, rest)) => if |vs| == 4 && vs[0] >= 0 && vs[1] >= 0 then Some((ReplicaFrom(vs), rest)) else None
  }

  function ParseOptionalCombat(present: bool, bytes: seq<byte>): Option<(Option<CombatState>, seq<byte>)> {
    if !present then Some((None, bytes))
    else
      match ParseCombat(bytes)
      case None => None
      case Some((c, rest)) => Some((Some(c), rest))
  }

  function ParseEntity(bytes: seq<byte>): Option<(EntityState, seq<byte>)> {
    match ParseMovement(bytes)
    case None => None
    case Some((m, r1)) =>
      match ParseFlag(r1)
      case None => None
      case Some((present, r2)) =>
        match ParseOptionalCombat(present, r2)
        case None => None
        case Some((c, r3)) =>
          match ParseReplica(r3)
          case None => None
          case Some((r, rest)) => Some((EntityState(m, c, r), rest))
  }

  lemma SizesUpTo(record: Record, k: nat)
    requires k < |record|
    ensures Size(record[..k + 1]) == Size(record[..k]) + Width(record[k])
    ensures Size(record[..0]) == 0
  {
    if k > 0 {
      SizesUpTo(record[1..], k - 1);
      assert record[..k + 1][1..] == record[1..][..k];
      assert record[..k][1..] == record[1..][..k - 1];
    } else {
      assert record[..1][1..] == [];
    }
  }

  /** Where each part of a movement state is on the wire. */
  lemma MovementLayout(m: MovementState)
    ensures var bytes := Encode(MOVEMENT, MovementValues(m));
            && |bytes| == 24
            && bytes[0..4] == EncodeField(U32, m.entityId)
            && bytes[4..8] == EncodeField(I32, m.x) && bytes[8..12] == EncodeField(I32, m.y)
            && bytes[12..16] == EncodeField(I32, m.vx) && bytes[16..20] == EncodeField(I32, m.vy)
            && bytes[20..22] == EncodeField(I16, m.aimX) && bytes[22..24] == EncodeField(I16, m.aimY)
  {
    SizesAre();
    hide Encode, EncodeField, Size;
    SizesUpTo(MOVEMENT, 0);
    SizesUpTo(MOVEMENT, 1);
    SizesUpTo(MOVEMENT, 2);
    SizesUpTo(MOVEMENT, 3);
    SizesUpTo(MOVEMENT, 4);
    SizesUpTo(MOVEMENT, 5);
    SizesUpTo(MOVEMENT, 6);
    FieldAt(MOVEMENT, MovementValues(m), 0);
    FieldAt(MOVEMENT, MovementValues(m), 1);
    FieldAt(MOVEMENT, MovementValues(m), 2);
    FieldAt(MOVEMENT, MovementValues(m), 3);
    FieldAt(MOVEMENT, MovementValues(m), 4);
    FieldAt(MOVEMENT, MovementValues(m), 5);
    FieldAt(MOVEMENT, MovementValues(m), 6);
  }

  // decode after encode

  lemma MovementThere(m: MovementState, rest: seq<byte>)
    requires AllFit(MOVEMENT, MovementValues(m))
    ensures ParseMovement(Encode(MOVEMENT, MovementValues(m)) + rest) == Some((m, rest))
  {
    DecodeEncoded(MOVEMENT, MovementValues(m), rest);
    hide Parse, Encode;
  }

  lemma CombatThere(c: CombatState, rest: seq<byte>)
    requires AllFit(COMBAT, CombatValues(c))
    ensures ParseCombat(Encode(COMBAT, CombatValues(c)) + rest) == Some((c, rest))
  {
    DecodeEncoded(COMBAT, CombatValues(c), rest);
    hide Parse, Encode;
  }

  lemma ReplicaThere(r: ReplicaState, rest: seq<byte>)
    requires AllFit(REPLICA, ReplicaValues(r))
    ensures ParseReplica(Encode(REPLICA, ReplicaValues(r)) + rest) == Some((r, rest))
  {
    DecodeEncoded(REPLICA, ReplicaValues(r), rest);
    hide Parse, Encode;
  }

  lemma FlagThere(b: bool, rest: seq<byte>)
    ensures ParseFlag(Encode([Boolean], [Flag(b)]) + rest) == Some((b, rest))
  {
    DecodeEncoded([Boolean], [Flag(b)], rest);
    hide Parse, Encode;
  }

  lemma OptionalCombatThere(c: Option<CombatState>, rest: seq<byte>)
    requires c.Some? ==> AllFit(COMBAT, CombatValues(c.value))
    ensures ParseOptionalCombat(c.Some?, EncodeCombat(c) + rest) == Some((c, rest))
  {
    if c.Some? {
      CombatThere(c.value, rest);
      hide ParseCombat, Encode;
    } else {
      assert EncodeCombat(c) + rest == rest;
    }
  }

  lemma EntityThere(e: EntityState, rest: seq<byte>)
    requires EntityFits(e)
    ensures ParseEntity(EncodeEntity(e) + rest) == Some((e, rest))
  {
    hide Encode, ParseMovement, ParseFlag, ParseOptionalCombat, ParseReplica, AllFit, EncodeCombat;
    var a := Encode(MOVEMENT, MovementValues(e.movement));
    var b := Encode([Boolean], [Flag(e.combat.Some?)]);
    var c := EncodeCombat(e.combat);
    var d := Encode(REPLICA, ReplicaValues(e.replica));
    Regroup(a, b, c, d, rest);
    MovementThere(e.movement, b + (c + (d + rest)));
    FlagThere(e.combat.Some?, c + (d + rest));
    OptionalCombatThere(e.combat, d + rest);
    ReplicaThere(e.replica, rest);
  }

  // encode after decode

  lemma MovementBack(bytes: seq<byte>)
    requires ParseMovement(bytes).Some?
    ensures var (m, rest) := ParseMovement(bytes).value;
            AllFit(MOVEMENT, MovementValues(m)) && bytes == Encode(MOVEMENT, MovementValues(m)) + rest
  {
    EncodeDecoded(MOVEMENT, bytes);
    hide Parse, Encode;
    var (vs, rest) := Parse(MOVEMENT, bytes).value;
    assert MovementValues(MovementFrom(vs)) == vs;
  }

  lemma FlagBack(bytes: seq<byte>)
    requires ParseFlag(bytes).Some?
    ensures var (b, rest) := ParseFlag(bytes).value;
            bytes == Encode([Boolean], [Flag(b)]) + rest
  {
    EncodeDecoded([Boolean], bytes);
    hide Parse, Encode;
    var (vs, rest) := Parse([Boolean], bytes).value;
    assert Fits([Boolean][0], vs[0]);
    assert [Flag(vs[0] != 0)] == vs;
  }

  lemma CombatBack(bytes: seq<byte>)
    requires ParseCombat(bytes).Some?
    ensures var (c, rest) := ParseCombat(bytes).value;
            AllFit(COMBAT, CombatValues(c)) && bytes == Encode(COMBAT, CombatValues(c)) + rest
  {
    EncodeDecoded(COMBAT, bytes);
    hide Parse, Encode;
    var (vs, rest) := Parse(COMBAT, bytes).value;
    assert Fits(COMBAT[3], vs[3]) && Fits(COMBAT[4], vs[4]) && Fits(COMBAT[6], vs[6]) && Fits(COMBAT[8], vs[8]);
    assert CombatValues(CombatFrom(vs)) == vs;
  }

  lemma ReplicaBack(bytes: seq<byte>)
    requires ParseReplica(bytes).Some?
    ensures var (r, rest) := ParseReplica(bytes).value;
            AllFit(REPLICA, ReplicaValues(r)) && bytes == Encode(REPLICA, ReplicaValues(r)) + rest
  {
    EncodeDecoded(REPLICA, bytes);
    hide Parse, Encode;
    var (vs, rest) := Parse(REPLICA, bytes).value;
    assert Fits(REPLICA[2], vs[2]) && Fits(REPLICA[3], vs[3]);
    assert ReplicaValues(ReplicaFrom(vs)) == vs;
  }

  lemma OptionalCombatBack(present: bool, bytes: seq<byte>)
    requires ParseOptionalCombat(present, bytes).Some?
    ensures var (c, rest) := ParseOptionalCombat(present, bytes).value;
            && c.Some? == present && (c.Some? ==> AllFit(COMBAT, CombatValues(c.value)))
            && bytes == EncodeCombat(c) + rest
  {
    if present {
      CombatBack(bytes);
      hide ParseCombat, Encode;
    }
  }

  lemma EntityBack(bytes: seq<byte>)
    requires ParseEntity(bytes).Some?
    ensures var (e, rest) := ParseEntity(bytes).value;
            EntityFits(e) && bytes == EncodeEntity(e) + rest
  {
    hide Encode, ParseMovement, ParseFlag, ParseOptionalCombat, ParseReplica, AllFit, EncodeCombat;
    var (m, r1) := ParseMovement(bytes).value;
    var (present, r2) := ParseFlag(r1).value;
    var (c, r3) := ParseOptionalCombat(present, r2).value;
    var (r, rest) := ParseReplica(r3).value;
    MovementBack(bytes);
    FlagBack(r1);
    OptionalCombatBack(present, r2);
    ReplicaBack(r3);
    Regroup(Encode(MOVEMENT, MovementValues(m)), Encode([Boolean], [Flag(present)]), EncodeCombat(c),
            Encode(REPLICA, ReplicaValues(r)), rest);
  }

  // --- lists of entities ---

  function EncodeEntities(es: seq<EntityState>): seq<byte> {
    if es == [] then [] else EncodeEntity(es[0]) + EncodeEntities(es[1..])
  }

  function ParseEntities(n: nat, bytes: seq<byte>): Option<(seq<EntityState>, seq<byte>)> {
    if n == 0 then Some(([], bytes))
    else
      match ParseEntity(bytes)
      case None => None
      case Some((e, more)) =>
        match ParseEntities(n - 1, more)
        case None => None
        case Some((es, rest)) => Some(([e] + es, rest))
  }

  ghost predicate EntitiesFit(es: seq<EntityState>) {
    forall k :: 0 <= k < |es| ==> EntityFits(es[k])
  }

  lemma {:induction false} EntitiesThere(es: seq<EntityState>, rest: seq<byte>)
    requires EntitiesFit(es)
    ensures ParseEntities(|es|, EncodeEntities(es) + rest) == Some((es, rest))
  {
    if es != [] {
      var more := EncodeEntities(es[1..]) + rest;
      assert EncodeEntities(es) + rest == EncodeEntity(es[0]) + more;
      EntityThere(es[0], more);
      EntitiesThere(es[1..], rest);
      hide ParseEntity, EncodeEntity, EntityFits;
      assert [es[0]] + es[1..] == es;
    } else {
      assert EncodeEntities(es) + rest == rest;
    }
  }

  lemma {:induction false} EntitiesBack(n: nat, bytes: seq<byte>)
    requires ParseEntities(n, bytes).Some?
    ensures var (es, rest) := ParseEntities(n, bytes).value;
            |es| == n && EntitiesFit(es) && bytes == EncodeEntities(es) + rest
  {
    if n > 0 {
      EntityBack(bytes);
      var (e, more) := ParseEntity(bytes).value;
      EntitiesBack(n - 1, more);
      var (es, rest) := ParseEntities(n - 1, more).value;
      hide ParseEntity, EncodeEntity, EntityFits;
      assert ([e] + es)[1..] == es;
      assert EncodeEntity(e) + (EncodeEntities(es) + rest) == EncodeEntity(e) + EncodeEntities(es) + rest;
    }
  }

  /** The least number of bytes an entity takes: all but the optional combat state. */
  const MIN_ENTITY_BYTES := 35

  lemma EntityIsLongEnough(e: EntityState)
    ensures |EncodeEntity(e)| >= MIN_ENTITY_BYTES
  {
    SizesAre();
    hide Encode, Size;
  }

  lemma SizesAre()
    ensures Size(MOVEMENT) == 24 && Size([Boolean]) == 1 && Size(REPLICA) == 10
  {
    SizeFrom(MOVEMENT, 0);
    SizeFrom(MOVEMENT, 1);
    SizeFrom(MOVEMENT, 2);
    SizeFrom(MOVEMENT, 3);
    SizeFrom(MOVEMENT, 4);
    SizeFrom(MOVEMENT, 5);
    SizeFrom(MOVEMENT, 6);
    SizeFrom([Boolean], 0);
    SizeFrom(REPLICA, 0);
    SizeFrom(REPLICA, 1);
    SizeFrom(REPLICA, 2);
    SizeFrom(REPLICA, 3);
  }

  lemma SizeFrom(record: Record, k: nat)
    requires k < |record|
    ensures Size(record[k..]) == Width(record[k]) + Size(record[k + 1..])
    ensures record[0..] == record && Size(record[|record|..]) == 0
  {
    assert record[k..][1..] == record[k + 1..];
  }

  lemma {:induction false} EntitiesAreLongEnough(es: seq<EntityState>)
    ensures |EncodeEntities(es)| >= MIN_ENTITY_BYTES * |es|
  {
    if es != [] {
      EntityIsLongEnough(es[0]);
      EntitiesAreLongEnough(es[1..]);
    }
  }

  // --- snapshots ---

  function HeadValues(s: Snapshot): (vs: seq<int>) {
    [s.snapshotId, s.baselineId, DeliveryCode(s.deliveryKind), s.serverTick, s.serverTime, s.ackedInput]
  }

  ghost predicate SnapshotFits(s: Snapshot) {
    AllFit(SNAPSHOT_HEAD, HeadValues(s)) && |s.entities| < 0x1_0000_0000 && EntitiesFit(s.entities)
  }

  function EncodeSnapshot(s: Snapshot): seq<byte> {
    Encode(SNAPSHOT_HEAD, HeadValues(s)) + Encode([U32], [|s.entities| % 0x1_0000_0000]) + EncodeEntities(s.entities)
  }

  /** The count is refused when even the shortest entities could not fill it. The room
      is measured before the count itself is read. */
  function ParseCount(bytes: seq<byte>): Option<(nat, seq<byte>)> {
    match Parse([U32], bytes)
    case None => None
    case Some((vs, rest)) =>
      if |vs| == 1 && 0 <= vs[0] <= |bytes| / MIN_ENTITY_BYTES then Some((vs[0], rest)) else None
  }

  function HeadFrom(vs: seq<int>, entities: seq<EntityState>): Snapshot
    requires |vs| == 6 && vs[0] >= 0 && vs[1] >= 0 && vs[3] >= 0 && vs[4] >= 0 && vs[5] >= 0
  {
    Snapshot(vs[0], vs[1], DeliveryOf(vs[2]), vs[3], vs[4], vs[5], entities)
  }

  /** The head of a snapshot, with no entities yet. */
  function ParseHead(bytes: seq<byte>): Option<(Snapshot, seq<byte>)> {
    match Parse(SNAPSHOT_HEAD, bytes)
    case None => None
    case Some((vs, rest)) =>
      if |vs| == 6 && vs[0] >= 0 && vs[1] >= 0 && vs[3] >= 0 && vs[4] >= 0 && vs[5] >= 0
      then Some((HeadFrom(vs, []), rest)) else None
  }

  function DecodeSnapshot(bytes: seq<byte>): Option<Snapshot> {
    match ParseHead(bytes)
    case None => None
    case Some((head, r1)) =>
      match ParseCount(r1)
      case None => None
      case Some((count, r2)) =>
        match ParseEntities(count, r2)
        case None => None
        case Some((entities, rest)) => if rest == [] then Some(head.(entities := entities)) else None
  }

  lemma HeadThere(s: Snapshot, rest: seq<byte>)
    requires AllFit(SNAPSHOT_HEAD, HeadValues(s))
    ensures ParseHead(Encode(SNAPSHOT_HEAD, HeadValues(s)) + rest) == Some((s.(entities := []), rest))
  {
    DecodeEncoded(SNAPSHOT_HEAD, HeadValues(s), rest);
    hide Parse, Encode;
  }

  lemma HeadBack(bytes: seq<byte>)
    requires ParseHead(bytes).Some?
    ensures var (s, rest) := ParseHead(bytes).value;
            && AllFit(SNAPSHOT_HEAD, HeadValues(s)) && s.entities == []
            && bytes == Encode(SNAPSHOT_HEAD, HeadValues(s)) + rest
  {
    EncodeDecoded(SNAPSHOT_HEAD, bytes);
    hide Parse, Encode;
    var (vs, rest) := Parse(SNAPSHOT_HEAD, bytes).value;
    assert Fits(SNAPSHOT_HEAD[2], vs[2]);
    assert HeadValues(HeadFrom(vs, [])) == vs;
  }

  lemma FourBytes()
    ensures Pow256(4) == 0x1_0000_0000
  {
    assert Pow256(1) == 256;
    assert Pow256(2) == 256 * Pow256(1);
    assert Pow256(3) == 256 * Pow256(2);
  }

  /** The guard lets every count through that entities really follow. */
  lemma CountThere(n: nat, rest: seq<byte>)
    requires n < 0x1_0000_0000 && |rest| >= MIN_ENTITY_BYTES * n
    ensures ParseCount(Encode([U32], [n]) + rest) == Some((n, rest))
  {
    FourBytes();
    assert Fits([U32][0], n);
    DecodeEncoded([U32], [n], rest);
    hide Parse, Encode;
  }

  lemma CountBack(bytes: seq<byte>)
    requires ParseCount(bytes).Some?
    ensures var (n, rest) := ParseCount(bytes).value;
            n < 0x1_0000_0000 && bytes == Encode([U32], [n]) + rest
  {
    FourBytes();
    EncodeDecoded([U32], bytes);
    hide Parse, Encode;
    var (vs, rest) := Parse([U32], bytes).value;
    assert Fits([U32][0], vs[0]);
    assert vs == [vs[0]];
  }

  /** Every snapshot that fits the wire's widths comes back from its bytes. */
  lemma SnapshotRoundTrip(s: Snapshot)
    requires SnapshotFits(s)
    ensures DecodeSnapshot(EncodeSnapshot(s)) == Some(s)
  {
    hide Encode, ParseHead, ParseCount, ParseEntities, EncodeEntities, AllFit, EntitiesFit;
    var head := Encode(SNAPSHOT_HEAD, HeadValues(s));
    var count := Encode([U32], [|s.entities|]);
    var body := EncodeEntities(s.entities);
    assert |s.entities| % 0x1_0000_0000 == |s.entities|;
    assert head + count + body == head + (count + body);
    assert body + [] == body;
    HeadThere(s, count + body);
    EntitiesAreLongEnough(s.entities);
    CountThere(|s.entities|, body);
    EntitiesThere(s.entities, []);
  }

  /** Every byte string accepted as a snapshot is exactly that snapshot's encoding. */
  lemma SnapshotBytesRoundTrip(bytes: seq<byte>)
    requires DecodeSnapshot(bytes).Some?
    ensures SnapshotFits(DecodeSnapshot(bytes).value)
    ensures EncodeSnapshot(DecodeSnapshot(bytes).value) == bytes
  {
    hide Encode, ParseHead, ParseCount, ParseEntities, EncodeEntities, AllFit, EntitiesFit;
    var (head, r1) := ParseHead(bytes).value;
    var (count, r2) := ParseCount(r1).value;
    var (entities, rest) := ParseEntities(count, r2).value;
    HeadBack(bytes);
    CountBack(r1);
    EntitiesBack(count, r2);
    var s := head.(entities := entities);
    assert HeadValues(s) == HeadValues(head);
    assert EncodeEntities(entities) + [] == EncodeEntities(entities);
    assert Encode(SNAPSHOT_HEAD, HeadValues(s)) + Encode([U32], [count]) + EncodeEntities(entities)
        == Encode(SNAPSHOT_HEAD, HeadValues(s)) + (Encode([U32], [count]) + EncodeEntities(entities));
  }

  // --- network events ---

  function PayloadRecord(kind: nat): Record {
    match kind
    case 0 => [U32, U32, I32, I32]
    case 1 => [U32, U64, U64, Enumerated(1)]
    case 2 => [U32, U64, Enumerated(1)]
    case 3 => [U32, U32, I32, I32, Enumerated(1)]
    case 4 => [U32, U32, U32, U64]
    case 5 => [U32, U32, I32, I32]
    case 6 => [U32, U32, U64]
    case 7 => [U32, I32, I32]
    case _ => [U32, U32]
  }

  function PayloadKind(p: Payload): nat {
    match p
    case SpawnedDTO(_, _, _, _) => 0
    case WarmupDTO(_, _, _, _) => 1
    case FiredDTO(_, _, _) => 2
    case ProjectileDTO(_, _, _, _, _) => 3
    case HitDTO(_, _, _, _) => 4
    case DamagedDTO(_, _, _, _) => 5
    case DiedDTO(_, _, _) => 6
    case RespawnedDTO(_, _, _) => 7
    case EnteredDTO(_, _) => 8
    case LeftDTO(_, _) => 9
  }

  function PayloadValues(p: Payload): (vs: seq<int>)
    ensures |vs| == |PayloadRecord(PayloadKind(p))|
  {
    match p
    case SpawnedDTO(id, c, x, y) => [id, c, x, y]
    case WarmupDTO(id, s, t, w) => [id, s, t, WeaponCode(w)]
    case FiredDTO(id, t, w) => [id, t, WeaponCode(w)]
    case ProjectileDTO(p, o, x, y, w) => [p, o, x, y, WeaponCode(w)]
    case HitDTO(a, t, p, time) => [a, t, p, time]
    case DamagedDTO(id, a, d, h) => [id, a, d, h]
    case DiedDTO(id, a, r) => [id, a, r]
    case RespawnedDTO(id, x, y) => [id, x, y]
    case EnteredDTO(id, o) => [id, o]
    case LeftDTO(id, o) => [id, o]
  }

  ghost predicate Natural(record: Record, vs: seq<int>) {
    |vs| == |record| && forall k :: 0 <= k < |vs| && record[k].Unsigned? ==> vs[k] >= 0
  }

  function PayloadFrom(kind: nat, vs: seq<int>): Payload
    requires kind <= 9 && Natural(PayloadRecord(kind), vs)
  {
    match kind
    case 0 => SpawnedDTO(vs[0], vs[1], vs[2], vs[3])
    case 1 => WarmupDTO(vs[0], vs[1], vs[2], WeaponOf(vs[3]))
    case 2 => FiredDTO(vs[0], vs[1], WeaponOf(vs[2]))
    case 3 => ProjectileDTO(vs[0], vs[1], vs[2], vs[3], WeaponOf(vs[4]))
    case 4 => HitDTO(vs[0], vs[1], vs[2], vs[3])
    case 5 => DamagedDTO(vs[0], vs[1], vs[2], vs[3])
    case 6 => DiedDTO(vs[0], vs[1], vs[2])
    case 7 => RespawnedDTO(vs[0], vs[1], vs[2])
    case 8 => EnteredDTO(vs[0], vs[1])
    case 9 => LeftDTO(vs[0], vs[1])
  }

  function EventHeadValues(e: NetworkEvent): (vs: seq<int>) {
    [e.eventId, e.serverTick, e.serverTime, PayloadKind(e.payload)]
  }

  ghost predicate EventFits(e: NetworkEvent) {
    && AllFit(EVENT_HEAD, EventHeadValues(e))
    && AllFit(PayloadRecord(PayloadKind(e.payload)), PayloadValues(e.payload))
  }

  function EncodeEvent(e: NetworkEvent): seq<byte> {
    Encode(EVENT_HEAD, EventHeadValues(e)) + Encode(PayloadRecord(PayloadKind(e.payload)), PayloadValues(e.payload))
  }

  function ParsePayload(kind: nat, bytes: seq<byte>): Option<(Payload, seq<byte>)>
    requires kind <= 9
  {
    match Parse(PayloadRecord(kind), bytes)
    case None => None
    case Some((vs, rest)) =>
      ParsedAreNatural(PayloadRecord(kind), bytes);
      Some((PayloadFrom(kind, vs), rest))
  }

  function DecodeEvent(bytes: seq<byte>): Option<NetworkEvent> {
    match Parse(EVENT_HEAD, bytes)
    case None => None
    case Some((vs, r1)) =>
      ParsedAreNatural(EVENT_HEAD, bytes);
      if !(0 <= vs[3] <= 9) then None
      else
        match ParsePayload(vs[3], r1)
        case None => None
        case Some((payload, rest)) => if rest == [] then Some(NetworkEvent(vs[0], vs[1], vs[2], payload)) else None
  }

  lemma {:induction false} ParsedAreNatural(record: Record, bytes: seq<byte>)
    requires Parse(record, bytes).Some?
    ensures Natural(record, Parse(record, bytes).value.0)
  {
    if record != [] {
      ParsedAreNatural(record[1..], ParseField(record[0], bytes).value.1);
      var vs := Parse(record, bytes).value.0;
      forall k | 0 <= k < |vs| && record[k].Unsigned?
        ensures vs[k] >= 0
      {
        if k > 0 {
          assert record[k] == record[1..][k - 1];
        }
      }
    }
  }

  lemma PayloadThere(p: Payload, rest: seq<byte>)
    requires AllFit(PayloadRecord(PayloadKind(p)), PayloadValues(p))
    ensures ParsePayload(PayloadKind(p), Encode(PayloadRecord(PayloadKind(p)), PayloadValues(p)) + rest) == Some((p, rest))
  {
    DecodeEncoded(PayloadRecord(PayloadKind(p)), PayloadValues(p), rest);
    hide Parse, Encode;
  }

  lemma WeaponBack(v: int)
    requires Fits(Enumerated(1), v)
    ensures WeaponCode(WeaponOf(v)) == v
  {
  }

  lemma PayloadValuesBack(kind: nat, vs: seq<int>)
    requires kind <= 9 && AllFit(PayloadRecord(kind), vs) && Natural(PayloadRecord(kind), vs)
    ensures var p := PayloadFrom(kind, vs);
            PayloadKind(p) == kind && PayloadValues(p) == vs
  {
    if kind == 1 {
      WeaponBack(vs[3]);
    } else if kind == 2 {
      WeaponBack(vs[2]);
    } else if kind == 3 {
      WeaponBack(vs[4]);
    }
  }

  lemma PayloadRecordsAreWellFormed(kind: nat)
    ensures WellFormed(PayloadRecord(kind))
  {
  }

  lemma PayloadBack(kind: nat, bytes: seq<byte>)
    requires kind <= 9 && ParsePayload(kind, bytes).Some?
    ensures var (p, rest) := ParsePayload(kind, bytes).value;
            && PayloadKind(p) == kind && AllFit(PayloadRecord(kind), PayloadValues(p))
            && bytes == Encode(PayloadRecord(kind), PayloadValues(p)) + rest
  {
    PayloadRecordsAreWellFormed(kind);
    EncodeDecoded(PayloadRecord(kind), bytes);
    ParsedAreNatural(PayloadRecord(kind), bytes);
    hide Parse, Encode, PayloadRecord, AllFit, PayloadFrom;
    PayloadValuesBack(kind, Parse(PayloadRecord(kind), bytes).value.0);
  }

  /** Every network event that fits the wire's widths comes back from its bytes. */
  lemma EventRoundTrip(e: NetworkEvent)
    requires EventFits(e)
    ensures DecodeEvent(EncodeEvent(e)) == Some(e)
  {
    var body := Encode(PayloadRecord(PayloadKind(e.payload)), PayloadValues(e.payload));
    DecodeEncoded(EVENT_HEAD, EventHeadValues(e), body);
    hide Parse, Encode, PayloadRecord, AllFit, ParsePayload, PayloadValues, PayloadKind;
    PayloadThere(e.payload, []);
    assert body + [] == body;
  }

  /** Every byte string accepted as a network event is exactly that event's encoding. */
  lemma EventBytesRoundTrip(bytes: seq<byte>)
    requires DecodeEvent(bytes).Some?
    ensures EventFits(DecodeEvent(bytes).value)
    ensures EncodeEvent(DecodeEvent(bytes).value) == bytes
  {
    var (vs, r1) := Parse(EVENT_HEAD, bytes).value;
    EncodeDecoded(EVENT_HEAD, bytes);
    ParsedAreNatural(EVENT_HEAD, bytes);
    hide Parse, Encode, PayloadRecord, AllFit, ParsePayload, PayloadValues, PayloadKind;
    PayloadBack(vs[3], r1);
    var e := DecodeEvent(bytes).value;
    assert EventHeadValues(e) == vs;
  }

  // --- answers to time synchronisation ---

  datatype TimeSyncResponse = TimeSyncResponse(
    client: ClientId, sequence: Sequence, clientSent: Time, serverReceived: Time, serverSent: Time)

  const TIME_SYNC: Record := [U32, U32, U64, U64, U64]

  function TimeSyncValues(r: TimeSyncResponse): (vs: seq<int>) {
    [r.client, r.sequence, r.clientSent, r.serverReceived, r.serverSent]
  }

  function EncodeTimeSync(r: TimeSyncResponse): seq<byte> {
    Encode(TIME_SYNC, TimeSyncValues(r))
  }

  function DecodeTimeSync(bytes: seq<byte>): Option<TimeSyncResponse> {
    match Parse(TIME_SYNC, bytes)
    case None => None
    case Some((vs, rest)) =>
      ParsedAreNatural(TIME_SYNC, bytes);
      assert forall k :: 0 <= k < |vs| ==> TIME_SYNC[k].Unsigned?;
      if rest == [] then Some(TimeSyncResponse(vs[0], vs[1], vs[2], vs[3], vs[4])) else None
  }

  /** Time answers within the wire's widths come back from their bytes, and accepted bytes
      are the encoding of their answer. */
  lemma TimeSyncRoundTrip(r: TimeSyncResponse, bytes: seq<byte>)
    ensures AllFit(TIME_SYNC, TimeSyncValues(r)) ==> DecodeTimeSync(EncodeTimeSync(r)) == Some(r)
    ensures DecodeTimeSync(bytes).Some? ==> EncodeTimeSync(DecodeTimeSync(bytes).value) == bytes
  {
    if AllFit(TIME_SYNC, TimeSyncValues(r)) {
      DecodeEncoded(TIME_SYNC, TimeSyncValues(r), []);
      assert EncodeTimeSync(r) + [] == EncodeTimeSync(r);
    }
    if DecodeTimeSync(bytes).Some? {
      EncodeDecoded(TIME_SYNC, bytes);
      ParsedAreNatural(TIME_SYNC, bytes);
      var (vs, rest) := Parse(TIME_SYNC, bytes).value;
      assert TimeSyncValues(DecodeTimeSync(bytes).value) == vs;
    }
    hide Parse, Encode, AllFit;
  }
}
