/** Every message byte by byte: numbers in two's complement, the least significant byte
    first; one byte for each code and flag; fields in a fixed order without gaps. */
module Layouts {
  import opened Basics
  import opened Replication
  import opened Events
  import opened Fields
  import opened Wire
  import F = Frame

  // --- numbers ---

  /** The low n bytes of an integer of any sign. */
  function Le(v: int, n: nat): (bytes: seq<byte>)
    ensures |bytes| == n
    decreases n
  {
    if n == 0 then [] else [v % 256] + Le(v / 256, n - 1)
  }

  lemma {:induction false} LittleIsLe(v: nat, n: nat)
    ensures Little(v, n) == Le(v, n)
  {
    if n > 0 {
      LittleIsLe(v / 256, n - 1);
    }
  }

  /** A whole turn of the width changes nothing. */
  lemma {:induction false} LeWraps(v: int, n: nat)
    ensures Le(v + Pow256(n), n) == Le(v, n)
    decreases n
  {
    if n > 0 {
      var p := Pow256(n - 1);
      assert (v + 256 * p) % 256 == v % 256 && (v + 256 * p) / 256 == v / 256 + p;
      LeWraps(v / 256, n - 1);
    }
  }

  lemma FieldIsLe(f: Field, v: int)
    requires Fits(f, v)
    ensures EncodeField(f, v) == Le(v, Width(f))
  {
    LittleIsLe(Raw(f, v), Width(f));
    if v < 0 {
      LeWraps(v, Width(f));
    }
    hide Le, Little;
  }

  // --- parts in a row ---

  function Row(parts: seq<seq<byte>>): seq<byte> {
    if parts == [] then [] else parts[0] + Row(parts[1..])
  }

  /** The parts are the values, each in the width of its field. */
  ghost predicate Spells(record: Record, values: seq<int>, parts: seq<seq<byte>>) {
    |parts| == |values| == |record| && forall k :: 0 <= k < |record| ==> parts[k] == Le(values[k], Width(record[k]))
  }

  lemma {:induction false} RecordIsRow(record: Record, values: seq<int>, parts: seq<seq<byte>>)
    requires AllFit(record, values) && Spells(record, values, parts)
    ensures Encode(record, values) == Row(parts)
  {
    hide Fits, Le, Width;
    if record != [] {
      FieldIsLe(record[0], values[0]);
      hide EncodeField;
      RecordIsRow(record[1..], values[1..], parts[1..]);
    }
  }

  lemma OneByte(v: int)
    requires 0 <= v < 256
    ensures Le(v, 1) == [v]
  {
    assert Le(v / 256, 0) == [];
  }

  // --- entities and snapshots ---

  function Bit(b: bool): seq<byte> { [if b then 1 else 0] }

  function MovementParts(m: MovementState): seq<seq<byte>> {
    [Le(m.entityId, 4), Le(m.x, 4), Le(m.y, 4), Le(m.vx, 4), Le(m.vy, 4), Le(m.aimX, 2), Le(m.aimY, 2)]
  }

  function CombatParts(c: CombatState): seq<seq<byte>> {
    [Le(c.entityId, 4), Le(c.health, 4), Le(c.maxHealth, 4), Bit(c.weaponType == Bow),
     Bit(c.weaponWarming), Le(c.weaponWarmupCompletesAt, 8), Bit(c.defeated), Le(c.respawnAt, 8),
     Bit(c.serverOwnedProjectile), Le(c.projectileOwner, 4)]
  }

  function ReplicaParts(r: ReplicaState): seq<seq<byte>> {
    [Le(r.entityId, 4), Le(r.owner, 4), Bit(r.kind == ProjectileKind),
     [if r.priority == Low then 0 else if r.priority == Medium then 1 else 2]]
  }

  function EntityBytes(e: EntityState): seq<byte> {
    Row(MovementParts(e.movement)) + Bit(e.combat.Some?)
    + (if e.combat.Some? then Row(CombatParts(e.combat.value)) else [])
    + Row(ReplicaParts(e.replica))
  }

  function EntitiesBytes(es: seq<EntityState>): seq<byte> {
    if es == [] then [] else EntityBytes(es[0]) + EntitiesBytes(es[1..])
  }

  function SnapshotParts(s: Snapshot): seq<seq<byte>> {
    [Le(s.snapshotId, 4), Le(s.baselineId, 4), Bit(s.deliveryKind == DeltaEligible), Le(s.serverTick, 8),
     Le(s.serverTime, 8), Le(s.ackedInput, 4)]
  }

  lemma CodesAreBytes()
    ensures Le(0, 1) == [0] && Le(1, 1) == [1] && Le(2, 1) == [2]
  {
    OneByte(0);
    OneByte(1);
    OneByte(2);
  }

  lemma MovementIsRow(m: MovementState)
    requires AllFit(MOVEMENT, MovementValues(m))
    ensures Encode(MOVEMENT, MovementValues(m)) == Row(MovementParts(m))
  {
    hide Encode, Row, Le, AllFit;
    RecordIsRow(MOVEMENT, MovementValues(m), MovementParts(m));
  }

  lemma CombatIsRow(c: CombatState)
    requires AllFit(COMBAT, CombatValues(c))
    ensures Encode(COMBAT, CombatValues(c)) == Row(CombatParts(c))
  {
    CodesAreBytes();
    hide Encode, Row, Le, AllFit;
    RecordIsRow(COMBAT, CombatValues(c), CombatParts(c));
  }

  lemma ReplicaIsRow(r: ReplicaState)
    requires AllFit(REPLICA, ReplicaValues(r))
    ensures Encode(REPLICA, ReplicaValues(r)) == Row(ReplicaParts(r))
  {
    CodesAreBytes();
    hide Encode, Row, Le, AllFit;
    RecordIsRow(REPLICA, ReplicaValues(r), ReplicaParts(r));
  }

  lemma FlagIsBit(b: bool)
    ensures Encode([Boolean], [Flag(b)]) == Bit(b)
  {
    CodesAreBytes();
    FieldIsLe(Boolean, Flag(b));
    assert Encode([Boolean][1..], [Flag(b)][1..]) == [];
    hide Le;
  }

  lemma EntityIsBytes(e: EntityState)
    requires EntityFits(e)
    ensures EncodeEntity(e) == EntityBytes(e)
  {
    MovementIsRow(e.movement);
    FlagIsBit(e.combat.Some?);
    if e.combat.Some? {
      CombatIsRow(e.combat.value);
    }
    ReplicaIsRow(e.replica);
    hide Encode, Row, AllFit, Bit;
  }

  lemma {:induction false} EntitiesAreBytes(es: seq<EntityState>)
    requires EntitiesFit(es)
    ensures EncodeEntities(es) == EntitiesBytes(es)
  {
    hide EncodeEntity, EntityBytes, EntityFits;
    if es != [] {
      EntityIsBytes(es[0]);
      EntitiesAreBytes(es[1..]);
    }
  }

  lemma HeadIsRow(s: Snapshot)
    requires AllFit(SNAPSHOT_HEAD, Wire.HeadValues(s))
    ensures Encode(SNAPSHOT_HEAD, Wire.HeadValues(s)) == Row(SnapshotParts(s))
  {
    CodesAreBytes();
    hide Encode, Row, Le, AllFit;
    RecordIsRow(SNAPSHOT_HEAD, Wire.HeadValues(s), SnapshotParts(s));
  }

  lemma CountIsBytes(n: nat)
    requires n < 0x1_0000_0000
    ensures Encode([U32], [n % 0x1_0000_0000]) == Le(n, 4)
  {
    FourBytes();
    FieldIsLe(U32, n);
    assert Encode([U32][1..], [n][1..]) == [];
    hide Le, EncodeField;
  }

  /** A snapshot on the wire: its head, the number of its entities and one after another. */
  lemma SnapshotLayout(s: Snapshot)
    requires SnapshotFits(s)
    ensures EncodeSnapshot(s) == Row(SnapshotParts(s)) + Le(|s.entities|, 4) + EntitiesBytes(s.entities)
  {
    hide Encode, Row, Le, AllFit, EncodeEntities, EntitiesFit, EntitiesBytes, SnapshotParts;
    HeadIsRow(s);
    CountIsBytes(|s.entities|);
    EntitiesAreBytes(s.entities);
  }

  // --- events ---

  function WeaponByte(w: WeaponType): seq<byte> { Bit(w == Bow) }

  /** The code of an event that goes over the wire, and what follows it. */
  function EventCode(event: DomainEvent): byte {
    match event
    case PlayerSpawned(_, _, _, _) => 0
    case WarmupStarted(_, _, _, _) => 1
    case BowFired(_, _, _) => 2
    case ProjectileSpawned(_, _, _, _, _) => 3
    case HitConfirmed(_, _, _, _) => 4
    case PlayerDamaged(_, _, _, _) => 5
    case PlayerDied(_, _, _) => 6
    case PlayerRespawned(_, _, _) => 7
    case EnteredInterest(_, _) => 8
    case LeftInterest(_, _) => 9
    case _ => 255
  }

  function EventParts(event: DomainEvent): seq<seq<byte>> {
    match event
    case PlayerSpawned(id, client, x, y) => [Le(id, 4), Le(client, 4), Le(x, 4), Le(y, 4)]
    case WarmupStarted(id, started, completes, w) => [Le(id, 4), Le(started, 8), Le(completes, 8), WeaponByte(w)]
    case BowFired(id, at, w) => [Le(id, 4), Le(at, 8), WeaponByte(w)]
    case ProjectileSpawned(id, owner, x, y, w) => [Le(id, 4), Le(owner, 4), Le(x, 4), Le(y, 4), WeaponByte(w)]
    case HitConfirmed(attacker, target, projectile, at) => [Le(attacker, 4), Le(target, 4), Le(projectile, 4), Le(at, 8)]
    case PlayerDamaged(id, attacker, damage, after) => [Le(id, 4), Le(attacker, 4), Le(damage, 4), Le(after, 4)]
    case PlayerDied(id, attacker, respawn) => [Le(id, 4), Le(attacker, 4), Le(respawn, 8)]
    case PlayerRespawned(id, x, y) => [Le(id, 4), Le(x, 4), Le(y, 4)]
    case EnteredInterest(id, observer) => [Le(id, 4), Le(observer, 4)]
    case LeftInterest(id, observer) => [Le(id, 4), Le(observer, 4)]
    case _ => []
  }

  lemma PayloadIsRow(event: DomainEvent, p: Payload)
    requires ToPayload(event) == Some(p) && AllFit(PayloadRecord(PayloadKind(p)), PayloadValues(p))
    ensures Encode(PayloadRecord(PayloadKind(p)), PayloadValues(p)) == Row(EventParts(event))
    ensures PayloadKind(p) == EventCode(event)
  {
    CodesAreBytes();
    hide Encode, Row, Le, AllFit;
    assert Spells(PayloadRecord(PayloadKind(p)), PayloadValues(p), EventParts(event));
    RecordIsRow(PayloadRecord(PayloadKind(p)), PayloadValues(p), EventParts(event));
  }

  /** A domain event on the wire: number, tick and time, its code, and its own fields. */
  lemma EventLayout(id: EventId, tick: nat, time: Time, event: DomainEvent)
    requires ToNetworkEvent(id, tick, time, event).Some? && EventFits(ToNetworkEvent(id, tick, time, event).value)
    ensures EncodeEvent(ToNetworkEvent(id, tick, time, event).value)
         == Row([Le(id, 4), Le(tick, 8), Le(time, 8), [EventCode(event)]]) + Row(EventParts(event))
  {
    var e := ToNetworkEvent(id, tick, time, event).value;
    PayloadIsRow(event, e.payload);
    OneByte(EventCode(event));
    hide Encode, Row, Le, AllFit, EventParts, PayloadKind, PayloadValues, PayloadRecord;
    var parts := [Le(id, 4), Le(tick, 8), Le(time, 8), [EventCode(event)]];
    assert Spells(EVENT_HEAD, EventHeadValues(e), parts);
    RecordIsRow(EVENT_HEAD, EventHeadValues(e), parts);
  }

  lemma TimeSyncLayout(r: TimeSyncResponse)
    requires AllFit(TIME_SYNC, TimeSyncValues(r))
    ensures EncodeTimeSync(r)
         == Row([Le(r.client, 4), Le(r.sequence, 4), Le(r.clientSent, 8), Le(r.serverReceived, 8), Le(r.serverSent, 8)])
  {
    hide Encode, Row, Le, AllFit;
    var parts := [Le(r.client, 4), Le(r.sequence, 4), Le(r.clientSent, 8), Le(r.serverReceived, 8), Le(r.serverSent, 8)];
    RecordIsRow(TIME_SYNC, TimeSyncValues(r), parts);
  }

  // --- frames ---

  function ChannelByte(c: F.Channel): byte {
    match c
    case MovementInput => 0
    case Snapshots => 1
    case CombatEvents => 2
    case LoginSpawn => 3
    case ChatUi => 4
    case TimeSync => 5
  }

  function ClassByte(c: F.MessageClass): byte {
    match c
    case ClientInput => 0
    case SnapshotClass => 1
    case SnapshotAck => 2
    case CombatEvent => 3
    case LoginRequest => 4
    case SpawnAccepted => 5
    case InterestEvent => 6
    case NetworkEventAck => 7
    case ChatUiClass => 8
    case TimeSyncRequest => 9
    case TimeSyncResponse => 10
  }

  /** A class of messages travels on one channel. */
  const TRAVELS: set<(byte, byte)> :=
    {(0, 0), (1, 1), (1, 2), (2, 3), (3, 4), (3, 5), (3, 6), (3, 7), (4, 8), (5, 9), (5, 10)}

  /** Which envelopes may be sent: of this version, no longer than 64 KiB, on the channel of
      their class. */
  lemma ValidEnvelopes(e: F.Envelope)
    ensures F.Valid(e) <==>
              e.version == 1 && |e.payload| <= 65536 && (ChannelByte(e.channel), ClassByte(e.messageClass)) in TRAVELS
  {
  }

  /** A frame: version, peer, channel, class, sequence and length, and then the payload. */
  lemma FrameBytes(e: F.Envelope)
    requires F.EnvelopeFits(e) && |e.payload| < 0x1_0000_0000
    ensures F.EncodeFrame(e)
         == Row([Le(e.version, 2), Le(e.peer, 4), [ChannelByte(e.channel)], [ClassByte(e.messageClass)], Le(e.sequence, 4),
                 Le(|e.payload|, 4)])
            + e.payload
  {
    F.HeadFits(e);
    OneByte(ChannelByte(e.channel));
    OneByte(ClassByte(e.messageClass));
    assert |e.payload| % 0x1_0000_0000 == |e.payload|;
    hide Encode, Row, Le, AllFit;
    var parts := [Le(e.version, 2), Le(e.peer, 4), [ChannelByte(e.channel)], [ClassByte(e.messageClass)], Le(e.sequence, 4),
                  Le(|e.payload|, 4)];
    assert Spells(F.HEAD, F.HeadValues(e), parts);
    RecordIsRow(F.HEAD, F.HeadValues(e), parts);
  }

  /** The class of the message that carries an event. */
  function EventClass(event: DomainEvent): byte {
    if event.PlayerSpawned? then 5 else if event.EnteredInterest? || event.LeftInterest? then 6 else 3
  }

  /** How messages are addressed: to the peer, numbered by their own id, in their class. */
  lemma EnvelopesAre(peer: ClientId, s: Snapshot, id: EventId, tick: nat, time: Time, event: DomainEvent)
    ensures var e := F.SnapshotEnvelope(peer, s);
            F.Valid(e) == (|e.payload| <= 65536) && e.peer == peer && ClassByte(e.messageClass) == 1
            && e.sequence == s.snapshotId && e.payload == EncodeSnapshot(s)
    ensures var n := ToNetworkEvent(id, tick, time, event);
            n.Some? ==>
              var e := F.EventEnvelope(peer, n.value);
              F.Valid(e) == (|e.payload| <= 65536) && e.peer == peer && ClassByte(e.messageClass) == EventClass(event)
              && e.sequence == id && e.payload == EncodeEvent(n.value)
  {
    hide EncodeSnapshot, EncodeEvent;
  }
}
