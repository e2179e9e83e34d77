/** The byte writer and the byte reader as the objects they are: a buffer appended to, a
    cursor moved, a first error kept; and the codec routines over them
    (GameLogic/include/GameLogic/Serialization.hpp, GameLogic/src/Serialization.cpp). */
module CodecObject {
  import opened Basics
  import opened Replication
  import opened Events
  import opened Fields
  import opened Wire

  datatype DecodeError = NoError | UnexpectedEof | InvalidBoolean | InvalidEnum | InvalidCount | TrailingBytes

  class BinaryWriter {
    var bytes: seq<byte>

    constructor ()
      ensures bytes == []
    {
      bytes := [];
    }

    method WriteField(f: Field, v: int)
      modifies this
      ensures bytes == old(bytes) + EncodeField(f, v)
    {
      bytes := bytes + EncodeField(f, v);
    }

    method WriteFields(record: Record, values: seq<int>)
      requires |values| == |record|
      modifies this
      ensures bytes == old(bytes) + Encode(record, values)
    {
      hide EncodeField;
      var i := 0;
      while i < |record|
        invariant i <= |record|
        invariant bytes + Encode(record[i..], values[i..]) == old(bytes) + Encode(record, values)
      {
        assert record[i..][1..] == record[i + 1..] && values[i..][1..] == values[i + 1..];
        ghost var before := bytes;
        WriteField(record[i], values[i]);
        assert before + (EncodeField(record[i], values[i]) + Encode(record[i + 1..], values[i + 1..]))
            == bytes + Encode(record[i + 1..], values[i + 1..]);
        i := i + 1;
      }
    }

    method WriteEntity(e: EntityState)
      modifies this
      ensures bytes == old(bytes) + EncodeEntity(e)
    {
      hide Encode;
      ghost var start := bytes;
      WriteFields(MOVEMENT, MovementValues(e.movement));
      WriteFields([Boolean], [Flag(e.combat.Some?)]);
      if e.combat.Some? {
        WriteFields(COMBAT, CombatValues(e.combat.value));
      }
      WriteFields(REPLICA, ReplicaValues(e.replica));
      Regroup(start, Encode(MOVEMENT, MovementValues(e.movement)), Encode([Boolean], [Flag(e.combat.Some?)]),
              EncodeCombat(e.combat), Encode(REPLICA, ReplicaValues(e.replica)));
      Regroup([], Encode(MOVEMENT, MovementValues(e.movement)), Encode([Boolean], [Flag(e.combat.Some?)]),
              EncodeCombat(e.combat), Encode(REPLICA, ReplicaValues(e.replica)));
    }
  }

  method SerializeSnapshot(s: Snapshot) returns (bytes: seq<byte>)
    ensures bytes == EncodeSnapshot(s)
  {
    hide Encode, EncodeEntity;
    var writer := new BinaryWriter();
    writer.WriteFields(SNAPSHOT_HEAD, HeadValues(s));
    writer.WriteFields([U32], [|s.entities| % 0x1_0000_0000]);
    ghost var head := writer.bytes;
    assert head == Encode(SNAPSHOT_HEAD, HeadValues(s)) + Encode([U32], [|s.entities| % 0x1_0000_0000]);
    assert s.entities[0..] == s.entities;
    var i := 0;
    while i < |s.entities|
      invariant i <= |s.entities|
      invariant writer.bytes + EncodeEntities(s.entities[i..]) == head + EncodeEntities(s.entities)
    {
      assert s.entities[i..][1..] == s.entities[i + 1..];
      ghost var before := writer.bytes;
      writer.WriteEntity(s.entities[i]);
      assert before + (EncodeEntity(s.entities[i]) + EncodeEntities(s.entities[i + 1..]))
          == writer.bytes + EncodeEntities(s.entities[i + 1..]);
      i := i + 1;
    }
    bytes := writer.bytes;
    assert bytes + EncodeEntities(s.entities[i..]) == bytes;
  }

  method SerializeNetworkEvent(e: NetworkEvent) returns (bytes: seq<byte>)
    ensures bytes == EncodeEvent(e)
  {
    hide Encode;
    var writer := new BinaryWriter();
    writer.WriteFields(EVENT_HEAD, EventHeadValues(e));
    writer.WriteFields(PayloadRecord(PayloadKind(e.payload)), PayloadValues(e.payload));
    bytes := writer.bytes;
  }

  // --- reading ---

  /** How a read relates to the parser: on success the value and what is left, on failure
      nothing and an error. */
  ghost predicate Follows<T>(parsed: Option<(T, seq<byte>)>, got: Option<T>, rest: seq<byte>, before: DecodeError, after: DecodeError) {
    match parsed
    case None => got == None && after != NoError
    case Some((v, more)) => got == Some(v) && rest == more && after == before
  }

  class BinaryReader {
    const bytes: seq<byte>
    var offset: nat
    var error: DecodeError

    ghost predicate Valid()
      reads this
    {
      offset <= |bytes|
    }

    function Rest(): seq<byte>
      requires Valid()
      reads this
    {
      bytes[offset..]
    }

    constructor (bytes: seq<byte>)
      ensures Valid() && this.bytes == bytes && Rest() == bytes && error == NoError
    {
      this.bytes := bytes;
      offset, error := 0, NoError;
    }

    /** The first error is the one that stays. */
    method Fail(e: DecodeError)
      requires Valid() && e != NoError
      modifies this`error
      ensures error == if old(error) == NoError then e else old(error)
    {
      if error == NoError {
        error := e;
      }
    }

    method ReadPod(width: nat) returns (raw: Option<nat>)
      requires Valid()
      modifies this
      ensures Valid()
      ensures width <= |old(Rest())| ==>
                raw == Some(Number(old(Rest())[..width])) && Rest() == old(Rest())[width..] && error == old(error)
      ensures width > |old(Rest())| ==> raw == None && error != NoError
    {
      if offset + width > |bytes| {
        Fail(UnexpectedEof);
        return None;
      }
      raw := Some(Number(bytes[offset..][..width]));
      offset := offset + width;
    }

    method ReadField(f: Field) returns (v: Option<int>)
      requires Valid()
      modifies this
      ensures Valid()
      ensures Follows(ParseField(f, old(Rest())), v, Rest(), old(error), error)
    {
      var raw := ReadPod(Width(f));
      if raw.None? {
        return None;
      }
      v := Accept(f, raw.value);
      if v.None? {
        Fail(if f == Boolean then InvalidBoolean else InvalidEnum);
      }
    }

    /** Reads every field of a record in turn, even after one has failed, and then looks
        whether all of them are there. */
    method ReadFields(record: Record) returns (values: Option<seq<int>>)
      requires Valid()
      modifies this
      ensures Valid()
      ensures Follows(Parse(record, old(Rest())), values, Rest(), old(error), error)
    {
      hide ParseField;
      ghost var start := Rest();
      var got: seq<int> := [];
      var complete := true;
      assert record[0..] == record;
      PrefixedByNothing(Parse(record, start));
      var i := 0;
      while i < |record|
        invariant Valid() && i <= |record|
        invariant !complete ==> Parse(record, start) == None && error != NoError
        invariant complete ==> error == old(error)
        invariant complete ==> Parse(record, start) == Prefixed(got, Parse(record[i..], Rest()))
      {
        assert record[i..][1..] == record[i + 1..];
        ghost var before := Rest();
        ghost var was := error;
        var v := ReadField(record[i]);
        if v.None? {
          complete := false;
        } else if complete {
          assert [v.value] + [] == [v.value];
          PrefixedTwice(got, v.value, Parse(record[i + 1..], Rest()));
          got := got + [v.value];
        }
        i := i + 1;
      }
      assert record[i..] == [] && got + [] == got;
      values := if complete then Some(got) else None;
    }

    method ReadEntity() returns (e: Option<EntityState>)
      requires Valid()
      modifies this
      ensures Valid()
      ensures Follows(ParseEntity(old(Rest())), e, Rest(), old(error), error)
    {
      hide Parse;
      ghost var start := Rest();
      var movement := ReadFields(MOVEMENT);
      if movement.Some? {
        ParsedAreNatural(MOVEMENT, start);
      }
      ghost var r1 := Rest();
      var flag := ReadFields([Boolean]);
      if movement.None? || flag.None? {
        return None;
      }
      ParsedAreNatural([Boolean], r1);
      var combat: Option<CombatState> := None;
      if flag.value[0] != 0 {
        ghost var r2 := Rest();
        var values := ReadFields(COMBAT);
        if values.None? {
          return None;
        }
        ParsedAreNatural(COMBAT, r2);
        combat := Some(CombatFrom(values.value));
      }
      ghost var r3 := Rest();
      var replica := ReadFields(REPLICA);
      if replica.None? {
        return None;
      }
      ParsedAreNatural(REPLICA, r3);
      e := Some(EntityState(MovementFrom(movement.value), combat, ReplicaFrom(replica.value)));
    }

    method ReadEntities(count: nat) returns (entities: Option<seq<EntityState>>)
      requires Valid()
      modifies this
      ensures Valid()
      ensures Follows(ParseEntities(count, old(Rest())), entities, Rest(), old(error), error)
    {
      hide ParseEntity;
      ghost var start := Rest();
      var got := [];
      WithFrontNothing(ParseEntities(count, start));
      var i := 0;
      while i < count
        invariant Valid() && error == old(error) && i <= count
        invariant ParseEntities(count, start) == WithFront(got, ParseEntities(count - i, Rest()))
      {
        var e := ReadEntity();
        if e.None? {
          return None;
        }
        WithFrontTwice(got, e.value, ParseEntities(count - i - 1, Rest()));
        got := got + [e.value];
        i := i + 1;
      }
      assert got + [] == got;
      entities := Some(got);
    }

    method ReadHead() returns (head: Option<Snapshot>)
      requires Valid()
      modifies this
      ensures Valid()
      ensures Follows(ParseHead(old(Rest())), head, Rest(), old(error), error)
    {
      hide Parse;
      ghost var start := Rest();
      var values := ReadFields(SNAPSHOT_HEAD);
      if values.None? {
        return None;
      }
      ParsedAreNatural(SNAPSHOT_HEAD, start);
      head := Some(HeadFrom(values.value, []));
    }

    method ReadPayload(kind: nat) returns (payload: Option<Payload>)
      requires Valid() && kind <= 9
      modifies this
      ensures Valid()
      ensures Follows(ParsePayload(kind, old(Rest())), payload, Rest(), old(error), error)
    {
      hide Parse, PayloadRecord, PayloadFrom;
      ghost var start := Rest();
      var values := ReadFields(PayloadRecord(kind));
      if values.None? {
        return None;
      }
      ParsedAreNatural(PayloadRecord(kind), start);
      payload := Some(PayloadFrom(kind, values.value));
    }

    /** The entity count, limited by the room left before it is read. */
    method ReadEntityCount() returns (count: Option<nat>)
      requires Valid()
      modifies this
      ensures Valid()
      ensures Follows(ParseCount(old(Rest())), count, Rest(), old(error), error)
    {
      CountIsField(Rest());
      hide ParseCount;
      count := ReadCount((|bytes| - offset) / MIN_ENTITY_BYTES);
    }

    /** A count that is refused when it exceeds the limit. */
    method ReadCount(limit: nat) returns (count: Option<nat>)
      requires Valid()
      modifies this
      ensures Valid()
      ensures 4 <= |old(Rest())| && Number(old(Rest())[..4]) <= limit ==>
                count == Some(Number(old(Rest())[..4])) && Rest() == old(Rest())[4..] && error == old(error)
      ensures 4 > |old(Rest())| || Number(old(Rest())[..4]) > limit ==> count == None && error != NoError
    {
      var raw := ReadPod(4);
      if raw.None? {
        return None;
      }
      if raw.value > limit {
        Fail(InvalidCount);
        return None;
      }
      count := raw;
    }

    method Finish() returns (finished: bool)
      requires Valid()
      modifies this`error
      ensures finished <==> old(error) == NoError && Rest() == []
      ensures error == if old(error) == NoError && Rest() != [] then TrailingBytes else old(error)
    {
      if error != NoError {
        return false;
      }
      if offset != |bytes| {
        error := TrailingBytes;
        return false;
      }
      return true;
    }
  }

  function Prefixed(got: seq<int>, parsed: Option<(seq<int>, seq<byte>)>): Option<(seq<int>, seq<byte>)> {
    match parsed
    case None => None
    case Some((vs, rest)) => Some((got + vs, rest))
  }

  lemma PrefixedByNothing(parsed: Option<(seq<int>, seq<byte>)>)
    ensures Prefixed([], parsed) == parsed
  {
    if parsed.Some? {
      assert [] + parsed.value.0 == parsed.value.0;
    }
  }

  lemma PrefixedTwice(got: seq<int>, v: int, parsed: Option<(seq<int>, seq<byte>)>)
    ensures Prefixed(got, Prefixed([v], parsed)) == Prefixed(got + [v], parsed)
  {
    if parsed.Some? {
      assert got + ([v] + parsed.value.0) == got + [v] + parsed.value.0;
    }
  }

  lemma CountIsField(bytes: seq<byte>)
    ensures ParseCount(bytes)
         == if 4 <= |bytes| && Number(bytes[..4]) <= |bytes| / MIN_ENTITY_BYTES
            then Some((Number(bytes[..4]), bytes[4..])) else None
  {
    assert Parse([U32][1..], if 4 <= |bytes| then bytes[4..] else []) == Some(([], if 4 <= |bytes| then bytes[4..] else []));
  }

  method DeserializeSnapshot(bytes: seq<byte>) returns (snapshot: Option<Snapshot>)
    ensures snapshot == DecodeSnapshot(bytes)
  {
    hide ParseHead, ParseCount, ParseEntities;
    var reader := new BinaryReader(bytes);
    var head := reader.ReadHead();
    var count := reader.ReadEntityCount();
    if head.None? || count.None? {
      return None;
    }
    var entities := reader.ReadEntities(count.value);
    if entities.None? {
      return None;
    }
    var finished := reader.Finish();
    if !finished {
      return None;
    }
    snapshot := Some(head.value.(entities := entities.value));
  }

  function WithFront(front: seq<EntityState>, parsed: Option<(seq<EntityState>, seq<byte>)>): Option<(seq<EntityState>, seq<byte>)> {
    match parsed
    case None => None
    case Some((es, rest)) => Some((front + es, rest))
  }

  lemma WithFrontNothing(parsed: Option<(seq<EntityState>, seq<byte>)>)
    ensures WithFront([], parsed) == parsed
  {
    if parsed.Some? {
      assert [] + parsed.value.0 == parsed.value.0;
    }
  }

  lemma WithFrontTwice(front: seq<EntityState>, e: EntityState, parsed: Option<(seq<EntityState>, seq<byte>)>)
    ensures WithFront(front, WithFront([e], parsed)) == WithFront(front + [e], parsed)
  {
    if parsed.Some? {
      assert front + ([e] + parsed.value.0) == front + [e] + parsed.value.0;
    }
  }

  lemma EventHeadFacts(bytes: seq<byte>)
    requires Parse(EVENT_HEAD, bytes).Some?
    ensures var vs := Parse(EVENT_HEAD, bytes).value.0;
            |vs| == 4 && vs[0] >= 0 && vs[1] >= 0 && vs[2] >= 0 && 0 <= vs[3] <= 9
  {
    ParsedAreNatural(EVENT_HEAD, bytes);
    EncodeDecoded(EVENT_HEAD, bytes);
    hide Parse, Encode;
    assert Fits(EVENT_HEAD[3], Parse(EVENT_HEAD, bytes).value.0[3]);
  }

  method DeserializeNetworkEvent(bytes: seq<byte>) returns (event: Option<NetworkEvent>)
    ensures event == DecodeEvent(bytes)
  {
    hide Parse, ParsePayload;
    var reader := new BinaryReader(bytes);
    var head := reader.ReadFields(EVENT_HEAD);
    if head.None? {
      return None;
    }
    EventHeadFacts(bytes);
    var payload := reader.ReadPayload(head.value[3]);
    if payload.None? {
      return None;
    }
    var finished := reader.Finish();
    if !finished {
      return None;
    }
    event := Some(NetworkEvent(head.value[0], head.value[1], head.value[2], payload.value));
  }
}
