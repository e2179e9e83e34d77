/** The transport frame around a message, and which envelopes are valid
    (Networking/src/TransportPacketCodec.cpp, GameLogic/include/GameLogic/NetworkProtocol.hpp). */
module Frame {
  import opened Basics
  import opened Replication
  import opened Events
  import opened Fields
  import Wire

  datatype Channel = MovementInput | Snapshots | CombatEvents | LoginSpawn | ChatUi | TimeSync

  datatype MessageClass =
    | ClientInput | SnapshotClass | SnapshotAck | CombatEvent | LoginRequest | SpawnAccepted
    | InterestEvent | NetworkEventAck | ChatUiClass | TimeSyncRequest | TimeSyncResponse

  const PROTOCOL_VERSION := 1
  const MAX_PAYLOAD := 64 * 1024

  datatype Envelope = Envelope(
    version: nat, peer: ClientId, channel: Channel, messageClass: MessageClass, sequence: nat, payload: seq<byte>)

  datatype Error =
    | UnexpectedEof | UnsupportedVersion | InvalidChannel | InvalidMessageClass
    | PayloadTooLarge | ChannelMismatch | TrailingBytes

  datatype Decoded = Ok(envelope: Envelope) | Failed(error: Error)

  function ExpectedChannel(c: MessageClass): Channel {
    match c
    case ClientInput => MovementInput
    case SnapshotClass => Snapshots
    case SnapshotAck => Snapshots
    case CombatEvent => CombatEvents
    case LoginRequest => LoginSpawn
    case SpawnAccepted => LoginSpawn
    case InterestEvent => LoginSpawn
    case NetworkEventAck => LoginSpawn
    case ChatUiClass => ChatUi
    case TimeSyncRequest => TimeSync
    case TimeSyncResponse => TimeSync
  }

  function Validate(e: Envelope): Option<Error> {
    if e.version != PROTOCOL_VERSION then Some(UnsupportedVersion)
    else if |e.payload| > MAX_PAYLOAD then Some(PayloadTooLarge)
    else if e.channel != ExpectedChannel(e.messageClass) then Some(ChannelMismatch)
    else None
  }

  predicate Valid(e: Envelope) {
    Validate(e).None?
  }

  const CHANNELS := [MovementInput, Snapshots, CombatEvents, LoginSpawn, ChatUi, TimeSync]
  const CLASSES := [ClientInput, SnapshotClass, SnapshotAck, CombatEvent, LoginRequest, SpawnAccepted,
                    InterestEvent, NetworkEventAck, ChatUiClass, TimeSyncRequest, TimeSyncResponse]

  function ChannelCode(c: Channel): (code: nat)
    ensures code < |CHANNELS| && CHANNELS[code] == c
  {
    match c
    case MovementInput => 0
    case Snapshots => 1
    case CombatEvents => 2
    case LoginSpawn => 3
    case ChatUi => 4
    case TimeSync => 5
  }

  function ClassCode(c: MessageClass): (code: nat)
    ensures code < |CLASSES| && CLASSES[code] == c
  {
    match c
    case ClientInput => 0
    case SnapshotClass => 1
    case SnapshotAck => 2
    case CombatEvent => 3
    case LoginRequest => 4
    case SpawnAccepted => 5
    case InterestEvent => 6
    case NetworkEventAck => 7
    case ChatUiClass => 8
    case TimeSyncRequest => 9
    case TimeSyncResponse => 10
  }

  lemma CodesAreBack(channel: nat, messageClass: nat)
    ensures channel < |CHANNELS| ==> ChannelCode(CHANNELS[channel]) == channel
    ensures messageClass < |CLASSES| ==> ClassCode(CLASSES[messageClass]) == messageClass
  {
  }

  // --- the frame ---

  const HEAD: Record := [U16, U32, Unsigned(1), Unsigned(1), U32, U32]

  function HeadValues(e: Envelope): (vs: seq<int>) {
    [e.version, e.peer, ChannelCode(e.channel), ClassCode(e.messageClass), e.sequence, |e.payload| % 0x1_0000_0000]
  }

  function EncodeFrame(e: Envelope): seq<byte> {
    Encode(HEAD, HeadValues(e)) + e.payload
  }

  function DecodeFrame(bytes: seq<byte>): Decoded {
    match Parse(HEAD, bytes)
    case None => Failed(UnexpectedEof)
    case Some((vs, rest)) =>
      Wire.ParsedAreNatural(HEAD, bytes);
      assert forall k :: 0 <= k < |vs| ==> HEAD[k].Unsigned?;
      if vs[2] >= |CHANNELS| then Failed(InvalidChannel)
      else if vs[3] >= |CLASSES| then Failed(InvalidMessageClass)
      else if vs[5] > MAX_PAYLOAD then Failed(PayloadTooLarge)
      else if vs[5] > |rest| then Failed(UnexpectedEof)
      else if vs[5] != |rest| then Failed(TrailingBytes)
      else
        var e := Envelope(vs[0], vs[1], CHANNELS[vs[2]], CLASSES[vs[3]], vs[4], rest);
        match Validate(e)
        case Some(error) => Failed(error)
        case None => Ok(e)
  }

  /** The fields of an envelope fit their widths. */
  ghost predicate EnvelopeFits(e: Envelope) {
    e.version < 0x1_0000 && e.peer < 0x1_0000_0000 && e.sequence < 0x1_0000_0000
  }

  lemma Powers()
    ensures Pow256(1) == 256 && Pow256(2) == 0x1_0000 && Pow256(4) == 0x1_0000_0000
  {
    assert Pow256(1) == 256 * Pow256(0);
    assert Pow256(2) == 256 * Pow256(1);
    Wire.FourBytes();
  }

  lemma HeadFits(e: Envelope)
    requires EnvelopeFits(e)
    ensures AllFit(HEAD, HeadValues(e))
  {
    Powers();
  }

  /** A frame decodes to the envelope it was made from exactly when that is valid, and
      otherwise to the reason why it is not, or to the envelope's size being too large. */
  lemma FrameRoundTrip(e: Envelope)
    requires EnvelopeFits(e) && |e.payload| < 0x1_0000_0000
    ensures Valid(e) ==> DecodeFrame(EncodeFrame(e)) == Ok(e)
    ensures !Valid(e) ==>
              DecodeFrame(EncodeFrame(e)) == Failed(if |e.payload| > MAX_PAYLOAD then PayloadTooLarge else Validate(e).value)
  {
    HeadFits(e);
    DecodeEncoded(HEAD, HeadValues(e), e.payload);
    hide Parse, Encode, AllFit;
    assert |e.payload| % 0x1_0000_0000 == |e.payload|;
  }

  /** Every accepted frame is valid and exactly the encoding of its envelope. */
  lemma FrameBytesRoundTrip(bytes: seq<byte>)
    requires DecodeFrame(bytes).Ok?
    ensures var e := DecodeFrame(bytes).envelope;
            Valid(e) && EnvelopeFits(e) && EncodeFrame(e) == bytes
  {
    var (vs, rest) := Parse(HEAD, bytes).value;
    Wire.ParsedAreNatural(HEAD, bytes);
    EncodeDecoded(HEAD, bytes);
    Powers();
    assert Fits(HEAD[0], vs[0]) && Fits(HEAD[1], vs[1]) && Fits(HEAD[4], vs[4]);
    assert forall k :: 0 <= k < |vs| ==> HEAD[k].Unsigned?;
    hide Parse, Encode, AllFit;
    CodesAreBack(vs[2], vs[3]);
    var e := DecodeFrame(bytes).envelope;
    assert |rest| % 0x1_0000_0000 == |rest|;
    assert HeadValues(e) == vs;
  }

  /** Where each part of a frame's head is, and that the payload follows it. */
  lemma FrameLayout(e: Envelope)
    ensures var bytes := EncodeFrame(e);
            && |bytes| == 16 + |e.payload|
            && bytes[0..2] == EncodeField(U16, e.version) && bytes[2..6] == EncodeField(U32, e.peer)
            && bytes[6..7] == EncodeField(Unsigned(1), ChannelCode(e.channel))
            && bytes[7..8] == EncodeField(Unsigned(1), ClassCode(e.messageClass))
            && bytes[8..12] == EncodeField(U32, e.sequence)
            && bytes[12..16] == EncodeField(U32, |e.payload| % 0x1_0000_0000)
            && bytes[16..] == e.payload
  {
    hide Encode, EncodeField, Size;
    Wire.SizesUpTo(HEAD, 0);
    Wire.SizesUpTo(HEAD, 1);
    Wire.SizesUpTo(HEAD, 2);
    Wire.SizesUpTo(HEAD, 3);
    Wire.SizesUpTo(HEAD, 4);
    Wire.SizesUpTo(HEAD, 5);
    assert HEAD[..6] == HEAD;
    FieldAt(HEAD, HeadValues(e), 0);
    FieldAt(HEAD, HeadValues(e), 1);
    FieldAt(HEAD, HeadValues(e), 2);
    FieldAt(HEAD, HeadValues(e), 3);
    FieldAt(HEAD, HeadValues(e), 4);
    FieldAt(HEAD, HeadValues(e), 5);
    var head := Encode(HEAD, HeadValues(e));
    assert forall i, j :: 0 <= i <= j <= 16 ==> (head + e.payload)[i..j] == head[i..j];
  }

  // --- messages in frames ---

  function SnapshotEnvelope(peer: ClientId, s: Snapshot): Envelope {
    Envelope(PROTOCOL_VERSION, peer, Snapshots, SnapshotClass, s.snapshotId, Wire.EncodeSnapshot(s))
  }

  function ClassOf(p: Payload): MessageClass {
    match p
    case SpawnedDTO(_, _, _, _) => SpawnAccepted
    case EnteredDTO(_, _) => InterestEvent
    case LeftDTO(_, _) => InterestEvent
    case _ => CombatEvent
  }

  function EventEnvelope(peer: ClientId, e: NetworkEvent): Envelope {
    Envelope(PROTOCOL_VERSION, peer, ExpectedChannel(ClassOf(e.payload)), ClassOf(e.payload), e.eventId, Wire.EncodeEvent(e))
  }

  /** A snapshot crosses the wire in a frame unchanged if its encoding is at most the
      payload limit, and is refused as too large otherwise. */
  lemma SnapshotCrossesInFrame(peer: ClientId, s: Snapshot)
    requires peer < 0x1_0000_0000 && Wire.SnapshotFits(s) && |Wire.EncodeSnapshot(s)| < 0x1_0000_0000
    ensures var decoded := DecodeFrame(EncodeFrame(SnapshotEnvelope(peer, s)));
            if |Wire.EncodeSnapshot(s)| <= MAX_PAYLOAD
            then decoded.Ok? && Wire.DecodeSnapshot(decoded.envelope.payload) == Some(s)
            else decoded == Failed(PayloadTooLarge)
  {
    Powers();
    assert Fits(Wire.SNAPSHOT_HEAD[0], Wire.HeadValues(s)[0]);
    FrameRoundTrip(SnapshotEnvelope(peer, s));
    Wire.SnapshotRoundTrip(s);
    hide Wire.EncodeSnapshot, Wire.DecodeSnapshot, DecodeFrame, EncodeFrame, Wire.SnapshotFits;
  }

  lemma {:induction false} RecordSize(record: Record)
    requires forall k :: 0 <= k < |record| ==> Width(record[k]) <= 8
    ensures Size(record) <= 8 * |record|
  {
    if record != [] {
      assert forall k :: 0 <= k < |record[1..]| ==> record[1..][k] == record[k + 1];
      RecordSize(record[1..]);
    }
  }

  lemma EventsAreSmall(e: NetworkEvent)
    ensures |Wire.EncodeEvent(e)| <= 8 * 9
  {
    RecordSize(Wire.EVENT_HEAD);
    RecordSize(Wire.PayloadRecord(Wire.PayloadKind(e.payload)));
    hide Size, Encode;
  }

  /** A network event always fits its frame and crosses unchanged. */
  lemma EventCrossesInFrame(peer: ClientId, e: NetworkEvent)
    requires peer < 0x1_0000_0000 && Wire.EventFits(e)
    ensures var decoded := DecodeFrame(EncodeFrame(EventEnvelope(peer, e)));
            decoded.Ok? && Wire.DecodeEvent(decoded.envelope.payload) == Some(e)
  {
    Powers();
    assert Fits(Wire.EVENT_HEAD[0], Wire.EventHeadValues(e)[0]);
    EventsAreSmall(e);
    FrameRoundTrip(EventEnvelope(peer, e));
    Wire.EventRoundTrip(e);
    hide Wire.EncodeEvent, Wire.DecodeEvent, DecodeFrame, EncodeFrame, Wire.EventFits;
  }
}
