/** One pumped RTC endpoint, the signalling hub and the data channel, on values
    (Networking/src/KcpRtcTransport.cpp, KcpRtcPumpedTransport.cpp, KcpRtcSignalingPump.cpp,
    KcpRtcDataChannelPump.cpp, RtcSignalingClient.cpp, RtcDataChannel.cpp). */
module Rtc {
  import opened Basics
  import opened Fields
  import opened Frame

  datatype Kind = Join | Offer | Answer | IceCandidate | DataChannelReady | Leave | ErrorKind

  datatype Signal = Signal(kind: Kind, sender: ClientId, target: ClientId, sequence: nat, session: string, payload: string)

  datatype Role = ClientRole | ServerRole
  datatype Status = Disconnected | Connecting | Connected | FailedStatus
  datatype Phase = Idle | Signaling | DataChannelConnecting | Established | FailedPhase

  datatype Config = Config(
    role: Role, peer: ClientId, name: string, url: string, channelLabel: string, maxBuffered: nat, session: string)

  datatype Endpoint = Endpoint(
    status: Status, phase: Phase, remote: ClientId, ready: bool, nextSequence: nat,
    signals: seq<Signal>, frames: seq<seq<byte>>, incoming: seq<Envelope>, buffered: int)
  {
    function Queue(c: Config, kind: Kind, target: ClientId, payload: string): Endpoint {
      this.(signals := signals + [Signal(kind, c.peer, target, nextSequence, c.session, payload)],
            nextSequence := nextSequence + 1)
    }
  }

  const NEW_ENDPOINT := Endpoint(Disconnected, Idle, 0, false, 1, [], [], [], 0)

  const MAX_SIGNAL_PAYLOAD := 32 * 1024
  const MAX_SESSION := 256

  predicate ValidSignal(m: Signal) {
    m.sender != 0 && m.session != [] && |m.payload| <= MAX_SIGNAL_PAYLOAD
  }

  /** Signals that survive being written to bytes and read back by the hub. */
  predicate Carried(m: Signal) {
    ValidSignal(m) && |m.session| <= MAX_SESSION
  }

  // --- the endpoint ---

  predicate ValidConfig(c: Config) {
    c.peer != 0 && c.name != [] && c.url != [] && c.channelLabel != [] && c.maxBuffered != 0 && c.session != []
  }

  function Connect(c: Config, e: Endpoint): Endpoint {
    if !ValidConfig(c) then e.(status := FailedStatus, phase := FailedPhase)
    else
      var joined := e.(status := Connecting, phase := Signaling).Queue(c, Join, 0, c.name);
      if c.role == ClientRole then joined.Queue(c, Offer, 0, c.channelLabel) else joined
  }

  function Receive(c: Config, e: Endpoint, m: Signal): Endpoint {
    if !ValidSignal(m) || m.session != c.session || (m.target != 0 && m.target != c.peer) || m.sender == c.peer then e
    else
      var known := e.(remote := m.sender);
      match m.kind
      case Offer =>
        if c.role != ServerRole then known
        else known.(phase := DataChannelConnecting, status := Connecting).Queue(c, Answer, m.sender, c.channelLabel)
      case Answer =>
        if c.role != ClientRole then known else known.(phase := DataChannelConnecting, status := Connecting)
      case DataChannelReady => known.(status := Connected, phase := Established)
      case Leave => known.(status := Disconnected, phase := Idle)
      case ErrorKind => known.(status := FailedStatus, phase := FailedPhase)
      case Join => known
      case IceCandidate => known
  }

  predicate CanNotify(e: Endpoint) {
    e.status != Disconnected && e.status != FailedStatus
  }

  function NotifyReady(c: Config, e: Endpoint): Endpoint {
    if !CanNotify(e) then e
    else
      var told := if e.ready then e else e.Queue(c, DataChannelReady, e.remote, "").(ready := true);
      told.(status := Connected, phase := Established)
  }

  predicate Accepts(c: Config, e: Endpoint, envelope: Envelope) {
    && Valid(envelope)
    && e.status == Connected
    && e.buffered + |EncodeFrame(envelope)| <= c.maxBuffered
  }

  function SendInner(c: Config, e: Endpoint, envelope: Envelope): Endpoint {
    if !Accepts(c, e, envelope) then e
    else e.(buffered := e.buffered + |EncodeFrame(envelope)|, frames := e.frames + [EncodeFrame(envelope)])
  }

  function ReceiveFrame(e: Endpoint, bytes: seq<byte>): Endpoint {
    if e.status != Connected then e
    else
      match DecodeFrame(bytes)
      case Failed(_) => e
      case Ok(envelope) => e.(incoming := e.incoming + [envelope])
  }

  function PollInner(e: Endpoint): (Endpoint, Option<Envelope>) {
    if e.incoming == [] then (e, None) else (e.(incoming := e.incoming[1..]), Some(e.incoming[0]))
  }

  // --- the hub ---

  datatype Peer = Peer(session: string, incoming: seq<Signal>)
  type Hub = map<ClientId, Peer>

  function Register(hub: Hub, peer: ClientId, session: string): Hub {
    if peer == 0 || session == [] then hub else hub[peer := Peer(session, [])]
  }

  function Route(hub: Hub, m: Signal): Hub {
    if !Carried(m) || m.sender !in hub || hub[m.sender].session != m.session then hub
    else if m.target != 0 then
      if m.target !in hub || hub[m.target].session != m.session then hub
      else hub[m.target := hub[m.target].(incoming := hub[m.target].incoming + [m])]
    else
      map p | p in hub :: if p == m.sender || hub[p].session != m.session then hub[p]
                          else hub[p].(incoming := hub[p].incoming + [m])
  }

  /** The signalling client's send: only its own signals of its own session. */
  function SendSignal(c: Config, hub: Hub, m: Signal): Hub {
    if !ValidSignal(m) || m.sender != c.peer || m.session != c.session then hub else Route(hub, m)
  }

  function SendSignals(c: Config, hub: Hub, signals: seq<Signal>): Hub
    decreases |signals|
  {
    if signals == [] then hub else SendSignals(c, SendSignal(c, hub, signals[0]), signals[1..])
  }

  function ReceiveAll(c: Config, e: Endpoint, signals: seq<Signal>): Endpoint
    decreases |signals|
  {
    if signals == [] then e else ReceiveAll(c, Receive(c, e, signals[0]), signals[1..])
  }

  // --- pumping ---

  function PumpSignals(c: Config, e: Endpoint, hub: Hub): (Endpoint, Hub) {
    var sent := SendSignals(c, hub, e.signals);
    var quiet := e.(signals := []);
    if c.peer !in sent then (quiet, sent)
    else (ReceiveAll(c, quiet, sent[c.peer].incoming), sent[c.peer := sent[c.peer].(incoming := [])])
  }

  /** Tell the other side once that the data channel, which is always open here, is ready. */
  function NotifyIfPossible(c: Config, e: Endpoint, notified: bool): (Endpoint, bool) {
    if notified || e.phase != DataChannelConnecting then (e, notified) else (NotifyReady(c, e), CanNotify(e))
  }

  function ReceiveFrames(e: Endpoint, frames: seq<seq<byte>>): Endpoint
    decreases |frames|
  {
    if frames == [] then e else ReceiveFrames(ReceiveFrame(e, frames[0]), frames[1..])
  }

  /** Frames no longer than nothing are refused by the channel. */
  function Sendable(frames: seq<seq<byte>>): seq<seq<byte>> {
    if frames == [] then [] else (if frames[0] == [] then [] else [frames[0]]) + Sendable(frames[1..])
  }

  function SumSizes(frames: seq<seq<byte>>): nat {
    if frames == [] then 0 else |frames[0]| + SumSizes(frames[1..])
  }

  /** What one endpoint's calls can touch: itself, the hub and its two frame queues. */
  datatype Local = Local(e: Endpoint, notified: bool, hub: Hub, out: seq<seq<byte>>, into: seq<seq<byte>>)

  /** The signalling half of an update. */
  function Negotiate(c: Config, e: Endpoint, notified: bool, hub: Hub): (Endpoint, bool, Hub) {
    var (e1, hub1) := PumpSignals(c, e, hub);
    var (e2, told) := NotifyIfPossible(c, e1, notified);
    var (e3, hub3) := PumpSignals(c, e2, hub1);
    (e3, told, hub3)
  }

  /** Everything queued goes into the channel, everything in the channel comes out. */
  function PumpChannel(l: Local): Local {
    l.(e := ReceiveFrames(l.e.(frames := [], buffered := l.e.buffered - SumSizes(l.e.frames)), l.into),
       out := l.out + Sendable(l.e.frames), into := [])
  }

  function Update(c: Config, l: Local): Local {
    var (e, notified, hub) := Negotiate(c, l.e, l.notified, l.hub);
    PumpChannel(l.(e := e, notified := notified, hub := hub))
  }

  /** A send: update, hand over, and if accepted push the frame into the channel. */
  function Send(c: Config, l: Local, envelope: Envelope): (Local, bool) {
    var updated := Update(c, l);
    if !Accepts(c, updated.e, envelope) then (updated, false)
    else (PumpChannel(updated.(e := SendInner(c, updated.e, envelope))), true)
  }

  function Poll(c: Config, l: Local): (Local, Option<Envelope>) {
    var updated := Update(c, l);
    var (e, polled) := PollInner(updated.e);
    (updated.(e := e), polled)
  }

  // --- frames are left alone by signalling ---

  ghost predicate SameFrames(a: Endpoint, b: Endpoint) {
    b.frames == a.frames && b.incoming == a.incoming && b.buffered == a.buffered
  }

  lemma {:induction false} ReceiveAllKeepsFrames(c: Config, e: Endpoint, signals: seq<Signal>)
    ensures SameFrames(e, ReceiveAll(c, e, signals))
    decreases |signals|
  {
    if signals != [] {
      ReceiveAllKeepsFrames(c, Receive(c, e, signals[0]), signals[1..]);
    }
  }

  lemma NegotiateKeepsFrames(c: Config, e: Endpoint, notified: bool, hub: Hub)
    ensures SameFrames(e, Negotiate(c, e, notified, hub).0)
  {
    var (e1, hub1) := PumpSignals(c, e, hub);
    PumpKeepsFrames(c, e, hub);
    var (e2, told) := NotifyIfPossible(c, e1, notified);
    PumpKeepsFrames(c, e2, hub1);
    hide PumpSignals;
  }

  lemma PumpKeepsFrames(c: Config, e: Endpoint, hub: Hub)
    ensures SameFrames(e, PumpSignals(c, e, hub).0)
  {
    var sent := SendSignals(c, hub, e.signals);
    if c.peer in sent {
      ReceiveAllKeepsFrames(c, e.(signals := []), sent[c.peer].incoming);
    }
    hide ReceiveAll;
  }
}
