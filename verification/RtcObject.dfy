/** The RTC endpoint, the signalling hub and client, the data channel and the pumped
    transport as the objects they are, each method proved against Rtc.dfy
    (Networking/src/KcpRtcTransport.cpp, KcpRtcPumpedTransport.cpp, RtcSignalingClient.cpp,
    RtcDataChannel.cpp and the two pumps). */
module RtcObject {
  import opened Basics
  import opened Fields
  import opened Frame
  import opened Rtc

  class KcpRtcTransport {
    const c: Config
    var status: Status
    var phase: Phase
    var remote: ClientId
    var ready: bool
    var nextSequence: nat
    var signals: seq<Signal>
    var frames: seq<seq<byte>>
    var incoming: seq<Envelope>
    var buffered: int

    function View(): Endpoint
      reads this
    {
      Endpoint(status, phase, remote, ready, nextSequence, signals, frames, incoming, buffered)
    }

    constructor (c: Config)
      ensures this.c == c && View() == NEW_ENDPOINT
    {
      this.c := c;
      status, phase, remote, ready, nextSequence := Disconnected, Idle, 0, false, 1;
      signals, frames, incoming, buffered := [], [], [], 0;
    }

    method QueueSignal(kind: Kind, target: ClientId, payload: string)
      modifies this`signals, this`nextSequence
      ensures View() == old(View()).Queue(c, kind, target, payload)
    {
      signals := signals + [Signal(kind, c.peer, target, nextSequence, c.session, payload)];
      nextSequence := nextSequence + 1;
    }

    method Connect() returns (connected: bool)
      modifies this
      ensures View() == Rtc.Connect(c, old(View())) && (connected <==> ValidConfig(c))
    {
      if !ValidConfig(c) {
        status, phase := FailedStatus, FailedPhase;
        return false;
      }
      status, phase := Connecting, Signaling;
      QueueSignal(Join, 0, c.name);
      if c.role == ClientRole {
        QueueSignal(Offer, 0, c.channelLabel);
      }
      return true;
    }

    method Send(envelope: Envelope) returns (sent: bool)
      modifies this
      ensures View() == SendInner(c, old(View()), envelope) && (sent <==> Accepts(c, old(View()), envelope))
    {
      hide EncodeFrame;
      if !Valid(envelope) || status != Connected {
        return false;
      }
      var frame := EncodeFrame(envelope);
      if buffered + |frame| > c.maxBuffered {
        return false;
      }
      buffered := buffered + |frame|;
      frames := frames + [frame];
      return true;
    }

    method Poll() returns (envelope: Option<Envelope>)
      modifies this`incoming
      ensures (View(), envelope) == PollInner(old(View()))
    {
      if incoming == [] {
        return None;
      }
      envelope := Some(incoming[0]);
      incoming := incoming[1..];
    }

    method NotifyDataChannelReady() returns (notified: bool)
      modifies this
      ensures View() == NotifyReady(c, old(View())) && (notified <==> CanNotify(old(View())))
    {
      if status == Disconnected || status == FailedStatus {
        return false;
      }
      if !ready {
        QueueSignal(DataChannelReady, remote, "");
        ready := true;
      }
      status, phase := Connected, Established;
      return true;
    }

    method PollOutgoingSignal() returns (signal: Option<Signal>)
      modifies this`signals
      ensures old(signals) == [] ==> signal == None && View() == old(View())
      ensures old(signals) != [] ==> signal == Some(old(signals)[0]) && View() == old(View()).(signals := old(signals)[1..])
    {
      if signals == [] {
        return None;
      }
      signal := Some(signals[0]);
      signals := signals[1..];
    }

    method ReceiveSignalingMessage(m: Signal)
      modifies this
      ensures View() == Receive(c, old(View()), m)
    {
      if !ValidSignal(m) || m.session != c.session || (m.target != 0 && m.target != c.peer) {
        return;
      }
      if m.sender == c.peer {
        return;
      }
      remote := m.sender;
      match m.kind {
        case Offer =>
          if c.role == ServerRole {
            phase, status := DataChannelConnecting, Connecting;
            QueueSignal(Answer, m.sender, c.channelLabel);
          }
        case Answer =>
          if c.role == ClientRole {
            phase, status := DataChannelConnecting, Connecting;
          }
        case DataChannelReady => status, phase := Connected, Established;
        case Leave => status, phase := Disconnected, Idle;
        case ErrorKind => status, phase := FailedStatus, FailedPhase;
        case Join =>
        case IceCandidate =>
      }
    }

    method PollOutgoingFrame() returns (frame: Option<seq<byte>>)
      modifies this`frames, this`buffered
      ensures old(frames) == [] ==> frame == None && View() == old(View())
      ensures old(frames) != [] ==>
                && frame == Some(old(frames)[0])
                && View() == old(View()).(frames := old(frames)[1..], buffered := old(buffered) - |old(frames)[0]|)
    {
      if frames == [] {
        return None;
      }
      frame := Some(frames[0]);
      buffered := buffered - |frames[0]|;
      frames := frames[1..];
    }

    method AcceptFrame(bytes: seq<byte>)
      modifies this`incoming
      ensures View() == ReceiveFrame(old(View()), bytes)
    {
      hide DecodeFrame;
      if status != Connected {
        return;
      }
      var decoded := DecodeFrame(bytes);
      if decoded.Ok? {
        incoming := incoming + [decoded.envelope];
      }
    }
  }

  class SignalingHub {
    var peers: Hub

    constructor ()
      ensures peers == map[]
    {
      peers := map[];
    }

    method RegisterPeer(peer: ClientId, session: string) returns (registered: bool)
      modifies this
      ensures peers == Register(old(peers), peer, session) && (registered <==> peer != 0 && session != [])
    {
      if peer == 0 || session == [] {
        return false;
      }
      peers := peers[peer := Peer(session, [])];
      return true;
    }

    method RouteMessage(m: Signal)
      modifies this
      ensures peers == Route(old(peers), m)
    {
      if !Carried(m) || m.sender !in peers || peers[m.sender].session != m.session {
        return;
      }
      if m.target != 0 {
        if m.target !in peers || peers[m.target].session != m.session {
          return;
        }
        peers := peers[m.target := peers[m.target].(incoming := peers[m.target].incoming + [m])];
        return;
      }
      peers := map p | p in peers :: if p == m.sender || peers[p].session != m.session then peers[p]
                                     else peers[p].(incoming := peers[p].incoming + [m]);
    }

    method PollFor(peer: ClientId) returns (m: Option<Signal>)
      modifies this
      ensures peer !in old(peers) || old(peers)[peer].incoming == [] ==> m == None && peers == old(peers)
      ensures peer in old(peers) && old(peers)[peer].incoming != [] ==>
                var p := old(peers)[peer];
                m == Some(p.incoming[0]) && peers == old(peers)[peer := p.(incoming := p.incoming[1..])]
    {
      if peer !in peers || peers[peer].incoming == [] {
        return None;
      }
      m := Some(peers[peer].incoming[0]);
      peers := peers[peer := peers[peer].(incoming := peers[peer].incoming[1..])];
    }
  }

  class SignalingClient {
    const hub: SignalingHub
    const c: Config
    var online: bool

    constructor (hub: SignalingHub, c: Config)
      ensures this.hub == hub && this.c == c && !online
    {
      this.hub, this.c := hub, c;
      online := false;
    }

    method ConnectToHub() returns (connected: bool)
      modifies this`online, hub
      ensures connected == online == (c.peer != 0 && c.session != [])
      ensures hub.peers == Register(old(hub.peers), c.peer, c.session)
    {
      connected := hub.RegisterPeer(c.peer, c.session);
      online := connected;
    }

    method SendMessage(m: Signal)
      requires online
      modifies hub
      ensures hub.peers == SendSignal(c, old(hub.peers), m)
    {
      if ValidSignal(m) && m.sender == c.peer && m.session == c.session {
        hub.RouteMessage(m);
      }
    }
  }

  /** The two directions between a pair of data channels. */
  class Wires {
    var aToB: seq<seq<byte>>
    var bToA: seq<seq<byte>>

    constructor ()
      ensures aToB == [] && bToA == []
    {
      aToB, bToA := [], [];
    }
  }

  class DataChannel {
    const wires: Wires
    const atA: bool

    function Out(): seq<seq<byte>>
      reads wires
    {
      if atA then wires.aToB else wires.bToA
    }

    function Into(): seq<seq<byte>>
      reads wires
    {
      if atA then wires.bToA else wires.aToB
    }

    constructor (wires: Wires, atA: bool)
      ensures this.wires == wires && this.atA == atA
    {
      this.wires, this.atA := wires, atA;
    }

    method SendFrame(frame: seq<byte>)
      modifies wires
      ensures Out() == old(Out()) + (if frame == [] then [] else [frame]) && Into() == old(Into())
    {
      if frame == [] {
        assert Out() + [] == Out();
        return;
      }
      if atA {
        wires.aToB := wires.aToB + [frame];
      } else {
        wires.bToA := wires.bToA + [frame];
      }
    }

    method PollFrame() returns (frame: Option<seq<byte>>)
      modifies wires
      ensures Out() == old(Out())
      ensures old(Into()) == [] ==> frame == None && Into() == []
      ensures old(Into()) != [] ==> frame == Some(old(Into())[0]) && Into() == old(Into())[1..]
    {
      if Into() == [] {
        return None;
      }
      frame := Some(Into()[0]);
      if atA {
        wires.bToA := wires.bToA[1..];
      } else {
        wires.aToB := wires.aToB[1..];
      }
    }
  }

  // --- the pumps ---

  method FlushSignals(transport: KcpRtcTransport, signaling: SignalingClient)
    requires signaling.online && signaling.c == transport.c
    modifies transport`signals, signaling.hub
    ensures transport.View() == old(transport.View()).(signals := [])
    ensures signaling.hub.peers == SendSignals(transport.c, old(signaling.hub.peers), old(transport.signals))
  {
    hide SendSignal;
    ghost var all := transport.signals;
    while transport.signals != []
      invariant transport.View() == old(transport.View()).(signals := transport.signals)
      invariant SendSignals(transport.c, signaling.hub.peers, transport.signals)
             == SendSignals(transport.c, old(signaling.hub.peers), all)
      decreases |transport.signals|
    {
      var signal := transport.PollOutgoingSignal();
      signaling.SendMessage(signal.value);
    }
  }

  method TakeSignals(transport: KcpRtcTransport, signaling: SignalingClient)
    requires signaling.online && signaling.c == transport.c
    modifies transport, signaling.hub
    ensures var hub := old(signaling.hub.peers);
            if transport.c.peer !in hub then transport.View() == old(transport.View()) && signaling.hub.peers == hub
            else transport.View() == ReceiveAll(transport.c, old(transport.View()), hub[transport.c.peer].incoming)
                 && signaling.hub.peers == hub[transport.c.peer := hub[transport.c.peer].(incoming := [])]
  {
    hide Receive;
    var peer := transport.c.peer;
    ghost var start := signaling.hub.peers;
    if peer !in signaling.hub.peers {
      return;
    }
    while signaling.hub.peers[peer].incoming != []
      invariant peer in signaling.hub.peers
      invariant signaling.hub.peers == start[peer := start[peer].(incoming := signaling.hub.peers[peer].incoming)]
      invariant ReceiveAll(transport.c, transport.View(), signaling.hub.peers[peer].incoming)
             == ReceiveAll(transport.c, old(transport.View()), start[peer].incoming)
      decreases |signaling.hub.peers[peer].incoming|
    {
      var m := signaling.hub.PollFor(peer);
      transport.ReceiveSignalingMessage(m.value);
    }
  }

  method PumpKcpRtcSignaling(transport: KcpRtcTransport, signaling: SignalingClient)
    requires signaling.online && signaling.c == transport.c
    modifies transport, signaling.hub
    ensures (transport.View(), signaling.hub.peers)
         == PumpSignals(transport.c, old(transport.View()), old(signaling.hub.peers))
  {
    hide SendSignals, ReceiveAll;
    FlushSignals(transport, signaling);
    TakeSignals(transport, signaling);
  }

  method FlushFrames(transport: KcpRtcTransport, channel: DataChannel)
    modifies transport`frames, transport`buffered, channel.wires
    ensures transport.View()
         == old(transport.View()).(frames := [], buffered := old(transport.buffered) - SumSizes(old(transport.frames)))
    ensures channel.Out() == old(channel.Out()) + Sendable(old(transport.frames)) && channel.Into() == old(channel.Into())
  {
    hide Sendable, SumSizes;
    ghost var start := transport.View();
    while transport.frames != []
      invariant transport.View() == start.(frames := transport.frames, buffered := transport.buffered)
      invariant transport.buffered - SumSizes(transport.frames) == start.buffered - SumSizes(start.frames)
      invariant channel.Out() + Sendable(transport.frames) == old(channel.Out()) + Sendable(start.frames)
      invariant channel.Into() == old(channel.Into())
      decreases |transport.frames|
    {
      FramesUnfold(channel.Out(), transport.frames);
      var frame := transport.PollOutgoingFrame();
      channel.SendFrame(frame.value);
    }
    FramesUnfold(channel.Out(), []);
  }

  lemma FramesUnfold(out: seq<seq<byte>>, frames: seq<seq<byte>>)
    ensures frames == [] ==> Sendable(frames) == [] && SumSizes(frames) == 0 && out + Sendable(frames) == out
    ensures frames != [] ==> SumSizes(frames) == |frames[0]| + SumSizes(frames[1..])
    ensures frames != [] ==>
              out + Sendable(frames) == out + (if frames[0] == [] then [] else [frames[0]]) + Sendable(frames[1..])
  {
  }

  lemma PumpKeepsRest(l: Local)
    ensures PumpChannel(l).notified == l.notified && PumpChannel(l).hub == l.hub
  {
  }

  method TakeFrames(transport: KcpRtcTransport, channel: DataChannel)
    modifies transport`incoming, channel.wires
    ensures transport.View() == ReceiveFrames(old(transport.View()), old(channel.Into()))
    ensures channel.Into() == [] && channel.Out() == old(channel.Out())
  {
    hide ReceiveFrame;
    while channel.Into() != []
      invariant ReceiveFrames(transport.View(), channel.Into()) == ReceiveFrames(old(transport.View()), old(channel.Into()))
      invariant channel.Out() == old(channel.Out())
      decreases |channel.Into()|
    {
      var frame := channel.PollFrame();
      transport.AcceptFrame(frame.value);
    }
  }

  method PumpKcpRtcDataChannel(transport: KcpRtcTransport, channel: DataChannel, ghost l: Local)
    requires l.e == transport.View() && l.out == channel.Out() && l.into == channel.Into()
    modifies transport, channel.wires
    ensures var next := PumpChannel(l);
            transport.View() == next.e && channel.Out() == next.out && channel.Into() == next.into
  {
    hide ReceiveFrames, Sendable, SumSizes;
    FlushFrames(transport, channel);
    TakeFrames(transport, channel);
  }

  class PumpedTransport {
    const transport: KcpRtcTransport
    const signaling: SignalingClient
    const channel: DataChannel
    var notified: bool

    ghost predicate Valid()
      reads this, signaling
    {
      signaling.online && signaling.c == transport.c
    }

    function Here(): Local
      reads this, transport, signaling.hub, channel.wires
    {
      Local(transport.View(), notified, signaling.hub.peers, channel.Out(), channel.Into())
    }

    constructor (transport: KcpRtcTransport, signaling: SignalingClient, channel: DataChannel)
      ensures this.transport == transport && this.signaling == signaling && this.channel == channel && !notified
    {
      this.transport, this.signaling, this.channel := transport, signaling, channel;
      notified := false;
    }

    method Connect() returns (connected: bool)
      requires signaling.c == transport.c && !signaling.online
      modifies transport, signaling, signaling.hub
      ensures connected ==> Valid()
      ensures signaling.hub.peers == Register(old(signaling.hub.peers), transport.c.peer, transport.c.session)
      ensures connected <==> ValidConfig(transport.c)
      ensures connected ==> transport.View() == Rtc.Connect(transport.c, old(transport.View()))
    {
      var registered := signaling.ConnectToHub();
      if !registered {
        return false;
      }
      connected := transport.Connect();
    }

    method NotifyReadyIfPossible()
      requires Valid()
      modifies this, transport
      ensures Valid() && (transport.View(), notified) == NotifyIfPossible(transport.c, old(transport.View()), old(notified))
    {
      if notified || transport.phase != DataChannelConnecting {
        return;
      }
      notified := transport.NotifyDataChannelReady();
    }

    method Negotiate()
      requires Valid()
      modifies this, transport, signaling.hub
      ensures Valid()
      ensures (transport.View(), notified, signaling.hub.peers)
           == Rtc.Negotiate(transport.c, old(transport.View()), old(notified), old(signaling.hub.peers))
    {
      hide PumpSignals, NotifyIfPossible;
      PumpKcpRtcSignaling(transport, signaling);
      NotifyReadyIfPossible();
      PumpKcpRtcSignaling(transport, signaling);
    }

    method Update()
      requires Valid()
      modifies this, transport, signaling.hub, channel.wires
      ensures Valid() && Here() == Rtc.Update(transport.c, old(Here()))
    {
      hide Rtc.Negotiate, PumpChannel;
      Negotiate();
      PumpKeepsRest(Here());
      PumpKcpRtcDataChannel(transport, channel, Here());
    }

    method Send(envelope: Envelope) returns (sent: bool)
      requires Valid()
      modifies this, transport, signaling.hub, channel.wires
      ensures Valid() && (Here(), sent) == Rtc.Send(transport.c, old(Here()), envelope)
    {
      hide Rtc.Update, PumpChannel, SendInner, Accepts;
      Update();
      ghost var updated := Here();
      RefusedStays(transport.c, updated.e, envelope);
      sent := transport.Send(envelope);
      assert Here() == updated.(e := SendInner(transport.c, updated.e, envelope));
      if sent {
        PumpKeepsRest(Here());
        PumpKcpRtcDataChannel(transport, channel, Here());
      }
    }

    method Poll() returns (envelope: Option<Envelope>)
      requires Valid()
      modifies this, transport, signaling.hub, channel.wires
      ensures Valid() && (Here(), envelope) == Rtc.Poll(transport.c, old(Here()))
    {
      hide Rtc.Update, PollInner;
      Update();
      envelope := transport.Poll();
    }
  }

  lemma RefusedStays(c: Config, e: Endpoint, envelope: Envelope)
    ensures !Accepts(c, e, envelope) ==> SendInner(c, e, envelope) == e
  {
  }
}
