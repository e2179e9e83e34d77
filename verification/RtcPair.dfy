/** Two pumped RTC endpoints on one hub and one data channel: the handshake, and frames
    delivered exactly once and in order under any interleaving of calls. */
module RtcPair {
  import opened Basics
  import opened Fields
  import opened Frame
  import opened Rtc

  /** The pair with what each side has been allowed to send and has polled so far. */
  datatype Pair = Pair(
    client: Endpoint, server: Endpoint, clientNotified: bool, serverNotified: bool, hub: Hub,
    toServer: seq<seq<byte>>, toClient: seq<seq<byte>>,
    clientSent: seq<Envelope>, serverSent: seq<Envelope>, clientGot: seq<Envelope>, serverGot: seq<Envelope>)
  {
    function Client(): Local { Local(client, clientNotified, hub, toServer, toClient) }
    function Server(): Local { Local(server, serverNotified, hub, toClient, toServer) }

    function WithClient(l: Local): Pair {
      this.(client := l.e, clientNotified := l.notified, hub := l.hub, toServer := l.out, toClient := l.into)
    }
    function WithServer(l: Local): Pair {
      this.(server := l.e, serverNotified := l.notified, hub := l.hub, toClient := l.out, toServer := l.into)
    }
  }

  datatype Call =
    | ClientUpdate | ServerUpdate
    | ClientSend(envelope: Envelope) | ServerSend(envelope: Envelope)
    | ClientPoll | ServerPoll

  /** Both ends have called Connect and nothing else. */
  function Start(cc: Config, sc: Config): Pair {
    var hub := Register(Register(map[], cc.peer, cc.session), sc.peer, sc.session);
    Pair(Connect(cc, NEW_ENDPOINT), Connect(sc, NEW_ENDPOINT), false, false, hub, [], [], [], [], [], [])
  }

  function Added(envelopes: seq<Envelope>, polled: Option<Envelope>): seq<Envelope> {
    if polled.Some? then envelopes + [polled.value] else envelopes
  }

  function Step(cc: Config, sc: Config, p: Pair, call: Call): Pair {
    match call
    case ClientUpdate => p.WithClient(Update(cc, p.Client()))
    case ServerUpdate => p.WithServer(Update(sc, p.Server()))
    case ClientSend(envelope) =>
      var (l, sent) := Send(cc, p.Client(), envelope);
      p.WithClient(l).(clientSent := if sent then p.clientSent + [envelope] else p.clientSent)
    case ServerSend(envelope) =>
      var (l, sent) := Send(sc, p.Server(), envelope);
      p.WithServer(l).(serverSent := if sent then p.serverSent + [envelope] else p.serverSent)
    case ClientPoll =>
      var (l, polled) := Poll(cc, p.Client());
      p.WithClient(l).(clientGot := Added(p.clientGot, polled))
    case ServerPoll =>
      var (l, polled) := Poll(sc, p.Server());
      p.WithServer(l).(serverGot := Added(p.serverGot, polled))
  }

  function Run(cc: Config, sc: Config, calls: seq<Call>): Pair {
    if calls == [] then Start(cc, sc)
    else Step(cc, sc, Run(cc, sc, calls[..|calls| - 1]), calls[|calls| - 1])
  }

  // --- configurations and signals ---

  ghost predicate GoodPair(cc: Config, sc: Config) {
    && ValidConfig(cc) && ValidConfig(sc)
    && cc.role == ClientRole && sc.role == ServerRole
    && cc.peer != sc.peer && cc.session == sc.session && |cc.session| <= MAX_SESSION
    && |cc.name| <= MAX_SIGNAL_PAYLOAD && |sc.name| <= MAX_SIGNAL_PAYLOAD
    && |cc.channelLabel| <= MAX_SIGNAL_PAYLOAD && |sc.channelLabel| <= MAX_SIGNAL_PAYLOAD
  }

  /** A signal of one kind from one end to the other, or to all. */
  ghost predicate From(m: Signal, c: Config, kind: Kind, target: ClientId) {
    && m.kind == kind && m.sender == c.peer && m.target == target && m.session == c.session
    && |m.payload| <= MAX_SIGNAL_PAYLOAD
  }

  function TwoPeers(cc: Config, sc: Config, toClient: seq<Signal>, toServer: seq<Signal>): Hub {
    map[cc.peer := Peer(cc.session, toClient), sc.peer := Peer(cc.session, toServer)]
  }

  lemma ClientSignals(cc: Config, sc: Config, toClient: seq<Signal>, toServer: seq<Signal>, m: Signal)
    requires GoodPair(cc, sc) && From(m, cc, m.kind, 0)
    ensures SendSignal(cc, TwoPeers(cc, sc, toClient, toServer), m) == TwoPeers(cc, sc, toClient, toServer + [m])
  {
  }

  lemma ServerSignals(cc: Config, sc: Config, toClient: seq<Signal>, toServer: seq<Signal>, m: Signal)
    requires GoodPair(cc, sc) && (From(m, sc, m.kind, 0) || From(m, sc, m.kind, cc.peer))
    ensures SendSignal(sc, TwoPeers(cc, sc, toClient, toServer), m) == TwoPeers(cc, sc, toClient + [m], toServer)
  {
  }

  lemma SendsUnfold(c: Config, hub: Hub, signals: seq<Signal>)
    ensures signals == [] ==> SendSignals(c, hub, signals) == hub
    ensures |signals| == 1 ==> SendSignals(c, hub, signals) == SendSignal(c, hub, signals[0])
    ensures |signals| == 2 ==> SendSignals(c, hub, signals) == SendSignal(c, SendSignal(c, hub, signals[0]), signals[1])
  {
    hide SendSignal;
    if |signals| == 2 {
      assert signals[1..] == [signals[1]];
      assert SendSignals(c, SendSignal(c, hub, signals[0]), [signals[1]])
          == SendSignals(c, SendSignal(c, SendSignal(c, hub, signals[0]), signals[1]), [signals[1]][1..]);
    }
  }

  lemma ReceivesUnfold(c: Config, e: Endpoint, signals: seq<Signal>)
    ensures signals == [] ==> ReceiveAll(c, e, signals) == e
    ensures signals != [] ==> ReceiveAll(c, e, signals) == ReceiveAll(c, Receive(c, e, signals[0]), signals[1..])
  {
  }

  // --- the handshake ---

  ghost predicate Waiting(e: Endpoint) {
    e.status == Connecting && e.phase == Signaling && !e.ready
  }

  ghost predicate Up(e: Endpoint) {
    e.status == Connected && e.phase == Established && e.signals == []
  }

  /** The server's join is still to be sent, or has been. */
  ghost predicate MaybeJoin(sc: Config, signals: seq<Signal>) {
    signals == [] || (|signals| == 1 && From(signals[0], sc, Join, 0))
  }

  ghost predicate JoinAndOffer(cc: Config, signals: seq<Signal>) {
    |signals| == 2 && From(signals[0], cc, Join, 0) && From(signals[1], cc, Offer, 0)
  }

  /** An answer and a ready, possibly after a join. */
  ghost predicate Answered(cc: Config, sc: Config, signals: seq<Signal>) {
    var n := |signals|;
    && (n == 2 || (n == 3 && From(signals[0], sc, Join, 0)))
    && From(signals[n - 2], sc, Answer, cc.peer) && From(signals[n - 1], sc, DataChannelReady, cc.peer)
  }

  datatype Stage = Offering | Offered | AnswerSent | BothUp

  /** Exactly what has been said, heard and queued at each stage of the handshake. */
  ghost predicate Shaken(cc: Config, sc: Config, p: Pair, stage: Stage) {
    var toClient := if cc.peer in p.hub then p.hub[cc.peer].incoming else [];
    var toServer := if sc.peer in p.hub then p.hub[sc.peer].incoming else [];
    && p.hub == TwoPeers(cc, sc, toClient, toServer)
    && match stage
       case Offering =>
         && Waiting(p.client) && !p.clientNotified && JoinAndOffer(cc, p.client.signals) && toServer == []
         && Waiting(p.server) && !p.serverNotified && MaybeJoin(sc, p.server.signals) && MaybeJoin(sc, toClient)
         && (p.server.signals == [] || toClient == [])
       case Offered =>
         && Waiting(p.client) && !p.clientNotified && p.client.signals == [] && JoinAndOffer(cc, toServer)
         && Waiting(p.server) && !p.serverNotified && MaybeJoin(sc, p.server.signals) && toClient == []
       case AnswerSent =>
         && Waiting(p.client) && !p.clientNotified && p.client.signals == [] && toServer == []
         && Up(p.server) && p.serverNotified && Answered(cc, sc, toClient)
       case BothUp =>
         && Up(p.client) && Up(p.server) && toClient == [] && toServer == []
  }

  lemma PumpUnfold(c: Config, e: Endpoint, hub: Hub)
    ensures var sent := SendSignals(c, hub, e.signals);
            PumpSignals(c, e, hub) == if c.peer !in sent then (e.(signals := []), sent)
                                      else (ReceiveAll(c, e.(signals := []), sent[c.peer].incoming), sent[c.peer := sent[c.peer].(incoming := [])])
  {
  }

  /** Nothing to say and nothing to hear. */
  lemma QuietPump(c: Config, e: Endpoint, hub: Hub)
    requires e.signals == [] && c.peer in hub && hub[c.peer].incoming == []
    ensures PumpSignals(c, e, hub) == (e, hub)
  {
    assert hub[c.peer := hub[c.peer].(incoming := [])] == hub;
  }

  lemma QuietNegotiation(c: Config, e: Endpoint, notified: bool, hub: Hub)
    requires e.signals == [] && c.peer in hub && hub[c.peer].incoming == [] && e.phase != DataChannelConnecting
    ensures Negotiate(c, e, notified, hub) == (e, notified, hub)
  {
    QuietPump(c, e, hub);
    hide PumpSignals;
  }

  // client at Offering

  lemma ClientOffers(cc: Config, sc: Config, e: Endpoint, toClient: seq<Signal>)
    requires GoodPair(cc, sc) && Waiting(e) && JoinAndOffer(cc, e.signals) && MaybeJoin(sc, toClient)
    ensures var (next, notified, hub) := Negotiate(cc, e, false, TwoPeers(cc, sc, toClient, []));
            && Waiting(next) && !notified && next.signals == []
            && hub == TwoPeers(cc, sc, [], e.signals)
  {
    var hub := TwoPeers(cc, sc, toClient, []);
    SendsUnfold(cc, hub, e.signals);
    ClientSignals(cc, sc, toClient, [], e.signals[0]);
    ClientSignals(cc, sc, toClient, [e.signals[0]], e.signals[1]);
    assert [] + [e.signals[0]] == [e.signals[0]];
    assert [e.signals[0]] + [e.signals[1]] == e.signals;
    var quiet := e.(signals := []);
    ReceivesUnfold(cc, quiet, toClient);
    if toClient != [] {
      ReceivesUnfold(cc, Receive(cc, quiet, toClient[0]), toClient[1..]);
    }
    hide SendSignals, ReceiveAll, SendSignal;
    var (e1, hub1) := PumpSignals(cc, e, hub);
    assert hub1 == TwoPeers(cc, sc, [], e.signals);
    assert Waiting(e1) && e1.signals == [];
    QuietPump(cc, e1, hub1);
    hide PumpSignals;
  }

  // server before the offer arrives

  lemma ServerJoins(cc: Config, sc: Config, e: Endpoint, toClient: seq<Signal>)
    requires GoodPair(cc, sc) && Waiting(e) && MaybeJoin(sc, e.signals) && MaybeJoin(sc, toClient)
    requires e.signals == [] || toClient == []
    ensures var (next, notified, hub) := Negotiate(sc, e, false, TwoPeers(cc, sc, toClient, []));
            && next == e.(signals := []) && !notified
            && hub == TwoPeers(cc, sc, toClient + e.signals, []) && MaybeJoin(sc, toClient + e.signals)
  {
    var hub := TwoPeers(cc, sc, toClient, []);
    SendsUnfold(sc, hub, e.signals);
    if e.signals != [] {
      ServerSignals(cc, sc, toClient, [], e.signals[0]);
      assert e.signals == [e.signals[0]];
    } else {
      assert toClient + e.signals == toClient;
    }
    hide SendSignals, SendSignal;
    var sent := TwoPeers(cc, sc, toClient + e.signals, []);
    var quiet := e.(signals := []);
    ReceivesUnfold(sc, quiet, []);
    PumpUnfold(sc, e, hub);
    assert sent[sc.peer := sent[sc.peer].(incoming := [])] == sent;
    QuietPump(sc, quiet, sent);
    hide PumpSignals, ReceiveAll;
  }

  // server when the offer is there

  lemma ServerHears(cc: Config, sc: Config, e: Endpoint, signals: seq<Signal>)
    requires GoodPair(cc, sc) && Waiting(e) && e.signals == [] && JoinAndOffer(cc, signals)
    ensures var next := ReceiveAll(sc, e, signals);
            && next.status == Connecting && next.phase == DataChannelConnecting && !next.ready && next.remote == cc.peer
            && |next.signals| == 1 && From(next.signals[0], sc, Answer, cc.peer)
  {
    ReceivesUnfold(sc, e, signals);
    var joined := Receive(sc, e, signals[0]);
    ReceivesUnfold(sc, joined, signals[1..]);
    var offered := Receive(sc, joined, signals[1]);
    ReceivesUnfold(sc, offered, signals[1..][1..]);
    hide ReceiveAll;
  }

  lemma ServerTells(cc: Config, sc: Config, e: Endpoint)
    requires GoodPair(cc, sc) && e.status == Connecting && e.phase == DataChannelConnecting && !e.ready && e.remote == cc.peer
    requires |e.signals| == 1 && From(e.signals[0], sc, Answer, cc.peer)
    ensures var (next, told) := NotifyIfPossible(sc, e, false);
            && told && next.status == Connected && next.phase == Established
            && |next.signals| == 2 && From(next.signals[0], sc, Answer, cc.peer) && From(next.signals[1], sc, DataChannelReady, cc.peer)
  {
  }

  lemma ServerAnswers(cc: Config, sc: Config, e: Endpoint, toServer: seq<Signal>)
    requires GoodPair(cc, sc) && Waiting(e) && MaybeJoin(sc, e.signals) && JoinAndOffer(cc, toServer)
    ensures var (next, notified, hub) := Negotiate(sc, e, false, TwoPeers(cc, sc, [], toServer));
            && Up(next) && notified
            && cc.peer in hub && hub == TwoPeers(cc, sc, hub[cc.peer].incoming, [])
            && Answered(cc, sc, hub[cc.peer].incoming)
  {
    var hub := TwoPeers(cc, sc, [], toServer);
    SendsUnfold(sc, hub, e.signals);
    if e.signals != [] {
      ServerSignals(cc, sc, [], toServer, e.signals[0]);
      assert [] + [e.signals[0]] == e.signals;
    }
    var sent := SendSignals(sc, hub, e.signals);
    assert sent == TwoPeers(cc, sc, e.signals, toServer);
    var quiet := e.(signals := []);
    ServerHears(cc, sc, quiet, toServer);
    PumpUnfold(sc, e, hub);
    var e1 := ReceiveAll(sc, quiet, toServer);
    var hub1 := TwoPeers(cc, sc, e.signals, []);
    assert sent[sc.peer := sent[sc.peer].(incoming := [])] == hub1;
    ServerTells(cc, sc, e1);
    var (e2, told) := NotifyIfPossible(sc, e1, false);
    hide Receive, ReceiveAll, NotifyIfPossible, SendSignals, SendSignal;
    SendsUnfold(sc, hub1, e2.signals);
    ServerSignals(cc, sc, e.signals, [], e2.signals[0]);
    ServerSignals(cc, sc, e.signals + [e2.signals[0]], [], e2.signals[1]);
    var heard := e.signals + [e2.signals[0]] + [e2.signals[1]];
    var hub3 := TwoPeers(cc, sc, heard, []);
    PumpUnfold(sc, e2, hub1);
    ReceivesUnfold(sc, e2.(signals := []), []);
    assert hub3[sc.peer := hub3[sc.peer].(incoming := [])] == hub3;
    hide PumpSignals;
    assert Answered(cc, sc, heard);
  }

  // client when the answer is there

  lemma ClientHears(cc: Config, sc: Config, e: Endpoint, signals: seq<Signal>)
    requires GoodPair(cc, sc) && Waiting(e) && e.signals == [] && Answered(cc, sc, signals)
    ensures Up(ReceiveAll(cc, e, signals))
  {
    ReceivesUnfold(cc, e, signals);
    var e1 := Receive(cc, e, signals[0]);
    ReceivesUnfold(cc, e1, signals[1..]);
    var e2 := Receive(cc, e1, signals[1]);
    ReceivesUnfold(cc, e2, signals[1..][1..]);
    if |signals| == 3 {
      assert signals[1..][1..] == [signals[2]];
      ReceivesUnfold(cc, Receive(cc, e2, signals[2]), []);
    }
    hide ReceiveAll;
  }

  lemma ClientComesUp(cc: Config, sc: Config, e: Endpoint, toClient: seq<Signal>)
    requires GoodPair(cc, sc) && Waiting(e) && e.signals == [] && Answered(cc, sc, toClient)
    ensures var (next, notified, hub) := Negotiate(cc, e, false, TwoPeers(cc, sc, toClient, []));
            Up(next) && hub == TwoPeers(cc, sc, [], [])
  {
    var hub := TwoPeers(cc, sc, toClient, []);
    SendsUnfold(cc, hub, e.signals);
    PumpUnfold(cc, e, hub);
    ClientHears(cc, sc, e.(signals := []), toClient);
    var e1 := ReceiveAll(cc, e.(signals := []), toClient);
    var hub1 := TwoPeers(cc, sc, [], []);
    assert hub[cc.peer := hub[cc.peer].(incoming := [])] == hub1;
    hide ReceiveAll, SendSignals;
    QuietPump(cc, e1, hub1);
    hide PumpSignals;
  }

  // --- stages ---

  function NextStage(stage: Stage, byClient: bool): Stage {
    match stage
    case Offering => if byClient then Offered else Offering
    case Offered => if byClient then Offered else AnswerSent
    case AnswerSent => if byClient then BothUp else AnswerSent
    case BothUp => BothUp
  }

  /** The parts of an endpoint that the handshake is about. */
  ghost predicate SameTalk(a: Endpoint, b: Endpoint) {
    b.status == a.status && b.phase == a.phase && b.ready == a.ready && b.signals == a.signals
  }

  lemma SameTalkShaken(cc: Config, sc: Config, p: Pair, q: Pair, stage: Stage)
    requires Shaken(cc, sc, p, stage)
    requires SameTalk(p.client, q.client) && SameTalk(p.server, q.server)
    requires q.hub == p.hub && q.clientNotified == p.clientNotified && q.serverNotified == p.serverNotified
    ensures Shaken(cc, sc, q, stage)
  {
  }

  function ClientTalks(cc: Config, p: Pair): Pair {
    var (e, notified, hub) := Negotiate(cc, p.client, p.clientNotified, p.hub);
    p.(client := e, clientNotified := notified, hub := hub)
  }

  function ServerTalks(sc: Config, p: Pair): Pair {
    var (e, notified, hub) := Negotiate(sc, p.server, p.serverNotified, p.hub);
    p.(server := e, serverNotified := notified, hub := hub)
  }

  lemma ClientShakes(cc: Config, sc: Config, p: Pair, stage: Stage)
    requires GoodPair(cc, sc) && Shaken(cc, sc, p, stage)
    ensures Shaken(cc, sc, ClientTalks(cc, p), NextStage(stage, true))
  {
    hide Negotiate;
    var toClient := p.hub[cc.peer].incoming;
    match stage {
      case Offering => ClientOffers(cc, sc, p.client, toClient);
      case Offered => QuietNegotiation(cc, p.client, p.clientNotified, p.hub);
      case AnswerSent => ClientComesUp(cc, sc, p.client, toClient);
      case BothUp => QuietNegotiation(cc, p.client, p.clientNotified, p.hub);
    }
  }

  lemma ServerShakes(cc: Config, sc: Config, p: Pair, stage: Stage)
    requires GoodPair(cc, sc) && Shaken(cc, sc, p, stage)
    ensures Shaken(cc, sc, ServerTalks(sc, p), NextStage(stage, false))
  {
    hide Negotiate;
    var toClient := p.hub[cc.peer].incoming;
    match stage {
      case Offering => ServerJoins(cc, sc, p.server, toClient);
      case Offered => ServerAnswers(cc, sc, p.server, p.hub[sc.peer].incoming);
      case AnswerSent => QuietNegotiation(sc, p.server, p.serverNotified, p.hub);
      case BothUp => QuietNegotiation(sc, p.server, p.serverNotified, p.hub);
    }
  }

  /** Only after the answer is the client up, and it is up only once the server is. */
  lemma StageStatus(cc: Config, sc: Config, p: Pair, stage: Stage)
    requires Shaken(cc, sc, p, stage)
    ensures p.client.status == Connected <==> stage == BothUp
    ensures p.server.status == Connected <==> stage == AnswerSent || stage == BothUp
  {
  }

  // --- frames ---

  function Envelopes(frames: seq<seq<byte>>): seq<Envelope>
    requires AllGood(frames)
  {
    if frames == [] then [] else [DecodeFrame(frames[0]).envelope] + Envelopes(frames[1..])
  }

  ghost predicate AllGood(frames: seq<seq<byte>>) {
    forall k :: 0 <= k < |frames| ==> DecodeFrame(frames[k]).Ok?
  }

  lemma {:induction false} ReceivesEnvelopes(e: Endpoint, frames: seq<seq<byte>>)
    requires AllGood(frames) && (frames == [] || e.status == Connected)
    ensures ReceiveFrames(e, frames) == e.(incoming := e.incoming + Envelopes(frames))
    decreases |frames|
  {
    hide DecodeFrame;
    if frames == [] {
      assert e.incoming + [] == e.incoming;
    } else {
      var envelope := DecodeFrame(frames[0]).envelope;
      ReceivesEnvelopes(ReceiveFrame(e, frames[0]), frames[1..]);
      assert e.incoming + [envelope] + Envelopes(frames[1..]) == e.incoming + ([envelope] + Envelopes(frames[1..]));
    }
  }

  lemma {:induction false} EnvelopesOfMore(frames: seq<seq<byte>>, frame: seq<byte>)
    requires AllGood(frames) && DecodeFrame(frame).Ok?
    ensures AllGood(frames + [frame])
    ensures Envelopes(frames + [frame]) == Envelopes(frames) + [DecodeFrame(frame).envelope]
  {
    hide DecodeFrame;
    if frames == [] {
      assert frames + [frame] == [frame];
      assert [frame][1..] == [];
    } else {
      EnvelopesOfMore(frames[1..], frame);
      assert (frames + [frame])[1..] == frames[1..] + [frame];
    }
  }

  ghost predicate Idle(e: Endpoint) {
    e.frames == [] && e.buffered == 0
  }

  lemma UpdateWhenIdle(c: Config, l: Local)
    requires Idle(l.e) && AllGood(l.into)
    requires l.into == [] || Negotiate(c, l.e, l.notified, l.hub).0.status == Connected
    ensures var (e, notified, hub) := Negotiate(c, l.e, l.notified, l.hub);
            && Update(c, l) == Local(e.(incoming := l.e.incoming + Envelopes(l.into)), notified, hub, l.out, [])
            && Idle(e)
  {
    NegotiateKeepsFrames(c, l.e, l.notified, l.hub);
    var (e, notified, hub) := Negotiate(c, l.e, l.notified, l.hub);
    hide Negotiate, DecodeFrame;
    ReceivesEnvelopes(e, l.into);
    assert e.(frames := [], buffered := e.buffered - SumSizes(e.frames)) == e;
    assert l.out + Sendable([]) == l.out;
  }

  lemma FrameIsSendable(envelope: Envelope)
    requires Valid(envelope) && EnvelopeFits(envelope)
    ensures Sendable([EncodeFrame(envelope)]) == [EncodeFrame(envelope)]
    ensures DecodeFrame(EncodeFrame(envelope)) == Ok(envelope)
    ensures SumSizes([EncodeFrame(envelope)]) == |EncodeFrame(envelope)|
  {
    FrameRoundTrip(envelope);
    assert |EncodeFrame(envelope)| > 0 by {
      assert Size(HEAD) == Width(HEAD[0]) + Size(HEAD[1..]);
    }
    assert [EncodeFrame(envelope)][1..] == [];
    hide EncodeFrame, DecodeFrame;
  }

  /** An accepted send leaves the endpoint idle with one more frame on its way. */
  lemma SendWhenIdle(c: Config, l: Local, envelope: Envelope)
    requires Idle(l.e) && l.into == [] && Accepts(c, l.e, envelope) && EnvelopeFits(envelope)
    ensures PumpChannel(l.(e := SendInner(c, l.e, envelope))) == l.(out := l.out + [EncodeFrame(envelope)])
  {
    FrameIsSendable(envelope);
    hide EncodeFrame, DecodeFrame;
    var queued := SendInner(c, l.e, envelope);
    assert queued.frames == [EncodeFrame(envelope)];
    assert queued.(frames := [], buffered := queued.buffered - SumSizes(queued.frames)) == l.e;
  }

  ghost predicate Flows(p: Pair) {
    && Idle(p.client) && Idle(p.server)
    && AllGood(p.toServer) && AllGood(p.toClient)
    && (p.toServer != [] ==> p.client.status == Connected)
    && (p.toClient != [] ==> p.server.status == Connected)
    && p.clientSent == p.serverGot + p.server.incoming + Envelopes(p.toServer)
    && p.serverSent == p.clientGot + p.client.incoming + Envelopes(p.toClient)
  }

  ghost predicate Inv(cc: Config, sc: Config, p: Pair, stage: Stage) {
    Shaken(cc, sc, p, stage) && Flows(p)
  }

  /** What has come out of the channel waits at the endpoint. */
  lemma ClientFlows(p: Pair, e: Endpoint, notified: bool, hub: Hub)
    requires Flows(p) && Idle(e) && (p.client.status == Connected ==> e.status == Connected)
    ensures Flows(p.(client := e.(incoming := p.client.incoming + Envelopes(p.toClient)),
                     clientNotified := notified, hub := hub, toClient := []))
  {
    hide DecodeFrame;
    assert p.clientGot + p.client.incoming + Envelopes(p.toClient) == p.clientGot + (p.client.incoming + Envelopes(p.toClient)) + [];
  }

  lemma ClientUpdates(cc: Config, sc: Config, p: Pair, stage: Stage)
    requires GoodPair(cc, sc) && Inv(cc, sc, p, stage)
    ensures var next := p.WithClient(Update(cc, p.Client()));
            Inv(cc, sc, next, NextStage(stage, true)) && next.toClient == []
  {
    var talked := ClientTalks(cc, p);
    ClientShakes(cc, sc, p, stage);
    StageStatus(cc, sc, p, stage);
    StageStatus(cc, sc, talked, NextStage(stage, true));
    hide Negotiate, Update, DecodeFrame, Shaken, Envelopes;
    UpdateWhenIdle(cc, p.Client());
    var next := p.WithClient(Update(cc, p.Client()));
    SameTalkShaken(cc, sc, talked, next, NextStage(stage, true));
    ClientFlows(p, talked.client, talked.clientNotified, talked.hub);
    hide Flows;
  }

  /** What has come out of the channel waits at the endpoint. */
  lemma ServerFlows(p: Pair, e: Endpoint, notified: bool, hub: Hub)
    requires Flows(p) && Idle(e) && (p.server.status == Connected ==> e.status == Connected)
    ensures Flows(p.(server := e.(incoming := p.server.incoming + Envelopes(p.toServer)),
                     serverNotified := notified, hub := hub, toServer := []))
  {
    hide DecodeFrame;
    assert p.serverGot + p.server.incoming + Envelopes(p.toServer) == p.serverGot + (p.server.incoming + Envelopes(p.toServer)) + [];
  }

  lemma ServerUpdates(cc: Config, sc: Config, p: Pair, stage: Stage)
    requires GoodPair(cc, sc) && Inv(cc, sc, p, stage)
    ensures var next := p.WithServer(Update(sc, p.Server()));
            Inv(cc, sc, next, NextStage(stage, false)) && next.toServer == []
  {
    var talked := ServerTalks(sc, p);
    ServerShakes(cc, sc, p, stage);
    StageStatus(cc, sc, p, stage);
    StageStatus(cc, sc, talked, NextStage(stage, false));
    hide Negotiate, Update, DecodeFrame, Shaken, Envelopes;
    UpdateWhenIdle(sc, p.Server());
    var next := p.WithServer(Update(sc, p.Server()));
    SameTalkShaken(cc, sc, talked, next, NextStage(stage, false));
    ServerFlows(p, talked.server, talked.serverNotified, talked.hub);
    hide Flows;
  }

  // --- one call ---

  function ByClient(call: Call): bool {
    call.ClientUpdate? || call.ClientSend? || call.ClientPoll?
  }

  lemma ClientSends(cc: Config, sc: Config, p: Pair, stage: Stage, envelope: Envelope)
    requires Inv(cc, sc, p, stage) && p.toClient == [] && Accepts(cc, p.client, envelope) && EnvelopeFits(envelope)
    ensures var l := PumpChannel(p.Client().(e := SendInner(cc, p.client, envelope)));
            Inv(cc, sc, p.WithClient(l).(clientSent := p.clientSent + [envelope]), stage)
  {
    SendWhenIdle(cc, p.Client(), envelope);
    FrameIsSendable(envelope);
    EnvelopesOfMore(p.toServer, EncodeFrame(envelope));
    var next := p.(toServer := p.toServer + [EncodeFrame(envelope)], clientSent := p.clientSent + [envelope]);
    hide PumpChannel, EncodeFrame, DecodeFrame, Shaken, SendInner;
    SameTalkShaken(cc, sc, p, next, stage);
  }

  lemma ServerSends(cc: Config, sc: Config, p: Pair, stage: Stage, envelope: Envelope)
    requires Inv(cc, sc, p, stage) && p.toServer == [] && Accepts(sc, p.server, envelope) && EnvelopeFits(envelope)
    ensures var l := PumpChannel(p.Server().(e := SendInner(sc, p.server, envelope)));
            Inv(cc, sc, p.WithServer(l).(serverSent := p.serverSent + [envelope]), stage)
  {
    SendWhenIdle(sc, p.Server(), envelope);
    FrameIsSendable(envelope);
    EnvelopesOfMore(p.toClient, EncodeFrame(envelope));
    var next := p.(toClient := p.toClient + [EncodeFrame(envelope)], serverSent := p.serverSent + [envelope]);
    hide PumpChannel, EncodeFrame, DecodeFrame, Shaken, SendInner;
    SameTalkShaken(cc, sc, p, next, stage);
  }

  lemma ClientPolls(cc: Config, sc: Config, p: Pair, stage: Stage)
    requires Inv(cc, sc, p, stage)
    ensures var (e, polled) := PollInner(p.client);
            Inv(cc, sc, p.(client := e, clientGot := Added(p.clientGot, polled)), stage)
  {
    var (e, polled) := PollInner(p.client);
    var next := p.(client := e, clientGot := Added(p.clientGot, polled));
    hide Shaken, DecodeFrame;
    SameTalkShaken(cc, sc, p, next, stage);
    if p.client.incoming != [] {
      assert p.client.incoming == [p.client.incoming[0]] + p.client.incoming[1..];
      assert p.clientGot + p.client.incoming + Envelopes(p.toClient)
          == next.clientGot + next.client.incoming + Envelopes(next.toClient);
    }
  }

  lemma ServerPolls(cc: Config, sc: Config, p: Pair, stage: Stage)
    requires Inv(cc, sc, p, stage)
    ensures var (e, polled) := PollInner(p.server);
            Inv(cc, sc, p.(server := e, serverGot := Added(p.serverGot, polled)), stage)
  {
    var (e, polled) := PollInner(p.server);
    var next := p.(server := e, serverGot := Added(p.serverGot, polled));
    hide Shaken, DecodeFrame;
    SameTalkShaken(cc, sc, p, next, stage);
    if p.server.incoming != [] {
      assert p.server.incoming == [p.server.incoming[0]] + p.server.incoming[1..];
      assert p.serverGot + p.server.incoming + Envelopes(p.toServer)
          == next.serverGot + next.server.incoming + Envelopes(next.toServer);
    }
  }

  /** Envelopes handed to the transport fit the widths of their fields. */
  ghost predicate Typed(call: Call) {
    (call.ClientSend? || call.ServerSend?) ==> EnvelopeFits(call.envelope)
  }

  lemma ClientStepKeepsInv(cc: Config, sc: Config, p: Pair, call: Call, stage: Stage)
    requires GoodPair(cc, sc) && Inv(cc, sc, p, stage) && Typed(call) && ByClient(call)
    ensures Inv(cc, sc, Step(cc, sc, p, call), NextStage(stage, true))
  {
    ClientUpdates(cc, sc, p, stage);
    var updated := p.WithClient(Update(cc, p.Client()));
    hide Inv, Update, PollInner, SendInner, PumpChannel, Accepts;
    match call {
      case ClientUpdate =>
      case ClientSend(envelope) =>
        if Accepts(cc, updated.client, envelope) {
          ClientSends(cc, sc, updated, NextStage(stage, true), envelope);
        }
      case ClientPoll =>
        ClientPolls(cc, sc, updated, NextStage(stage, true));
    }
  }

  lemma ServerStepKeepsInv(cc: Config, sc: Config, p: Pair, call: Call, stage: Stage)
    requires GoodPair(cc, sc) && Inv(cc, sc, p, stage) && Typed(call) && !ByClient(call)
    ensures Inv(cc, sc, Step(cc, sc, p, call), NextStage(stage, false))
  {
    ServerUpdates(cc, sc, p, stage);
    var updated := p.WithServer(Update(sc, p.Server()));
    hide Inv, Update, PollInner, SendInner, PumpChannel, Accepts;
    match call {
      case ServerUpdate =>
      case ServerSend(envelope) =>
        if Accepts(sc, updated.server, envelope) {
          ServerSends(cc, sc, updated, NextStage(stage, false), envelope);
        }
      case ServerPoll =>
        ServerPolls(cc, sc, updated, NextStage(stage, false));
    }
  }

  // --- whole runs ---

  function StageAfter(calls: seq<Call>): Stage {
    if calls == [] then Offering else NextStage(StageAfter(calls[..|calls| - 1]), ByClient(calls[|calls| - 1]))
  }

  lemma StartInv(cc: Config, sc: Config)
    requires GoodPair(cc, sc)
    ensures Inv(cc, sc, Start(cc, sc), Offering)
  {
    assert Start(cc, sc).hub == TwoPeers(cc, sc, [], []);
  }

  lemma {:induction false} RunKeepsInv(cc: Config, sc: Config, calls: seq<Call>)
    requires GoodPair(cc, sc) && (forall k :: 0 <= k < |calls| ==> Typed(calls[k]))
    ensures Inv(cc, sc, Run(cc, sc, calls), StageAfter(calls))
  {
    if calls == [] {
      StartInv(cc, sc);
    } else {
      var front, last := calls[..|calls| - 1], calls[|calls| - 1];
      RunKeepsInv(cc, sc, front);
      hide Inv, Step;
      if ByClient(last) {
        ClientStepKeepsInv(cc, sc, Run(cc, sc, front), last, StageAfter(front));
      } else {
        ServerStepKeepsInv(cc, sc, Run(cc, sc, front), last, StageAfter(front));
      }
    }
  }

  /** Exactly once and in order: under every interleaving of updates, sends and polls, the
      envelopes accepted at one end are those polled at the other, followed by those
      waiting there, followed by those in the channel; nothing lingers at the sender. */
  lemma DeliversExactlyOnceInOrder(cc: Config, sc: Config, calls: seq<Call>)
    requires GoodPair(cc, sc) && (forall k :: 0 <= k < |calls| ==> Typed(calls[k]))
    ensures var p := Run(cc, sc, calls);
            && p.client.frames == [] && p.server.frames == []
            && AllGood(p.toServer) && AllGood(p.toClient)
            && p.clientSent == p.serverGot + p.server.incoming + Envelopes(p.toServer)
            && p.serverSent == p.clientGot + p.client.incoming + Envelopes(p.toClient)
  {
    RunKeepsInv(cc, sc, calls);
  }

  function Rank(stage: Stage): nat {
    match stage case Offering => 0 case Offered => 1 case AnswerSent => 2 case BothUp => 3
  }

  lemma StageAt(calls: seq<Call>, n: nat)
    requires n < |calls|
    ensures StageAfter(calls[..n + 1]) == NextStage(StageAfter(calls[..n]), ByClient(calls[n]))
  {
    assert calls[..n + 1][..n] == calls[..n];
  }

  lemma {:induction false} StagesOnlyRise(calls: seq<Call>, m: nat, n: nat)
    requires m <= n <= |calls|
    ensures Rank(StageAfter(calls[..m])) <= Rank(StageAfter(calls[..n]))
  {
    if m < n {
      StagesOnlyRise(calls, m, n - 1);
      StageAt(calls, n - 1);
      hide StageAfter;
    }
  }

  lemma ThreeCallsSuffice(calls: seq<Call>, i: nat, j: nat, k: nat)
    requires i < j < k < |calls| && ByClient(calls[i]) && !ByClient(calls[j]) && ByClient(calls[k])
    ensures StageAfter(calls) == BothUp
  {
    hide StageAfter;
    StageAt(calls, i);
    StagesOnlyRise(calls, i + 1, j);
    StageAt(calls, j);
    StagesOnlyRise(calls, j + 1, k);
    StageAt(calls, k);
    StagesOnlyRise(calls, k + 1, |calls|);
    assert calls[..|calls|] == calls;
  }

  /** Both ends are connected as soon as client, server and client have each made some
      call in that order. */
  lemma ThreeUpdatesConnect(cc: Config, sc: Config, calls: seq<Call>, i: nat, j: nat, k: nat)
    requires GoodPair(cc, sc) && (forall n :: 0 <= n < |calls| ==> Typed(calls[n]))
    requires i < j < k < |calls| && ByClient(calls[i]) && !ByClient(calls[j]) && ByClient(calls[k])
    ensures var p := Run(cc, sc, calls);
            p.client.status == Connected && p.server.status == Connected
  {
    RunKeepsInv(cc, sc, calls);
    ThreeCallsSuffice(calls, i, j, k);
    hide Run, StageAfter;
  }

  // --- configurations that cannot connect ---

  /** The session or the label is too long to be carried in an offer. */
  ghost predicate TooLong(cc: Config, sc: Config) {
    && ValidConfig(cc) && ValidConfig(sc)
    && cc.role == ClientRole && sc.role == ServerRole && cc.peer != sc.peer && cc.session == sc.session
    && (|cc.session| > MAX_SESSION || |cc.channelLabel| > MAX_SIGNAL_PAYLOAD)
  }

  ghost predicate OnlyJoins(signals: seq<Signal>) {
    forall k :: 0 <= k < |signals| ==> signals[k].kind == Join
  }

  /** Only joins, and offers that cannot be carried. */
  ghost predicate Harmless(signals: seq<Signal>) {
    forall k :: 0 <= k < |signals| ==> signals[k].kind == Join || !Carried(signals[k])
  }

  ghost predicate HubStuck(hub: Hub) {
    forall p :: p in hub ==> OnlyJoins(hub[p].incoming)
  }

  lemma {:induction false} HarmlessSends(c: Config, hub: Hub, signals: seq<Signal>)
    requires HubStuck(hub) && Harmless(signals)
    ensures HubStuck(SendSignals(c, hub, signals))
    decreases |signals|
  {
    if signals != [] {
      assert HubStuck(SendSignal(c, hub, signals[0]));
      assert Harmless(signals[1..]) by {
        assert forall k :: 0 <= k < |signals[1..]| ==> signals[1..][k] == signals[k + 1];
      }
      hide SendSignal, Carried;
      HarmlessSends(c, SendSignal(c, hub, signals[0]), signals[1..]);
    }
  }

  lemma {:induction false} JoinsChangeNothing(c: Config, e: Endpoint, signals: seq<Signal>)
    requires OnlyJoins(signals)
    ensures SameTalk(e, ReceiveAll(c, e, signals))
    decreases |signals|
  {
    if signals != [] {
      assert SameTalk(e, Receive(c, e, signals[0]));
      JoinsChangeNothing(c, Receive(c, e, signals[0]), signals[1..]);
      hide Receive;
    }
  }

  ghost predicate Stuck(e: Endpoint) {
    Waiting(e) && Harmless(e.signals) && Idle(e)
  }

  lemma StuckPump(c: Config, e: Endpoint, hub: Hub)
    requires Stuck(e) && HubStuck(hub)
    ensures var (next, after) := PumpSignals(c, e, hub);
            Stuck(next) && HubStuck(after)
  {
    HarmlessSends(c, hub, e.signals);
    PumpKeepsFrames(c, e, hub);
    var sent := SendSignals(c, hub, e.signals);
    if c.peer in sent {
      JoinsChangeNothing(c, e.(signals := []), sent[c.peer].incoming);
    }
    hide SendSignals, ReceiveAll;
  }

  lemma StuckUpdate(c: Config, l: Local)
    requires Stuck(l.e) && HubStuck(l.hub) && l.into == [] && l.out == []
    ensures var next := Update(c, l);
            Stuck(next.e) && HubStuck(next.hub) && next.into == [] && next.out == [] && next.e.incoming == l.e.incoming
  {
    var (e1, hub1) := PumpSignals(c, l.e, l.hub);
    StuckPump(c, l.e, l.hub);
    StuckPump(c, e1, hub1);
    NegotiateKeepsFrames(c, l.e, l.notified, l.hub);
    hide PumpSignals;
    UpdateWhenIdle(c, l);
    hide Update;
  }

  ghost predicate PairStuck(p: Pair) {
    && Stuck(p.client) && Stuck(p.server) && HubStuck(p.hub)
    && p.toServer == [] && p.toClient == [] && p.client.incoming == [] && p.server.incoming == []
    && p.clientSent == [] && p.serverSent == [] && p.clientGot == [] && p.serverGot == []
  }

  lemma StepStaysStuck(cc: Config, sc: Config, p: Pair, call: Call)
    requires PairStuck(p)
    ensures PairStuck(Step(cc, sc, p, call))
  {
    hide Update, HubStuck;
    if ByClient(call) {
      StuckUpdate(cc, p.Client());
    } else {
      StuckUpdate(sc, p.Server());
    }
  }

  /** A pair connects only if its session and label are short enough: otherwise no run of
      calls connects either end and no envelope is ever accepted. */
  lemma {:induction false} TooLongNeverConnects(cc: Config, sc: Config, calls: seq<Call>)
    requires TooLong(cc, sc)
    ensures var p := Run(cc, sc, calls);
            && p.client.status == Connecting && p.server.status == Connecting
            && p.clientSent == [] && p.serverSent == []
    ensures PairStuck(Run(cc, sc, calls))
  {
    if calls == [] {
      assert forall p :: p in Start(cc, sc).hub ==> Start(cc, sc).hub[p].incoming == [];
    } else {
      TooLongNeverConnects(cc, sc, calls[..|calls| - 1]);
      StepStaysStuck(cc, sc, Run(cc, sc, calls[..|calls| - 1]), calls[|calls| - 1]);
      hide Step;
    }
  }

  // --- the in-memory pair ---

  datatype PairConfig = PairConfig(clientPeer: ClientId, serverPeer: ClientId, session: string, channelLabel: string, maxBuffered: nat)

  function ClientOf(k: PairConfig): Config {
    Config(ClientRole, k.clientPeer, "client", "memory://signaling", k.channelLabel, k.maxBuffered, k.session)
  }

  function ServerOf(k: PairConfig): Config {
    Config(ServerRole, k.serverPeer, "server", "memory://signaling", k.channelLabel, k.maxBuffered, k.session)
  }

  /** For a usable pair whose ends are called client, server, client: both ends come up if
      and only if session and label fit the signalling limits. */
  lemma PairConnectsIff(k: PairConfig, calls: seq<Call>, i: nat, j: nat, m: nat)
    requires ValidConfig(ClientOf(k)) && ValidConfig(ServerOf(k)) && k.clientPeer != k.serverPeer
    requires forall n :: 0 <= n < |calls| ==> Typed(calls[n])
    requires i < j < m < |calls| && ByClient(calls[i]) && !ByClient(calls[j]) && ByClient(calls[m])
    ensures var p := Run(ClientOf(k), ServerOf(k), calls);
            (p.client.status == Connected && p.server.status == Connected)
            <==> (|k.session| <= MAX_SESSION && |k.channelLabel| <= MAX_SIGNAL_PAYLOAD)
  {
    if |k.session| <= MAX_SESSION && |k.channelLabel| <= MAX_SIGNAL_PAYLOAD {
      ThreeUpdatesConnect(ClientOf(k), ServerOf(k), calls, i, j, m);
    } else {
      TooLongNeverConnects(ClientOf(k), ServerOf(k), calls);
    }
    hide Run;
  }

  /** Every usable pair delivers exactly once and in order, under every interleaving. */
  lemma PairDelivers(k: PairConfig, calls: seq<Call>)
    requires ValidConfig(ClientOf(k)) && ValidConfig(ServerOf(k)) && k.clientPeer != k.serverPeer
    requires forall n :: 0 <= n < |calls| ==> Typed(calls[n])
    ensures var p := Run(ClientOf(k), ServerOf(k), calls);
            && p.client.frames == [] && p.server.frames == []
            && AllGood(p.toServer) && AllGood(p.toClient)
            && p.clientSent == p.serverGot + p.server.incoming + Envelopes(p.toServer)
            && p.serverSent == p.clientGot + p.client.incoming + Envelopes(p.toClient)
  {
    if |k.session| <= MAX_SESSION && |k.channelLabel| <= MAX_SIGNAL_PAYLOAD {
      DeliversExactlyOnceInOrder(ClientOf(k), ServerOf(k), calls);
    } else {
      TooLongNeverConnects(ClientOf(k), ServerOf(k), calls);
    }
    hide Run;
  }
}
