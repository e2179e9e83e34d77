/** What one more call of a running RTC pair does: a poll hands out the next envelope, a
    send is accepted exactly when the end is up and the envelope fits. */
module RtcCalls {
  import opened Basics
  import opened Frame
  import opened Rtc
  import opened RtcPair

  lemma RunSnoc(cc: Config, sc: Config, calls: seq<Call>, call: Call)
    ensures Run(cc, sc, calls + [call]) == Step(cc, sc, Run(cc, sc, calls), call)
  {
    assert (calls + [call])[..|calls|] == calls;
    hide Step;
  }

  ghost predicate Usable(k: PairConfig) {
    ValidConfig(ClientOf(k)) && ValidConfig(ServerOf(k)) && k.clientPeer != k.serverPeer
  }

  ghost predicate AllTyped(calls: seq<Call>) {
    forall k :: 0 <= k < |calls| ==> Typed(calls[k])
  }

  ghost predicate Short(k: PairConfig) {
    |k.session| <= MAX_SESSION && |k.channelLabel| <= MAX_SIGNAL_PAYLOAD
  }

  /** Everything known of a pair in the middle of a run. */
  ghost predicate Running(k: PairConfig, p: Pair) {
    if Short(k) then exists stage :: Inv(ClientOf(k), ServerOf(k), p, stage) else PairStuck(p)
  }

  lemma RunsAreRunning(k: PairConfig, calls: seq<Call>)
    requires Usable(k) && AllTyped(calls)
    ensures Running(k, Run(ClientOf(k), ServerOf(k), calls))
  {
    if Short(k) {
      RunKeepsInv(ClientOf(k), ServerOf(k), calls);
    } else {
      TooLongNeverConnects(ClientOf(k), ServerOf(k), calls);
    }
    hide Run, Inv, PairStuck, StageAfter;
  }

  // --- polls ---

  /** Got one more of what has been sent, if there is more. */
  ghost predicate TookNext(got: seq<Envelope>, sent: seq<Envelope>, after: seq<Envelope>) {
    && got <= sent
    && (|got| < |sent| ==> after == sent[..|got| + 1])
    && (|got| == |sent| ==> after == got)
  }

  lemma PollTakesNext(got: seq<Envelope>, e: Endpoint, sent: seq<Envelope>)
    requires sent == got + e.incoming
    ensures TookNext(got, sent, Added(got, PollInner(e).1))
  {
    if e.incoming != [] {
      assert sent[..|got| + 1] == got + [e.incoming[0]];
    }
  }

  /** After an update everything sent so far is got or waits at the end. */
  lemma ClientHasAll(cc: Config, sc: Config, p: Pair, stage: Stage)
    requires GoodPair(cc, sc) && Inv(cc, sc, p, stage)
    ensures p.serverSent == p.clientGot + Update(cc, p.Client()).e.incoming
    ensures RtcPair.Idle(Update(cc, p.Client()).e) && Update(cc, p.Client()).into == []
  {
    ClientUpdates(cc, sc, p, stage);
    hide Update, Shaken, DecodeFrame;
    var next := p.WithClient(Update(cc, p.Client()));
    assert Flows(next);
    assert Envelopes(next.toClient) == [];
  }

  lemma ServerHasAll(cc: Config, sc: Config, p: Pair, stage: Stage)
    requires GoodPair(cc, sc) && Inv(cc, sc, p, stage)
    ensures p.clientSent == p.serverGot + Update(sc, p.Server()).e.incoming
    ensures RtcPair.Idle(Update(sc, p.Server()).e) && Update(sc, p.Server()).into == []
  {
    ServerUpdates(cc, sc, p, stage);
    hide Update, Shaken, DecodeFrame;
    var next := p.WithServer(Update(sc, p.Server()));
    assert Flows(next);
    assert Envelopes(next.toServer) == [];
  }

  /** An end that is stuck stays empty. */
  lemma StuckHasNothing(c: Config, p: Pair, l: Local)
    requires PairStuck(p) && (l == p.Client() || l == p.Server())
    ensures RtcPair.Idle(Update(c, l).e) && Update(c, l).e.incoming == [] && Update(c, l).into == []
  {
    StuckUpdate(c, l);
    hide Update;
  }

  lemma ClientPollStep(k: PairConfig, p: Pair)
    requires Usable(k) && Running(k, p)
    ensures var q := Step(ClientOf(k), ServerOf(k), p, ClientPoll);
            q.serverSent == p.serverSent && TookNext(p.clientGot, p.serverSent, q.clientGot)
  {
    var l := Update(ClientOf(k), p.Client());
    if Short(k) {
      var stage :| Inv(ClientOf(k), ServerOf(k), p, stage);
      ClientHasAll(ClientOf(k), ServerOf(k), p, stage);
    } else {
      StuckHasNothing(ClientOf(k), p, p.Client());
    }
    hide Update, Inv, Stuck, TookNext, PollInner;
    assert p.serverSent == p.clientGot + l.e.incoming;
    PollTakesNext(p.clientGot, l.e, p.serverSent);
  }

  lemma ServerPollStep(k: PairConfig, p: Pair)
    requires Usable(k) && Running(k, p)
    ensures var q := Step(ClientOf(k), ServerOf(k), p, ServerPoll);
            q.clientSent == p.clientSent && TookNext(p.serverGot, p.clientSent, q.serverGot)
  {
    var l := Update(ServerOf(k), p.Server());
    if Short(k) {
      var stage :| Inv(ClientOf(k), ServerOf(k), p, stage);
      ServerHasAll(ClientOf(k), ServerOf(k), p, stage);
    } else {
      StuckHasNothing(ServerOf(k), p, p.Server());
    }
    hide Update, Inv, Stuck, TookNext, PollInner;
    assert p.clientSent == p.serverGot + l.e.incoming;
    PollTakesNext(p.serverGot, l.e, p.clientSent);
  }

  /** A poll hands out the next envelope: after any run of calls one more poll by an end
      adds to what it has got exactly the next envelope the other end was allowed to send,
      and nothing only when it has got them all. */
  lemma PollsHandOut(k: PairConfig, calls: seq<Call>)
    requires Usable(k) && AllTyped(calls)
    ensures var p, q := Run(ClientOf(k), ServerOf(k), calls), Run(ClientOf(k), ServerOf(k), calls + [ClientPoll]);
            q.serverSent == p.serverSent && TookNext(p.clientGot, p.serverSent, q.clientGot)
    ensures var p, q := Run(ClientOf(k), ServerOf(k), calls), Run(ClientOf(k), ServerOf(k), calls + [ServerPoll]);
            q.clientSent == p.clientSent && TookNext(p.serverGot, p.clientSent, q.serverGot)
  {
    var cc, sc := ClientOf(k), ServerOf(k);
    RunsAreRunning(k, calls);
    ClientPollStep(k, Run(cc, sc, calls));
    ServerPollStep(k, Run(cc, sc, calls));
    RunSnoc(cc, sc, calls, ClientPoll);
    RunSnoc(cc, sc, calls, ServerPoll);
    hide *;
  }

  function Repeat(call: Call, n: nat): seq<Call> {
    if n == 0 then [] else Repeat(call, n - 1) + [call]
  }

  lemma {:induction false} RepeatMore(calls: seq<Call>, call: Call, n: nat)
    requires AllTyped(calls) && Typed(call)
    ensures AllTyped(calls + Repeat(call, n))
    ensures n == 0 ==> calls + Repeat(call, n) == calls
    ensures n > 0 ==> calls + Repeat(call, n) == calls + Repeat(call, n - 1) + [call]
  {
    hide Typed;
    if n > 0 {
      RepeatMore(calls, call, n - 1);
      assert calls + Repeat(call, n) == calls + Repeat(call, n - 1) + [call];
    }
  }

  lemma PollsAreTyped()
    ensures Typed(ClientPoll) && Typed(ServerPoll)
  {
  }

  /** From p to q the client has got n more envelopes, or all there are. */
  ghost predicate ClientAhead(p: Pair, q: Pair, n: nat) {
    q.serverSent == p.serverSent && q.clientGot == p.serverSent[..Min(|p.clientGot| + n, |p.serverSent|)]
  }

  ghost predicate ServerAhead(p: Pair, q: Pair, n: nat) {
    q.clientSent == p.clientSent && q.serverGot == p.clientSent[..Min(|p.serverGot| + n, |p.clientSent|)]
  }

  lemma ClientOneFurther(k: PairConfig, calls: seq<Call>, p: Pair, n: nat)
    requires Usable(k) && AllTyped(calls)
    requires p.clientGot <= p.serverSent && ClientAhead(p, Run(ClientOf(k), ServerOf(k), calls), n)
    ensures ClientAhead(p, Run(ClientOf(k), ServerOf(k), calls + [ClientPoll]), n + 1)
  {
    PollsHandOut(k, calls);
    hide Run, ClientOf, ServerOf, Usable, AllTyped;
  }

  lemma ServerOneFurther(k: PairConfig, calls: seq<Call>, p: Pair, n: nat)
    requires Usable(k) && AllTyped(calls)
    requires p.serverGot <= p.clientSent && ServerAhead(p, Run(ClientOf(k), ServerOf(k), calls), n)
    ensures ServerAhead(p, Run(ClientOf(k), ServerOf(k), calls + [ServerPoll]), n + 1)
  {
    PollsHandOut(k, calls);
    hide Run, ClientOf, ServerOf, Usable, AllTyped;
  }

  lemma NoFurther(k: PairConfig, calls: seq<Call>)
    requires Usable(k) && AllTyped(calls)
    ensures var p := Run(ClientOf(k), ServerOf(k), calls);
            p.clientGot <= p.serverSent && p.serverGot <= p.clientSent && ClientAhead(p, p, 0) && ServerAhead(p, p, 0)
  {
    PollsHandOut(k, calls);
    hide Run, ClientOf, ServerOf, Usable, AllTyped;
  }

  /** Enough polls deliver everything: after any run, n polls by an end bring it n more
      envelopes, until it has all of them, in the order they were sent. */
  lemma {:induction false} EnoughPollsDeliver(k: PairConfig, calls: seq<Call>, n: nat)
    requires Usable(k) && AllTyped(calls)
    ensures ClientAhead(Run(ClientOf(k), ServerOf(k), calls), Run(ClientOf(k), ServerOf(k), calls + Repeat(ClientPoll, n)), n)
    ensures ServerAhead(Run(ClientOf(k), ServerOf(k), calls), Run(ClientOf(k), ServerOf(k), calls + Repeat(ServerPoll, n)), n)
  {
    hide *;
    NoFurther(k, calls);
    PollsAreTyped();
    RepeatMore(calls, ClientPoll, n);
    RepeatMore(calls, ServerPoll, n);
    if n > 0 {
      EnoughPollsDeliver(k, calls, n - 1);
      RepeatMore(calls, ClientPoll, n - 1);
      RepeatMore(calls, ServerPoll, n - 1);
      ClientOneFurther(k, calls + Repeat(ClientPoll, n - 1), Run(ClientOf(k), ServerOf(k), calls), n - 1);
      ServerOneFurther(k, calls + Repeat(ServerPoll, n - 1), Run(ClientOf(k), ServerOf(k), calls), n - 1);
    }
  }

  // --- sends ---

  /** A well-formed envelope whose frame fits the byte budget. */
  predicate Fit(c: Config, e: Envelope) {
    && e.version == 1 && |e.payload| <= 65536 && e.channel == ExpectedChannel(e.messageClass)
    && 16 + |e.payload| <= c.maxBuffered
  }

  lemma AcceptsIff(c: Config, e: Endpoint, envelope: Envelope)
    requires RtcPair.Idle(e)
    ensures Accepts(c, e, envelope) <==> e.status == Connected && Fit(c, envelope)
  {
    FrameLayout(envelope);
  }

  lemma SendDone(c: Config, l: Local, e: Envelope)
    requires RtcPair.Idle(Update(c, l).e) && Update(c, l).into == [] && EnvelopeFits(e)
    ensures var (next, sent) := Send(c, l, e);
            sent == (next.e.status == Connected && Fit(c, e))
  {
    var u := Update(c, l);
    hide Update, EncodeFrame, DecodeFrame;
    AcceptsIff(c, u.e, e);
    hide Accepts, Fit;
    if Accepts(c, u.e, e) {
      SendWhenIdle(c, u, e);
    }
    hide PumpChannel, SendInner;
  }

  lemma ClientSendStep(k: PairConfig, p: Pair, e: Envelope)
    requires Usable(k) && Running(k, p) && EnvelopeFits(e)
    ensures var q := Step(ClientOf(k), ServerOf(k), p, ClientSend(e));
            q.clientSent == if q.client.status == Connected && Fit(ClientOf(k), e) then p.clientSent + [e] else p.clientSent
  {
    if Short(k) {
      var stage :| Inv(ClientOf(k), ServerOf(k), p, stage);
      ClientHasAll(ClientOf(k), ServerOf(k), p, stage);
    } else {
      StuckHasNothing(ClientOf(k), p, p.Client());
    }
    hide Update, Inv, PairStuck, Send, Fit;
    SendDone(ClientOf(k), p.Client(), e);
  }

  lemma ServerSendStep(k: PairConfig, p: Pair, e: Envelope)
    requires Usable(k) && Running(k, p) && EnvelopeFits(e)
    ensures var q := Step(ClientOf(k), ServerOf(k), p, ServerSend(e));
            q.serverSent == if q.server.status == Connected && Fit(ServerOf(k), e) then p.serverSent + [e] else p.serverSent
  {
    if Short(k) {
      var stage :| Inv(ClientOf(k), ServerOf(k), p, stage);
      ServerHasAll(ClientOf(k), ServerOf(k), p, stage);
    } else {
      StuckHasNothing(ServerOf(k), p, p.Server());
    }
    hide Update, Inv, PairStuck, Send, Fit;
    SendDone(ServerOf(k), p.Server(), e);
  }

  /** A send is accepted exactly when the end is up by then and the envelope is well formed
      and fits the byte budget; there is no back pressure. */
  lemma SendsAreAcceptedIff(k: PairConfig, calls: seq<Call>, e: Envelope)
    requires Usable(k) && AllTyped(calls) && EnvelopeFits(e)
    ensures var p, q := Run(ClientOf(k), ServerOf(k), calls), Run(ClientOf(k), ServerOf(k), calls + [ClientSend(e)]);
            q.clientSent == if q.client.status == Connected && Fit(ClientOf(k), e) then p.clientSent + [e] else p.clientSent
    ensures var p, q := Run(ClientOf(k), ServerOf(k), calls), Run(ClientOf(k), ServerOf(k), calls + [ServerSend(e)]);
            q.serverSent == if q.server.status == Connected && Fit(ServerOf(k), e) then p.serverSent + [e] else p.serverSent
  {
    var cc, sc := ClientOf(k), ServerOf(k);
    RunsAreRunning(k, calls);
    ClientSendStep(k, Run(cc, sc, calls), e);
    ServerSendStep(k, Run(cc, sc, calls), e);
    RunSnoc(cc, sc, calls, ClientSend(e));
    RunSnoc(cc, sc, calls, ServerSend(e));
    hide *;
  }

  // --- signals ---

  function Inbox(hub: Hub, p: ClientId): seq<Signal> {
    if p in hub then hub[p].incoming else []
  }

  /** A signal that can be carried reaches, within its sender's session, the peer it names,
      or everyone but its sender if it names none; and nobody else. */
  lemma SignalsStayInSession(hub: Hub, m: Signal, p: ClientId)
    ensures var meant := && Carried(m) && m.sender in hub && hub[m.sender].session == m.session
                         && p in hub && hub[p].session == m.session
                         && (if m.target == 0 then p != m.sender else p == m.target);
            && Inbox(Route(hub, m), p) == (if meant then Inbox(hub, p) + [m] else Inbox(hub, p))
            && (p in Route(hub, m) <==> p in hub)
            && (p in hub ==> Route(hub, m)[p].session == hub[p].session)
  {
  }

  /** Whoever is told by a valid signal of its session that the other side has left or
      failed accepts no more envelopes, and says so in its status. */
  lemma LeavingEndsIt(c: Config, e: Endpoint, m: Signal, envelope: Envelope)
    requires ValidSignal(m) && m.session == c.session && m.sender != c.peer && (m.target == 0 || m.target == c.peer)
    requires m.kind == Leave || m.kind == ErrorKind
    ensures var next := Receive(c, e, m);
            && next.status == (if m.kind == Leave then Disconnected else FailedStatus)
            && !Accepts(c, next, envelope) && !CanNotify(next)
  {
  }

  /** Signals of other sessions, for other peers, or one's own change nothing. */
  lemma ForeignSignalsAreIgnored(c: Config, e: Endpoint, m: Signal)
    requires !ValidSignal(m) || m.session != c.session || m.sender == c.peer || (m.target != 0 && m.target != c.peer)
    ensures Receive(c, e, m) == e
  {
  }

  /** Connecting needs every part of the configuration; then an end announces itself by
      name, and a client offers its channel, numbered from one. */
  lemma ConnectingAnnounces(c: Config)
    ensures var e := Connect(c, NEW_ENDPOINT);
            if c.peer == 0 || c.name == [] || c.url == [] || c.channelLabel == [] || c.maxBuffered == 0 || c.session == []
            then e == NEW_ENDPOINT.(status := FailedStatus, phase := FailedPhase)
            else
              var join := Signal(Join, c.peer, 0, 1, c.session, c.name);
              var offer := Signal(Offer, c.peer, 0, 2, c.session, c.channelLabel);
              && e.status == Connecting && e.phase == Signaling && !e.ready
              && e.signals == (if c.role == ClientRole then [join, offer] else [join])
              && e.nextSequence == |e.signals| + 1
  {
  }

  /** Signals are numbered one after another: whatever an end hears or tells, each signal
      it queues takes the next number. */
  ghost predicate NumbersOn(e: Endpoint, next: Endpoint) {
    && e.signals <= next.signals
    && next.nextSequence - e.nextSequence == |next.signals| - |e.signals|
    && forall k :: |e.signals| <= k < |next.signals| ==> next.signals[k].sequence == e.nextSequence + k - |e.signals|
  }

  lemma SignalsAreNumbered(c: Config, e: Endpoint, m: Signal)
    ensures NumbersOn(e, Receive(c, e, m)) && NumbersOn(e, NotifyReady(c, e))
  {
  }
}
