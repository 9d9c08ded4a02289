// The other direction, over every run of a joiner and its broker: the messages the broker puts on a
// connection are the payloads the application sent on it, in order and nothing else.
module SteamSending {
  import opened Common
  import opened SteamBroker
  import opened SteamTransport
  import opened BrokerOrder
  import opened BrokerStream
  import opened SteamRejoin
  import opened SteamPayload
  import opened SteamDelivery

  // A system with the sends the application had queued, and those the broker has been given, each
  // with the number of its connection.
  datatype Sending = Sending(s: System, asked: seq<(nat, Frame)>, served: seq<(nat, Frame)>)

  predicate Queued(s: System, step: SteamRejoin.Step) {
    !s.t.dead && step.SendPayload? && |SendData(s.t, step.bytes, step.channel, step.reliable).commands| > |s.t.commands|
  }

  function AskedBy(s: System, step: SteamRejoin.Step): seq<(nat, Frame)> {
    if Queued(s, step) then [(s.joins, Frame(Send, s.t.host, 0, step.channel, step.reliable, step.bytes))] else []
  }

  function ServedBy(s: System, step: SteamRejoin.Step): seq<(nat, Frame)> {
    if !s.t.dead && step.Serve? && s.up != [] && s.b.failure.None? && s.up[0].op == Send then [(s.accepted, s.up[0])] else []
  }

  function Follow(h: Sending, step: SteamRejoin.Step): (r: Sending)
    requires Aligned(h.s)
    ensures Aligned(r.s)
  {
    Sending(Apply(h.s, step), h.asked + AskedBy(h.s, step), h.served + ServedBy(h.s, step))
  }

  function FollowAll(h: Sending, steps: seq<SteamRejoin.Step>): (r: Sending)
    requires Aligned(h.s)
    ensures Aligned(r.s)
    decreases |steps|
  {
    if steps == [] then h else FollowAll(Follow(h, steps[0]), steps[1..])
  }

  function Unsent(identity: nat, host: nat): Sending { Sending(Start(identity, host), [], []) }

  // ---------------------------------------------------------------- lists of sends

  function SendsIn(q: seq<Frame>): seq<Frame> {
    if q == [] then [] else (if q[0].op == Send then [q[0]] else []) + SendsIn(q[1..])
  }

  function Tagged(q: seq<Frame>, gen: nat): seq<(nat, Frame)> { seq(|q|, i requires 0 <= i < |q| => (gen, q[i])) }

  function Wires(fs: seq<Frame>): seq<Wire> { seq(|fs|, i requires 0 <= i < |fs| => GameplayWire(fs[i])) }

  lemma {:induction false} SendsAppend(q: seq<Frame>, f: Frame)
    ensures SendsIn(q + [f]) == SendsIn(q) + (if f.op == Send then [f] else [])
    decreases |q|
  {
    if q == [] {
      assert q + [f] == [f] && [f][1..] == [];
    } else {
      assert (q + [f])[1..] == q[1..] + [f] && (q + [f])[0] == q[0];
      SendsAppend(q[1..], f);
      var first := if q[0].op == Send then [q[0]] else [];
      var last := if f.op == Send then [f] else [];
      assert first + (SendsIn(q[1..]) + last) == (first + SendsIn(q[1..])) + last;
    }
  }

  lemma {:induction false} NoSends(q: seq<Frame>)
    requires forall f :: f in q ==> f.op != Send
    ensures SendsIn(q) == []
    decreases |q|
  {
    if q != [] {
      assert q[0] in q;
      NoSends(q[1..]);
    }
  }

  lemma {:induction false} OfTagged(q: seq<Frame>, gen: nat)
    ensures Of(Tagged(q, gen), gen) == q
    decreases |q|
  {
    if q != [] {
      assert Tagged(q, gen)[1..] == Tagged(q[1..], gen);
      OfTagged(q[1..], gen);
      assert [q[0]] + q[1..] == q;
    }
  }

  lemma WiresConcat(a: seq<Frame>, b: seq<Frame>)
    ensures Wires(a + b) == Wires(a) + Wires(b)
  {
  }

  // ---------------------------------------------------------------- the broker keeps what it was given

  // A connection that stays keeps its accepted sends; once it ends it goes on ending.
  predicate Keeps(b: State, c: State, host: nat) {
    c.failure.None? && host in c.peers ==>
    && host in b.peers && c.peers[host].commanded == b.peers[host].commanded
    && (b.peers[host].closing ==> c.peers[host].closing) && (b.peers[host].remoteClosed ==> c.peers[host].remoteClosed)
  }

  lemma {:induction false} StatusesKeep(b: State, statuses: seq<Status>, now: nat, backlog: nat, n: nat, host: nat, joins: nat)
    requires Joined(b, host, joins)
    ensures Keeps(b, StatusLoop(b, statuses, now, backlog, n), host)
    decreases n
  {
    if n > 0 && OutputRoom(b, backlog) && statuses != [] {
      var c := StatusStep(b, statuses[0], now);
      StatusStreams(b, statuses[0], now, host, joins);
      StatusKeeps(b, statuses[0], now, host, joins);
      if c.failure.None? {
        StatusesKeep(c, statuses[1..], now, backlog, n - 1, host, joins);
      }
    }
  }

  lemma StatusKeeps(b: State, s: Status, now: nat, host: nat, joins: nat)
    requires Joined(b, host, joins)
    ensures Keeps(b, StatusStep(b, s, now), host)
  {
  }

  lemma {:induction false} FlushKeeps(b: State, answers: seq<SendAnswer>, n: nat, host: nat)
    requires host in b.peers
    ensures Keeps(b, FlushLoop(b, host, answers, n), host)
    decreases n
  {
    if n > 0 && !b.peers[host].remoteClosed && b.peers[host].pending != [] && answers != [] && answers[0] == Accepted {
      var p := b.peers[host];
      FlushKeeps(b.(peers := b.peers[host := p.(pending := p.pending[1..], sent := p.sent + [p.pending[0]])]), answers[1..], n - 1, host);
    }
  }

  lemma InboundKeeps(b: State, now: nat, backlog: nat, a: PeerApi, host: nat, joins: nat)
    requires Joined(b, host, joins) && host in b.peers && b.peers[host].connected && Plain(a.inbox)
    ensures Keeps(b, InboundStep(b, host, now, backlog, a), host)
  {
    var s := StatsStep(b, host, now, backlog, a);
    StatsStreams(b, now, backlog, a, host, joins);
    if s.failure.None? {
      ReceiveStreams(s, a.inbox, backlog, 16, host, joins);
    }
  }

  lemma PeerKeeps(b: State, now: nat, backlog: nat, a: PeerApi, host: nat, joins: nat)
    requires Joined(b, host, joins) && Plain(a.inbox)
    ensures Keeps(b, PeerStep(b, host, now, backlog, a), host)
  {
    if host in b.peers && b.peers[host].connected {
      var f := FlushLoop(b, host, a.sends, 16);
      FlushKeeps(b, a.sends, 16, host);
      FlushStreams(b, a.sends, 16, host, joins);
      FlushKeepsConnected(b, a.sends, 16, host);
      if f.failure.None? && host in f.peers && !(f.peers[host].closing && !f.peers[host].remoteClosed) {
        InboundKeeps(f, now, backlog, a, host, joins);
      }
    }
  }

  lemma TickKeeps(b: State, now: nat, backlog: nat, api: TickApi, host: nat, joins: nat)
    requires Joined(b, host, joins) && PlainTick(api)
    ensures Keeps(b, Tick(b, now, backlog, api), host)
  {
    var c := TickChecks(b, now, api);
    ChecksStreams(b, now, api, host, joins);
    if c.failure.None? {
      var s := StatusLoop(c, api.statuses, now, backlog, 64);
      StatusLoopStreams(c, api.statuses, now, backlog, 64, host, joins);
      StatusesKeep(c, api.statuses, now, backlog, 64, host, joins);
      if s.failure.None? {
        OnePeer(s, host);
        var a := AnswersFor(api, host);
        PeerKeeps(s, now, backlog, a, host, joins);
        if host in s.peers {
          assert PeerLoop(s, [host], now, backlog, api) ==
                 PeerLoop(PeerStep(s, host, now, backlog, a), [host][1..], now, backlog, api);
        }
      }
    }
  }

  // ---------------------------------------------------------------- what was asked is what was commanded

  // The sends of the connection in hand so far; a connection that is ending takes no more.
  predicate Commanded(b: State, host: nat, sends: seq<Frame>) {
    host in b.peers ==>
    && b.peers[host].commanded <= Wires(sends)
    && (!b.peers[host].closing && !b.peers[host].remoteClosed ==> b.peers[host].commanded == Wires(sends))
  }

  ghost predicate Sends(h: Sending)
    requires Aligned(h.s)
  {
    !h.s.t.dead && h.s.b.failure.None? ==>
    && h.asked == h.served + Tagged(SendsIn(Commands(h.s)), h.s.accepted)
    && (forall x :: x in h.served ==> x.0 <= h.s.accepted)
    && Commanded(h.s.b, h.s.t.host, Of(h.served, h.s.accepted))
    && Order(h.s.b)
  }

  // The queue grew by a frame.
  lemma GrowSends(h: Sending, r: System, f: Frame, asked: seq<(nat, Frame)>)
    requires Aligned(h.s) && Sends(h) && Aligned(r) && !h.s.t.dead && r.b == h.s.b && r.accepted == h.s.accepted
    requires r.t.host == h.s.t.host && Commands(r) == Commands(h.s) + [f]
    requires asked == if f.op == Send then [(h.s.accepted, f)] else []
    ensures Sends(h.(s := r, asked := h.asked + asked))
  {
    var q := SendsIn(Commands(h.s));
    SendsAppend(Commands(h.s), f);
    if f.op == Send {
      assert Tagged(q + [f], h.s.accepted) == Tagged(q, h.s.accepted) + asked;
      assert h.served + (Tagged(q, h.s.accepted) + asked) == (h.served + Tagged(q, h.s.accepted)) + asked;
    } else {
      assert q + [] == q && h.asked + [] == h.asked;
    }
  }

  // A payload is sent while the connection in hand is the newest one.
  lemma SendsNewest(s: System)
    requires Invariant(s) && !s.t.dead && s.t.connected
    ensures s.accepted == s.joins
  {
  }

  lemma PayloadSends(h: Sending, bytes: seq<byte>, channel: nat, reliable: bool)
    requires Invariant(h.s) && Sends(h) && !h.s.t.dead
    ensures Sends(Follow(h, SendPayload(bytes, channel, reliable)))
  {
    var step := SendPayload(bytes, channel, reliable);
    var r := Apply(h.s, step);
    assert h.asked + [] == h.asked && h.served + [] == h.served;
    if Queued(h.s, step) {
      SendsNewest(h.s);
      var f := Frame(Send, h.s.t.host, 0, channel, reliable, bytes);
      assert Commands(r) == Commands(h.s) + [f];
      GrowSends(h, r, f, AskedBy(h.s, step));
    }
  }

  // A command of the application that is no Send, or none.
  lemma OtherSends(h: Sending, r: System)
    requires Aligned(h.s) && Sends(h) && Aligned(r) && !h.s.t.dead && r.b == h.s.b && r.accepted == h.s.accepted
    requires r.t.host == h.s.t.host
    requires Commands(r) == Commands(h.s) || exists f :: Commands(r) == Commands(h.s) + [f] && f.op != Send
    ensures Sends(h.(s := r))
  {
    if Commands(r) != Commands(h.s) {
      var f :| Commands(r) == Commands(h.s) + [f] && f.op != Send;
      GrowSends(h, r, f, []);
      assert h.asked + [] == h.asked;
    }
  }

  // The application queued this frame, no Send, or nothing.
  lemma OneSends(h: Sending, r: System, f: Frame)
    requires Aligned(h.s) && Sends(h) && Aligned(r) && !h.s.t.dead && r.b == h.s.b && r.accepted == h.s.accepted
    requires r.t.host == h.s.t.host && r.up == h.s.up && f.op != Send
    requires r.t.commands == h.s.t.commands || r.t.commands == h.s.t.commands + [f]
    ensures Sends(h.(s := r))
  {
    if r.t.commands != h.s.t.commands {
      assert Commands(r) == Commands(h.s) + [f];
    }
    OtherSends(h, r);
  }

  lemma CloseQueues(t: Transport, reason: nat)
    ensures var u := ClosePeer(t, reason);
            u.host == t.host && (u.dead || u.commands == t.commands || u.commands == t.commands + [Notice(Close, t.host, reason)])
  {
  }

  lemma CloseSends(h: Sending, t: Transport, reason: nat)
    requires Aligned(h.s) && Sends(h) && !h.s.t.dead && !t.dead && (t == h.s.t || t == ClosePeer(h.s.t, reason))
    requires Aligned(Closing(h.s, t))
    ensures Sends(h.(s := Closing(h.s, t)))
  {
    CloseQueues(h.s.t, reason);
    OneSends(h, Closing(h.s, t), Notice(Close, h.s.t.host, reason));
  }

  lemma ConnectSends(h: Sending)
    requires Aligned(h.s) && Sends(h) && !h.s.t.dead && !Connecting(h.s).t.dead
    ensures Sends(h.(s := Connecting(h.s)))
  {
    OneSends(h, Connecting(h.s), Notice(Join, h.s.t.host, 0));
  }

  lemma PingSends(h: Sending)
    requires Aligned(h.s) && Sends(h) && !h.s.t.dead && !Apply(h.s, PingBroker).t.dead
    ensures Sends(h.(s := Apply(h.s, PingBroker)))
  {
    OneSends(h, Apply(h.s, PingBroker), Notice(Ping, 0, 0));
  }

  lemma PushSends(h: Sending)
    requires Aligned(h.s) && Sends(h) && !h.s.t.dead
    ensures Sends(h.(s := Pushed(h.s)))
  {
    var s := h.s;
    if s.t.commands != [] {
      assert s.up + s.t.commands == s.up + [s.t.commands[0]] + s.t.commands[1..];
    }
    OtherSends(h, Pushed(s));
  }

  lemma FetchSends(h: Sending)
    requires Aligned(h.s) && Sends(h) && !h.s.t.dead && !Fetched(h.s).t.dead
    ensures Sends(h.(s := Fetched(h.s)))
  {
    var r := Fetched(h.s);
    assert Commands(r) == Commands(h.s);
    OtherSends(h, r);
  }

  lemma ServiceSends(h: Sending)
    requires Invariant(h.s) && Sends(h) && !h.s.t.dead
    ensures Sends(h.(s := Serviced(h.s)))
  {
    ServiceReads(h.s);
    var r := Serviced(h.s);
    assert Commands(r) == Commands(h.s);
    OtherSends(h, r);
  }

  lemma ReplySends(h: Sending)
    requires Invariant(h.s) && Sends(h) && !h.s.t.dead
    ensures Sends(h.(s := Replied(h.s)))
  {
    var r := Replied(h.s);
    assert Commands(r) == Commands(h.s);
    if h.s.b.failure.None? {
      StepOrder(h.s.b, Take);
    }
  }

  lemma PassSends(h: Sending, now: nat, backlog: nat, api: TickApi)
    requires Invariant(h.s) && Sends(h) && !h.s.t.dead && PlainTick(api)
    ensures Sends(h.(s := Apply(h.s, SteamRejoin.Pass(now, backlog, api))))
  {
    var s := h.s;
    var r := Apply(s, SteamRejoin.Pass(now, backlog, api));
    assert Commands(r) == Commands(s) && r.b == Tick(s.b, now, backlog, api);
    if s.b.failure.None? {
      TickKeeps(s.b, now, backlog, api, s.t.host, s.accepted);
      StepOrder(s.b, BrokerOrder.Pass(now, backlog, api));
    }
  }

  // ---------------------------------------------------------------- a command is served

  lemma SendServed(b: State, f: Frame, now: nat, api: CommandApi, host: nat, joins: nat, sends: seq<Frame>)
    requires Joined(b, host, joins) && f.op == Send && Wellformed(f, host) && Expects(b, f, host, joins)
    requires Commanded(b, host, sends)
    ensures var c := Command(b, f, now, api); c.failure.None? ==> Commanded(c, host, sends + [f])
  {
    WiresConcat(sends, [f]);
    assert Wires([f]) == [GameplayWire(f)];
    var c := b.(lastCommand := now);
    var i := IdentityChecked(c, now);
    assert i.peers == b.peers && i.failure.None?;
  }

  lemma CloseServedKeeps(b: State, f: Frame, now: nat, api: CommandApi, host: nat, joins: nat, sends: seq<Frame>)
    requires Joined(b, host, joins) && f.op in {Close, Ping} && Wellformed(f, host) && Commanded(b, host, sends)
    ensures var c := Command(b, f, now, api); c.failure.None? ==> Commanded(c, host, sends)
  {
  }

  lemma JoinServedFresh(b: State, f: Frame, now: nat, api: CommandApi, host: nat, joins: nat)
    requires Joined(b, host, joins) && f.op == Join && Wellformed(f, host) && Expects(b, f, host, joins)
    ensures var c := Command(b, f, now, api); c.failure.None? ==> Commanded(c, host, [])
  {
  }

  lemma NoSendsBehindJoin(q: seq<Frame>)
    requires SendsFirst(q) && q != [] && q[0].op == Join
    ensures SendsIn(q) == [] && SendsIn(q[1..]) == []
  {
    NoSends(q);
    NoSends(q[1..]);
  }

  lemma ServeJoinSends(h: Sending, now: nat, api: CommandApi)
    requires Invariant(h.s) && Sends(h) && !h.s.t.dead && h.s.up != [] && h.s.b.failure.None?
    requires Timely(h.s.b, h.s.up[0]) && h.s.up[0].op == Join
    ensures Sends(h.(s := Apply(h.s, Serve(now, api))))
  {
    var s := h.s;
    var c := Command(s.b, s.up[0], now, api);
    var q := Commands(s);
    assert q[0] == s.up[0];
    UpstreamServe(s, now, api);
    NoSendsBehindJoin(q);
    JoinServedFresh(s.b, s.up[0], now, api, s.t.host, s.accepted);
    CommandOrder(s.b, s.up[0], now, api);
    if c.failure.None? {
      var r := Served(s, c);
      assert Commands(r) == q[1..];
      assert h.served + Tagged([], s.accepted) == h.served && h.served + Tagged([], r.accepted) == h.served;
      OfNone(h.served, r.accepted);
    }
  }

  lemma ServeSendSends(h: Sending, now: nat, api: CommandApi)
    requires Invariant(h.s) && Sends(h) && !h.s.t.dead && h.s.up != [] && h.s.b.failure.None?
    requires Timely(h.s.b, h.s.up[0]) && h.s.up[0].op == Send
    ensures Sends(Follow(h, Serve(now, api)))
  {
    var s := h.s;
    var f := s.up[0];
    var c := Command(s.b, f, now, api);
    var q := Commands(s);
    assert q[0] == f && h.asked + [] == h.asked;
    UpstreamServe(s, now, api);
    SendServed(s.b, f, now, api, s.t.host, s.accepted, Of(h.served, s.accepted));
    CommandOrder(s.b, f, now, api);
    if c.failure.None? {
      var r := Served(s, c);
      var rest := SendsIn(q[1..]);
      assert Commands(r) == q[1..] && SendsIn(q) == [f] + rest;
      assert Tagged([f] + rest, s.accepted) == [(s.accepted, f)] + Tagged(rest, s.accepted);
      assert h.served + ([(s.accepted, f)] + Tagged(rest, s.accepted)) == (h.served + [(s.accepted, f)]) + Tagged(rest, s.accepted);
      OfConcat(h.served, [(s.accepted, f)], s.accepted);
      OneOf(s.accepted, f);
    }
  }

  lemma OneOf(gen: nat, f: Frame)
    ensures Of([(gen, f)], gen) == [f]
  {
    assert [(gen, f)][1..] == [];
  }

  // The served command was no Send, and no connection came of it.
  lemma PoppedSends(h: Sending, c: State)
    requires Invariant(h.s) && Sends(h) && !h.s.t.dead && h.s.up != [] && h.s.b.failure.None?
    requires h.s.up[0].op != Join && h.s.up[0].op != Send && Order(c)
    requires c.failure.None? ==> Commanded(c, h.s.t.host, Of(h.served, h.s.accepted))
    ensures Sends(h.(s := Served(h.s, c)))
  {
    var q := Commands(h.s);
    assert q[0] == h.s.up[0];
    assert Commands(Served(h.s, c)) == q[1..];
    assert [] + SendsIn(q[1..]) == SendsIn(q[1..]);
  }

  lemma ServeOtherSends(h: Sending, now: nat, api: CommandApi)
    requires Invariant(h.s) && Sends(h) && !h.s.t.dead && h.s.up != [] && h.s.b.failure.None?
    requires Timely(h.s.b, h.s.up[0]) && h.s.up[0].op != Join && h.s.up[0].op != Send
    ensures Sends(h.(s := Apply(h.s, Serve(now, api))))
  {
    var s := h.s;
    UpstreamServe(s, now, api);
    CloseServedKeeps(s.b, s.up[0], now, api, s.t.host, s.accepted, Of(h.served, s.accepted));
    CommandOrder(s.b, s.up[0], now, api);
    PoppedSends(h, Command(s.b, s.up[0], now, api));
  }

  lemma StepSends(h: Sending, step: SteamRejoin.Step)
    requires Invariant(h.s) && Sends(h) && Allowed(h.s, step)
    ensures Sends(Follow(h, step))
  {
    assert h.asked + [] == h.asked && h.served + [] == h.served;
    if !h.s.t.dead && !Apply(h.s, step).t.dead {
      match step
      case Pass(now, backlog, api) => PassSends(h, now, backlog, api);
      case Serve(now, api) =>
        if h.s.up != [] && h.s.b.failure.None? {
          if h.s.up[0].op == Join {
            ServeJoinSends(h, now, api);
          } else if h.s.up[0].op == Send {
            ServeSendSends(h, now, api);
          } else {
            ServeOtherSends(h, now, api);
          }
        }
      case SendPayload(bytes, channel, reliable) => PayloadSends(h, bytes, channel, reliable);
      case Reply => ReplySends(h);
      case ConnectHost => ConnectSends(h);
      case CloseEndpoint => CloseSends(h, CloseAll(h.s.t), 1);
      case DisconnectHost(reason) => CloseSends(h, DisconnectPeer(h.s.t, reason), reason);
      case PingBroker => PingSends(h);
      case PipeLost =>
      case CreateEndpoint => OtherSends(h, Apply(h.s, step));
      case PushCommand => PushSends(h);
      case Fetch => FetchSends(h);
      case ServiceEndpoint => ServiceSends(h);
    }
  }

  // ---------------------------------------------------------------- over every run

  lemma {:induction false} FollowHolds(h: Sending, steps: seq<SteamRejoin.Step>)
    requires Invariant(h.s) && Sends(h) && AllAllowed(h.s, steps)
    ensures var r := FollowAll(h, steps); Invariant(r.s) && Sends(r) && r.s == SteamRejoin.Run(h.s, steps)
    decreases |steps|
  {
    if steps != [] {
      StepHolds(h.s, steps[0]);
      StepSends(h, steps[0]);
      FollowHolds(Follow(h, steps[0]), steps[1..]);
    }
  }

  lemma AskedIsSent(h: Sending, host: nat)
    requires Invariant(h.s) && Sends(h) && !h.s.t.dead && h.s.b.failure.None? && host in h.s.b.peers
    ensures var p := h.s.b.peers[host];
            var asked := Wires(Of(h.asked, h.s.accepted));
            if !p.closing && !p.remoteClosed then p.sent + p.pending + Wires(SendsIn(Commands(h.s))) == asked
            else p.sent + p.pending <= asked
  {
    assert host == h.s.t.host;
    var q := SendsIn(Commands(h.s));
    OfConcat(h.served, Tagged(q, h.s.accepted), h.s.accepted);
    OfTagged(q, h.s.accepted);
    WiresConcat(Of(h.served, h.s.accepted), q);
    JoinerSendsOnly(h.s.b, host, h.s.accepted);
  }

  // A joiner's broker sends nothing but what it was given.
  lemma JoinerSendsOnly(b: State, host: nat, joins: nat)
    requires Order(b) && Joined(b, host, joins) && host in b.peers
    ensures b.peers[host].sent + b.peers[host].pending == b.peers[host].commanded
  {
    assert PeerOrder(b.peers[host], false);
    assert b.peers[host].commanded + [] == b.peers[host].commanded;
  }

  // Over every run: what Steam accepted on the connection in hand, then what is queued behind it,
  // then what is still on its way to the broker, are the payloads the application sent on that
  // connection, each behind its header, in order. A connection that is ending takes a prefix.
  lemma SentAsAsked(identity: nat, host: nat, steps: seq<SteamRejoin.Step>)
    requires ValidId(identity) && ValidId(host) && host != identity && AllAllowed(Start(identity, host), steps)
    requires var s := SteamRejoin.Run(Start(identity, host), steps); !s.t.dead && s.b.failure.None? && host in s.b.peers
    ensures var h := FollowAll(Unsent(identity, host), steps);
            var s := SteamRejoin.Run(Start(identity, host), steps);
            var p := s.b.peers[host];
            var asked := Wires(Of(h.asked, s.accepted));
            && h.s == s
            && (if !p.closing && !p.remoteClosed then p.sent + p.pending + Wires(SendsIn(Commands(s))) == asked
                else p.sent + p.pending <= asked)
  {
    StartHolds(identity, host);
    FollowHolds(Unsent(identity, host), steps);
    AskedIsSent(FollowAll(Unsent(identity, host), steps), host);
  }
}
