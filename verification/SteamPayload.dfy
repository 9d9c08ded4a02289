// The payload of gameplay messages: what a Send puts on the wire is what the receiving broker hands
// on, and over every run the application receives, on each connection, exactly the payloads Steam
// delivered to its broker on it, in order.
module SteamPayload {
  import opened Common
  import opened SteamBroker
  import opened SteamTransport
  import opened BrokerStream
  import opened SteamRejoin

  datatype Body = Body(bytes: seq<byte>, reliable: bool)

  // ---------------------------------------------------------------- one message

  // A gameplay message: eight bytes of header, then the payload.
  predicate Carries(m: Message, channel: nat, body: Body) {
    && channel < 3 && m.reliable == body.reliable && body.bytes != []
    && m.bytes == [0x4b, 0x53, 1, channel, if body.reliable then 1 else 0, 0, 0, 0] + body.bytes
  }

  // The connection takes gameplay from its own handle, and has not been told that the session ended.
  predicate Receiving(b: State, id: nat) {
    b.failure.None? && id in b.peers && !b.peers[id].terminalReceived && |b.out| < MAX_QUEUE
  }

  // A Send the broker accepts goes on the wire as its payload behind a header.
  lemma SendCarries(b: State, f: Frame, api: CommandApi)
    requires b.failure.None? && f.peer in b.peers && f.op == Send
    ensures var c := SendCommand(b, f, api);
            var p := b.peers[f.peer];
            c.failure.None? && f.peer in c.peers ==>
            && c.peers[f.peer].commanded == p.commanded + [GameplayWire(f)]
            && forall handle: nat, id: nat ::
                 Carries(Message(handle, id, GameplayWire(f).reliable, GameplayWire(f).bytes), f.channel, Body(f.bytes, f.reliable))
  {
  }

  // Such a message is handed on as exactly that payload.
  lemma CarriedIsDelivered(b: State, id: nat, m: Message, channel: nat, body: Body)
    requires Receiving(b, id) && m.handle == b.peers[id].handle && m.identity == id
    requires Carries(m, channel, body) && |body.bytes| <= MAX_PACKET - 8
    ensures ReceiveStep(b, id, m) == b.(out := b.out + [Frame(Data, id, 0, channel, body.reliable, body.bytes)])
  {
    assert m.bytes[8..] == body.bytes;
  }

  // Send to receive: whatever Send the one broker accepts, the other hands on its payload unchanged.
  lemma RoundTrip(b: State, f: Frame, api: CommandApi, r: State, id: nat)
    requires b.failure.None? && f.peer in b.peers && f.op == Send
    requires SendCommand(b, f, api).failure.None? && f.peer in SendCommand(b, f, api).peers
    requires Receiving(r, id)
    ensures var w := GameplayWire(f);
            ReceiveStep(r, id, Message(r.peers[id].handle, id, w.reliable, w.bytes))
            == r.(out := r.out + [Frame(Data, id, 0, f.channel, f.reliable, f.bytes)])
  {
    SendCarries(b, f, api);
    var w := GameplayWire(f);
    CarriedIsDelivered(r, id, Message(r.peers[id].handle, id, w.reliable, w.bytes), f.channel, Body(f.bytes, f.reliable));
  }

  // The other way: what is handed on was in the message, behind its header.
  lemma DeliveredWasCarried(b: State, id: nat, m: Message)
    requires b.failure.None? && id in b.peers && ReceiveStep(b, id, m).failure.None? && m.bytes[5..6] != [1]
    ensures |m.bytes| >= 9 && m.handle == b.peers[id].handle && m.identity == id
    ensures Carries(m, m.bytes[3], BodyOf(m)) && m.bytes == m.bytes[..8] + BodyOf(m).bytes
    ensures ReceiveStep(b, id, m).out ==
            b.out + (if b.peers[id].terminalReceived then []
                     else [Frame(Data, id, 0, m.bytes[3], m.reliable, BodyOf(m).bytes)])
  {
    assert m.bytes[5..6] == [m.bytes[5]];
    assert m.bytes == m.bytes[..8] + m.bytes[8..];
    assert m.bytes[..8] == [m.bytes[0], m.bytes[1], m.bytes[2], m.bytes[3], m.bytes[4], m.bytes[5], m.bytes[6], m.bytes[7]];
  }

  function BodyOf(m: Message): Body {
    Body(if |m.bytes| < 8 then [] else m.bytes[8..], m.reliable)
  }

  // ---------------------------------------------------------------- what a tick takes

  // The messages the receive loop takes from Steam.
  function Took(b: State, id: nat, inbox: seq<Message>, backlog: nat, n: nat): seq<Message>
    decreases n
  {
    if n == 0 || id !in b.peers || !OutputRoom(b, backlog) || inbox == [] then []
    else [inbox[0]] + Took(ReceiveStep(b, id, inbox[0]), id, inbox[1..], backlog, n - 1)
  }

  function PeerTook(b: State, id: nat, now: nat, backlog: nat, a: PeerApi): seq<Message> {
    if id !in b.peers || !b.peers[id].connected then []
    else
      var f := FlushLoop(b, id, a.sends, 16);
      if f.failure.Some? || id !in f.peers || (f.peers[id].closing && !f.peers[id].remoteClosed) then []
      else
        var s := StatsStep(f, id, now, backlog, a);
        if s.failure.Some? then [] else Took(s, id, a.inbox, backlog, 16)
  }

  // The messages Steam delivers to a joiner's broker in one tick.
  function TickTook(b: State, now: nat, backlog: nat, api: TickApi, host: nat): seq<Message> {
    if b.failure.Some? then []
    else
      var c := TickChecks(b, now, api);
      if c.failure.Some? then []
      else
        var s := StatusLoop(c, api.statuses, now, backlog, 64);
        if s.failure.Some? then [] else PeerTook(s, host, now, backlog, AnswersFor(api, host))
  }

  function Bodies(ms: seq<Message>): seq<Body> {
    seq(|ms|, i requires 0 <= i < |ms| => BodyOf(ms[i]))
  }

  // The payloads among these frames.
  function DataIn(frames: seq<Frame>): seq<Body> {
    if frames == [] then []
    else (if frames[0].op == Data then [Body(frames[0].bytes, frames[0].reliable)] else []) + DataIn(frames[1..])
  }

  lemma {:induction false} DataInConcat(a: seq<Frame>, b: seq<Frame>)
    ensures DataIn(a + b) == DataIn(a) + DataIn(b)
    decreases |a|
  {
    if a == [] {
      assert a + b == b;
    } else {
      assert (a + b)[1..] == a[1..] + b && (a + b)[0] == a[0];
      DataInConcat(a[1..], b);
      var first := if a[0].op == Data then [Body(a[0].bytes, a[0].reliable)] else [];
      assert DataIn(a + b) == first + DataIn(a[1..] + b);
      assert first + (DataIn(a[1..]) + DataIn(b)) == (first + DataIn(a[1..])) + DataIn(b);
    }
  }

  // From b to c the broker added frames with exactly these payloads, or it failed.
  predicate Adds(b: State, c: State, bodies: seq<Body>) {
    c.failure.None? ==> b.out <= c.out && DataIn(Added(b, c)) == bodies
  }

  lemma AddsNothing(b: State, c: State)
    requires c.failure.None? ==> c.out == b.out || (exists f :: c.out == b.out + [f] && f.op != Data)
    ensures Adds(b, c, [])
  {
    if c.failure.None? {
      if c.out == b.out {
        assert Added(b, c) == [];
      } else {
        var f :| c.out == b.out + [f] && f.op != Data;
        assert Added(b, c) == [f];
        assert DataIn([f]) == [] + DataIn([f][1..]);
      }
    }
  }

  lemma AddsTrans(b: State, c: State, d: State, x: seq<Body>, y: seq<Body>)
    requires c.failure.None? && Adds(b, c, x) && Adds(c, d, y)
    ensures Adds(b, d, x + y)
  {
    if d.failure.None? {
      assert Added(b, d) == Added(b, c) + Added(c, d);
      DataInConcat(Added(b, c), Added(c, d));
    }
  }

  lemma {:induction false} ReceiveAdds(b: State, inbox: seq<Message>, backlog: nat, n: nat, host: nat, joins: nat)
    requires Joined(b, host, joins) && host in b.peers && Plain(inbox)
    ensures Adds(b, ReceiveLoop(b, host, inbox, backlog, n).0, Bodies(Took(b, host, inbox, backlog, n)))
    decreases n
  {
    if n == 0 || !OutputRoom(b, backlog) || inbox == [] {
      assert Added(b, b) == [];
    } else {
      var m := inbox[0];
      var c := ReceiveStep(b, host, m);
      if c.failure.None? {
        assert m.bytes[5..6] == [m.bytes[5]];
        DeliveredWasCarried(b, host, m);
        OneAdds(b, c, Frame(Data, host, 0, m.bytes[3], m.reliable, BodyOf(m).bytes));
        ReceiveAdds(c, inbox[1..], backlog, n - 1, host, joins);
        var rest := Took(c, host, inbox[1..], backlog, n - 1);
        AddsTrans(b, c, ReceiveLoop(c, host, inbox[1..], backlog, n - 1).0, [BodyOf(m)], Bodies(rest));
        assert Bodies([m] + rest) == [BodyOf(m)] + Bodies(rest);
      } else {
        FailedStays(c, host, inbox[1..], backlog, n - 1);
      }
    }
  }

  lemma OneAdds(b: State, c: State, f: Frame)
    requires f.op == Data && c.out == b.out + [f]
    ensures Adds(b, c, [Body(f.bytes, f.reliable)])
  {
    assert Added(b, c) == [f];
    assert DataIn([f]) == [Body(f.bytes, f.reliable)] + DataIn([f][1..]);
  }

  // A failed broker holds no peers.
  lemma FailedStays(b: State, id: nat, inbox: seq<Message>, backlog: nat, n: nat)
    requires b.failure.Some? && b.peers == map[]
    ensures ReceiveLoop(b, id, inbox, backlog, n) == (b, false)
  {
  }

  lemma {:induction false} StatusesAddNothing(b: State, statuses: seq<Status>, now: nat, backlog: nat, n: nat)
    requires b.failure.None?
    ensures Adds(b, StatusLoop(b, statuses, now, backlog, n), [])
    decreases n
  {
    if n == 0 || !OutputRoom(b, backlog) || statuses == [] {
      AddsNothing(b, b);
    } else {
      var c := StatusStep(b, statuses[0], now);
      StatusAddsNothing(b, statuses[0], now);
      if c.failure.None? {
        StatusesAddNothing(c, statuses[1..], now, backlog, n - 1);
        AddsTrans(b, c, StatusLoop(c, statuses[1..], now, backlog, n - 1), [], []);
      }
    }
  }

  lemma StatusAddsNothing(b: State, s: Status, now: nat)
    requires b.failure.None?
    ensures Adds(b, StatusStep(b, s, now), [])
  {
    AddsNothing(b, StatusStep(b, s, now));
  }

  lemma {:induction false} FlushAddsNothing(b: State, id: nat, answers: seq<SendAnswer>, n: nat)
    requires b.failure.None?
    ensures Adds(b, FlushLoop(b, id, answers, n), [])
    decreases n
  {
    if n > 0 && id in b.peers && !b.peers[id].remoteClosed && b.peers[id].pending != [] && answers != [] && answers[0] == Accepted {
      var p := b.peers[id];
      var c := b.(peers := b.peers[id := p.(pending := p.pending[1..], sent := p.sent + [p.pending[0]])]);
      FlushAddsNothing(c, id, answers[1..], n - 1);
      AddsNothing(b, c);
      AddsTrans(b, c, FlushLoop(c, id, answers[1..], n - 1), [], []);
    } else {
      AddsNothing(b, FlushLoop(b, id, answers, n));
    }
  }

  lemma DrainAddsNothing(b: State, id: nat, now: nat, a: PeerApi)
    requires b.failure.None? && id in b.peers
    ensures Adds(b, DrainStep(b, id, now, a), [])
  {
    AddsNothing(b, DrainStep(b, id, now, a));
  }

  lemma StatsAddsNothing(b: State, id: nat, now: nat, backlog: nat, a: PeerApi)
    requires b.failure.None? && id in b.peers
    ensures Adds(b, StatsStep(b, id, now, backlog, a), [])
  {
    AddsNothing(b, StatsStep(b, id, now, backlog, a));
  }

  lemma CloseAddsNothing(b: State, id: nat, now: nat, backlog: nat, empty: bool)
    requires b.failure.None? && id in b.peers
    ensures Adds(b, RemoteCloseStep(b, id, now, backlog, empty), [])
  {
    AddsNothing(b, RemoteCloseStep(b, id, now, backlog, empty));
  }

  lemma InboundAdds(b: State, now: nat, backlog: nat, a: PeerApi, host: nat, joins: nat)
    requires Joined(b, host, joins) && host in b.peers && b.peers[host].connected && Plain(a.inbox)
    ensures var s := StatsStep(b, host, now, backlog, a);
            Adds(b, InboundStep(b, host, now, backlog, a),
                 if s.failure.Some? then [] else Bodies(Took(s, host, a.inbox, backlog, 16)))
  {
    var s := StatsStep(b, host, now, backlog, a);
    StatsStreams(b, now, backlog, a, host, joins);
    StatsAddsNothing(b, host, now, backlog, a);
    if s.failure.None? {
      var (r, empty) := ReceiveLoop(s, host, a.inbox, backlog, 16);
      var bodies := Bodies(Took(s, host, a.inbox, backlog, 16));
      ReceiveAdds(s, a.inbox, backlog, 16, host, joins);
      AddsTrans(b, s, r, [], bodies);
      assert [] + bodies == bodies;
      if r.failure.None? && host in r.peers {
        CloseAddsNothing(r, host, now, backlog, empty);
        AddsTrans(b, r, RemoteCloseStep(r, host, now, backlog, empty), bodies, []);
        assert bodies + [] == bodies;
      }
    }
  }

  lemma PeerAdds(b: State, now: nat, backlog: nat, a: PeerApi, host: nat, joins: nat)
    requires Joined(b, host, joins) && Plain(a.inbox)
    ensures Adds(b, PeerStep(b, host, now, backlog, a), Bodies(PeerTook(b, host, now, backlog, a)))
  {
    if host !in b.peers || !b.peers[host].connected {
      AddsNothing(b, PeerStep(b, host, now, backlog, a));
    } else {
      var f := FlushLoop(b, host, a.sends, 16);
      FlushAddsNothing(b, host, a.sends, 16);
      FlushStreams(b, a.sends, 16, host, joins);
      FlushKeepsConnected(b, a.sends, 16, host);
      if f.failure.None? && host in f.peers {
        if f.peers[host].closing && !f.peers[host].remoteClosed {
          DrainAddsNothing(f, host, now, a);
          AddsTrans(b, f, DrainStep(f, host, now, a), [], []);
        } else {
          InboundAdds(f, now, backlog, a, host, joins);
          var bodies := Bodies(PeerTook(b, host, now, backlog, a));
          AddsTrans(b, f, InboundStep(f, host, now, backlog, a), [], bodies);
          assert [] + bodies == bodies;
        }
      }
    }
  }

  lemma PeersAdd(b: State, now: nat, backlog: nat, api: TickApi, host: nat, joins: nat)
    requires Joined(b, host, joins) && PlainTick(api)
    ensures Adds(b, PeerLoop(b, Ascending(b.peers.Keys), now, backlog, api),
                 Bodies(PeerTook(b, host, now, backlog, AnswersFor(api, host))))
  {
    OnePeer(b, host);
    var a := AnswersFor(api, host);
    if host in b.peers {
      PeerAdds(b, now, backlog, a, host, joins);
      assert PeerLoop(b, [host], now, backlog, api) ==
             PeerLoop(PeerStep(b, host, now, backlog, a), [host][1..], now, backlog, api);
    } else {
      AddsNothing(b, b);
    }
  }

  lemma ChecksAddNothing(b: State, now: nat, api: TickApi)
    requires b.failure.None?
    ensures Adds(b, TickChecks(b, now, api), [])
  {
    AddsNothing(b, TickChecks(b, now, api));
  }

  // A tick hands on exactly the payloads of the messages Steam delivers in it, in order.
  lemma TickAdds(b: State, now: nat, backlog: nat, api: TickApi, host: nat, joins: nat)
    requires Joined(b, host, joins) && PlainTick(api)
    ensures Adds(b, Tick(b, now, backlog, api), Bodies(TickTook(b, now, backlog, api, host)))
  {
    var c := TickChecks(b, now, api);
    ChecksStreams(b, now, api, host, joins);
    ChecksAddNothing(b, now, api);
    if c.failure.None? {
      var s := StatusLoop(c, api.statuses, now, backlog, 64);
      StatusLoopStreams(c, api.statuses, now, backlog, 64, host, joins);
      StatusesAddNothing(c, api.statuses, now, backlog, 64);
      AddsTrans(b, c, s, [], []);
      if s.failure.None? {
        PeersAdd(s, now, backlog, api, host, joins);
        var bodies := Bodies(PeerTook(s, host, now, backlog, AnswersFor(api, host)));
        AddsTrans(b, s, PeerLoop(s, Ascending(s.peers.Keys), now, backlog, api), [], bodies);
        assert [] + bodies == bodies;
      }
    }
  }

  lemma SendAddsNothing(b: State, f: Frame, api: CommandApi)
    requires b.failure.None? && f.peer in b.peers
    ensures Adds(b, SendCommand(b, f, api), [])
  {
    AddsNothing(b, SendCommand(b, f, api));
  }

  lemma PeerAddsNothing(b: State, f: Frame, now: nat, api: CommandApi)
    requires b.failure.None?
    ensures Adds(b, PeerCommand(b, f, now, api), [])
  {
    if f.peer in b.peers && f.op == Send {
      SendAddsNothing(b, f, api);
      AddsNothing(b, b);
    } else {
      AddsNothing(b, PeerCommand(b, f, now, api));
    }
  }

  lemma JoinAddsNothing(b: State, f: Frame, now: nat, api: CommandApi)
    requires b.failure.None?
    ensures Adds(b, JoinCommand(b, f, now, api), [])
  {
    AddsNothing(b, JoinCommand(b, f, now, api));
  }

  // A command of the runtime hands on nothing.
  lemma CommandAddsNothing(b: State, f: Frame, now: nat, api: CommandApi)
    requires b.failure.None? && f.op in {Ping, Join, Close, Send}
    ensures Adds(b, Command(b, f, now, api), [])
  {
    var c := b.(lastCommand := now);
    var i := IdentityChecked(c, now);
    assert i.out == b.out && i.failure.None?;
    if IdentityCurrent(c, now, api.currentIdentity) {
      if f.op == Join {
        JoinAddsNothing(i, f, now, api);
      } else if f.op == Ping {
        AddsNothing(i, i);
      } else {
        PeerAddsNothing(i, f, now, api);
      }
    }
  }
}
