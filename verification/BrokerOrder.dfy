// What the broker keeps over every run: bounded queues, gameplay sent in command order, and the
// end envelope of a host-left close sent once and last.
module BrokerOrder {
  import opened Common
  import opened SteamBroker

  predicate Gameplay(w: Wire) { |w.bytes| >= 9 && w.bytes[5] == 0 }

  // Wires accepted by Steam, then the queue, are the accepted Send commands in order; only a
  // host's end envelope may follow them, once nothing is queued.
  predicate PeerOrder(p: Peer, hostSide: bool) {
    && |p.pending| <= MAX_QUEUE
    && (p.terminalSent ==> p.closing && p.pending == [])
    && p.sent + p.pending == p.commanded + (if p.terminalSent && hostSide then [EndWire(p.closeReason)] else [])
    && forall w :: w in p.commanded ==> Gameplay(w)
  }

  predicate ClosureOrder(c: Closure) {
    && PeerOrder(c.peer, c.hostSide)
    && (c.why == HostLeftDelivered ==> c.peer.terminalSent && c.reason == c.peer.closeReason)
  }

  predicate Order(b: State) {
    && |b.out| <= MAX_QUEUE
    && (b.peers != map[] || b.listener != 0 ==> b.configured)
    && (forall id :: id in b.peers ==> PeerOrder(b.peers[id], b.listener != 0))
    && forall c :: c in b.closures ==> ClosureOrder(c)
  }

  // One call on the broker, with the answers the Steam API gives during it.
  datatype Input = Issue(frame: Frame, now: nat, command: CommandApi) | Pass(now: nat, backlog: nat, tick: TickApi) | Take

  function Step(b: State, i: Input): State {
    match i
    case Issue(f, now, api) => Command(b, f, now, api)
    case Pass(now, backlog, api) => Tick(b, now, backlog, api)
    case Take => Pop(b)
  }

  function Run(b: State, inputs: seq<Input>): State
    decreases |inputs|
  {
    if inputs == [] then b else Run(Step(b, inputs[0]), inputs[1..])
  }

  lemma DropOrder(b: State, id: nat, linger: bool, reason: nat, why: CloseWhy)
    requires Order(b) && id in b.peers
    requires why == HostLeftDelivered ==> b.peers[id].terminalSent && reason == b.peers[id].closeReason
    ensures Order(Drop(b, id, linger, reason, why))
  {
  }

  lemma UpdateOrder(b: State, id: nat, p: Peer)
    requires Order(b) && b.configured && PeerOrder(p, b.listener != 0)
    ensures Order(b.(peers := b.peers[id := p]))
  {
  }

  lemma RetireOrder(b: State, id: nat)
    requires Order(b)
    ensures Order(Retire(b, id))
  {
  }

  lemma JoinOrder(b: State, f: Frame, now: nat, api: CommandApi)
    requires Order(b)
    ensures Order(JoinCommand(b, f, now, api))
  {
  }

  lemma SendOrder(b: State, f: Frame, api: CommandApi)
    requires Order(b) && f.peer in b.peers && (f.op == Send ==> !b.peers[f.peer].closing)
    ensures Order(SendCommand(b, f, api))
  {
    var p := b.peers[f.peer];
    var w := GameplayWire(f);
    RetireOrder(b, f.peer);
    assert f.op == Send && f.bytes != [] ==> Gameplay(w);
    assert p.sent + (p.pending + [w]) == (p.sent + p.pending) + [w];
    if f.op == Send && f.bytes != [] && |p.pending| < MAX_QUEUE {
      UpdateOrder(b, f.peer, p.(pending := p.pending + [w], commanded := p.commanded + [w]));
    }
    if f.op == Send && f.bytes != [] && p.pending == [] {
      assert p.sent == p.sent + p.pending;
      assert (p.sent + [w]) + [] == p.commanded + [w];
      UpdateOrder(b, f.peer, p.(sent := p.sent + [w], commanded := p.commanded + [w]));
    }
  }

  lemma PeerCommandOrder(b: State, f: Frame, now: nat, api: CommandApi)
    requires Order(b)
    ensures Order(PeerCommand(b, f, now, api))
  {
    if f.peer in b.peers {
      var p := b.peers[f.peer];
      if f.op == Close && HostLeftReason(f.reason) && p.connected {
        UpdateOrder(b, f.peer, if p.closing then p else p.(closing := true, closeReason := f.reason, closeStarted := now));
      } else if f.op == Close {
        DropOrder(b, f.peer, true, f.reason, RuntimeClose);
      } else if !((p.closing || p.remoteClosed) && f.op == Send) {
        SendOrder(b, f, api);
      }
    }
  }

  lemma HostOrder(b: State, f: Frame, api: CommandApi)
    requires Order(b)
    ensures Order(HostCommand(b, f, api))
  {
  }

  lemma HelloOrder(b: State, f: Frame, now: nat, api: CommandApi)
    requires Order(b) && f.op == Hello
    ensures Order(Command(b, f, now, api))
  {
  }

  lemma PlainOrder(b: State, f: Frame, now: nat, api: CommandApi)
    requires Order(b) && (f.op == Ping || f.op == Stop)
    ensures Order(Command(b, f, now, api))
  {
  }

  lemma CommandOrder(b: State, f: Frame, now: nat, api: CommandApi)
    requires Order(b)
    ensures Order(Command(b, f, now, api))
  {
    if f.op == Hello {
      HelloOrder(b, f, now, api);
    } else if f.op == Ping || f.op == Stop {
      PlainOrder(b, f, now, api);
    } else {
      RoleOrder(b, f, now, api);
    }
  }

  lemma RoleOrder(b: State, f: Frame, now: nat, api: CommandApi)
    requires Order(b) && f.op != Hello && f.op != Ping && f.op != Stop
    ensures Order(Command(b, f, now, api))
  {
    var i := IdentityChecked(b.(lastCommand := now), now);
    match f.op
    case Host => HostOrder(i, f, api);
    case Join => JoinOrder(i, f, now, api);
    case _ => PeerCommandOrder(i, f, now, api);
  }

  lemma StatusOrder(b: State, s: Status, now: nat)
    requires Order(b)
    ensures Order(StatusStep(b, s, now))
  {
    if s.state == 1 && b.listener != 0 && s.listener == b.listener {
      if !RefusesIncoming(b, s) {
        var a := b.(admitted := if s.identity in b.admitted then b.admitted else b.admitted + [s.identity]);
        UpdateOrder(a, s.identity, NewPeer(s.handle, now));
        RetireOrder(a.(peers := b.peers[s.identity := NewPeer(s.handle, now)]), s.identity);
      }
    } else if s.identity in b.peers {
      var p := b.peers[s.identity];
      UpdateOrder(b, s.identity, p.(connected := true));
      UpdateOrder(b, s.identity, p.(remoteClosed := true, remoteReason := s.reason, remoteClosedAt := now));
      UpdateOrder(b, s.identity, p.(remoteReason := s.reason));
      DropOrder(b, s.identity, false, 0, TerminalStatus);
    }
  }

  lemma {:induction false} StatusLoopOrder(b: State, statuses: seq<Status>, now: nat, backlog: nat, n: nat)
    requires Order(b)
    ensures Order(StatusLoop(b, statuses, now, backlog, n))
    decreases n
  {
    if n > 0 && b.failure.None? && OutputRoom(b, backlog) && statuses != [] {
      StatusOrder(b, statuses[0], now);
      StatusLoopOrder(StatusStep(b, statuses[0], now), statuses[1..], now, backlog, n - 1);
    }
  }

  lemma {:induction false} FlushOrder(b: State, id: nat, answers: seq<SendAnswer>, n: nat)
    requires Order(b)
    ensures Order(FlushLoop(b, id, answers, n))
    decreases n
  {
    if n > 0 && id in b.peers && !b.peers[id].remoteClosed && b.peers[id].pending != [] {
      var p := b.peers[id];
      if answers != [] && answers[0] == Accepted {
        var q := p.(pending := p.pending[1..], sent := p.sent + [p.pending[0]]);
        assert q.sent + q.pending == p.sent + p.pending;
        FlushOrder(b.(peers := b.peers[id := q]), id, answers[1..], n - 1);
      } else {
        DropOrder(b, id, true, p.closeReason, HostLeftSendFailed);
        DropOrder(b, id, false, 0, PeerRetired);
      }
    }
  }

  lemma EndSentOrder(p: Peer, hostSide: bool, accepted: bool)
    requires PeerOrder(p, hostSide) && p.closing
    ensures PeerOrder(EndSent(p, hostSide, accepted), hostSide)
  {
    assert p.pending == [] ==> p.sent == p.sent + p.pending;
    var q := EndSent(p, hostSide, accepted);
    assert q.pending == [] ==> q.sent == q.sent + q.pending;
  }

  lemma DrainOrder(b: State, id: nat, now: nat, a: PeerApi)
    requires Order(b) && id in b.peers && b.peers[id].closing
    ensures Order(DrainStep(b, id, now, a))
  {
    var q := EndSent(b.peers[id], b.listener != 0, a.endAccepted);
    EndSentOrder(b.peers[id], b.listener != 0, a.endAccepted);
    UpdateOrder(b, id, q);
    var c := b.(peers := b.peers[id := q]);
    DropOrder(c, id, true, q.closeReason, HostLeftTimeout);
    if q.terminalSent {
      DropOrder(c, id, true, q.closeReason, HostLeftDelivered);
    }
  }

  lemma {:induction false} ReceiveOrder(b: State, id: nat, inbox: seq<Message>, backlog: nat, n: nat)
    requires Order(b)
    ensures Order(ReceiveLoop(b, id, inbox, backlog, n).0)
    decreases n
  {
    if n > 0 && id in b.peers && OutputRoom(b, backlog) && inbox != [] {
      ReceiveOrder(ReceiveStep(b, id, inbox[0]), id, inbox[1..], backlog, n - 1);
    }
  }

  lemma RemoteCloseOrder(b: State, id: nat, now: nat, backlog: nat, empty: bool)
    requires Order(b) && id in b.peers
    ensures Order(RemoteCloseStep(b, id, now, backlog, empty))
  {
    var reason := if b.peers[id].closing then b.peers[id].closeReason else b.peers[id].remoteReason;
    DropOrder(b, id, b.peers[id].closing, reason, if empty then TerminalDrained else TerminalDrainTimeout);
  }

  lemma StatsOrder(b: State, id: nat, now: nat, backlog: nat, a: PeerApi)
    requires Order(b) && id in b.peers
    ensures Order(StatsStep(b, id, now, backlog, a))
  {
  }

  lemma InboundOrder(b: State, id: nat, now: nat, backlog: nat, a: PeerApi)
    requires Order(b) && id in b.peers
    ensures Order(InboundStep(b, id, now, backlog, a))
  {
    StatsOrder(b, id, now, backlog, a);
    var s := StatsStep(b, id, now, backlog, a);
    ReceiveOrder(s, id, a.inbox, backlog, 16);
    var (r, empty) := ReceiveLoop(s, id, a.inbox, backlog, 16);
    if s.failure.None? && r.failure.None? && id in r.peers {
      RemoteCloseOrder(r, id, now, backlog, empty);
    }
  }

  lemma PeerStepOrder(b: State, id: nat, now: nat, backlog: nat, a: PeerApi)
    requires Order(b)
    ensures Order(PeerStep(b, id, now, backlog, a))
  {
    if id in b.peers {
      DropOrder(b, id, false, 0, PeerRetired);
      FlushOrder(b, id, a.sends, 16);
      var f := FlushLoop(b, id, a.sends, 16);
      if id in f.peers {
        if f.peers[id].closing {
          DrainOrder(f, id, now, a);
        }
        InboundOrder(f, id, now, backlog, a);
      }
    }
  }

  lemma {:induction false} PeerLoopOrder(b: State, ids: seq<nat>, now: nat, backlog: nat, api: TickApi)
    requires Order(b)
    ensures Order(PeerLoop(b, ids, now, backlog, api))
    decreases |ids|
  {
    if ids != [] && b.failure.None? {
      PeerStepOrder(b, ids[0], now, backlog, AnswersFor(api, ids[0]));
      PeerLoopOrder(PeerStep(b, ids[0], now, backlog, AnswersFor(api, ids[0])), ids[1..], now, backlog, api);
    }
  }

  lemma StepOrder(b: State, i: Input)
    requires Order(b)
    ensures Order(Step(b, i))
  {
    match i
    case Issue(f, now, api) => CommandOrder(b, f, now, api);
    case Take =>
    case Pass(now, backlog, api) =>
      var c := TickChecks(b, now, api);
      assert Order(c);
      StatusLoopOrder(c, api.statuses, now, backlog, 64);
      var s := StatusLoop(c, api.statuses, now, backlog, 64);
      PeerLoopOrder(s, Ascending(s.peers.Keys), now, backlog, api);
  }

  // Broker send order and bounded queues, over every run.
  lemma {:induction false} RunOrder(b: State, inputs: seq<Input>)
    requires Order(b)
    ensures Order(Run(b, inputs))
    decreases |inputs|
  {
    if inputs != [] {
      StepOrder(b, inputs[0]);
      RunOrder(Step(b, inputs[0]), inputs[1..]);
    }
  }

  function EndsIn(wires: seq<Wire>): nat {
    if wires == [] then 0 else (if Gameplay(wires[0]) then 0 else 1) + EndsIn(wires[1..])
  }

  lemma {:induction false} GameplayHasNoEnd(wires: seq<Wire>, tail: seq<Wire>)
    requires forall w :: w in wires ==> Gameplay(w)
    ensures EndsIn(wires + tail) == EndsIn(tail)
  {
    if wires == [] {
      assert wires + tail == tail;
    } else {
      assert (wires + tail)[1..] == wires[1..] + tail;
      GameplayHasNoEnd(wires[1..], tail);
    }
  }

  // A host-left close reported as delivered: every accepted Send command was sent, in order, and
  // then the end envelope, exactly once.
  lemma DeliveredEndIsLast(inputs: seq<Input>, c: Closure)
    requires c in Run(Initial(), inputs).closures && c.why == HostLeftDelivered && c.hostSide
    ensures c.peer.sent == c.peer.commanded + [EndWire(c.reason)]
    ensures EndsIn(c.peer.sent) == 1 && c.peer.pending == []
  {
    RunOrder(Initial(), inputs);
    GameplayHasNoEnd(c.peer.commanded, [EndWire(c.reason)]);
    assert [EndWire(c.reason)][1..] == [];
    assert EndsIn([EndWire(c.reason)]) == 1;
  }
}
