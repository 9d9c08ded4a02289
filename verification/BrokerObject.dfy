// The broker as the code keeps it (class Broker of common/src/SteamBroker.cpp): fields changed in
// place by each call, proved against SteamBroker's functions.
module BrokerObject {
  import opened Common
  import opened Bytes
  import opened SteamBroker
  import BrokerOrder

  lemma NextStatus(b: State, statuses: seq<Status>, i: nat, now: nat, backlog: nat)
    requires i < 64 && i < |statuses| && b.failure.None? && OutputRoom(b, backlog)
    ensures StatusLoop(b, statuses[i..], now, backlog, 64 - i)
            == StatusLoop(StatusStep(b, statuses[i], now), statuses[i + 1..], now, backlog, 64 - (i + 1))
  {
  }

  class Broker {
    var identity: nat
    var target: nat
    var lastCommand: nat
    var firstTick: nat
    var lastIdentityCheck: nat
    var listener: nat
    var configured: bool
    var failure: Option<Failure>
    var allowed: seq<nat>
    var admitted: seq<nat>
    var peers: map<nat, Peer>
    var out: seq<Frame>
    // What the diagnostic sink has been told.
    ghost var closures: set<Closure>

    ghost function Abs(): State
      reads this
    {
      State(identity, target, lastCommand, firstTick, lastIdentityCheck, listener, configured, failure, allowed, admitted, peers,
            out, closures)
    }

    // Queues are bounded, sends are in order, and an end envelope comes last.
    ghost predicate Valid()
      reads this
    {
      BrokerOrder.Order(Abs())
    }

    constructor ()
      ensures Valid() && Abs() == Initial()
    {
      identity, target, lastCommand, firstTick, lastIdentityCheck, listener := 0, 0, 0, 0, 0, 0;
      configured, failure, allowed, admitted, peers, out, closures := false, None, [], [], map[], [], {};
    }

    method CloseOwned()
      modifies this
      ensures Abs() == StopOwned(old(Abs()))
    {
      peers, listener, configured := map[], 0, false;
      allowed, admitted, target := [], [], 0;
    }

    method Abandon(why: Failure)
      modifies this
      ensures Abs() == Fail(old(Abs()), why)
    {
      CloseOwned();
      failure := Some(why);
      out := [Notice(Error, 0, 0)];
    }

    method Report(f: Frame)
      modifies this
      ensures Abs() == Emit(old(Abs()), f)
    {
      if |out| >= MAX_QUEUE {
        Abandon(OutputOverflow);
      } else {
        out := out + [f];
      }
    }

    method Release(id: nat, linger: bool, reason: nat, why: CloseWhy)
      requires id in peers
      modifies this
      ensures Abs() == Drop(old(Abs()), id, linger, reason, why)
    {
      closures := closures + {Closure(id, peers[id], listener != 0, linger, reason, why)};
      peers := peers - {id};
    }

    method Remove(id: nat)
      modifies this
      ensures Abs() == Retire(old(Abs()), id)
    {
      if id in peers {
        Release(id, false, 0, PeerRetired);
        Report(Notice(Disconnected, id, 0));
      }
    }

    method CheckIdentity(now: nat, current: nat) returns (ok: bool)
      modifies this
      ensures Abs() == IdentityChecked(old(Abs()), now) && ok == IdentityCurrent(old(Abs()), now, current)
    {
      if identity == 0 || now < lastIdentityCheck {
        return false;
      }
      if now - lastIdentityCheck < 1000 {
        return true;
      }
      lastIdentityCheck := now;
      return current == identity;
    }

    function Room(backlog: nat): bool
      reads this
    {
      |out| + backlog < MAX_QUEUE - 32
    }

    // ---------------------------------------------------------------- commands

    // The Host command's identities, one at a time.
    method ReadAllowlist(bytes: seq<byte>) returns (ok: bool, ids: seq<nat>)
      requires |bytes| % 8 == 0
      ensures ok <==> Allowlist(bytes, identity, allowed).Some?
      ensures ok ==> Allowlist(bytes, identity, allowed) == Some(ids)
    {
      ids := allowed;
      var i := 0;
      while i < |bytes|
        invariant i <= |bytes| && i % 8 == 0
        invariant Allowlist(bytes[i..], identity, ids) == Allowlist(bytes, identity, allowed)
      {
        assert bytes[i..][..8] == bytes[i..i + 8] && bytes[i..][8..] == bytes[i + 8..];
        var id := Get(bytes[i..i + 8]);
        if !ValidId(id) || id == identity || id in ids {
          return false, ids;
        }
        ids := ids + [id];
        i := i + 8;
      }
      return true, ids;
    }

    method OnHost(f: Frame, api: CommandApi)
      modifies this
      ensures Abs() == HostCommand(old(Abs()), f, api)
    {
      if configured || f.peer != 0 || |f.bytes| > MAX_PEERS * 8 || |f.bytes| % 8 != 0 {
        Abandon(BadHostAllowlist);
        return;
      }
      var ok, ids := ReadAllowlist(f.bytes);
      if !ok {
        Abandon(BadHostAllowlist);
        return;
      }
      allowed := ids;
      listener := api.listener;
      if listener == 0 || !api.listenerIceOff {
        Abandon(ListenUnverified);
        return;
      }
      configured := true;
      Report(Notice(Ready, identity, 0));
    }

    method OnJoin(f: Frame, now: nat, api: CommandApi)
      modifies this
      ensures Abs() == JoinCommand(old(Abs()), f, now, api)
    {
      var rejoin := configured && target != 0 && f.peer == target && peers == map[] && listener == 0;
      if (configured && !rejoin) || !ValidId(f.peer) || f.peer == identity || f.bytes != [] {
        Abandon(BadJoin);
        return;
      }
      target := f.peer;
      if !rejoin {
        admitted := admitted + [f.peer];
      }
      if api.handle == 0 {
        Abandon(ConnectFailed);
        return;
      }
      if f.peer !in peers {
        peers := peers[f.peer := NewPeer(api.handle, now)];
      }
      if !api.iceOff {
        Abandon(ConnectUnverified);
        return;
      }
      configured := true;
    }

    method OnSend(f: Frame, api: CommandApi)
      requires f.peer in peers
      modifies this
      ensures Abs() == SendCommand(old(Abs()), f, api)
    {
      var p := peers[f.peer];
      if f.op != Send || !p.connected || f.bytes == [] || |f.bytes| > MAX_PACKET - 8 || f.channel >= 3 {
        Abandon(BadSend);
        return;
      }
      var w := GameplayWire(f);
      if p.pending == [] {
        if api.send == Accepted {
          peers := peers[f.peer := p.(sent := p.sent + [w], commanded := p.commanded + [w])];
          return;
        }
        if api.send == Refused {
          Remove(f.peer);
          return;
        }
      }
      if |p.pending| >= MAX_QUEUE {
        Remove(f.peer);
        return;
      }
      peers := peers[f.peer := p.(pending := p.pending + [w], commanded := p.commanded + [w])];
    }

    method OnPeer(f: Frame, now: nat, api: CommandApi)
      modifies this
      ensures Abs() == PeerCommand(old(Abs()), f, now, api)
    {
      if f.peer !in peers {
        if (f.op == Send || f.op == Close) && f.peer in admitted {
          if f.op == Close && HostLeftReason(f.reason) {
            Report(Notice(Disconnected, f.peer, 0));
          }
          return;
        }
        Abandon(UnknownPeer);
        return;
      }
      var p := peers[f.peer];
      if f.op == Close {
        if HostLeftReason(f.reason) && p.connected {
          if !p.closing {
            peers := peers[f.peer := p.(closing := true, closeReason := f.reason, closeStarted := now)];
          }
          return;
        }
        if f.reason > 9 {
          Abandon(BadCloseReason);
          return;
        }
        Release(f.peer, true, f.reason, RuntimeClose);
        Report(Notice(Disconnected, f.peer, f.reason));
        return;
      }
      if (p.closing || p.remoteClosed) && f.op == Send {
        return;
      }
      OnSend(f, api);
    }

    method OnHello(f: Frame, now: nat, api: CommandApi)
      requires failure.None? && lastCommand == now && f.op == Hello
      modifies this
      ensures Abs() == Command(old(Abs()), f, now, api)
    {
      if identity != 0 || f.peer != 0 || f.bytes != [] {
        Abandon(BadHello);
        return;
      }
      identity, lastIdentityCheck := api.readyIdentity, now;
      if !ValidId(identity) {
        Abandon(SessionNotReady);
        return;
      }
      Report(Notice(Ready, identity, 0));
    }

    method OnOther(f: Frame, now: nat, api: CommandApi)
      requires failure.None? && lastCommand == now && f.op != Hello
      modifies this
      ensures Abs() == Command(old(Abs()), f, now, api)
    {
      var current := CheckIdentity(now, api.currentIdentity);
      if !current {
        Abandon(SessionChanged);
        return;
      }
      if f.op == Ping {
        if f.bytes != [] {
          Abandon(BadPing);
        }
      } else if f.op == Stop {
        CloseOwned();
      } else if f.op == Host {
        OnHost(f, api);
      } else if f.op == Join {
        OnJoin(f, now, api);
      } else {
        OnPeer(f, now, api);
      }
    }

    method OnCommand(f: Frame, now: nat, api: CommandApi)
      requires Valid()
      modifies this
      ensures Valid() && Abs() == Command(old(Abs()), f, now, api)
    {
      BrokerOrder.CommandOrder(Abs(), f, now, api);
      if failure.Some? {
        return;
      }
      lastCommand := now;
      if f.op == Hello {
        OnHello(f, now, api);
      } else {
        OnOther(f, now, api);
      }
    }

    // ---------------------------------------------------------------- the periodic pass

    method OnStatus(s: Status, now: nat)
      modifies this
      ensures Abs() == StatusStep(old(Abs()), s, now)
    {
      if s.state == 1 && listener != 0 && s.listener == listener {
        if !ValidId(s.identity) || !s.authenticated || s.flags % 2 == 1 || s.identity !in allowed || s.identity in peers
           || |peers| >= MAX_PEERS || !s.iceOff {
          return;
        }
        peers := peers[s.identity := NewPeer(s.handle, now)];
        if s.identity !in admitted {
          admitted := admitted + [s.identity];
        }
        if !s.accepted {
          Remove(s.identity);
        }
        return;
      }
      if s.identity !in peers || peers[s.identity].handle != s.handle {
        return;
      }
      var p := peers[s.identity];
      if s.state == 3 {
        if !s.authenticated || s.flags % 4 != 0 || !s.relay || !s.iceOff {
          Abandon(ConnectionUnverified);
        } else if !p.connected {
          peers := peers[s.identity := p.(connected := true)];
          Report(Notice(Connected, s.identity, 0));
        }
      } else if s.state == 0 || s.state >= 4 {
        OnTerminalStatus(s, now);
      }
    }

    method OnTerminalStatus(s: Status, now: nat)
      requires s.state == 0 || s.state >= 4
      requires s.identity in peers && peers[s.identity].handle == s.handle
      modifies this
      ensures Abs() == StatusStep(old(Abs()), s, now)
    {
      var p := peers[s.identity];
      if p.connected && (p.remoteClosed || HostLeftReason(s.reason)) {
        if !p.remoteClosed {
          peers := peers[s.identity := p.(remoteClosed := true, remoteReason := s.reason, remoteClosedAt := now)];
        } else if HostLeftReason(s.reason) {
          peers := peers[s.identity := p.(remoteReason := s.reason)];
        }
        return;
      }
      Release(s.identity, false, 0, TerminalStatus);
      Report(Notice(Disconnected, s.identity, s.reason));
    }

    method OnStatuses(statuses: seq<Status>, now: nat, backlog: nat)
      modifies this
      ensures Abs() == StatusLoop(old(Abs()), statuses, now, backlog, 64)
    {
      ghost var goal := StatusLoop(Abs(), statuses, now, backlog, 64);
      var i := 0;
      assert statuses[0..] == statuses;
      while i < 64 && failure.None? && Room(backlog) && i < |statuses|
        invariant i <= 64 && i <= |statuses|
        invariant StatusLoop(Abs(), statuses[i..], now, backlog, 64 - i) == goal
      {
        NextStatus(Abs(), statuses, i, now, backlog);
        OnStatus(statuses[i], now);
        i := i + 1;
      }
    }

    method Flush(id: nat, answers: seq<SendAnswer>)
      modifies this
      ensures Abs() == FlushLoop(old(Abs()), id, answers, 16)
    {
      var i := 0;
      while i < 16 && id in peers && !peers[id].remoteClosed && peers[id].pending != []
        invariant i <= 16
        invariant FlushLoop(Abs(), id, if i <= |answers| then answers[i..] else [], 16 - i) == FlushLoop(old(Abs()), id, answers, 16)
      {
        var p := peers[id];
        var answer := if i < |answers| then answers[i] else LimitExceeded;
        if answer == LimitExceeded {
          return;
        }
        if answer == Refused {
          if p.closing {
            Release(id, true, p.closeReason, HostLeftSendFailed);
            Report(Notice(Disconnected, id, p.closeReason));
          } else {
            Remove(id);
          }
          return;
        }
        assert answers[i..][1..] == answers[i + 1..];
        peers := peers[id := p.(pending := p.pending[1..], sent := p.sent + [p.pending[0]])];
        i := i + 1;
      }
    }

    method SendEnd(p: Peer, accepted: bool) returns (q: Peer)
      ensures q == EndSent(p, listener != 0, accepted)
    {
      q := p;
      if !p.terminalSent && p.pending == [] {
        if listener != 0 {
          if accepted {
            q := q.(terminalSent := true, sent := q.sent + [EndWire(q.closeReason)]);
          } else {
            q := q.(terminalSent := false);
          }
        } else {
          q := q.(terminalSent := true);
        }
      }
    }

    method Drain(id: nat, now: nat, a: PeerApi)
      requires id in peers
      modifies this
      ensures Abs() == DrainStep(old(Abs()), id, now, a)
    {
      var p := SendEnd(peers[id], a.endAccepted);
      peers := peers[id := p];
      var delivered := p.pending == [] && p.terminalSent && a.drained;
      if delivered || Elapsed(now, p.closeStarted) >= TERMINAL_DRAIN_MS {
        Release(id, true, p.closeReason, if delivered then HostLeftDelivered else HostLeftTimeout);
        Report(Notice(Disconnected, id, p.closeReason));
      }
    }

    method Sample(id: nat, now: nat, backlog: nat, a: PeerApi)
      requires id in peers
      modifies this
      ensures Abs() == StatsStep(old(Abs()), id, now, backlog, a)
    {
      var p := peers[id];
      if !Room(backlog) || Elapsed(now, p.lastStats) < 1000 {
        return;
      }
      peers := peers[id := p.(lastStats := now)];
      if a.quality.Some? {
        Report(Frame(Stats, id, 0, 0, false, Put(a.quality.value.0, 4) + Put(a.quality.value.1, 4)));
      }
    }

    method OnMessage(id: nat, m: Message)
      requires id in peers
      modifies this
      ensures Abs() == ReceiveStep(old(Abs()), id, m)
    {
      var p := peers[id];
      if !ValidEnvelope(p, id, m) {
        Abandon(InvalidEnvelope);
        return;
      }
      if m.bytes[5] == 1 {
        if listener != 0 || id != target || |m.bytes| != 9 || m.bytes[3] != 0 || !m.reliable || !HostLeftReason(m.bytes[8]) {
          Abandon(InvalidSessionEnd);
        } else if !p.terminalReceived {
          peers := peers[id := p.(terminalReceived := true)];
          Report(Notice(Disconnected, id, m.bytes[8]));
        }
        return;
      }
      if !p.terminalReceived {
        Report(Frame(Data, id, 0, m.bytes[3], m.reliable, m.bytes[8..]));
      }
    }

    method Receive(id: nat, inbox: seq<Message>, backlog: nat) returns (empty: bool)
      modifies this
      ensures (Abs(), empty) == ReceiveLoop(old(Abs()), id, inbox, backlog, 16)
    {
      var i := 0;
      while i < 16 && id in peers && Room(backlog)
        invariant i <= 16 && i <= |inbox|
        invariant ReceiveLoop(Abs(), id, inbox[i..], backlog, 16 - i) == ReceiveLoop(old(Abs()), id, inbox, backlog, 16)
      {
        if i == |inbox| {
          return true;
        }
        assert inbox[i..][1..] == inbox[i + 1..];
        OnMessage(id, inbox[i]);
        i := i + 1;
      }
      return false;
    }

    method FinishRemote(id: nat, now: nat, backlog: nat, empty: bool)
      requires id in peers
      modifies this
      ensures Abs() == RemoteCloseStep(old(Abs()), id, now, backlog, empty)
    {
      var p := peers[id];
      if p.remoteClosed && Room(backlog) && (empty || Elapsed(now, p.remoteClosedAt) >= TERMINAL_DRAIN_MS) {
        var reason := if p.closing then p.closeReason else p.remoteReason;
        Release(id, p.closing, reason, if empty then TerminalDrained else TerminalDrainTimeout);
        if !p.terminalReceived {
          Report(Notice(Disconnected, id, reason));
        }
      }
    }

    method Inbound(id: nat, now: nat, backlog: nat, a: PeerApi)
      requires id in peers
      modifies this
      ensures Abs() == InboundStep(old(Abs()), id, now, backlog, a)
    {
      Sample(id, now, backlog, a);
      if failure.Some? {
        return;
      }
      var empty := Receive(id, a.inbox, backlog);
      if failure.Some? || id !in peers {
        return;
      }
      FinishRemote(id, now, backlog, empty);
    }

    method ServicePeer(id: nat, now: nat, backlog: nat, a: PeerApi)
      modifies this
      ensures Abs() == PeerStep(old(Abs()), id, now, backlog, a)
    {
      if id !in peers {
        return;
      }
      if !peers[id].connected {
        if Elapsed(now, peers[id].started) > CONNECT_TIMEOUT_MS && Room(backlog) {
          Remove(id);
        }
        return;
      }
      Flush(id, a.sends);
      if failure.Some? || id !in peers {
        return;
      }
      if peers[id].closing && !peers[id].remoteClosed {
        Drain(id, now, a);
      } else {
        Inbound(id, now, backlog, a);
      }
    }

    method ServicePeers(ids: seq<nat>, now: nat, backlog: nat, api: TickApi)
      modifies this
      ensures Abs() == PeerLoop(old(Abs()), ids, now, backlog, api)
    {
      var i := 0;
      assert ids[0..] == ids;
      while i < |ids| && failure.None?
        invariant i <= |ids|
        invariant PeerLoop(Abs(), ids[i..], now, backlog, api) == PeerLoop(old(Abs()), ids, now, backlog, api)
      {
        assert ids[i..][1..] == ids[i + 1..];
        ServicePeer(ids[i], now, backlog, AnswersFor(api, ids[i]));
        i := i + 1;
      }
    }

    method CheckTick(now: nat, api: TickApi)
      modifies this
      ensures Abs() == TickChecks(old(Abs()), now, api)
    {
      if firstTick == 0 {
        firstTick := now;
      }
      if identity == 0 && Elapsed(now, firstTick) > 5000 {
        Abandon(HelloTimeout);
        return;
      }
      if !api.healthy {
        Abandon(CallbackOverflow);
        return;
      }
      if identity != 0 {
        var current := CheckIdentity(now, api.currentIdentity);
        if !current || now < lastCommand || now - lastCommand > 5000 {
          Abandon(SessionOrRuntimeLost);
        }
      }
    }

    method OnTick(now: nat, backlog: nat, api: TickApi)
      requires Valid()
      modifies this
      ensures Valid() && Abs() == Tick(old(Abs()), now, backlog, api)
    {
      BrokerOrder.StepOrder(Abs(), BrokerOrder.Pass(now, backlog, api));
      if failure.Some? {
        return;
      }
      CheckTick(now, api);
      if failure.Some? {
        return;
      }
      OnStatuses(api.statuses, now, backlog);
      if failure.Some? {
        return;
      }
      ServicePeers(Ascending(peers.Keys), now, backlog, api);
    }

    method Take()
      requires Valid()
      modifies this
      ensures Valid() && Abs() == Pop(old(Abs()))
    {
      BrokerOrder.StepOrder(Abs(), BrokerOrder.Take);
      if out != [] {
        out := out[1..];
      }
    }
  }
}
