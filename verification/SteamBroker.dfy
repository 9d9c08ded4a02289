// The game-side Steam broker (common/src/SteamBroker.cpp): one value for its whole state and
// one function for each thing it does. The Steam API is an input: every call the broker makes
// to it is answered from the `Api` values below, which may hold any answers at all.
module SteamBroker {
  import opened Common
  import opened Bytes

  const MAX_PACKET: nat := 65536
  const MAX_QUEUE: nat := 128
  const MAX_PEERS: nat := 2
  const CONNECT_TIMEOUT_MS: nat := 30000
  const TERMINAL_DRAIN_MS: nat := 2000

  datatype Op = Hello | Host | Join | Send | Close | Stop | Ready | Connected | Disconnected | Data | Error | Ping | Stats

  datatype Frame = Frame(op: Op, peer: nat, reason: nat, channel: nat, reliable: bool, bytes: seq<byte>)

  function Notice(op: Op, peer: nat, reason: nat): Frame {
    Frame(op, peer, reason, 0, false, [])
  }

  datatype Failure = BadHello | SessionNotReady | SessionChanged | BadPing | BadHostAllowlist | ListenUnverified
    | BadJoin | ConnectFailed | ConnectUnverified | UnknownPeer | BadCloseReason | BadSend | OutputOverflow
    | HelloTimeout | CallbackOverflow | SessionOrRuntimeLost | ConnectionUnverified | InvalidEnvelope | InvalidSessionEnd

  // A wire message in the form handed to the Steam API: an eight byte header, then the payload.
  datatype Wire = Wire(bytes: seq<byte>, reliable: bool)

  // `sent` and `commanded` are history: the wires Steam has accepted on this connection, and the
  // wires of the Send commands accepted for it.
  datatype Peer = Peer(handle: nat, connected: bool, started: nat, lastStats: nat, pending: seq<Wire>,
                       remoteClosed: bool, remoteReason: nat, remoteClosedAt: nat, terminalSent: bool,
                       terminalReceived: bool, closing: bool, closeReason: nat, closeStarted: nat,
                       sent: seq<Wire>, commanded: seq<Wire>)

  function NewPeer(handle: nat, now: nat): Peer {
    Peer(handle, false, now, 0, [], false, 0, 0, false, false, false, 0, 0, [], [])
  }

  datatype CloseWhy = PeerRetired | RuntimeClose | TerminalStatus | HostLeftSendFailed
    | HostLeftDelivered | HostLeftTimeout | TerminalDrained | TerminalDrainTimeout

  // What the diagnostic sink is told when one connection is closed: the peer as it was and why.
  datatype Closure = Closure(id: nat, peer: Peer, hostSide: bool, linger: bool, reason: nat, why: CloseWhy)

  datatype State = State(identity: nat, target: nat, lastCommand: nat, firstTick: nat, lastIdentityCheck: nat,
                         listener: nat, configured: bool, failure: Option<Failure>, allowed: seq<nat>,
                         admitted: seq<nat>, peers: map<nat, Peer>, out: seq<Frame>, closures: set<Closure>)

  function Initial(): State {
    State(0, 0, 0, 0, 0, 0, false, None, [], [], map[], [], {})
  }

  // ---------------------------------------------------------------- answers of the Steam API

  datatype SendAnswer = Accepted | LimitExceeded | Refused

  datatype CommandApi = CommandApi(readyIdentity: nat, currentIdentity: nat, listener: nat, listenerIceOff: bool,
                                   handle: nat, iceOff: bool, send: SendAnswer)

  datatype Status = Status(handle: nat, listener: nat, identity: nat, state: int, authenticated: bool, relay: bool,
                           reason: nat, flags: nat, iceOff: bool, accepted: bool)

  datatype Message = Message(handle: nat, identity: nat, reliable: bool, bytes: seq<byte>)

  datatype PeerApi = PeerApi(sends: seq<SendAnswer>, endAccepted: bool, drained: bool,
                             quality: Option<(nat, nat)>, inbox: seq<Message>)

  datatype TickApi = TickApi(healthy: bool, currentIdentity: nat, statuses: seq<Status>, peer: map<nat, PeerApi>)

  function AnswersFor(api: TickApi, id: nat): PeerApi {
    if id in api.peer then api.peer[id] else PeerApi([], false, false, None, [])
  }

  // ---------------------------------------------------------------- shared steps

  predicate ValidId(id: nat) {
    id / 0x100_0000_0000_0000 == 1 && (id / 0x10_0000_0000_0000) % 16 == 1 &&
    (id / 0x1_0000_0000) % 0x10_0000 == 1 && id % 0x1_0000_0000 != 0
  }

  predicate HostLeftReason(reason: nat) { reason == 4 || reason == 5 }

  function Elapsed(now: nat, since: nat): nat {
    (now - since) % U64_RANGE
  }

  // Closes every connection and the listener. `closures` records single closes only.
  function StopOwned(b: State): State {
    b.(peers := map[], listener := 0, configured := false, allowed := [], admitted := [], target := 0)
  }

  function Fail(b: State, why: Failure): State {
    StopOwned(b).(failure := Some(why), out := [Notice(Error, 0, 0)])
  }

  function Emit(b: State, f: Frame): State {
    if |b.out| >= MAX_QUEUE then Fail(b, OutputOverflow) else b.(out := b.out + [f])
  }

  // Closes one connection at the API and forgets it.
  function Drop(b: State, id: nat, linger: bool, reason: nat, why: CloseWhy): State
    requires id in b.peers
  {
    b.(closures := b.closures + {Closure(id, b.peers[id], b.listener != 0, linger, reason, why)}, peers := b.peers - {id})
  }

  function Retire(b: State, id: nat): State {
    if id !in b.peers then b
    else Emit(Drop(b, id, false, 0, PeerRetired), Notice(Disconnected, id, 0))
  }

  predicate IdentityCurrent(b: State, now: nat, current: nat) {
    b.identity != 0 && b.lastIdentityCheck <= now && (now - b.lastIdentityCheck < 1000 || current == b.identity)
  }

  function IdentityChecked(b: State, now: nat): State {
    if b.identity != 0 && b.lastIdentityCheck <= now && 1000 <= now - b.lastIdentityCheck
    then b.(lastIdentityCheck := now) else b
  }

  predicate OutputRoom(b: State, backlog: nat) { |b.out| + backlog < MAX_QUEUE - 32 }

  // ---------------------------------------------------------------- commands

  // The identities of a Host command, or nothing when one is refused.
  function Allowlist(bytes: seq<byte>, identity: nat, known: seq<nat>): Option<seq<nat>>
    requires |bytes| % 8 == 0
    decreases |bytes|
  {
    if bytes == [] then Some(known) else
      var id := Get(bytes[..8]);
      if !ValidId(id) || id == identity || id in known then None
      else Allowlist(bytes[8..], identity, known + [id])
  }

  predicate Rejoins(b: State, f: Frame) {
    b.configured && b.target != 0 && f.peer == b.target && b.peers == map[] && b.listener == 0
  }

  function JoinCommand(b: State, f: Frame, now: nat, api: CommandApi): State {
    if (b.configured && !Rejoins(b, f)) || !ValidId(f.peer) || f.peer == b.identity || f.bytes != [] then Fail(b, BadJoin) else
      var t := b.(target := f.peer, admitted := if Rejoins(b, f) then b.admitted else b.admitted + [f.peer]);
      if api.handle == 0 then Fail(t, ConnectFailed) else
        var c := t.(peers := if f.peer in t.peers then t.peers else t.peers[f.peer := NewPeer(api.handle, now)]);
        if !api.iceOff then Fail(c, ConnectUnverified) else c.(configured := true)
  }

  function HostCommand(b: State, f: Frame, api: CommandApi): State {
    if b.configured || f.peer != 0 || |f.bytes| > MAX_PEERS * 8 || |f.bytes| % 8 != 0 then Fail(b, BadHostAllowlist) else
      match Allowlist(f.bytes, b.identity, b.allowed)
      case None => Fail(b, BadHostAllowlist)
      case Some(ids) =>
        var l := b.(allowed := ids, listener := api.listener);
        if api.listener == 0 || !api.listenerIceOff then Fail(l, ListenUnverified)
        else Emit(l.(configured := true), Notice(Ready, b.identity, 0))
  }

  function GameplayWire(f: Frame): Wire {
    Wire([0x4b, 0x53, 1, f.channel % 256, if f.reliable then 1 else 0, 0, 0, 0] + f.bytes, f.reliable)
  }

  function SendCommand(b: State, f: Frame, api: CommandApi): State
    requires f.peer in b.peers
  {
    var p := b.peers[f.peer];
    var w := GameplayWire(f);
    if f.op != Send || !p.connected || f.bytes == [] || |f.bytes| > MAX_PACKET - 8 || f.channel >= 3 then Fail(b, BadSend)
    else if p.pending == [] && api.send == Accepted then
      b.(peers := b.peers[f.peer := p.(sent := p.sent + [w], commanded := p.commanded + [w])])
    else if p.pending == [] && api.send == Refused then Retire(b, f.peer)
    else if |p.pending| >= MAX_QUEUE then Retire(b, f.peer)
    else b.(peers := b.peers[f.peer := p.(pending := p.pending + [w], commanded := p.commanded + [w])])
  }

  // A command for one peer. A joiner may close with a host-left reason only while connected;
  // any other Close drops the connection at once and answers with one Disconnected.
  function PeerCommand(b: State, f: Frame, now: nat, api: CommandApi): State {
    if f.peer !in b.peers then
      if f.op == Close && HostLeftReason(f.reason) && f.peer in b.admitted then Emit(b, Notice(Disconnected, f.peer, 0))
      else if (f.op == Send || f.op == Close) && f.peer in b.admitted then b
      else Fail(b, UnknownPeer)
    else
      var p := b.peers[f.peer];
      if f.op == Close && HostLeftReason(f.reason) && p.connected then
        if p.closing then b
        else b.(peers := b.peers[f.peer := p.(closing := true, closeReason := f.reason, closeStarted := now)])
      else if f.op == Close then
        if f.reason > 9 then Fail(b, BadCloseReason)
        else Emit(Drop(b, f.peer, true, f.reason, RuntimeClose), Notice(Disconnected, f.peer, f.reason))
      else if (p.closing || p.remoteClosed) && f.op == Send then b
      else SendCommand(b, f, api)
  }

  function Command(b: State, f: Frame, now: nat, api: CommandApi): State {
    if b.failure.Some? then b else
      var c := b.(lastCommand := now);
      if f.op == Hello then
        if c.identity != 0 || f.peer != 0 || f.bytes != [] then Fail(c, BadHello) else
          var h := c.(identity := api.readyIdentity, lastIdentityCheck := now);
          if !ValidId(h.identity) then Fail(h, SessionNotReady) else Emit(h, Notice(Ready, h.identity, 0))
      else
        var i := IdentityChecked(c, now);
        if !IdentityCurrent(c, now, api.currentIdentity) then Fail(i, SessionChanged)
        else match f.op
          case Ping => if f.bytes == [] then i else Fail(i, BadPing)
          case Stop => StopOwned(i)
          case Host => HostCommand(i, f, api)
          case Join => JoinCommand(i, f, now, api)
          case _ => PeerCommand(i, f, now, api)
  }

  // ---------------------------------------------------------------- the periodic pass

  predicate RefusesIncoming(b: State, s: Status) {
    !ValidId(s.identity) || !s.authenticated || s.flags % 2 == 1 || s.identity !in b.allowed ||
    s.identity in b.peers || |b.peers| >= MAX_PEERS || !s.iceOff
  }

  function StatusStep(b: State, s: Status, now: nat): State {
    if s.state == 1 && b.listener != 0 && s.listener == b.listener then
      if RefusesIncoming(b, s) then b else
        var a := b.(peers := b.peers[s.identity := NewPeer(s.handle, now)],
                    admitted := if s.identity in b.admitted then b.admitted else b.admitted + [s.identity]);
        if s.accepted then a else Retire(a, s.identity)
    else if s.identity !in b.peers || b.peers[s.identity].handle != s.handle then b
    else
      var p := b.peers[s.identity];
      if s.state == 3 then
        if !s.authenticated || s.flags % 4 != 0 || !s.relay || !s.iceOff then Fail(b, ConnectionUnverified)
        else if p.connected then b
        else Emit(b.(peers := b.peers[s.identity := p.(connected := true)]), Notice(Connected, s.identity, 0))
      else if s.state == 0 || s.state >= 4 then
        if p.connected && (p.remoteClosed || HostLeftReason(s.reason)) then
          if !p.remoteClosed then
            b.(peers := b.peers[s.identity := p.(remoteClosed := true, remoteReason := s.reason, remoteClosedAt := now)])
          else if HostLeftReason(s.reason) then b.(peers := b.peers[s.identity := p.(remoteReason := s.reason)])
          else b
        else Emit(Drop(b, s.identity, false, 0, TerminalStatus), Notice(Disconnected, s.identity, s.reason))
      else b
  }

  function StatusLoop(b: State, statuses: seq<Status>, now: nat, backlog: nat, n: nat): State
    decreases n
  {
    if n == 0 || b.failure.Some? || !OutputRoom(b, backlog) || statuses == [] then b
    else StatusLoop(StatusStep(b, statuses[0], now), statuses[1..], now, backlog, n - 1)
  }

  function FlushLoop(b: State, id: nat, answers: seq<SendAnswer>, n: nat): State
    decreases n
  {
    if n == 0 || id !in b.peers || b.peers[id].remoteClosed || b.peers[id].pending == [] then b else
      var p := b.peers[id];
      var answer := if answers == [] then LimitExceeded else answers[0];
      match answer
      case Accepted =>
        FlushLoop(b.(peers := b.peers[id := p.(pending := p.pending[1..], sent := p.sent + [p.pending[0]])]),
                  id, answers[1..], n - 1)
      case LimitExceeded => b
      case Refused =>
        if p.closing then Emit(Drop(b, id, true, p.closeReason, HostLeftSendFailed), Notice(Disconnected, id, p.closeReason))
        else Retire(b, id)
  }

  function EndWire(reason: nat): Wire {
    Wire([0x4b, 0x53, 1, 0, 1, 1, 0, 0, reason % 256], true)
  }

  // The end envelope follows an empty queue, once; a joiner's close has none.
  function EndSent(p: Peer, hostSide: bool, accepted: bool): Peer {
    if p.terminalSent || p.pending != [] then p
    else if hostSide && accepted then p.(terminalSent := true, sent := p.sent + [EndWire(p.closeReason)])
    else p.(terminalSent := !hostSide)
  }

  // A host-left close in progress: the end envelope, then the native close once Steam has
  // drained or the drain has taken too long.
  function DrainStep(b: State, id: nat, now: nat, a: PeerApi): State
    requires id in b.peers
  {
    var q := EndSent(b.peers[id], b.listener != 0, a.endAccepted);
    var c := b.(peers := b.peers[id := q]);
    var delivered := q.pending == [] && q.terminalSent && a.drained;
    if delivered || Elapsed(now, q.closeStarted) >= TERMINAL_DRAIN_MS then
      Emit(Drop(c, id, true, q.closeReason, if delivered then HostLeftDelivered else HostLeftTimeout),
           Notice(Disconnected, id, q.closeReason))
    else c
  }

  function StatsStep(b: State, id: nat, now: nat, backlog: nat, a: PeerApi): State
    requires id in b.peers
  {
    var p := b.peers[id];
    if !OutputRoom(b, backlog) || Elapsed(now, p.lastStats) < 1000 then b else
      var c := b.(peers := b.peers[id := p.(lastStats := now)]);
      match a.quality
      case None => c
      case Some((rtt, loss)) => Emit(c, Frame(Stats, id, 0, 0, false, Put(rtt, 4) + Put(loss, 4)))
  }

  predicate ValidEnvelope(p: Peer, id: nat, m: Message) {
    m.handle == p.handle && m.identity == id && 9 <= |m.bytes| <= MAX_PACKET && m.bytes[0] == 0x4b && m.bytes[1] == 0x53 &&
    m.bytes[2] == 1 && m.bytes[3] < 3 && m.bytes[4] == (if m.reliable then 1 else 0) && m.bytes[5] <= 1 &&
    m.bytes[6] == 0 && m.bytes[7] == 0
  }

  function ReceiveStep(b: State, id: nat, m: Message): State
    requires id in b.peers
  {
    var p := b.peers[id];
    if !ValidEnvelope(p, id, m) then Fail(b, InvalidEnvelope)
    else if m.bytes[5] == 1 then
      if b.listener != 0 || id != b.target || |m.bytes| != 9 || m.bytes[3] != 0 || !m.reliable || !HostLeftReason(m.bytes[8])
      then Fail(b, InvalidSessionEnd)
      else if p.terminalReceived then b
      else Emit(b.(peers := b.peers[id := p.(terminalReceived := true)]), Notice(Disconnected, id, m.bytes[8]))
    else if p.terminalReceived then b
    else Emit(b, Frame(Data, id, 0, m.bytes[3], m.reliable, m.bytes[8..]))
  }

  // The receive loop, and whether it saw Steam's queue empty.
  function ReceiveLoop(b: State, id: nat, inbox: seq<Message>, backlog: nat, n: nat): (State, bool)
    decreases n
  {
    if n == 0 || id !in b.peers || !OutputRoom(b, backlog) then (b, false)
    else if inbox == [] then (b, true)
    else ReceiveLoop(ReceiveStep(b, id, inbox[0]), id, inbox[1..], backlog, n - 1)
  }

  function RemoteCloseStep(b: State, id: nat, now: nat, backlog: nat, empty: bool): State
    requires id in b.peers
  {
    var p := b.peers[id];
    if p.remoteClosed && OutputRoom(b, backlog) && (empty || Elapsed(now, p.remoteClosedAt) >= TERMINAL_DRAIN_MS) then
      var reason := if p.closing then p.closeReason else p.remoteReason;
      var c := Drop(b, id, p.closing, reason, if empty then TerminalDrained else TerminalDrainTimeout);
      if p.terminalReceived then c else Emit(c, Notice(Disconnected, id, reason))
    else b
  }

  function InboundStep(b: State, id: nat, now: nat, backlog: nat, a: PeerApi): State
    requires id in b.peers
  {
    var s := StatsStep(b, id, now, backlog, a);
    if s.failure.Some? then s else
      var (r, empty) := ReceiveLoop(s, id, a.inbox, backlog, 16);
      if r.failure.Some? || id !in r.peers then r else RemoteCloseStep(r, id, now, backlog, empty)
  }

  function PeerStep(b: State, id: nat, now: nat, backlog: nat, a: PeerApi): State {
    if id !in b.peers then b
    else if !b.peers[id].connected then
      if Elapsed(now, b.peers[id].started) > CONNECT_TIMEOUT_MS && OutputRoom(b, backlog) then Retire(b, id) else b
    else
      var f := FlushLoop(b, id, a.sends, 16);
      if f.failure.Some? || id !in f.peers then f
      else if f.peers[id].closing && !f.peers[id].remoteClosed then DrainStep(f, id, now, a)
      else InboundStep(f, id, now, backlog, a)
  }

  function PeerLoop(b: State, ids: seq<nat>, now: nat, backlog: nat, api: TickApi): State
    decreases |ids|
  {
    if ids == [] || b.failure.Some? then b
    else PeerLoop(PeerStep(b, ids[0], now, backlog, AnswersFor(api, ids[0])), ids[1..], now, backlog, api)
  }

  function TickChecks(b: State, now: nat, api: TickApi): State {
    var t := if b.firstTick == 0 then b.(firstTick := now) else b;
    if t.identity == 0 && Elapsed(now, t.firstTick) > 5000 then Fail(t, HelloTimeout)
    else if !api.healthy then Fail(t, CallbackOverflow)
    else if t.identity == 0 then t
    else
      var i := IdentityChecked(t, now);
      if !IdentityCurrent(t, now, api.currentIdentity) || now < i.lastCommand || now - i.lastCommand > 5000
      then Fail(i, SessionOrRuntimeLost) else i
  }

  function Tick(b: State, now: nat, backlog: nat, api: TickApi): State {
    if b.failure.Some? then b else
      var c := TickChecks(b, now, api);
      if c.failure.Some? then c else
        var s := StatusLoop(c, api.statuses, now, backlog, 64);
        if s.failure.Some? then s else PeerLoop(s, Ascending(s.peers.Keys), now, backlog, api)
  }

  function Pop(b: State): State {
    if b.out == [] then b else b.(out := b.out[1..])
  }
}
