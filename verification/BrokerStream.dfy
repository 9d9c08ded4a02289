// The frames a joiner's broker emits, read as a stream: per connection one Connected, then Data,
// then one Disconnected, and nothing of one connection after its Disconnected.
module BrokerStream {
  import opened Common
  import opened Bytes
  import opened SteamBroker

  // A reader of the stream: the connection it is in (counted by Joins) and whether that
  // connection's Connected has been read.
  datatype Cursor = Cursor(gen: nat, live: bool)

  function Advance(c: Cursor, f: Frame, stamp: nat): Option<Cursor> {
    match f.op
    case Connected => if !c.live && stamp == c.gen then Some(c.(live := true)) else None
    case Data => if c.live && stamp == c.gen then Some(c) else None
    case Disconnected => if stamp == c.gen then Some(Cursor(c.gen + 1, false)) else None
    case Stats => Some(c)
    case Error => Some(c)
    case _ => None
  }

  function Walk(c: Cursor, frames: seq<Frame>, stamps: seq<nat>): Option<Cursor>
    requires |frames| == |stamps|
    decreases |frames|
  {
    if frames == [] then Some(c) else
      match Advance(c, frames[0], stamps[0])
      case None => None
      case Some(d) => Walk(d, frames[1..], stamps[1..])
  }

  lemma {:induction false} WalkConcat(c: Cursor, a: seq<Frame>, sa: seq<nat>, b: seq<Frame>, sb: seq<nat>)
    requires |a| == |sa| && |b| == |sb| && Walk(c, a, sa).Some?
    ensures Walk(c, a + b, sa + sb) == Walk(Walk(c, a, sa).value, b, sb)
    decreases |a|
  {
    if a == [] {
      assert a + b == b && sa + sb == sb;
    } else {
      assert (a + b)[1..] == a[1..] + b && (sa + sb)[1..] == sa[1..] + sb;
      WalkConcat(Advance(c, a[0], sa[0]).value, a[1..], sa[1..], b, sb);
    }
  }

  lemma {:induction false} WalkPrefix(c: Cursor, a: seq<Frame>, sa: seq<nat>, b: seq<Frame>, sb: seq<nat>)
    requires |a| == |sa| && |b| == |sb| && Walk(c, a + b, sa + sb).Some?
    ensures Walk(c, a, sa).Some?
    decreases |a|
  {
    if a != [] {
      assert (a + b)[1..] == a[1..] + b && (sa + sb)[1..] == sa[1..] + sb;
      WalkPrefix(Advance(c, a[0], sa[0]).value, a[1..], sa[1..], b, sb);
    }
  }

  function Stamps(n: nat, gen: nat): (s: seq<nat>)
    ensures |s| == n && forall k :: 0 <= k < n ==> s[k] == gen
  {
    seq(n, _ => gen)
  }

  // A broker serving one joiner of `host`, after `joins` accepted Joins.
  predicate Joined(b: State, host: nat, joins: nat) {
    && b.failure.None? && b.listener == 0 && b.peers.Keys <= {host}
    && ValidId(b.identity) && ValidId(host) && host != b.identity && host != 0
    && (b.configured <==> joins > 0)
    && (joins > 0 ==> b.target == host && host in b.admitted)
    && (host in b.peers ==> joins > 0 && !b.peers[host].terminalReceived && (b.peers[host].closing ==> b.peers[host].connected))
  }

  // The broker holds the connection and is not draining it for a host-left close.
  predicate Present(b: State, host: nat) { host in b.peers && !b.peers[host].closing }

  predicate Draining(b: State, host: nat) { host in b.peers && b.peers[host].closing }

  function At(b: State, host: nat, joins: nat): Cursor {
    if host in b.peers then Cursor(joins, b.peers[host].connected) else Cursor(joins + 1, false)
  }

  // The failures a well-behaved runtime can still see: the game session, Steam and the bounded
  // output, never the runtime's own commands.
  predicate External(why: Failure) {
    why in {SessionChanged, ConnectFailed, ConnectUnverified, OutputOverflow, HelloTimeout, CallbackOverflow,
            SessionOrRuntimeLost, ConnectionUnverified, InvalidEnvelope, InvalidSessionEnd}
  }

  function Added(b: State, c: State): seq<Frame> {
    if b.out <= c.out then c.out[|b.out|..] else []
  }

  // From b to c the broker only appended frames of its current connection, in stream order, and
  // neither took up a connection nor began to drain one, or failed for an external reason.
  predicate Streams(b: State, c: State, host: nat, joins: nat) {
    if c.failure.Some? then External(c.failure.value) && c.out == [Notice(Error, 0, 0)] else
      && Joined(c, host, joins) && b.out <= c.out
      && (Present(c, host) ==> Present(b, host)) && (Draining(c, host) ==> Draining(b, host))
      && Walk(At(b, host, joins), Added(b, c), Stamps(|Added(b, c)|, joins)) == Some(At(c, host, joins))
  }

  lemma StreamsSame(b: State, c: State, host: nat, joins: nat)
    requires Joined(c, host, joins) && At(c, host, joins) == At(b, host, joins) && c.out == b.out
    requires (Present(c, host) ==> Present(b, host)) && (Draining(c, host) ==> Draining(b, host))
    ensures Streams(b, c, host, joins)
  {
  }

  lemma StreamsEmit(b: State, c: State, f: Frame, host: nat, joins: nat)
    requires Joined(c, host, joins) && c.out == b.out
    requires (Present(c, host) ==> Present(b, host)) && (Draining(c, host) ==> Draining(b, host))
    requires Advance(At(b, host, joins), f, joins) == Some(At(c, host, joins))
    ensures Streams(b, Emit(c, f), host, joins)
  {
  }

  lemma StreamsTrans(b: State, c: State, d: State, host: nat, joins: nat)
    requires Streams(b, c, host, joins) && Streams(c, d, host, joins) && c.failure.None?
    ensures Streams(b, d, host, joins)
  {
    if d.failure.None? {
      var x, y := Added(b, c), Added(c, d);
      assert Added(b, d) == x + y;
      assert Stamps(|x + y|, joins) == Stamps(|x|, joins) + Stamps(|y|, joins);
      WalkConcat(At(b, host, joins), x, Stamps(|x|, joins), y, Stamps(|y|, joins));
    }
  }

  // ---------------------------------------------------------------- commands

  // A command a joiner of `host` sends, and when the broker is ready for it.
  predicate Wellformed(f: Frame, host: nat) {
    && (f.peer == host || f.op == Ping)
    && (f.op == Ping || f.op == Join ==> f.bytes == [])
    && (f.op == Close ==> f.reason <= 9)
    && (f.op == Send ==> f.bytes != [] && |f.bytes| <= MAX_PACKET - 8 && f.channel < 3)
    && f.op in {Ping, Join, Close, Send}
  }

  predicate Expects(b: State, f: Frame, host: nat, joins: nat) {
    && (f.op == Join ==> host !in b.peers)
    && (f.op == Close && HostLeftReason(f.reason) ==> host in b.peers)
    && (f.op == Send || f.op == Close ==> joins > 0)
    && (f.op == Send && host in b.peers ==> b.peers[host].connected)
  }

  lemma RetireStreams(b: State, host: nat, joins: nat)
    requires Joined(b, host, joins)
    ensures Streams(b, Retire(b, host), host, joins)
  {
  }

  lemma JoinStreams(b: State, f: Frame, now: nat, api: CommandApi, host: nat, joins: nat)
    requires Joined(b, host, joins) && f.op == Join && Wellformed(f, host) && Expects(b, f, host, joins)
    ensures var c := JoinCommand(b, f, now, api);
            if c.failure.Some? then External(c.failure.value) && c.out == [Notice(Error, 0, 0)]
            else Joined(c, host, joins + 1) && c.out == b.out && At(c, host, joins + 1) == At(b, host, joins)
  {
  }

  // A host-left Close of a live connection: the broker starts to drain it and says nothing yet.
  predicate StartsDrain(b: State, f: Frame, host: nat) {
    f.op == Close && HostLeftReason(f.reason) && host in b.peers && b.peers[host].connected
  }

  lemma DrainStarts(b: State, f: Frame, now: nat, api: CommandApi, host: nat, joins: nat)
    requires Joined(b, host, joins) && Wellformed(f, host) && StartsDrain(b, f, host)
    ensures var c := Command(b, f, now, api);
            if c.failure.Some? then External(c.failure.value) && c.out == [Notice(Error, 0, 0)]
            else Joined(c, host, joins) && c.out == b.out && At(c, host, joins) == At(b, host, joins) && Draining(c, host)
  {
  }

  lemma CommandStreams(b: State, f: Frame, now: nat, api: CommandApi, host: nat, joins: nat)
    requires Joined(b, host, joins) && f.op != Join && Wellformed(f, host) && Expects(b, f, host, joins)
    requires !StartsDrain(b, f, host)
    ensures Streams(b, Command(b, f, now, api), host, joins)
  {
    var i := IdentityChecked(b.(lastCommand := now), now);
    assert Joined(i, host, joins) && At(i, host, joins) == At(b, host, joins) && i.out == b.out;
    if f.op == Close && host in i.peers {
      StreamsEmit(b, Drop(i, host, true, f.reason, RuntimeClose), Notice(Disconnected, host, f.reason), host, joins);
    } else if f.op == Send && host in i.peers {
      StreamsSame(b, i, host, joins);
      RetireStreams(i, host, joins);
      StreamsTrans(b, i, Retire(i, host), host, joins);
    }
  }

  // ---------------------------------------------------------------- the periodic pass

  // No session-end envelope is in the inbox.
  predicate Plain(inbox: seq<Message>) {
    forall m :: m in inbox && |m.bytes| > 5 ==> m.bytes[5] != 1
  }

  predicate PlainTick(api: TickApi) {
    forall id :: id in api.peer ==> Plain(api.peer[id].inbox)
  }

  lemma StatusStreams(b: State, s: Status, now: nat, host: nat, joins: nat)
    requires Joined(b, host, joins)
    ensures Streams(b, StatusStep(b, s, now), host, joins)
  {
    if s.identity in b.peers && b.peers[host].handle == s.handle {
      var p := b.peers[host];
      if s.state == 3 && !p.connected {
        StreamsEmit(b, b.(peers := b.peers[host := p.(connected := true)]), Notice(Connected, host, 0), host, joins);
      } else if (s.state == 0 || s.state >= 4) && !(p.connected && (p.remoteClosed || HostLeftReason(s.reason))) {
        StreamsEmit(b, Drop(b, host, false, 0, TerminalStatus), Notice(Disconnected, host, s.reason), host, joins);
      }
    }
  }

  lemma {:induction false} StatusLoopStreams(b: State, statuses: seq<Status>, now: nat, backlog: nat, n: nat, host: nat, joins: nat)
    requires Joined(b, host, joins)
    ensures Streams(b, StatusLoop(b, statuses, now, backlog, n), host, joins)
    decreases n
  {
    if n > 0 && OutputRoom(b, backlog) && statuses != [] {
      var c := StatusStep(b, statuses[0], now);
      StatusStreams(b, statuses[0], now, host, joins);
      if c.failure.None? {
        StatusLoopStreams(c, statuses[1..], now, backlog, n - 1, host, joins);
        StreamsTrans(b, c, StatusLoop(c, statuses[1..], now, backlog, n - 1), host, joins);
      }
    }
  }

  lemma {:induction false} FlushStreams(b: State, answers: seq<SendAnswer>, n: nat, host: nat, joins: nat)
    requires Joined(b, host, joins)
    ensures Streams(b, FlushLoop(b, host, answers, n), host, joins)
    decreases n
  {
    if n > 0 && host in b.peers && !b.peers[host].remoteClosed && b.peers[host].pending != [] {
      var p := b.peers[host];
      if answers != [] && answers[0] == Accepted {
        var c := b.(peers := b.peers[host := p.(pending := p.pending[1..], sent := p.sent + [p.pending[0]])]);
        FlushStreams(c, answers[1..], n - 1, host, joins);
        StreamsTrans(b, c, FlushLoop(c, host, answers[1..], n - 1), host, joins);
      } else if p.closing {
        StreamsEmit(b, Drop(b, host, true, p.closeReason, HostLeftSendFailed), Notice(Disconnected, host, p.closeReason),
                    host, joins);
      } else {
        RetireStreams(b, host, joins);
      }
    }
  }

  lemma DrainStreams(b: State, now: nat, a: PeerApi, host: nat, joins: nat)
    requires Joined(b, host, joins) && host in b.peers && b.peers[host].closing
    ensures Streams(b, DrainStep(b, host, now, a), host, joins)
  {
    var q := EndSent(b.peers[host], b.listener != 0, a.endAccepted);
    var c := b.(peers := b.peers[host := q]);
    var delivered := q.pending == [] && q.terminalSent && a.drained;
    assert Joined(c, host, joins) && At(c, host, joins) == At(b, host, joins);
    StreamsSame(b, c, host, joins);
    StreamsEmit(b, Drop(c, host, true, q.closeReason, if delivered then HostLeftDelivered else HostLeftTimeout),
                Notice(Disconnected, host, q.closeReason), host, joins);
  }

  lemma {:induction false} ReceiveStreams(b: State, inbox: seq<Message>, backlog: nat, n: nat, host: nat, joins: nat)
    requires Joined(b, host, joins) && host in b.peers && b.peers[host].connected && Plain(inbox)
    ensures var c := ReceiveLoop(b, host, inbox, backlog, n).0;
            Streams(b, c, host, joins) && (c.failure.None? ==> host in c.peers && c.peers[host] == b.peers[host])
    decreases n
  {
    if n > 0 && OutputRoom(b, backlog) && inbox != [] {
      var m := inbox[0];
      var c := ReceiveStep(b, host, m);
      if ValidEnvelope(b.peers[host], host, m) {
        StreamsEmit(b, b, Frame(Data, host, 0, m.bytes[3], m.reliable, m.bytes[8..]), host, joins);
      }
      if c.failure.None? {
        ReceiveStreams(c, inbox[1..], backlog, n - 1, host, joins);
        StreamsTrans(b, c, ReceiveLoop(c, host, inbox[1..], backlog, n - 1).0, host, joins);
      }
    }
  }

  lemma StatsStreams(b: State, now: nat, backlog: nat, a: PeerApi, host: nat, joins: nat)
    requires Joined(b, host, joins) && host in b.peers
    ensures var s := StatsStep(b, host, now, backlog, a);
            && Streams(b, s, host, joins)
            && (s.failure.None? ==> host in s.peers && s.peers[host].connected == b.peers[host].connected)
  {
    var c := b.(peers := b.peers[host := b.peers[host].(lastStats := now)]);
    if a.quality.Some? {
      StreamsEmit(b, c, Frame(Stats, host, 0, 0, false, Put(a.quality.value.0, 4) + Put(a.quality.value.1, 4)), host, joins);
    }
  }

  lemma RemoteCloseStreams(b: State, now: nat, backlog: nat, empty: bool, host: nat, joins: nat)
    requires Joined(b, host, joins) && host in b.peers
    ensures Streams(b, RemoteCloseStep(b, host, now, backlog, empty), host, joins)
  {
    var p := b.peers[host];
    var reason := if p.closing then p.closeReason else p.remoteReason;
    StreamsEmit(b, Drop(b, host, p.closing, reason, if empty then TerminalDrained else TerminalDrainTimeout),
                Notice(Disconnected, host, reason), host, joins);
    StreamsSame(b, b, host, joins);
  }

  lemma InboundStreams(b: State, now: nat, backlog: nat, a: PeerApi, host: nat, joins: nat)
    requires Joined(b, host, joins) && host in b.peers && b.peers[host].connected && Plain(a.inbox)
    ensures Streams(b, InboundStep(b, host, now, backlog, a), host, joins)
  {
    var s := StatsStep(b, host, now, backlog, a);
    StatsStreams(b, now, backlog, a, host, joins);
    if s.failure.None? {
      ReceiveStreams(s, a.inbox, backlog, 16, host, joins);
      var (r, empty) := ReceiveLoop(s, host, a.inbox, backlog, 16);
      StreamsTrans(b, s, r, host, joins);
      if r.failure.None? {
        RemoteCloseStreams(r, now, backlog, empty, host, joins);
        StreamsTrans(b, r, RemoteCloseStep(r, host, now, backlog, empty), host, joins);
      }
    }
  }

  lemma PeerStepStreams(b: State, now: nat, backlog: nat, a: PeerApi, host: nat, joins: nat)
    requires Joined(b, host, joins) && Plain(a.inbox)
    ensures Streams(b, PeerStep(b, host, now, backlog, a), host, joins)
  {
    if host in b.peers {
      RetireStreams(b, host, joins);
      if b.peers[host].connected {
        FlushStreams(b, a.sends, 16, host, joins);
        FlushKeepsConnected(b, a.sends, 16, host);
        var f := FlushLoop(b, host, a.sends, 16);
        if f.failure.None? && host in f.peers {
          if f.peers[host].closing && !f.peers[host].remoteClosed {
            DrainStreams(f, now, a, host, joins);
            StreamsTrans(b, f, DrainStep(f, host, now, a), host, joins);
          } else {
            InboundStreams(f, now, backlog, a, host, joins);
            StreamsTrans(b, f, InboundStep(f, host, now, backlog, a), host, joins);
          }
        }
      }
    }
  }

  lemma {:induction false} FlushKeepsConnected(b: State, answers: seq<SendAnswer>, n: nat, id: nat)
    requires id in b.peers
    ensures id in FlushLoop(b, id, answers, n).peers ==>
              FlushLoop(b, id, answers, n).peers[id].connected == b.peers[id].connected
    decreases n
  {
    if n > 0 && !b.peers[id].remoteClosed && b.peers[id].pending != [] && answers != [] && answers[0] == Accepted {
      var p := b.peers[id];
      FlushKeepsConnected(b.(peers := b.peers[id := p.(pending := p.pending[1..], sent := p.sent + [p.pending[0]])]),
                          answers[1..], n - 1, id);
    }
  }

  lemma ChecksStreams(b: State, now: nat, api: TickApi, host: nat, joins: nat)
    requires Joined(b, host, joins)
    ensures Streams(b, TickChecks(b, now, api), host, joins)
  {
  }

  lemma PeersStreams(b: State, now: nat, backlog: nat, api: TickApi, host: nat, joins: nat)
    requires Joined(b, host, joins) && PlainTick(api)
    ensures Streams(b, PeerLoop(b, Ascending(b.peers.Keys), now, backlog, api), host, joins)
  {
    OnePeer(b, host);
    if host in b.peers {
      var a := AnswersFor(api, host);
      PeerStepStreams(b, now, backlog, a, host, joins);
      assert PeerLoop(b, [host], now, backlog, api) ==
             PeerLoop(PeerStep(b, host, now, backlog, a), [host][1..], now, backlog, api);
    }
  }

  lemma TickStreams(b: State, now: nat, backlog: nat, api: TickApi, host: nat, joins: nat)
    requires Joined(b, host, joins) && PlainTick(api)
    ensures Streams(b, Tick(b, now, backlog, api), host, joins)
  {
    var c := TickChecks(b, now, api);
    ChecksStreams(b, now, api, host, joins);
    if c.failure.None? {
      var s := StatusLoop(c, api.statuses, now, backlog, 64);
      StatusLoopStreams(c, api.statuses, now, backlog, 64, host, joins);
      StreamsTrans(b, c, s, host, joins);
      if s.failure.None? {
        PeersStreams(s, now, backlog, api, host, joins);
        StreamsTrans(b, s, PeerLoop(s, Ascending(s.peers.Keys), now, backlog, api), host, joins);
      }
    }
  }

  lemma OnePeer(b: State, host: nat)
    requires b.peers.Keys <= {host}
    ensures Ascending(b.peers.Keys) == if host in b.peers then [host] else []
  {
  }
}
