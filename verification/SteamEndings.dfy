// When the two ways a session ends keep a joiner's stream whole: a close for a host-left reason, and
// the host's session-end envelope. Either can answer one connection with two Disconnected frames,
// or leave it in place for the next Join to meet.
module SteamEndings {
  import opened Common
  import opened Bytes
  import opened SteamBroker
  import opened SteamTransport
  import opened BrokerStream
  import opened SteamRejoin

  // ---------------------------------------------------------------- host-left closes

  lemma UntimelyClose(s: System, now: nat, api: CommandApi)
    requires Invariant(s) && !s.t.dead && s.b.failure.None? && s.up != [] && |s.b.out| < MAX_QUEUE
    requires IdentityCurrent(s.b, now, api.currentIdentity)
    requires s.up[0].op == Close && HostLeftReason(s.up[0].reason) && s.t.host !in s.b.peers
    ensures var r := Apply(s, Serve(now, api));
            && r.b.out == s.b.out + [Notice(Disconnected, s.t.host, 0)] && r.b.failure.None?
            && Walk(r.reader, Pipeline(r), r.stamps) == None && !Invariant(r)
  {
    var r := Apply(s, Serve(now, api));
    var f := Notice(Disconnected, s.t.host, 0);
    assert s.accepted > 0 && Wellformed(s.up[0], s.t.host);
    assert r.b.out == s.b.out + [f];
    assert Pipeline(r) == Pipeline(s) + [f] && r.stamps == s.stamps + [s.accepted];
    WalkConcat(s.reader, Pipeline(s), s.stamps, [f], [s.accepted]);
    assert Walk(At(s.b, s.t.host, s.accepted), [f], [s.accepted]) == None;
  }

  lemma UntimelyJoin(s: System, now: nat, api: CommandApi)
    requires Invariant(s) && !s.t.dead && s.b.failure.None? && s.up != []
    requires IdentityCurrent(s.b, now, api.currentIdentity)
    requires s.up[0].op == Join && Draining(s.b, s.t.host)
    ensures var r := Apply(s, Serve(now, api)); r.b.failure == Some(BadJoin) && !Invariant(r)
  {
    assert Wellformed(s.up[0], s.t.host);
  }

  // The broker fails on its own: Steam's session changed, or there is no room for an answer.
  predicate Overtaken(b: State, f: Frame, now: nat, api: CommandApi) {
    !IdentityCurrent(b, now, api.currentIdentity) || (f.op == Close && |b.out| >= MAX_QUEUE)
  }

  lemma UntimelyFails(b: State, f: Frame, now: nat, api: CommandApi, host: nat)
    requires b.failure.None? && Wellformed(f, host) && f.op == Close && HostLeftReason(f.reason)
    requires host !in b.peers && host in b.admitted && Overtaken(b, f, now, api)
    ensures var c := Command(b, f, now, api);
            c.failure.Some? && External(c.failure.value) && c.out == [Notice(Error, 0, 0)]
  {
  }

  lemma ChangedFails(b: State, f: Frame, now: nat, api: CommandApi, host: nat)
    requires b.failure.None? && Wellformed(f, host) && !IdentityCurrent(b, now, api.currentIdentity)
    ensures var c := Command(b, f, now, api);
            c.failure == Some(SessionChanged) && c.out == [Notice(Error, 0, 0)]
  {
  }

  lemma OvertakenHolds(s: System, now: nat, api: CommandApi)
    requires Invariant(s) && !s.t.dead && s.b.failure.None? && s.up != []
    requires !Timely(s.b, s.up[0]) && Overtaken(s.b, s.up[0], now, api)
    ensures Invariant(Apply(s, Serve(now, api)))
  {
    var f := s.up[0];
    assert f in Commands(s) && Wellformed(f, s.t.host);
    if f.op == Close {
      assert s.accepted > 0;
      UntimelyFails(s.b, f, now, api, s.t.host);
    } else {
      ChangedFails(s.b, f, now, api, s.t.host);
    }
    ServeFailed(s, Command(s.b, f, now, api));
  }

  // Serving the front command keeps what rejoining needs exactly when it is timely, or the broker
  // fails on its own. A timely host-left Close finds its connection still there, and a timely Join
  // finds none being drained.
  lemma TimelyIff(s: System, now: nat, api: CommandApi)
    requires Invariant(s) && !s.t.dead && s.b.failure.None? && s.up != []
    ensures Invariant(Apply(s, Serve(now, api))) <==> Timely(s.b, s.up[0]) || Overtaken(s.b, s.up[0], now, api)
  {
    assert Wellformed(s.up[0], s.t.host);
    if Timely(s.b, s.up[0]) {
      StepHolds(s, Serve(now, api));
    } else if Overtaken(s.b, s.up[0], now, api) {
      OvertakenHolds(s, now, api);
    } else if s.up[0].op == Close {
      UntimelyClose(s, now, api);
    } else {
      UntimelyJoin(s, now, api);
    }
  }

  // A Join of a healthy run is refused as bad exactly when a host-left close is still draining.
  lemma JoinRefusedIff(s: System, now: nat, api: CommandApi)
    requires Invariant(s) && !s.t.dead && s.b.failure.None? && s.up != [] && s.up[0].op == Join
    ensures Apply(s, Serve(now, api)).b.failure == Some(BadJoin) <==>
            Draining(s.b, s.t.host) && IdentityCurrent(s.b, now, api.currentIdentity)
  {
    assert Wellformed(s.up[0], s.t.host);
    if !IdentityCurrent(s.b, now, api.currentIdentity) {
      ChangedFails(s.b, s.up[0], now, api, s.t.host);
    } else if Draining(s.b, s.t.host) {
      UntimelyJoin(s, now, api);
    } else {
      StepHolds(s, Serve(now, api));
      assert Invariant(Apply(s, Serve(now, api)));
    }
  }

  // ---------------------------------------------------------------- runs without either

  predicate PlainStep(s: System, step: Step) {
    match step
    case ConnectHost => !Open(s.t)
    case DisconnectHost(reason) => reason <= 9 && !HostLeftReason(reason)
    case Pass(_, _, api) => PlainTick(api)
    case _ => true
  }

  predicate AllPlain(s: System, steps: seq<Step>)
    requires Aligned(s)
    decreases |steps|
  {
    steps == [] || (PlainStep(s, steps[0]) && AllPlain(Apply(s, steps[0]), steps[1..]))
  }

  predicate NoneHostLeft(q: seq<Frame>) { forall f :: f in q && f.op == Close ==> !HostLeftReason(f.reason) }

  // No connection drains and no queued Close would start to.
  predicate Unhurried(s: System) {
    !s.t.dead && s.b.failure.None? ==> !Draining(s.b, s.t.host) && NoneHostLeft(Commands(s))
  }

  lemma PlainServe(s: System, now: nat, api: CommandApi)
    requires Invariant(s) && Unhurried(s) && !s.t.dead && s.b.failure.None? && s.up != []
    ensures Timely(s.b, s.up[0]) && Unhurried(Apply(s, Serve(now, api)))
  {
    var f := s.up[0];
    var c := Command(s.b, f, now, api);
    assert f in Commands(s) && Wellformed(f, s.t.host);
    UpstreamServe(s, now, api);
    if f.op == Join {
      JoinServed(s.b, f, now, api, s.t.host, s.accepted);
    } else {
      CommandStreams(s.b, f, now, api, s.t.host, s.accepted);
    }
    if c.failure.None? {
      var r := Served(s, c);
      assert Commands(r) == Commands(s)[1..];
    }
  }

  lemma PlainPass(s: System, now: nat, backlog: nat, api: TickApi)
    requires Invariant(s) && Unhurried(s) && !s.t.dead && PlainTick(api)
    ensures Unhurried(Apply(s, Pass(now, backlog, api)))
  {
    var r := Apply(s, Pass(now, backlog, api));
    assert Commands(r) == Commands(s);
    if s.b.failure.None? {
      TickStreams(s.b, now, backlog, api, s.t.host, s.accepted);
    }
  }

  // What the application's steps do to the queue of commands.
  ghost predicate Queues(t: Transport, u: Transport) {
    || u.commands == t.commands
    || exists f :: u.commands == t.commands + [f] && (f.op == Close ==> !HostLeftReason(f.reason))
  }

  lemma CloseQueues(t: Transport, reason: nat)
    requires !HostLeftReason(reason)
    ensures Queues(t, ClosePeer(t, reason))
  {
    var f := Notice(Close, t.host, reason);
    if Open(t) && ClosePeer(t, reason).commands != t.commands {
      assert ClosePeer(t, reason).commands == t.commands + [f];
    }
  }

  lemma SubmitQueues(t: Transport, f: Frame)
    requires f.op != Close
    ensures Queues(t, Submit(t, f))
  {
  }

  lemma TransportQueues(s: System, step: Step)
    requires Aligned(s) && !s.t.dead && PlainStep(s, step)
    requires step.ConnectHost? || step.CloseEndpoint? || step.DisconnectHost? || step.SendPayload? || step.PingBroker?
    ensures Queues(s.t, Apply(s, step).t) && Apply(s, step).up == s.up && Apply(s, step).b == s.b
  {
    match step
    case ConnectHost => SubmitQueues(s.t, Notice(Join, s.t.host, 0));
    case CloseEndpoint => CloseQueues(s.t, 1);
    case DisconnectHost(reason) => CloseQueues(s.t, reason);
    case SendPayload(bytes, channel, reliable) => SubmitQueues(s.t, Frame(Send, s.t.host, 0, channel, reliable, bytes));
    case PingBroker => SubmitQueues(s.t, Notice(Ping, 0, 0));
  }

  lemma OtherQueues(s: System, step: Step)
    requires Aligned(s) && !s.t.dead && !Apply(s, step).t.dead
    requires step.CreateEndpoint? || step.PushCommand? || step.Reply? || step.Fetch? || step.ServiceEndpoint? || step.PipeLost?
    ensures Commands(Apply(s, step)) == Commands(s)
    ensures Apply(s, step).b.peers == s.b.peers && Apply(s, step).b.failure == s.b.failure && Apply(s, step).t.host == s.t.host
  {
    if step.ServiceEndpoint? {
      DrainKeepsCommands(s.t);
    }
  }

  lemma {:induction false} DrainKeepsCommands(t: Transport)
    ensures Drain(t).0.commands == t.commands && Drain(t).0.host == t.host
    decreases |t.client|
  {
    if t.client != [] && t.stale > 0 {
      var u := t.(client := t.client[1..]);
      DrainKeepsCommands(if t.client[0].op == Disconnected then u.(stale := t.stale - 1) else u);
    }
  }

  lemma PlainMove(s: System, step: Step)
    requires Invariant(s) && Unhurried(s) && PlainStep(s, step) && !step.Serve? && !step.Pass? && !s.t.dead
    ensures Unhurried(Apply(s, step))
  {
    var r := Apply(s, step);
    if !r.t.dead {
      if step.ConnectHost? || step.CloseEndpoint? || step.DisconnectHost? || step.SendPayload? || step.PingBroker? {
        TransportQueues(s, step);
        MoreCommands(s, r);
      } else {
        OtherQueues(s, step);
      }
    }
  }

  lemma MoreCommands(s: System, r: System)
    requires Unhurried(s) && !s.t.dead && !r.t.dead && r.up == s.up && r.b == s.b && r.t.host == s.t.host && Queues(s.t, r.t)
    ensures Unhurried(r)
  {
    if r.t.commands != s.t.commands {
      var f :| r.t.commands == s.t.commands + [f] && (f.op == Close ==> !HostLeftReason(f.reason));
      assert Commands(r) == Commands(s) + [f];
    }
  }

  lemma PlainStepAllowed(s: System, step: Step)
    requires Invariant(s) && Unhurried(s) && PlainStep(s, step)
    ensures Allowed(s, step) && Unhurried(Apply(s, step))
  {
    if s.t.dead {
      assert Apply(s, step) == s;
    } else {
      match step
      case Serve(now, api) =>
        if s.b.failure.None? && s.up != [] {
          PlainServe(s, now, api);
        }
      case Pass(now, backlog, api) => PlainPass(s, now, backlog, api);
      case _ => PlainMove(s, step);
    }
  }

  lemma {:induction false} PlainIsAllowed(s: System, steps: seq<Step>)
    requires Invariant(s) && Unhurried(s) && AllPlain(s, steps)
    ensures AllAllowed(s, steps)
    decreases |steps|
  {
    if steps != [] {
      PlainStepAllowed(s, steps[0]);
      StepHolds(s, steps[0]);
      PlainIsAllowed(Apply(s, steps[0]), steps[1..]);
    }
  }

  // Without host-left closes nothing need be timely: rejoining is safe on every run.
  lemma PlainRejoinIsSafe(identity: nat, host: nat, steps: seq<Step>)
    requires ValidId(identity) && ValidId(host) && host != identity
    requires AllPlain(Start(identity, host), steps)
    ensures var s := Run(Start(identity, host), steps);
            && (!s.t.dead ==> s.t.stale == |s.owed|)
            && (forall d :: d in s.deliveries ==> d.0 == d.1)
            && (s.b.failure.Some? ==> s.b.failure.value !in {BadJoin, BadSend, UnknownPeer, BadCloseReason, BadPing})
            && (!s.t.dead ==> !Service(s.t).1.Broken?)
  {
    StartHolds(identity, host);
    assert Commands(Start(identity, host)) == [];
    PlainIsAllowed(Start(identity, host), steps);
    RejoinIsSafe(identity, host, steps);
  }

  // ---------------------------------------------------------------- the session-end envelope

  // The host said that the session is over, and the connection is still held.
  predicate Ended(b: State, host: nat) { host in b.peers && b.peers[host].terminalReceived && b.peers[host].connected }

  predicate SessionEnd(b: State, host: nat, m: Message) {
    && host in b.peers && b.listener == 0 && host == b.target && ValidEnvelope(b.peers[host], host, m)
    && m.bytes[5] == 1 && |m.bytes| == 9 && m.bytes[3] == 0 && m.reliable && HostLeftReason(m.bytes[8])
  }

  // The envelope is reported once, and the connection stays.
  lemma EndReportedOnce(b: State, host: nat, m: Message)
    requires SessionEnd(b, host, m) && b.peers[host].connected && b.failure.None? && |b.out| < MAX_QUEUE
    ensures var c := ReceiveStep(b, host, m);
            && c.failure.None? && Ended(c, host)
            && c.out == b.out + (if b.peers[host].terminalReceived then [] else [Notice(Disconnected, host, m.bytes[8])])
  {
  }

  // The ways the broker can let a connection go.
  datatype Leaving =
    | ByStatus(status: Status)
    | ByCommand(frame: Frame, command: CommandApi)
    | ByFlush(answers: seq<SendAnswer>)
    | ByDrain(answer: PeerApi)
    | ByRemoteClose(backlog: nat, empty: bool)

  function Leave(b: State, host: nat, l: Leaving, now: nat): State
    requires host in b.peers
  {
    match l
    case ByStatus(s) => StatusStep(b, s, now)
    case ByCommand(f, api) => PeerCommand(b, f, now, api)
    case ByFlush(answers) => FlushLoop(b, host, answers, 16)
    case ByDrain(a) => DrainStep(b, host, now, a)
    case ByRemoteClose(backlog, empty) => RemoteCloseStep(b, host, now, backlog, empty)
  }

  lemma {:induction false} FlushLeaves(b: State, host: nat, answers: seq<SendAnswer>, n: nat)
    requires host in b.peers && b.failure.None? && |b.out| < MAX_QUEUE
    ensures var c := FlushLoop(b, host, answers, n);
            && c.failure.None? && (host in c.peers ==> c.out == b.out)
            && (host !in c.peers ==> exists reason :: c.out == b.out + [Notice(Disconnected, host, reason)])
    decreases n
  {
    if n > 0 && !b.peers[host].remoteClosed && b.peers[host].pending != [] && answers != [] && answers[0] == Accepted {
      var p := b.peers[host];
      FlushLeaves(b.(peers := b.peers[host := p.(pending := p.pending[1..], sent := p.sent + [p.pending[0]])]), host,
                  answers[1..], n - 1);
    }
  }

  // However else it lets an ended connection go, the broker reports a second Disconnected; only a
  // remote close, drained or timed out, does not.
  lemma EndedLeaves(b: State, host: nat, l: Leaving, now: nat)
    requires Ended(b, host) && b.listener == 0 && b.failure.None? && |b.out| < MAX_QUEUE
    requires l.ByCommand? ==> l.frame.peer == host
    requires Leave(b, host, l, now).failure.None? && host !in Leave(b, host, l, now).peers
    ensures var c := Leave(b, host, l, now);
            if l.ByRemoteClose? then c.out == b.out
            else exists reason :: c.out == b.out + [Notice(Disconnected, host, reason)]
  {
    match l
    case ByFlush(answers) => FlushLeaves(b, host, answers, 16);
    case ByStatus(s) => assert Leave(b, host, l, now).out == b.out + [Notice(Disconnected, host, s.reason)];
    case ByCommand(f, api) =>
      if f.op == Close {
        assert Leave(b, host, l, now).out == b.out + [Notice(Disconnected, host, f.reason)];
      } else {
        assert Leave(b, host, l, now).out == b.out + [Notice(Disconnected, host, 0)];
      }
    case ByDrain(a) => assert Leave(b, host, l, now).out == b.out + [Notice(Disconnected, host, b.peers[host].closeReason)];
    case ByRemoteClose(_, _) =>
  }

  // Read as a stream in which the envelope's report ended connection number `joins`, the frames
  // the broker adds when it lets the connection go fit exactly when it is such a remote close.
  lemma EndedStreamIff(b: State, host: nat, joins: nat, l: Leaving, now: nat)
    requires Ended(b, host) && b.listener == 0 && b.failure.None? && |b.out| < MAX_QUEUE
    requires l.ByCommand? ==> l.frame.peer == host
    requires Leave(b, host, l, now).failure.None? && host !in Leave(b, host, l, now).peers
    ensures var added := Added(b, Leave(b, host, l, now));
            Walk(Cursor(joins + 1, false), added, Stamps(|added|, joins)).Some? <==> l.ByRemoteClose?
  {
    EndedLeaves(b, host, l, now);
    var c := Leave(b, host, l, now);
    var added := Added(b, c);
    if l.ByRemoteClose? {
      assert added == [];
    } else {
      var reason :| c.out == b.out + [Notice(Disconnected, host, reason)];
      assert added == [Notice(Disconnected, host, reason)];
    }
  }

  // A terminal status lets an ended connection go at once exactly when it is no host-left one and
  // none came before; a plain Close always does, and a host-left Close only starts to drain it.
  lemma EndedStatusIff(b: State, host: nat, s: Status, now: nat)
    requires Ended(b, host) && b.listener == 0 && b.failure.None? && |b.out| < MAX_QUEUE
    requires s.identity == host && s.handle == b.peers[host].handle && (s.state == 0 || s.state >= 4)
    ensures host !in StatusStep(b, s, now).peers <==> !b.peers[host].remoteClosed && !HostLeftReason(s.reason)
  {
  }

  lemma EndedCloseIff(b: State, f: Frame, now: nat, api: CommandApi)
    requires Ended(b, f.peer) && f.op == Close && f.reason <= 9 && b.failure.None? && |b.out| < MAX_QUEUE
    ensures f.peer !in PeerCommand(b, f, now, api).peers <==> !HostLeftReason(f.reason)
  {
  }

  // Until it is let go, a Join of the same host is refused.
  lemma EndedJoinRefused(b: State, f: Frame, now: nat, api: CommandApi)
    requires Ended(b, f.peer) && b.configured && b.failure.None? && f.op == Join
    requires IdentityCurrent(b, now, api.currentIdentity)
    ensures Command(b, f, now, api).failure == Some(BadJoin)
  {
    assert b.peers != map[];
  }
}
