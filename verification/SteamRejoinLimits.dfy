// Where rejoin safety stops: the two paths on which the broker answers one connection with a
// second Disconnected, or still holds it when the next Join arrives.
module SteamRejoinLimits {
  import opened Common
  import opened SteamBroker
  import opened BrokerStream
  import opened SteamRejoin
  import SteamTransport

  const SELF: nat := 0x110_0001_0000_0001
  const HOST: nat := 0x110_0001_0000_0002

  // A Close for a connection the broker no longer has is answered exactly when its reason is a
  // host-left one.
  lemma AbsentCloseAnswered(b: State, f: Frame, now: nat, api: CommandApi)
    requires b.failure.None? && f.op == Close && f.peer !in b.peers && f.peer in b.admitted
    requires IdentityCurrent(b, now, api.currentIdentity) && |b.out| < MAX_QUEUE
    ensures Command(b, f, now, api).failure.None?
    ensures Command(b, f, now, api).out
            == b.out + (if HostLeftReason(f.reason) then [Notice(Disconnected, f.peer, 0)] else [])
  {
  }

  // A Join of the same host is refused as bad exactly when the previous connection is still held.
  lemma RejoinRefusedIff(b: State, f: Frame, now: nat, api: CommandApi)
    requires b.failure.None? && b.configured && b.listener == 0 && b.target == f.peer && ValidId(f.peer)
    requires f.op == Join && f.bytes == [] && f.peer != b.identity && IdentityCurrent(b, now, api.currentIdentity)
    ensures Command(b, f, now, api).failure == Some(BadJoin) <==> b.peers != map[]
  {
  }

  function Answers(handle: nat): CommandApi { CommandApi(SELF, SELF, 0, false, handle, true, Accepted) }

  function Told(state: int): Status { Status(7, 0, HOST, state, true, true, 0, 0, true, true) }

  function Plainly(status: Status): TickApi { TickApi(true, SELF, [status], map[]) }

  function EndMessage(): Message { Message(7, HOST, true, [0x4b, 0x53, 1, 0, 1, 1, 0, 0, 4]) }

  function Ending(): TickApi {
    TickApi(true, SELF, [Told(3)], map[HOST := PeerApi([], false, false, None, [EndMessage()])])
  }

  lemma {:induction false} RunSplit(s: System, a: seq<Step>, b: seq<Step>)
    requires Aligned(s)
    ensures Run(s, a + b) == Run(Run(s, a), b)
    decreases |a|
  {
    if a == [] {
      assert a + b == b;
    } else {
      assert (a + b)[1..] == a[1..] + b;
      RunSplit(Apply(s, a[0]), a[1..], b);
    }
  }

  lemma OneStep(s: System, step: Step)
    requires Aligned(s)
    ensures Run(s, [step]) == Apply(s, step)
  {
  }

  lemma TwoSteps(s: System, a: Step, b: Step)
    requires Aligned(s)
    ensures Run(s, [a, b]) == Apply(Apply(s, a), b)
  {
    RunSplit(s, [a], [b]);
    OneStep(s, a);
    OneStep(Apply(s, a), b);
    assert [a] + [b] == [a, b];
  }

  function Idle(known: bool, closed: bool): SteamTransport.Transport {
    SteamTransport.Transport(SELF, HOST, true, false, known, false, closed, 0, [], [])
  }

  // The joiner has joined: the broker holds its first connection.
  function JoinSteps(): seq<Step> { [CreateEndpoint, ConnectHost] + [PushCommand, Serve(1, Answers(7))] }

  function JoinedOnce(): System {
    System(Idle(true, false), [],
           SteamBroker.Initial().(identity := SELF, target := HOST, lastCommand := 1, configured := true,
             admitted := [HOST], peers := map[HOST := NewPeer(7, 1)]),
           [], [], 1, 1, Cursor(1, false), {}, [])
  }

  lemma FirstJoin(b: State, handle: nat)
    requires b.failure.None? && !b.configured && b.identity == SELF && b.lastIdentityCheck == 0
    requires b.peers == map[] && b.admitted == [] && handle != 0
    ensures Command(b, Notice(Join, HOST, 0), 1, Answers(handle)) ==
            b.(lastCommand := 1, target := HOST, configured := true, admitted := [HOST], peers := map[HOST := NewPeer(handle, 1)])
  {
  }

  lemma PushAndJoin(s: System, handle: nat)
    requires Aligned(s) && !s.t.dead && s.up == [] && s.t.commands == [Notice(Join, HOST, 0)]
    requires s.b.failure.None? && !s.b.configured && s.b.identity == SELF && s.b.lastIdentityCheck == 0
    requires s.b.peers == map[] && s.b.admitted == [] && handle != 0
    ensures Run(s, [PushCommand, Serve(1, Answers(handle))]) ==
            s.(t := s.t.(commands := []), accepted := s.accepted + 1,
               b := s.b.(lastCommand := 1, target := HOST, configured := true, admitted := [HOST],
                         peers := map[HOST := NewPeer(handle, 1)]))
  {
    TwoSteps(s, PushCommand, Serve(1, Answers(handle)));
    var p := Apply(s, PushCommand);
    assert p == s.(up := [Notice(Join, HOST, 0)], t := s.t.(commands := []));
    FirstJoin(p.b, handle);
    assert Stamps(0, s.accepted + 1) == [] && p.stamps + [] == p.stamps;
  }

  lemma JoinsOnce()
    ensures Run(Start(SELF, HOST), JoinSteps()) == JoinedOnce()
  {
    var s := Start(SELF, HOST);
    RunSplit(s, [CreateEndpoint, ConnectHost], [PushCommand, Serve(1, Answers(7))]);
    TwoSteps(s, CreateEndpoint, ConnectHost);
    var c := Apply(s, CreateEndpoint);
    assert c == s.(t := Idle(false, false));
    assert Apply(c, ConnectHost) == s.(t := Idle(true, false).(commands := [Notice(Join, HOST, 0)]), joins := 1);
    PushAndJoin(Apply(c, ConnectHost), 7);
  }

  lemma TerminalTick(b: State)
    requires b.failure.None? && b.firstTick == 0 && b.identity == SELF && b.lastIdentityCheck == 0 && b.lastCommand == 1
    requires b.out == [] && b.listener == 0 && b.peers == map[HOST := NewPeer(7, 1)]
    ensures var c := Tick(b, 1, 0, Plainly(Told(4)));
            c == b.(firstTick := 1, peers := map[], closures := c.closures, out := [Notice(Disconnected, HOST, 0)])
  {
  }

  // Steam ends the connection; the application, not yet told, closes it with a host-left reason
  // and joins again; then it services the queue.
  function HostLeftSteps(): seq<Step> {
    [Pass(1, 0, Plainly(Told(4)))] + [DisconnectHost(4), ConnectHost] + [PushCommand, Serve(1, Answers(8))]
    + [Reply, Fetch] + [Reply, Fetch] + [ServiceEndpoint]
  }

  lemma CloseAndRejoin(s: System)
    requires Aligned(s) && s.t == Idle(true, false)
    ensures Run(s, [DisconnectHost(4), ConnectHost]) ==
            s.(t := s.t.(stale := 1, commands := [Notice(Close, HOST, 4), Notice(Join, HOST, 0)]),
               owed := s.owed + {s.joins}, joins := s.joins + 1)
  {
    TwoSteps(s, DisconnectHost(4), ConnectHost);
    CloseStep(s);
    JoinStep(Apply(s, DisconnectHost(4)));
  }

  lemma CloseStep(s: System)
    requires Aligned(s) && s.t == Idle(true, false)
    ensures Aligned(Apply(s, DisconnectHost(4)))
    ensures Apply(s, DisconnectHost(4)) ==
            s.(t := Idle(true, true).(stale := 1, commands := [Notice(Close, HOST, 4)]), owed := s.owed + {s.joins})
  {
  }

  lemma JoinStep(s: System)
    requires Aligned(s) && s.t == Idle(true, true).(stale := 1, commands := [Notice(Close, HOST, 4)])
    ensures Apply(s, ConnectHost) ==
            s.(t := Idle(true, false).(stale := 1, commands := [Notice(Close, HOST, 4), Notice(Join, HOST, 0)]),
               joins := s.joins + 1)
  {
  }

  lemma ServeLateClose(s: System)
    requires Aligned(s) && !s.t.dead && s.up == [] && s.t.commands == [Notice(Close, HOST, 4), Notice(Join, HOST, 0)]
    requires s.b.failure.None? && s.b.identity == SELF && s.b.lastIdentityCheck == 0 && |s.b.out| < 2
    requires HOST !in s.b.peers && HOST in s.b.admitted && s.accepted == 1
    ensures var r := Run(s, [PushCommand, Serve(1, Answers(8))]);
            r == s.(t := s.t.(commands := [Notice(Join, HOST, 0)]), stamps := s.stamps + [1], b := r.b)
            && r.b.out == s.b.out + [Notice(Disconnected, HOST, 0)] && r.b.failure.None?
  {
    TwoSteps(s, PushCommand, Serve(1, Answers(8)));
    var p := Apply(s, PushCommand);
    assert p == s.(up := [Notice(Close, HOST, 4)], t := s.t.(commands := [Notice(Join, HOST, 0)]));
    AbsentCloseAnswered(p.b, p.up[0], 1, Answers(8));
    assert Stamps(1, 1) == [1];
  }

  lemma Replies(s: System, f: Frame)
    requires Aligned(s) && !s.t.dead && s.down == [] && s.b.out != [] && s.b.out[0] == f
    ensures Apply(s, Reply) == s.(down := [f], b := s.b.(out := s.b.out[1..]))
  {
  }

  lemma Fetches(s: System, f: Frame)
    requires Aligned(s) && !s.t.dead && s.down == [f] && f.op in {Connected, Disconnected} && |s.t.client| < 2
    ensures Apply(s, Fetch) == s.(t := s.t.(client := s.t.client + [f]), down := [])
  {
    assert [f][1..] == [];
    assert s.t.client + [f] != s.t.client;
  }

  lemma ReplyAndFetch(s: System, f: Frame)
    requires Aligned(s) && !s.t.dead && s.down == [] && s.b.out != [] && s.b.out[0] == f
    requires f.op in {Connected, Disconnected} && |s.t.client| < 2
    ensures Run(s, [Reply, Fetch]) == s.(t := s.t.(client := s.t.client + [f]), b := s.b.(out := s.b.out[1..]))
  {
    TwoSteps(s, Reply, Fetch);
    Replies(s, f);
    Fetches(Apply(s, Reply), f);
  }

  lemma DrainTwo(t: SteamTransport.Transport)
    requires !t.dead && t.open && t.stale == 1 && t.known && !t.closed
    requires t.client == [Notice(Disconnected, HOST, 0), Notice(Disconnected, HOST, 0)]
    ensures SteamTransport.Service(t).1 == SteamTransport.Disconnect(0) && SteamTransport.Service(t).2 == 2
  {
    assert t.client[1..] == [Notice(Disconnected, HOST, 0)];
    var u := t.(client := t.client[1..], stale := 0);
    assert SteamTransport.Drain(u).1 == SteamTransport.Disconnect(0) && SteamTransport.Drain(u).2 == 1;
  }

  lemma Misdelivered(s: System)
    requires Aligned(s) && s.deliveries == [] && s.stamps == [1, 1] && s.joins == 2
    requires !s.t.dead && s.t.open && s.t.stale == 1 && s.t.known && !s.t.closed
    requires s.t.client == [Notice(Disconnected, HOST, 0), Notice(Disconnected, HOST, 0)]
    ensures Run(s, [ServiceEndpoint]).deliveries == [(1, 2)]
  {
    OneStep(s, ServiceEndpoint);
    DrainTwo(s.t);
  }

  lemma Lost(s: System)
    requires s == JoinedOnce()
    ensures Aligned(s)
    ensures var r := Apply(s, Pass(1, 0, Plainly(Told(4))));
            && r == s.(b := r.b, stamps := [1]) && r.b.out == [Notice(Disconnected, HOST, 0)]
            && r.b == s.b.(firstTick := 1, peers := map[], closures := r.b.closures, out := r.b.out)
  {
    TerminalTick(s.b);
    assert Stamps(1, 1) == [1] && [] + [1] == [1];
  }

  lemma ClosedLate(s: System)
    requires s == JoinedOnce()
    ensures var r := Run(Run(Run(s, [Pass(1, 0, Plainly(Told(4)))]), [DisconnectHost(4), ConnectHost]),
                         [PushCommand, Serve(1, Answers(8))]);
            && r.t == Idle(true, false).(stale := 1, commands := [Notice(Join, HOST, 0)]) && r.down == []
            && r.b.out == [Notice(Disconnected, HOST, 0), Notice(Disconnected, HOST, 0)] && r.b.failure.None?
            && r.stamps == [1, 1] && r.joins == 2 && r.deliveries == []
  {
    Lost(s);
    OneStep(s, Pass(1, 0, Plainly(Told(4))));
    var lost := Apply(s, Pass(1, 0, Plainly(Told(4))));
    CloseAndRejoin(lost);
    ServeLateClose(Run(lost, [DisconnectHost(4), ConnectHost]));
  }

  lemma BothArrive(r: System)
    requires Aligned(r) && r.t == Idle(true, false).(stale := 1, commands := [Notice(Join, HOST, 0)]) && r.down == []
    requires r.b.out == [Notice(Disconnected, HOST, 0), Notice(Disconnected, HOST, 0)]
    requires r.stamps == [1, 1] && r.joins == 2 && r.deliveries == []
    ensures Run(Run(Run(r, [Reply, Fetch]), [Reply, Fetch]), [ServiceEndpoint]).deliveries == [(1, 2)]
  {
    ReplyAndFetch(r, Notice(Disconnected, HOST, 0));
    var a := Run(r, [Reply, Fetch]);
    ReplyAndFetch(a, Notice(Disconnected, HOST, 0));
    Misdelivered(Run(a, [Reply, Fetch]));
  }

  // The second Disconnected of connection 1 is delivered under Join 2.
  lemma HostLeftCloseMisdelivers()
    ensures Run(Start(SELF, HOST), JoinSteps() + HostLeftSteps()).deliveries == [(1, 2)]
  {
    var s := JoinedOnce();
    RunSplit(Start(SELF, HOST), JoinSteps(), HostLeftSteps());
    JoinsOnce();
    HostLeftSplit(s);
    ClosedLate(s);
    BothArrive(Run(Run(Run(s, [Pass(1, 0, Plainly(Told(4)))]), [DisconnectHost(4), ConnectHost]),
                   [PushCommand, Serve(1, Answers(8))]));
  }

  lemma HostLeftSplit(s: System)
    requires Aligned(s)
    ensures Run(s, HostLeftSteps()) ==
            Run(Run(Run(Run(Run(Run(s, [Pass(1, 0, Plainly(Told(4)))]), [DisconnectHost(4), ConnectHost]),
                            [PushCommand, Serve(1, Answers(8))]), [Reply, Fetch]), [Reply, Fetch]), [ServiceEndpoint])
  {
    var a, b, c := [Pass(1, 0, Plainly(Told(4)))], [DisconnectHost(4), ConnectHost], [PushCommand, Serve(1, Answers(8))];
    RunSplit(s, a + b + c + [Reply, Fetch] + [Reply, Fetch], [ServiceEndpoint]);
    RunSplit(s, a + b + c + [Reply, Fetch], [Reply, Fetch]);
    RunSplit(s, a + b + c, [Reply, Fetch]);
    RunSplit(s, a + b, c);
    RunSplit(s, a, b);
  }

  // The host announces the end of the session; the application, told of it, joins again at once.
  function SessionEndSteps(): seq<Step> {
    [Pass(1, 0, Ending())] + [Reply, Fetch] + [Reply, Fetch] + [ServiceEndpoint, ServiceEndpoint]
    + [ConnectHost, PushCommand] + [Serve(1, Answers(8))]
  }

  lemma EndingTick(b: State)
    requires b.failure.None? && b.firstTick == 0 && b.identity == SELF && b.lastIdentityCheck == 0 && b.lastCommand == 1
    requires b.out == [] && b.listener == 0 && b.peers == map[HOST := NewPeer(7, 1)] && b.target == HOST
    ensures var c := Tick(b, 1, 0, Ending());
            c == b.(firstTick := 1, peers := c.peers, out := [Notice(Connected, HOST, 0), Notice(Disconnected, HOST, 4)])
            && c.peers.Keys == {HOST}
  {
    var api := Ending();
    var c := TickChecks(b, 1, api);
    assert c == b.(firstTick := 1);
    var d := StatusStep(c, Told(3), 1);
    assert d == c.(peers := map[HOST := NewPeer(7, 1).(connected := true)], out := [Notice(Connected, HOST, 0)]);
    assert api.statuses[1..] == [];
    assert StatusLoop(c, api.statuses, 1, 0, 64) == StatusLoop(d, [], 1, 0, 63) == d;
    OnePeer(d, HOST);
    var a := AnswersFor(api, HOST);
    assert FlushLoop(d, HOST, a.sends, 16) == d;
    assert StatsStep(d, HOST, 1, 0, a) == d;
    var e := ReceiveStep(d, HOST, EndMessage());
    assert a.inbox[1..] == [];
    assert ReceiveLoop(d, HOST, a.inbox, 0, 16) == ReceiveLoop(e, HOST, [], 0, 15) == (e, true);
    assert PeerStep(d, HOST, 1, 0, a) == e;
    assert PeerLoop(d, [HOST], 1, 0, api) == PeerLoop(e, [HOST][1..], 1, 0, api) == e;
  }

  lemma JoinedIsAligned()
    ensures Aligned(JoinedOnce()) && JoinedOnce().down == [] && JoinedOnce().stamps == []
  {
  }

  lemma EndSeen(s: System)
    requires s == JoinedOnce()
    ensures Aligned(s)
    ensures var r := Apply(s, Pass(1, 0, Ending()));
            && Aligned(r) && r == s.(b := r.b, stamps := r.stamps)
            && r.b == s.b.(firstTick := 1, peers := r.b.peers, out := [Notice(Connected, HOST, 0), Notice(Disconnected, HOST, 4)])
            && r.b.peers.Keys == {HOST}
  {
    JoinedIsAligned();
    EndingTick(s.b);
    MovesByTick(s, Ending());
  }

  lemma MovesByTick(s: System, api: TickApi)
    requires Aligned(s) && !s.t.dead && s.b.failure.None? && s.b.out == [] && s.down == [] && s.t.client == [] && s.stamps == []
    ensures var r := Apply(s, Pass(1, 0, api));
            Aligned(r) && r.b == Tick(s.b, 1, 0, api) && r == s.(b := r.b, stamps := r.stamps)
  {
  }

  lemma ToldOfEnd(s: System)
    requires s == JoinedOnce()
    ensures var r := Run(Run(Run(s, [Pass(1, 0, Ending())]), [Reply, Fetch]), [Reply, Fetch]);
            && r.t == Idle(true, false).(client := [Notice(Connected, HOST, 0), Notice(Disconnected, HOST, 4)])
            && r.up == [] && r.b.failure.None? && r.b.configured && r.b.listener == 0 && r.b.target == HOST
            && r.b.peers.Keys == {HOST} && r.b.identity == SELF && r.b.lastIdentityCheck == 0
  {
    EndSeen(s);
    OneStep(s, Pass(1, 0, Ending()));
    var a := Apply(s, Pass(1, 0, Ending()));
    ReplyAndFetch(a, Notice(Connected, HOST, 0));
    ReplyAndFetch(Run(a, [Reply, Fetch]), Notice(Disconnected, HOST, 4));
  }

  lemma TakesBoth(s: System)
    requires Aligned(s)
    requires s.t == Idle(true, false).(client := [Notice(Connected, HOST, 0), Notice(Disconnected, HOST, 4)])
    ensures var r := Run(s, [ServiceEndpoint, ServiceEndpoint]);
            r.t == Idle(true, true) && r.up == s.up && r.b == s.b
  {
    TwoSteps(s, ServiceEndpoint, ServiceEndpoint);
    assert s.t.client[1..] == [Notice(Disconnected, HOST, 4)];
    assert Apply(s, ServiceEndpoint).t == Idle(true, false).(connected := true, client := [Notice(Disconnected, HOST, 4)]);
  }

  lemma JoinSent(s: System)
    requires Aligned(s) && s.t == Idle(true, true) && s.up == []
    ensures var p := Run(s, [ConnectHost, PushCommand]);
            Aligned(p) && p.up == [Notice(Join, HOST, 0)] && p.b == s.b && !p.t.dead
  {
    TwoSteps(s, ConnectHost, PushCommand);
    assert Apply(s, ConnectHost).t.commands == [Notice(Join, HOST, 0)];
  }

  lemma JoinRefused(p: System)
    requires Aligned(p) && !p.t.dead && p.up == [Notice(Join, HOST, 0)]
    requires p.b.failure.None? && p.b.configured && p.b.listener == 0 && p.b.target == HOST && p.b.peers.Keys == {HOST}
    requires p.b.identity == SELF && p.b.lastIdentityCheck == 0
    ensures Apply(p, Serve(1, Answers(8))).b.failure == Some(BadJoin)
  {
    RejoinRefusedIff(p.b, p.up[0], 1, Answers(8));
  }

  lemma RefusedRejoin(s: System)
    requires Aligned(s) && s.t == Idle(true, true) && s.up == []
    requires s.b.failure.None? && s.b.configured && s.b.listener == 0 && s.b.target == HOST && s.b.peers.Keys == {HOST}
    requires s.b.identity == SELF && s.b.lastIdentityCheck == 0
    ensures Run(Run(s, [ConnectHost, PushCommand]), [Serve(1, Answers(8))]).b.failure == Some(BadJoin)
  {
    JoinSent(s);
    var p := Run(s, [ConnectHost, PushCommand]);
    JoinRefused(p);
    OneStep(p, Serve(1, Answers(8)));
  }

  // The rejoin is refused and the broker fails.
  lemma SessionEndRefusesRejoin()
    ensures Run(Start(SELF, HOST), JoinSteps() + SessionEndSteps()).b.failure == Some(BadJoin)
  {
    var s := JoinedOnce();
    RunSplit(Start(SELF, HOST), JoinSteps(), SessionEndSteps());
    JoinsOnce();
    SessionEndSplit(s);
    ToldOfEnd(s);
    var r := Run(Run(Run(s, [Pass(1, 0, Ending())]), [Reply, Fetch]), [Reply, Fetch]);
    TakesBoth(r);
    RefusedRejoin(Run(r, [ServiceEndpoint, ServiceEndpoint]));
  }

  lemma SessionEndSplit(s: System)
    requires Aligned(s)
    ensures Run(s, SessionEndSteps()) ==
            Run(Run(Run(Run(Run(Run(s, [Pass(1, 0, Ending())]), [Reply, Fetch]), [Reply, Fetch]),
                        [ServiceEndpoint, ServiceEndpoint]), [ConnectHost, PushCommand]), [Serve(1, Answers(8))])
  {
    var a, b, c := [Pass(1, 0, Ending())], [Reply, Fetch], [ServiceEndpoint, ServiceEndpoint];
    RunSplit(s, a + b + b + c + [ConnectHost, PushCommand], [Serve(1, Answers(8))]);
    RunSplit(s, a + b + b + c, [ConnectHost, PushCommand]);
    RunSplit(s, a + b + b, c);
    RunSplit(s, a + b, b);
    RunSplit(s, a, b);
  }
}
