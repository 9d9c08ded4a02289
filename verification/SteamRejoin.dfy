// A joiner and its broker, joined by two FIFO queues: every interleaving of what the application
// does, what the broker does and what Steam does, while the joiner closes and rejoins one host.
module SteamRejoin {
  import opened Common
  import opened SteamBroker
  import opened SteamTransport
  import opened BrokerStream

  // `up` and `down` are the pipe. The rest is bookkeeping no process sees: a stamp for each frame
  // still on its way to the application (the Join it was emitted under), the Joins submitted and
  // accepted so far, the reader's place in the stream, the connections the application closed
  // whose Disconnected has not come back, and for each delivered frame its stamp beside the
  // newest Join.
  datatype System = System(t: Transport, up: seq<Frame>, b: State, down: seq<Frame>, stamps: seq<nat>,
                           joins: nat, accepted: nat, reader: Cursor, owed: set<nat>, deliveries: seq<(nat, nat)>)

  datatype Step = CreateEndpoint | ConnectHost | CloseEndpoint | DisconnectHost(reason: nat)
    | SendPayload(bytes: seq<byte>, channel: nat, reliable: bool) | PingBroker | PushCommand
    | Serve(now: nat, api: CommandApi) | Pass(now: nat, backlog: nat, tick: TickApi) | Reply | Fetch
    | ServiceEndpoint | PipeLost

  predicate Aligned(s: System) {
    !s.t.dead ==> |s.stamps| == |s.t.client| + |s.down| + |s.b.out|
  }

  function Pipeline(s: System): seq<Frame> { s.t.client + s.down + s.b.out }

  function Commands(s: System): seq<Frame> { s.up + s.t.commands }

  function Discs(frames: seq<Frame>, stamps: seq<nat>): set<nat>
    requires |frames| == |stamps|
  {
    set k | 0 <= k < |frames| && frames[k].op == Disconnected :: stamps[k]
  }

  // The application closed the connection in use.
  function Closing(s: System, t: Transport): System {
    s.(t := t, owed := if Open(s.t) && !Open(t) then s.owed + {s.joins} else s.owed)
  }

  // The broker moved to c; frames it added carry the given stamp.
  function Moved(s: System, c: State, gen: nat): (r: System)
    requires Aligned(s) && !s.t.dead
    ensures Aligned(r)
  {
    var kept := if s.b.out <= c.out then s.stamps else s.stamps[..|s.t.client| + |s.down|];
    var count := if s.b.out <= c.out then |c.out| - |s.b.out| else |c.out|;
    s.(b := c, stamps := kept + Stamps(count, gen))
  }

  function Connecting(s: System): System {
    var t := ConnectPeer(s.t);
    s.(t := t, joins := if |t.commands| > |s.t.commands| then s.joins + 1 else s.joins)
  }

  function Pushed(s: System): System {
    if s.t.commands == [] then s
    else s.(up := s.up + [s.t.commands[0]], t := s.t.(commands := s.t.commands[1..]))
  }

  function Served(s: System, c: State): (r: System)
    requires Aligned(s) && !s.t.dead && s.up != []
    ensures Aligned(r)
  {
    var n := if s.up[0].op == Join && c.failure.None? then s.accepted + 1 else s.accepted;
    Moved(s.(up := s.up[1..]), c, n).(accepted := n)
  }

  function Replied(s: System): (r: System)
    requires Aligned(s)
    ensures Aligned(r)
  {
    if s.b.out == [] then s else s.(down := s.down + [s.b.out[0]], b := Pop(s.b))
  }

  function Fetched(s: System): (r: System)
    requires Aligned(s) && !s.t.dead
    ensures Aligned(r)
  {
    if s.down == [] then s else
      var t := TakeIn(s.t, s.down[0]);
      var k := |s.t.client|;
      s.(t := t, down := s.down[1..], stamps := if t == s.t then s.stamps[..k] + s.stamps[k + 1..] else s.stamps)
  }

  function Serviced(s: System): (r: System)
    requires Aligned(s) && !s.t.dead
    ensures Aligned(r)
  {
    var (t, e, n) := Service(s.t);
    var read := Walk(s.reader, s.t.client[..n], s.stamps[..n]);
    s.(t := t, stamps := s.stamps[n..], reader := if read.Some? then read.value else s.reader,
       owed := s.owed - Discs(s.t.client[..n], s.stamps[..n]),
       deliveries := if n > 0 && e != Quiet && e != Broken then s.deliveries + [(s.stamps[n - 1], s.joins)] else s.deliveries)
  }

  function Apply(s: System, step: Step): (r: System)
    requires Aligned(s)
    ensures Aligned(r)
  {
    if s.t.dead then s else
      match step
      case CreateEndpoint => s.(t := CreateClient(s.t))
      case ConnectHost => Connecting(s)
      case CloseEndpoint => Closing(s, CloseAll(s.t))
      case DisconnectHost(reason) => Closing(s, DisconnectPeer(s.t, reason))
      case SendPayload(bytes, channel, reliable) => s.(t := SendData(s.t, bytes, channel, reliable))
      case PingBroker => s.(t := Submit(s.t, Notice(Ping, 0, 0)))
      case PushCommand => Pushed(s)
      case Serve(now, api) =>
        if s.up == [] || s.b.failure.Some? then s else Served(s, Command(s.b, s.up[0], now, api))
      case Pass(now, backlog, api) => Moved(s, Tick(s.b, now, backlog, api), s.accepted)
      case Reply => Replied(s)
      case Fetch => Fetched(s)
      case ServiceEndpoint => Serviced(s)
      case PipeLost => s.(t := s.t.(dead := true))
  }

  function Run(s: System, steps: seq<Step>): (r: System)
    requires Aligned(s)
    ensures Aligned(r)
    decreases |steps|
  {
    if steps == [] then s else Run(Apply(s, steps[0]), steps[1..])
  }

  // The broker may take the front command: a Join finds no drain in progress, and a host-left Close
  // finds its connection still there.
  predicate Timely(b: State, f: Frame) {
    && (f.op == Join ==> !Draining(b, f.peer))
    && (f.op == Close && HostLeftReason(f.reason) ==> f.peer in b.peers)
  }

  // What the property asks of the surroundings: the application connects only while its peer is
  // closed, a Join or host-left Close is served in time, and no session-end envelope arrives.
  predicate Allowed(s: System, step: Step) {
    match step
    case ConnectHost => !Open(s.t)
    case DisconnectHost(reason) => reason <= 9
    case Serve(_, _) => !s.t.dead && s.b.failure.None? && s.up != [] ==> Timely(s.b, s.up[0])
    case Pass(_, _, api) => PlainTick(api)
    case _ => true
  }

  predicate AllAllowed(s: System, steps: seq<Step>)
    requires Aligned(s)
    decreases |steps|
  {
    steps == [] || (Allowed(s, steps[0]) && AllAllowed(Apply(s, steps[0]), steps[1..]))
  }

  // A hub whose broker has answered Hello with `identity`, about to join `host`.
  function Start(identity: nat, host: nat): System {
    System(SteamTransport.Transport(identity, host, false, false, false, false, false, 0, [], []), [],
           SteamBroker.Initial().(identity := identity), [], [], 0, 0, Cursor(1, false), {}, [])
  }

  // ---------------------------------------------------------------- the invariant

  function Range(a: nat, b: nat): (r: set<nat>)
    ensures forall g: nat :: g in r <==> a <= g < b
    decreases b - a
  {
    if a < b then {a} + Range(a + 1, b) else {}
  }

  predicate UpTo(stamps: seq<nat>, bound: nat) {
    forall i :: 0 <= i < |stamps| ==> stamps[i] <= bound
  }

  function Used(s: System): nat { if Open(s.t) && s.joins > 0 then s.joins - 1 else s.joins }

  // The application's flags and debt against the reader's place in the stream.
  predicate Settled(t: Transport, reader: Cursor, joins: nat) {
    && (t.known <==> joins > 0)
    && 1 <= reader.gen
    && t.stale + reader.gen == joins + (if Open(t) then 0 else 1)
    && (t.stale == 0 && Open(t) ==> t.connected == reader.live)
    && (t.stale > 0 || !Open(t) ==> !t.connected)
  }

  predicate Deliverable(frames: seq<Frame>) {
    forall f :: f in frames ==> f.op in {Connected, Disconnected, Data}
  }

  predicate Downstream(s: System)
    requires Aligned(s) && !s.t.dead
  {
    && Settled(s.t, s.reader, s.joins)
    && s.owed == Range(s.reader.gen, Used(s) + 1)
    && Deliverable(s.t.client)
    && s.accepted <= s.joins
    && (s.reader.live ==> s.reader.gen <= s.accepted)
    && s.reader.gen <= s.accepted + 1
    && UpTo(s.stamps, s.accepted)
    && Walk(s.reader, Pipeline(s), s.stamps).Some?
    && (s.b.failure.None? ==> Walk(s.reader, Pipeline(s), s.stamps) == Some(At(s.b, s.t.host, s.accepted)))
  }

  // Each Join in the queue finds the previous connection gone.
  predicate Alternates(present: bool, commands: seq<Frame>)
    decreases |commands|
  {
    commands == [] || match commands[0].op
      case Join => !present && Alternates(true, commands[1..])
      case Close => Alternates(false, commands[1..])
      case _ => Alternates(present, commands[1..])
  }

  function After(present: bool, commands: seq<Frame>): bool
    decreases |commands|
  {
    if commands == [] then present else match commands[0].op
      case Join => After(true, commands[1..])
      case Close => After(false, commands[1..])
      case _ => After(present, commands[1..])
  }

  function Joins(commands: seq<Frame>): nat {
    if commands == [] then 0 else (if commands[0].op == Join then 1 else 0) + Joins(commands[1..])
  }

  // No Send follows a Join, and before any Join was accepted nothing but one comes first.
  predicate SendsFirst(commands: seq<Frame>) {
    commands == [] || (SendsFirst(commands[1..]) && (commands[0].op == Join ==> forall f :: f in commands ==> f.op != Send))
  }

  predicate Leads(commands: seq<Frame>) {
    commands == [] || commands[0].op == Join || (commands[0].op == Ping && Leads(commands[1..]))
  }

  predicate Upstream(s: System) {
    var q := Commands(s);
    var present := Present(s.b, s.t.host);
    && Joined(s.b, s.t.host, s.accepted)
    && (forall f :: f in q ==> Wellformed(f, s.t.host))
    && Alternates(present, q) && (!Open(s.t) ==> !After(present, q))
    && Joins(q) + s.accepted == s.joins
    && SendsFirst(q) && (s.accepted == 0 ==> Leads(q))
    && ((exists f :: f in q && f.op == Send) && present ==> s.b.peers[s.t.host].connected)
  }

  predicate Current(s: System) { forall d :: d in s.deliveries ==> d.0 == d.1 }

  predicate Invariant(s: System) {
    && Aligned(s) && Current(s)
    && (s.b.failure.Some? ==> External(s.b.failure.value))
    && (!s.t.dead ==> Downstream(s) && (s.b.failure.None? ==> Upstream(s)))
  }

  // ---------------------------------------------------------------- the reader

  lemma {:induction false} WalkGrows(c: Cursor, frames: seq<Frame>, stamps: seq<nat>)
    requires |frames| == |stamps| && Walk(c, frames, stamps).Some?
    ensures var d := Walk(c, frames, stamps).value;
            d.gen >= c.gen && (d.gen == c.gen && c.live ==> d.live)
    decreases |frames|
  {
    if frames != [] {
      WalkGrows(Advance(c, frames[0], stamps[0]).value, frames[1..], stamps[1..]);
    }
  }

  // The Disconnected frames read are those of exactly the connections passed over.
  lemma {:induction false} WalkDiscs(c: Cursor, frames: seq<Frame>, stamps: seq<nat>)
    requires |frames| == |stamps| && Walk(c, frames, stamps).Some?
    ensures Discs(frames, stamps) == Range(c.gen, Walk(c, frames, stamps).value.gen)
    decreases |frames|
  {
    if frames != [] {
      var d := Advance(c, frames[0], stamps[0]).value;
      WalkDiscs(d, frames[1..], stamps[1..]);
      WalkGrows(d, frames[1..], stamps[1..]);
      var first := if frames[0].op == Disconnected then {stamps[0]} else {};
      var rest := Discs(frames[1..], stamps[1..]);
      forall g ensures g in Discs(frames, stamps) <==> g in first + rest {
        if g in Discs(frames, stamps) {
          var k :| 0 <= k < |frames| && frames[k].op == Disconnected && stamps[k] == g;
          if k > 0 {
            assert frames[1..][k - 1].op == Disconnected && stamps[1..][k - 1] == g;
          }
        }
        if g in rest {
          var k :| 0 <= k < |frames[1..]| && frames[1..][k].op == Disconnected && stamps[1..][k] == g;
          assert frames[k + 1].op == Disconnected && stamps[k + 1] == g;
        }
      }
    }
  }

  lemma {:induction false} RangeSize(a: nat, b: nat)
    requires a <= b
    ensures |Range(a, b)| == b - a
    decreases b - a
  {
    if a < b {
      RangeSize(a + 1, b);
    }
  }

  lemma OneFrame(c: Cursor, f: Frame, stamp: nat)
    ensures Walk(c, [f], [stamp]) == Advance(c, f, stamp)
  {
  }

  // What a delivered frame does: it belongs to the newest connection.
  lemma DeliverReads(t: Transport, c: Cursor, joins: nat, f: Frame, stamp: nat)
    requires !t.dead && t.stale == 0 && Settled(t, c, joins) && f.op in {Connected, Disconnected, Data}
    requires Advance(c, f, stamp).Some? && stamp <= joins
    ensures var (u, e) := Deliver(t, f);
            && e != Broken && e != Quiet && stamp == joins
            && u == t.(known := true, connected := u.connected, closed := u.closed)
            && Settled(u, Advance(c, f, stamp).value, joins)
            && Open(t) && (e.Disconnect? <==> !Open(u))
  {
  }

  predicate Reads(t: Transport, c: Cursor, joins: nat, stamps: seq<nat>, u: Transport, e: Event, n: nat)
    requires |stamps| == |t.client| && n <= |t.client|
  {
    && e != Broken && u.client == t.client[n..]
    && u == t.(client := u.client, known := t.known, connected := u.connected, closed := u.closed, stale := u.stale)
    && Walk(c, t.client[..n], stamps[..n]).Some?
    && Settled(u, Walk(c, t.client[..n], stamps[..n]).value, joins)
    && (e != Quiet ==> n > 0 && stamps[n - 1] == joins && u.stale == 0)
    && (e.Disconnect? <==> Open(t) && !Open(u)) && (Open(u) ==> Open(t))
  }

  // Reading on after one frame of an older connection has been dropped.
  lemma ReadsOn(t: Transport, c: Cursor, joins: nat, stamps: seq<nat>, v: Transport, u: Transport, e: Event, n: nat)
    requires |stamps| == |t.client| > 0 && Advance(c, t.client[0], stamps[0]).Some?
    requires v == t.(client := t.client[1..], stale := v.stale) && n <= |v.client|
    requires Reads(v, Advance(c, t.client[0], stamps[0]).value, joins, stamps[1..], u, e, n)
    ensures Reads(t, c, joins, stamps, u, e, n + 1)
  {
    assert t.client[..n + 1] == [t.client[0]] + v.client[..n];
    assert t.client[..n + 1][1..] == v.client[..n];
    assert stamps[..n + 1] == [stamps[0]] + stamps[1..][..n];
    assert stamps[..n + 1][1..] == stamps[1..][..n];
    assert v.client[n..] == t.client[n + 1..];
  }

  // What one `service` does to the queue: it never meets a frame it cannot place, and a frame it
  // delivers belongs to the newest connection.
  lemma {:induction false} DrainReads(t: Transport, c: Cursor, joins: nat, stamps: seq<nat>)
    requires !t.dead && |stamps| == |t.client| && Settled(t, c, joins) && Deliverable(t.client)
    requires Walk(c, t.client, stamps).Some? && UpTo(stamps, joins)
    ensures Reads(t, c, joins, stamps, SteamTransport.Drain(t).0, SteamTransport.Drain(t).1, SteamTransport.Drain(t).2)
    decreases |t.client|
  {
    if t.client != [] {
      var f := t.client[0];
      var d := Advance(c, f, stamps[0]).value;
      assert t.client[0] in t.client;
      if t.stale > 0 {
        var v := t.(client := t.client[1..], stale := if f.op == Disconnected then t.stale - 1 else t.stale);
        assert Settled(v, d, joins);
        DrainReads(v, d, joins, stamps[1..]);
        var (u, e, n) := SteamTransport.Drain(v);
        ReadsOn(t, c, joins, stamps, v, u, e, n);
      } else {
        DeliverReads(t.(client := t.client[1..]), c, joins, f, stamps[0]);
        OneFrame(c, f, stamps[0]);
        assert t.client[..1] == [f] && stamps[..1] == [stamps[0]];
      }
    } else {
      assert t.client[..0] == [] && t.client[0..] == [] && stamps[..0] == [];
    }
  }

  // Taking n frames from the front of the pipeline moves the reader over exactly those.
  lemma ReaderMoves(s: System, n: nat)
    requires Aligned(s) && !s.t.dead && Downstream(s) && n <= |s.t.client|
    ensures var front, stamps := s.t.client[..n], s.stamps[..n];
            var rest := s.t.client[n..] + s.down + s.b.out;
            var c := Walk(s.reader, front, stamps);
            && c.Some? && Walk(c.value, rest, s.stamps[n..]) == Walk(s.reader, Pipeline(s), s.stamps)
            && s.reader.gen <= c.value.gen <= s.accepted + 1 && (c.value.live ==> c.value.gen <= s.accepted)
            && Discs(front, stamps) == Range(s.reader.gen, c.value.gen)
  {
    var front, stamps := s.t.client[..n], s.stamps[..n];
    var rest := s.t.client[n..] + s.down + s.b.out;
    assert Pipeline(s) == front + rest && s.stamps == stamps + s.stamps[n..];
    WalkPrefix(s.reader, front, stamps, rest, s.stamps[n..]);
    WalkConcat(s.reader, front, stamps, rest, s.stamps[n..]);
    WalkGrows(s.reader, front, stamps);
    WalkDiscs(s.reader, front, stamps);
    ReadAccepted(s.reader, front, stamps, s.accepted);
  }

  lemma ServiceReads(s: System)
    requires Aligned(s) && !s.t.dead && Downstream(s)
    ensures var (t, e, n) := Service(s.t);
            Reads(s.t, s.reader, s.joins, s.stamps[..|s.t.client|], t, e, n)
  {
    var k := |s.t.client|;
    if s.t.open {
      ReaderMoves(s, k);
      assert s.t.client[..k] == s.t.client;
      DrainReads(s.t, s.reader, s.joins, s.stamps[..k]);
    } else {
      assert s.t.client[..0] == [] && s.stamps[..k][..0] == [] && s.t.client[0..] == s.t.client;
    }
  }

  lemma OwedAfter(s: System)
    requires Aligned(s) && !s.t.dead && Downstream(s)
    ensures var r := Serviced(s); r.owed == Range(r.reader.gen, Used(r) + 1)
    ensures Settled(Serviced(s).t, Serviced(s).reader, s.joins)
    ensures Current(s) ==> Current(Serviced(s))
  {
    var r := Serviced(s);
    var (t, e, n) := Service(s.t);
    ServiceReads(s);
    assert s.stamps[..|s.t.client|][..n] == s.stamps[..n];
    ReaderMoves(s, n);
    assert forall g: nat :: g in r.owed <==> r.reader.gen <= g < Used(s) + 1;
    assert Used(r) == Used(s) || r.reader.gen == s.joins + 1;
  }

  lemma ServiceDownstream(s: System)
    requires Aligned(s) && !s.t.dead && Downstream(s)
    ensures !Serviced(s).t.dead && Downstream(Serviced(s))
  {
    var r := Serviced(s);
    var n := Service(s.t).2;
    ServiceReads(s);
    OwedAfter(s);
    ReaderMoves(s, n);
    assert Pipeline(r) == s.t.client[n..] + s.down + s.b.out;
  }

  lemma ServiceStep(s: System)
    requires Invariant(s) && !s.t.dead
    ensures Invariant(Serviced(s))
  {
    var r := Serviced(s);
    ServiceReads(s);
    ServiceDownstream(s);
    OwedAfter(s);
    if s.b.failure.None? {
      assert Commands(r) == Commands(s);
      if !Open(r.t) && Open(s.t) {
        WalkGrows(r.reader, Pipeline(r), r.stamps);
        NoJoinsAfter(Commands(r));
      }
      assert Upstream(r);
    }
  }

  // A connection whose Connected has been read was accepted by the broker, and so was any
  // connection whose Disconnected has.
  lemma {:induction false} ReadAccepted(c: Cursor, frames: seq<Frame>, stamps: seq<nat>, accepted: nat)
    requires |frames| == |stamps| && Walk(c, frames, stamps).Some? && UpTo(stamps, accepted)
    requires c.gen <= accepted + 1 && (c.live ==> c.gen <= accepted)
    ensures var d := Walk(c, frames, stamps).value; d.gen <= accepted + 1 && (d.live ==> d.gen <= accepted)
    decreases |frames|
  {
    if frames != [] {
      ReadAccepted(Advance(c, frames[0], stamps[0]).value, frames[1..], stamps[1..], accepted);
    }
  }

  // ---------------------------------------------------------------- the command queue

  lemma {:induction false} NoJoinsAfter(q: seq<Frame>)
    requires Joins(q) == 0
    ensures !After(false, q)
  {
    if q != [] {
      NoJoinsAfter(q[1..]);
    }
  }

  lemma {:induction false} Fewer(q: seq<Frame>)
    ensures (Alternates(true, q) ==> Alternates(false, q)) && (After(false, q) ==> After(true, q))
  {
    if q != [] {
      Fewer(q[1..]);
    }
  }

  lemma {:induction false} Appended(present: bool, q: seq<Frame>, f: Frame)
    ensures Alternates(present, q + [f]) <==> Alternates(present, q) && (f.op == Join ==> !After(present, q))
    ensures After(present, q + [f]) == if f.op == Join then true else if f.op == Close then false else After(present, q)
    ensures Joins(q + [f]) == Joins(q) + (if f.op == Join then 1 else 0)
    ensures SendsFirst(q) && (f.op == Send ==> Joins(q) == 0) ==> SendsFirst(q + [f])
    ensures Leads(q) && (f.op == Join || f.op == Ping || Joins(q) > 0) ==> Leads(q + [f])
    decreases |q|
  {
    if q == [] {
      assert q + [f] == [f];
    } else {
      assert (q + [f])[1..] == q[1..] + [f];
      var next := match q[0].op case Join => true case Close => false case _ => present;
      Appended(next, q[1..], f);
    }
  }

  lemma UpstreamAppend(s: System, r: System, f: Frame)
    requires Aligned(s) && !s.t.dead && Downstream(s) && Upstream(s) && Wellformed(f, s.t.host)
    requires r.t.host == s.t.host && r.b == s.b && r.accepted == s.accepted && r.up == s.up
    requires r.t.commands == s.t.commands + [f]
    requires f.op == Join ==> !Open(s.t) && r.joins == s.joins + 1 && Open(r.t)
    requires f.op == Close ==> r.joins == s.joins && s.joins > 0
    requires f.op == Send || f.op == Ping ==> r.joins == s.joins && Open(r.t) == Open(s.t)
    requires f.op == Send ==> s.t.connected
    ensures Upstream(r)
  {
    var q := Commands(s);
    var present := Present(s.b, s.t.host);
    assert Commands(r) == q + [f];
    Appended(present, q, f);
    if f.op == Send {
      WalkGrows(s.reader, Pipeline(s), s.stamps);
      assert s.reader.live && s.reader.gen == s.joins && Joins(q) == 0;
    }
  }

  // Taking the front command: what it needs holds, and the rest of the queue is in order.
  lemma UpstreamServe(s: System, now: nat, api: CommandApi)
    requires Aligned(s) && !s.t.dead && Downstream(s) && Upstream(s) && s.up != [] && Timely(s.b, s.up[0])
    ensures Expects(s.b, s.up[0], s.t.host, s.accepted) && Wellformed(s.up[0], s.t.host)
    ensures Commands(s)[1..] == s.up[1..] + s.t.commands
  {
  }

  // ---------------------------------------------------------------- one step

  lemma ConnectStep(s: System)
    requires Invariant(s) && !s.t.dead && !Open(s.t)
    ensures Invariant(Connecting(s))
  {
    var r := Connecting(s);
    if !r.t.dead && r.t.commands != s.t.commands {
      assert r.t == s.t.(known := true, closed := false, commands := s.t.commands + [Notice(Join, s.t.host, 0)]);
      assert Pipeline(r) == Pipeline(s);
      assert Downstream(r);
      if s.b.failure.None? {
        UpstreamAppend(s, r, Notice(Join, s.t.host, 0));
      }
    }
  }

  lemma CloseStep(s: System, reason: nat)
    requires Invariant(s) && !s.t.dead && reason <= 9
    ensures Invariant(Closing(s, ClosePeer(s.t, reason)))
  {
    var r := Closing(s, ClosePeer(s.t, reason));
    if Open(s.t) && !r.t.dead {
      var f := Notice(Close, s.t.host, reason);
      assert Pipeline(r) == Pipeline(s);
      assert forall g: nat :: g in r.owed <==> s.reader.gen <= g < s.joins + 1;
      assert Downstream(r);
      if s.b.failure.None? {
        UpstreamAppend(s, r, f);
      }
    }
  }

  lemma SubmitStep(s: System, f: Frame)
    requires Invariant(s) && !s.t.dead && Wellformed(f, s.t.host)
    requires f.op == Ping || (f.op == Send && s.t.connected)
    ensures Invariant(s.(t := Submit(s.t, f)))
  {
    var r := s.(t := Submit(s.t, f));
    if !r.t.dead {
      assert Pipeline(r) == Pipeline(s);
      assert Downstream(r);
      if s.b.failure.None? {
        UpstreamAppend(s, r, f);
      }
    }
  }

  lemma PushStep(s: System)
    requires Invariant(s) && !s.t.dead
    ensures Invariant(Pushed(s))
  {
    var r := Pushed(s);
    assert Commands(r) == Commands(s) && Pipeline(r) == Pipeline(s);
  }

  // The broker moved along its own stream: the frames it added extend the pipeline.
  lemma MovedOn(s: System, c: State, accepted: nat)
    requires Aligned(s) && !s.t.dead && Downstream(s) && s.b.failure.None? && c.failure.None?
    requires s.accepted <= accepted <= s.joins && s.b.out <= c.out
    requires var added := c.out[|s.b.out|..];
             Walk(At(s.b, s.t.host, s.accepted), added, Stamps(|added|, accepted)) == Some(At(c, s.t.host, accepted))
    ensures Downstream(Moved(s, c, accepted).(accepted := accepted))
  {
    var r := Moved(s, c, accepted).(accepted := accepted);
    var added := c.out[|s.b.out|..];
    assert Pipeline(r) == Pipeline(s) + added;
    assert r.stamps == s.stamps + Stamps(|added|, accepted);
    WalkConcat(s.reader, Pipeline(s), s.stamps, added, Stamps(|added|, accepted));
  }

  // A failed broker discards its output for one Error.
  lemma MovedFails(s: System, c: State)
    requires Aligned(s) && !s.t.dead && Downstream(s) && c.failure.Some? && c.out == [Notice(Error, 0, 0)]
    ensures Downstream(Moved(s, c, s.accepted))
  {
    var r := Moved(s, c, s.accepted);
    var front := s.t.client + s.down;
    var k := |front|;
    assert s.stamps == s.stamps[..k] + s.stamps[k..];
    WalkPrefix(s.reader, front, s.stamps[..k], s.b.out, s.stamps[k..]);
    if s.b.out == c.out {
      assert r.stamps == s.stamps;
    } else {
      assert Pipeline(r) == front + c.out;
      assert r.stamps == s.stamps[..k] + [s.accepted];
      WalkConcat(s.reader, front, s.stamps[..k], c.out, [s.accepted]);
      OneFrame(Walk(s.reader, front, s.stamps[..k]).value, c.out[0], s.accepted);
    }
  }

  lemma PassStep(s: System, now: nat, backlog: nat, api: TickApi)
    requires Invariant(s) && !s.t.dead && PlainTick(api)
    ensures Invariant(Apply(s, Pass(now, backlog, api)))
  {
    if s.b.failure.None? {
      var c := Tick(s.b, now, backlog, api);
      TickStreams(s.b, now, backlog, api, s.t.host, s.accepted);
      var r := Apply(s, Pass(now, backlog, api));
      if c.failure.None? {
        MovedOn(s, c, s.accepted);
        BrokerMoved(s, r);
      } else {
        MovedFails(s, c);
      }
    } else {
      var r := Apply(s, Pass(now, backlog, api));
      assert r.stamps == s.stamps + [];
      assert r == s;
    }
  }

  // A connection the broker lost on its own leaves the queued commands in order.
  lemma BrokerMoved(s: System, r: System)
    requires Aligned(s) && !s.t.dead && Upstream(s) && Aligned(r)
    requires r.t == s.t && r.up == s.up && r.joins == s.joins && r.accepted == s.accepted
    requires Streams(s.b, r.b, s.t.host, s.accepted) && r.b.failure.None?
    ensures Upstream(r)
  {
    var q := Commands(s);
    assert Commands(r) == q;
    Fewer(q);
    var delta := Added(s.b, r.b);
    WalkGrows(At(s.b, s.t.host, s.accepted), delta, Stamps(|delta|, s.accepted));
  }

  lemma ServeTaken(s: System)
    requires Invariant(s) && !s.t.dead && s.up != []
    ensures var r := s.(up := s.up[1..]); Aligned(r) && Downstream(r)
  {
  }

  lemma ServeJoined(s: System, c: State)
    requires Invariant(s) && !s.t.dead && s.up != [] && s.b.failure.None? && s.up[0].op == Join && c.failure.None?
    requires Joined(c, s.t.host, s.accepted + 1) && c.out == s.b.out && Present(c, s.t.host)
    requires At(c, s.t.host, s.accepted + 1) == At(s.b, s.t.host, s.accepted)
    ensures Invariant(Served(s, c))
  {
    ServeTaken(s);
    ServeUpstream(s, c, s.accepted + 1);
    assert Joins(Commands(s)) > 0;
    assert c.out[|s.b.out|..] == [];
    MovedOn(s.(up := s.up[1..]), c, s.accepted + 1);
  }

  lemma ServeFailed(s: System, c: State)
    requires Invariant(s) && !s.t.dead && s.up != []
    requires c.failure.Some? && External(c.failure.value) && c.out == [Notice(Error, 0, 0)]
    ensures Invariant(Served(s, c))
  {
    ServeTaken(s);
    MovedFails(s.(up := s.up[1..]), c);
  }

  lemma ServeJoin(s: System, now: nat, api: CommandApi)
    requires Invariant(s) && !s.t.dead && s.up != [] && s.b.failure.None? && s.up[0].op == Join && Timely(s.b, s.up[0])
    ensures Invariant(Served(s, Command(s.b, s.up[0], now, api)))
  {
    UpstreamServe(s, now, api);
    JoinServed(s.b, s.up[0], now, api, s.t.host, s.accepted);
    var c := Command(s.b, s.up[0], now, api);
    if c.failure.Some? {
      ServeFailed(s, c);
    } else {
      ServeJoined(s, c);
    }
  }

  // A command that is not a Join was served, and its frames are in order.
  lemma ServeOn(s: System, c: State)
    requires Invariant(s) && !s.t.dead && s.up != [] && s.b.failure.None? && s.up[0].op != Join && c.failure.None?
    requires Joined(c, s.t.host, s.accepted) && s.b.out <= c.out
    requires Walk(At(s.b, s.t.host, s.accepted), Added(s.b, c), Stamps(|Added(s.b, c)|, s.accepted))
             == Some(At(c, s.t.host, s.accepted))
    requires s.up[0].op != Close ==> Streams(s.b, c, s.t.host, s.accepted)
    requires s.up[0].op == Close ==> !Present(c, s.t.host)
    ensures Invariant(Served(s, c))
  {
    ServeTaken(s);
    ServeUpstream(s, c, s.accepted);
    MovedOn(s.(up := s.up[1..]), c, s.accepted);
  }

  lemma ServeOther(s: System, c: State, now: nat, api: CommandApi)
    requires Invariant(s) && !s.t.dead && s.up != [] && s.b.failure.None? && s.up[0].op != Join && Timely(s.b, s.up[0])
    requires c == Command(s.b, s.up[0], now, api)
    ensures Invariant(Served(s, c))
  {
    UpstreamServe(s, now, api);
    if StartsDrain(s.b, s.up[0], s.t.host) {
      DrainStarts(s.b, s.up[0], now, api, s.t.host, s.accepted);
    } else {
      CommandStreams(s.b, s.up[0], now, api, s.t.host, s.accepted);
    }
    if c.failure.Some? {
      ServeFailed(s, c);
    } else {
      if s.up[0].op == Close {
        CloseServed(s.b, s.up[0], now, api, s.t.host);
      }
      ServeOn(s, c);
    }
  }

  lemma CloseServed(b: State, f: Frame, now: nat, api: CommandApi, host: nat)
    requires Wellformed(f, host) && f.op == Close
    requires Command(b, f, now, api).failure.None?
    ensures !Present(Command(b, f, now, api), host)
  {
  }

  lemma JoinServed(b: State, f: Frame, now: nat, api: CommandApi, host: nat, joins: nat)
    requires Joined(b, host, joins) && f.op == Join && Wellformed(f, host) && Expects(b, f, host, joins)
    ensures var c := Command(b, f, now, api);
            if c.failure.Some? then External(c.failure.value) && c.out == [Notice(Error, 0, 0)]
            else Joined(c, host, joins + 1) && c.out == b.out && At(c, host, joins + 1) == At(b, host, joins)
                 && Present(c, host)
  {
    var i := IdentityChecked(b.(lastCommand := now), now);
    assert Joined(i, host, joins) && At(i, host, joins) == At(b, host, joins);
    JoinStreams(i, f, now, api, host, joins);
  }

  lemma ServeUpstream(s: System, c: State, accepted: nat)
    requires Aligned(s) && !s.t.dead && Upstream(s) && s.up != [] && c.failure.None?
    requires accepted == s.accepted + (if s.up[0].op == Join then 1 else 0) && Joined(c, s.t.host, accepted)
    requires s.up[0].op == Join ==> Present(c, s.t.host)
    requires s.up[0].op != Join && s.up[0].op != Close ==> Streams(s.b, c, s.t.host, accepted)
    requires s.up[0].op == Close ==> !Present(c, s.t.host)
    ensures Upstream(Served(s, c))
  {
    var q := Commands(s);
    var r := Served(s, c);
    assert q[0] == s.up[0] && q[1..] == Commands(r);
    Fewer(q[1..]);
    if s.up[0].op != Join && s.up[0].op != Close {
      var delta := Added(s.b, c);
      WalkGrows(At(s.b, s.t.host, accepted), delta, Stamps(|delta|, accepted));
    }
  }

  lemma ReplyStep(s: System)
    requires Invariant(s) && !s.t.dead
    ensures Invariant(Replied(s))
  {
    var r := Replied(s);
    assert Pipeline(r) == Pipeline(s);
    assert Commands(r) == Commands(s);
    if s.b.failure.None? {
      assert Joined(r.b, s.t.host, s.accepted);
    }
  }

  // A frame the application is not told of leaves the reader where it is.
  lemma {:induction false} WalkSkips(c: Cursor, a: seq<Frame>, sa: seq<nat>, f: Frame, stamp: nat, b: seq<Frame>, sb: seq<nat>)
    requires |a| == |sa| && |b| == |sb| && f.op in {Stats, Error}
    requires Walk(c, a + ([f] + b), sa + ([stamp] + sb)).Some?
    ensures Walk(c, a + b, sa + sb) == Walk(c, a + ([f] + b), sa + ([stamp] + sb))
  {
    WalkPrefix(c, a, sa, [f] + b, [stamp] + sb);
    WalkConcat(c, a, sa, [f] + b, [stamp] + sb);
    WalkConcat(c, a, sa, b, sb);
    assert ([f] + b)[1..] == b && ([stamp] + sb)[1..] == sb;
  }

  // The frame at the head of the pipe is one the reader can place.
  lemma FetchReads(s: System)
    requires Aligned(s) && !s.t.dead && Downstream(s) && s.down != []
    ensures var k := |s.t.client|;
            && Walk(s.reader, s.t.client, s.stamps[..k]).Some?
            && Advance(Walk(s.reader, s.t.client, s.stamps[..k]).value, s.down[0], s.stamps[k]).Some?
            && Pipeline(s) == s.t.client + ([s.down[0]] + (s.down[1..] + s.b.out))
            && s.stamps == s.stamps[..k] + ([s.stamps[k]] + s.stamps[k + 1..])
  {
    var f := s.down[0];
    var k := |s.t.client|;
    var rest := s.down[1..] + s.b.out;
    assert Pipeline(s) == s.t.client + ([f] + rest);
    assert s.stamps == s.stamps[..k] + ([s.stamps[k]] + s.stamps[k + 1..]);
    WalkPrefix(s.reader, s.t.client, s.stamps[..k], [f] + rest, [s.stamps[k]] + s.stamps[k + 1..]);
    WalkConcat(s.reader, s.t.client, s.stamps[..k], [f] + rest, [s.stamps[k]] + s.stamps[k + 1..]);
  }

  lemma FetchWalk(s: System)
    requires Aligned(s) && !s.t.dead && Downstream(s) && s.down != [] && s.down[0].op == Stats
    ensures var k := |s.t.client|;
            Walk(s.reader, s.t.client + (s.down[1..] + s.b.out), s.stamps[..k] + s.stamps[k + 1..])
            == Walk(s.reader, Pipeline(s), s.stamps)
  {
    var k := |s.t.client|;
    FetchReads(s);
    WalkSkips(s.reader, s.t.client, s.stamps[..k], s.down[0], s.stamps[k], s.down[1..] + s.b.out, s.stamps[k + 1..]);
  }

  // Only the pipe and its stamps changed, and the reader walks to the same place.
  lemma SameWalk(s: System, r: System)
    requires Aligned(s) && Aligned(r) && !s.t.dead && Downstream(s) && r == s.(down := r.down, stamps := r.stamps)
    requires UpTo(r.stamps, s.accepted) && Walk(s.reader, Pipeline(r), r.stamps) == Walk(s.reader, Pipeline(s), s.stamps)
    ensures Downstream(r)
  {
  }

  lemma FetchSkips(s: System)
    requires Aligned(s) && !s.t.dead && Downstream(s) && s.down != [] && !Fetched(s).t.dead && s.down[0].op == Stats
    ensures Downstream(Fetched(s))
  {
    var k := |s.t.client|;
    var r := Fetched(s);
    assert r == s.(down := s.down[1..], stamps := s.stamps[..k] + s.stamps[k + 1..]);
    assert Pipeline(r) == s.t.client + (s.down[1..] + s.b.out);
    FetchWalk(s);
    SameWalk(s, r);
  }

  lemma FetchKeeps(s: System)
    requires Aligned(s) && !s.t.dead && Downstream(s) && s.down != [] && !Fetched(s).t.dead
    requires s.down[0].op in {Connected, Disconnected, Data}
    ensures Downstream(Fetched(s))
  {
    var r := Fetched(s);
    assert r.t == s.t.(client := s.t.client + [s.down[0]]);
    assert Pipeline(r) == Pipeline(s) && r.stamps == s.stamps;
  }

  lemma FetchDownstream(s: System)
    requires Aligned(s) && !s.t.dead && Downstream(s) && s.down != [] && !Fetched(s).t.dead
    ensures Downstream(Fetched(s))
  {
    FetchReads(s);
    if s.down[0].op == Stats {
      FetchSkips(s);
    } else {
      FetchKeeps(s);
    }
  }

  lemma FetchStep(s: System)
    requires Invariant(s) && !s.t.dead
    ensures Invariant(Fetched(s))
  {
    var r := Fetched(s);
    if s.down != [] && !r.t.dead {
      FetchDownstream(s);
      assert Commands(r) == Commands(s);
    }
  }

  lemma StepHolds(s: System, step: Step)
    requires Invariant(s) && Allowed(s, step)
    ensures Invariant(Apply(s, step))
  {
    if !s.t.dead {
      match step
      case CreateEndpoint => CreateStep(s);
      case ConnectHost => ConnectStep(s);
      case CloseEndpoint => CloseStep(s, 1);
      case DisconnectHost(reason) => CloseStep(s, reason);
      case SendPayload(bytes, channel, reliable) =>
        if SendData(s.t, bytes, channel, reliable) != s.t {
          SubmitStep(s, Frame(Send, s.t.host, 0, channel, reliable, bytes));
        }
      case PingBroker => SubmitStep(s, Notice(Ping, 0, 0));
      case PushCommand => PushStep(s);
      case Serve(now, api) =>
        if s.up != [] && s.b.failure.None? {
          if s.up[0].op == Join {
            ServeJoin(s, now, api);
          } else {
            ServeOther(s, Command(s.b, s.up[0], now, api), now, api);
          }
        }
      case Pass(now, backlog, api) => PassStep(s, now, backlog, api);
      case Reply => ReplyStep(s);
      case Fetch => FetchStep(s);
      case ServiceEndpoint => ServiceStep(s);
      case PipeLost =>
    }
  }

  lemma CreateStep(s: System)
    requires Invariant(s) && !s.t.dead
    ensures Invariant(s.(t := CreateClient(s.t)))
  {
  }

  lemma {:induction false} RunHolds(s: System, steps: seq<Step>)
    requires Invariant(s) && AllAllowed(s, steps)
    ensures Invariant(Run(s, steps))
    decreases |steps|
  {
    if steps != [] {
      StepHolds(s, steps[0]);
      RunHolds(Apply(s, steps[0]), steps[1..]);
    }
  }

  lemma StartHolds(identity: nat, host: nat)
    requires ValidId(identity) && ValidId(host) && host != identity
    ensures Invariant(Start(identity, host))
  {
  }

  lemma DebtIsOwed(s: System)
    requires Aligned(s) && !s.t.dead && Downstream(s)
    ensures s.t.stale == |s.owed|
  {
    RangeSize(s.reader.gen, Used(s) + 1);
  }

  lemma DebtHolds(s: System)
    requires Invariant(s) && !s.t.dead
    ensures s.t.stale == |s.owed| && !Service(s.t).1.Broken?
  {
    DebtIsOwed(s);
    ServiceReads(s);
  }

  // Rejoin safety, over every run: the debt is the number of closed connections whose
  // Disconnected has not been consumed; every delivered frame belongs to the newest Join; the
  // broker never refuses a command of the runtime; and the frame at the head of the queue can
  // always be placed.
  lemma RejoinIsSafe(identity: nat, host: nat, steps: seq<Step>)
    requires ValidId(identity) && ValidId(host) && host != identity
    requires AllAllowed(Start(identity, host), steps)
    ensures var s := Run(Start(identity, host), steps);
            && (!s.t.dead ==> s.t.stale == |s.owed|)
            && (forall d :: d in s.deliveries ==> d.0 == d.1)
            && (s.b.failure.Some? ==> s.b.failure.value !in {BadJoin, BadSend, UnknownPeer, BadCloseReason, BadPing})
            && (!s.t.dead ==> !Service(s.t).1.Broken?)
  {
    StartHolds(identity, host);
    RunHolds(Start(identity, host), steps);
    var s := Run(Start(identity, host), steps);
    if !s.t.dead {
      DebtHolds(s);
    }
  }
}
