// Payloads over every run of a joiner and its broker: what the application receives on one
// connection is what Steam delivered to the broker on it, in order and nothing else.
module SteamDelivery {
  import opened Common
  import opened SteamBroker
  import opened SteamTransport
  import opened BrokerStream
  import opened SteamRejoin
  import opened SteamPayload

  // A system with its history: the payloads Steam delivered to the broker, those that have left the
  // pipe, and those the application was handed, each with the number of its connection.
  datatype Traced = Traced(s: System, taken: seq<(nat, Body)>, read: seq<(nat, Body)>, heard: seq<(nat, Body)>)

  function Stamped(bodies: seq<Body>, gen: nat): seq<(nat, Body)> {
    seq(|bodies|, i requires 0 <= i < |bodies| => (gen, bodies[i]))
  }

  // The payloads among these frames, with their stamps.
  function StampedData(frames: seq<Frame>, stamps: seq<nat>): seq<(nat, Body)>
    requires |frames| == |stamps|
    decreases |frames|
  {
    if frames == [] then []
    else (if frames[0].op == Data then [(stamps[0], Body(frames[0].bytes, frames[0].reliable))] else [])
         + StampedData(frames[1..], stamps[1..])
  }

  // Those of one connection.
  function Of<T>(xs: seq<(nat, T)>, gen: nat): seq<T> {
    if xs == [] then [] else (if xs[0].0 == gen then [xs[0].1] else []) + Of(xs[1..], gen)
  }

  function TakenBy(s: System, step: Step): seq<(nat, Body)> {
    if s.t.dead || !step.Pass? then []
    else Stamped(Bodies(TickTook(s.b, step.now, step.backlog, step.tick, s.t.host)), s.accepted)
  }

  function ReadBy(s: System, step: Step): seq<(nat, Body)>
    requires Aligned(s)
  {
    if s.t.dead || !step.ServiceEndpoint? then []
    else
      var n := SteamTransport.Service(s.t).2;
      StampedData(s.t.client[..n], s.stamps[..n])
  }

  function HeardBy(s: System, step: Step): seq<(nat, Body)> {
    if s.t.dead || !step.ServiceEndpoint? then []
    else match SteamTransport.Service(s.t).1
      case Receive(bytes, reliable) => [(s.joins, Body(bytes, reliable))]
      case _ => []
  }

  function Trace(h: Traced, step: Step): (r: Traced)
    requires Aligned(h.s)
    ensures Aligned(r.s)
  {
    Traced(Apply(h.s, step), h.taken + TakenBy(h.s, step), h.read + ReadBy(h.s, step), h.heard + HeardBy(h.s, step))
  }

  function TraceAll(h: Traced, steps: seq<Step>): (r: Traced)
    requires Aligned(h.s)
    ensures Aligned(r.s)
    decreases |steps|
  {
    if steps == [] then h else TraceAll(Trace(h, steps[0]), steps[1..])
  }

  function Untraced(identity: nat, host: nat): Traced { Traced(Start(identity, host), [], [], []) }

  // ---------------------------------------------------------------- lists of payloads

  lemma Regroup(a: seq<(nat, Body)>, b: seq<(nat, Body)>, c: seq<(nat, Body)>)
    ensures a + (b + c) == (a + b) + c
  {
  }

  lemma {:induction false} DataConcat(a: seq<Frame>, sa: seq<nat>, b: seq<Frame>, sb: seq<nat>)
    requires |a| == |sa| && |b| == |sb|
    ensures StampedData(a + b, sa + sb) == StampedData(a, sa) + StampedData(b, sb)
    decreases |a|
  {
    if a == [] {
      assert a + b == b && sa + sb == sb;
    } else {
      assert (a + b)[1..] == a[1..] + b && (sa + sb)[1..] == sa[1..] + sb;
      assert (a + b)[0] == a[0] && (sa + sb)[0] == sa[0];
      DataConcat(a[1..], sa[1..], b, sb);
      var first := if a[0].op == Data then [(sa[0], Body(a[0].bytes, a[0].reliable))] else [];
      assert StampedData(a + b, sa + sb) == first + StampedData(a[1..] + b, sa[1..] + sb);
      Regroup(first, StampedData(a[1..], sa[1..]), StampedData(b, sb));
    }
  }

  lemma {:induction false} DataStamped(frames: seq<Frame>, gen: nat)
    ensures StampedData(frames, Stamps(|frames|, gen)) == Stamped(DataIn(frames), gen)
    decreases |frames|
  {
    if frames != [] {
      var first := if frames[0].op == Data then [Body(frames[0].bytes, frames[0].reliable)] else [];
      assert Stamps(|frames|, gen)[1..] == Stamps(|frames[1..]|, gen);
      DataStamped(frames[1..], gen);
      assert Stamped(first + DataIn(frames[1..]), gen) == Stamped(first, gen) + Stamped(DataIn(frames[1..]), gen);
    }
  }

  lemma {:induction false} OfConcat<T>(a: seq<(nat, T)>, b: seq<(nat, T)>, gen: nat)
    ensures Of(a + b, gen) == Of(a, gen) + Of(b, gen)
    decreases |a|
  {
    if a == [] {
      assert a + b == b;
    } else {
      assert (a + b)[1..] == a[1..] + b && (a + b)[0] == a[0];
      OfConcat(a[1..], b, gen);
      var first := if a[0].0 == gen then [a[0].1] else [];
      assert Of(a + b, gen) == first + Of(a[1..] + b, gen);
      assert first + (Of(a[1..], gen) + Of(b, gen)) == (first + Of(a[1..], gen)) + Of(b, gen);
    }
  }

  lemma {:induction false} OfNone<T>(a: seq<(nat, T)>, gen: nat)
    requires forall x :: x in a ==> x.0 != gen
    ensures Of(a, gen) == []
    decreases |a|
  {
    if a != [] {
      assert a[0] in a;
      OfNone(a[1..], gen);
    }
  }

  lemma OfPrefix<T>(a: seq<(nat, T)>, b: seq<(nat, T)>, gen: nat)
    requires a <= b
    ensures Of(a, gen) <= Of(b, gen)
  {
    assert b == a + b[|a|..];
    OfConcat(a, b[|a|..], gen);
  }

  lemma {:induction false} DataWithin(frames: seq<Frame>, stamps: seq<nat>, bound: nat)
    requires |frames| == |stamps| && UpTo(stamps, bound)
    ensures forall x :: x in StampedData(frames, stamps) ==> x.0 <= bound
    decreases |frames|
  {
    if frames != [] {
      DataWithin(frames[1..], stamps[1..], bound);
    }
  }

  // ---------------------------------------------------------------- the pipe keeps every payload

  // What left the pipe and what is in it is what Steam delivered; a broker that failed lost the end.
  predicate Whole(h: Traced)
    requires Aligned(h.s)
  {
    if h.s.t.dead then h.read <= h.taken
    else
      var passed := h.read + StampedData(Pipeline(h.s), h.s.stamps);
      passed <= h.taken && (h.s.b.failure.None? ==> passed == h.taken)
  }

  // The broker moved to c, adding these payloads under the given stamp.
  lemma MovedWhole(h: Traced, c: State, gen: nat, bodies: seq<Body>)
    requires Aligned(h.s) && !h.s.t.dead && h.s.b.failure.None? && Whole(h) && Adds(h.s.b, c, bodies)
    requires c.failure.Some? ==> c.out == [Notice(Error, 0, 0)]
    ensures Whole(h.(s := Moved(h.s, c, gen), taken := h.taken + Stamped(bodies, gen)))
  {
    var s := h.s;
    var r := Moved(s, c, gen);
    if c.failure.None? {
      var added := Added(s.b, c);
      assert Pipeline(r) == Pipeline(s) + added && r.stamps == s.stamps + Stamps(|added|, gen);
      DataConcat(Pipeline(s), s.stamps, added, Stamps(|added|, gen));
      DataStamped(added, gen);
      assert h.read + (StampedData(Pipeline(s), s.stamps) + Stamped(bodies, gen))
             == (h.read + StampedData(Pipeline(s), s.stamps)) + Stamped(bodies, gen);
    } else {
      FailedWhole(h, c, gen);
    }
  }

  lemma FailedWhole(h: Traced, c: State, gen: nat)
    requires Aligned(h.s) && !h.s.t.dead && Whole(h) && c.failure.Some? && c.out == [Notice(Error, 0, 0)]
    ensures var r := Moved(h.s, c, gen); h.read + StampedData(Pipeline(r), r.stamps) <= h.taken
  {
    var s := h.s;
    var r := Moved(s, c, gen);
    var front := s.t.client + s.down;
    var k := |front|;
    assert s.stamps == s.stamps[..k] + s.stamps[k..] && r.stamps == r.stamps[..k] + r.stamps[k..];
    assert r.stamps[..k] == s.stamps[..k];
    DataConcat(front, s.stamps[..k], s.b.out, s.stamps[k..]);
    DataConcat(front, s.stamps[..k], c.out, r.stamps[k..]);
    assert c.out[1..] == [];
    assert StampedData(c.out, r.stamps[k..]) == [];
    assert StampedData(front, s.stamps[..k]) <= StampedData(Pipeline(s), s.stamps);
  }

  lemma PassWhole(h: Traced, now: nat, backlog: nat, api: TickApi)
    requires Invariant(h.s) && Whole(h) && !h.s.t.dead && PlainTick(api)
    ensures Whole(Trace(h, Pass(now, backlog, api)))
  {
    var s := h.s;
    var c := Tick(s.b, now, backlog, api);
    var bodies := Bodies(TickTook(s.b, now, backlog, api, s.t.host));
    assert Trace(h, Pass(now, backlog, api)) == h.(s := Moved(s, c, s.accepted), taken := h.taken + Stamped(bodies, s.accepted));
    if s.b.failure.None? {
      TickAdds(s.b, now, backlog, api, s.t.host, s.accepted);
      TickStreams(s.b, now, backlog, api, s.t.host, s.accepted);
      MovedWhole(h, c, s.accepted, bodies);
    } else {
      StillWhole(h);
      assert h.taken + Stamped(bodies, s.accepted) == h.taken;
    }
  }

  // A broker that failed says nothing more.
  lemma StillWhole(h: Traced)
    requires Aligned(h.s) && !h.s.t.dead && Whole(h)
    ensures Whole(h.(s := Moved(h.s, h.s.b, h.s.accepted)))
  {
    var r := Moved(h.s, h.s.b, h.s.accepted);
    assert Stamps(0, h.s.accepted) == [];
    assert r.stamps == h.s.stamps;
  }

  lemma AcceptedWhole(h: Traced, accepted: nat)
    requires Aligned(h.s) && Whole(h)
    ensures Whole(h.(s := h.s.(accepted := accepted)))
  {
  }

  // A served command adds frames without payload.
  lemma ServedWhole(h: Traced, c: State)
    requires Invariant(h.s) && Whole(h) && !h.s.t.dead && h.s.up != [] && h.s.b.failure.None? && Adds(h.s.b, c, [])
    requires c.failure.Some? ==> c.out == [Notice(Error, 0, 0)]
    ensures Whole(h.(s := Served(h.s, c)))
  {
    var n := if h.s.up[0].op == Join && c.failure.None? then h.s.accepted + 1 else h.s.accepted;
    var popped := h.(s := h.s.(up := h.s.up[1..]));
    MovedWhole(popped, c, n, []);
    assert h.taken + Stamped([], n) == h.taken;
    AcceptedWhole(popped.(s := Moved(popped.s, c, n)), n);
  }

  lemma ServeWhole(h: Traced, now: nat, api: CommandApi)
    requires Invariant(h.s) && Whole(h) && !h.s.t.dead && h.s.up != [] && h.s.b.failure.None? && Timely(h.s.b, h.s.up[0])
    ensures Whole(h.(s := Apply(h.s, Serve(now, api))))
  {
    var s := h.s;
    assert s.up[0] in Commands(s) && Wellformed(s.up[0], s.t.host);
    CommandAddsNothing(s.b, s.up[0], now, api);
    ServedFails(s, now, api);
    ServedWhole(h, Command(s.b, s.up[0], now, api));
  }

  lemma ServedFails(s: System, now: nat, api: CommandApi)
    requires Invariant(s) && !s.t.dead && s.up != [] && s.b.failure.None? && Timely(s.b, s.up[0])
    ensures var c := Command(s.b, s.up[0], now, api); c.failure.Some? ==> c.out == [Notice(Error, 0, 0)]
  {
    UpstreamServe(s, now, api);
    if s.up[0].op == Join {
      JoinServed(s.b, s.up[0], now, api, s.t.host, s.accepted);
    } else if StartsDrain(s.b, s.up[0], s.t.host) {
      DrainStarts(s.b, s.up[0], now, api, s.t.host, s.accepted);
    } else {
      CommandStreams(s.b, s.up[0], now, api, s.t.host, s.accepted);
    }
  }

  // A frame without payload can go.
  lemma DataSkips(a: seq<Frame>, sa: seq<nat>, f: Frame, stamp: nat, b: seq<Frame>, sb: seq<nat>)
    requires |a| == |sa| && |b| == |sb| && f.op != Data
    ensures StampedData(a + b, sa + sb) == StampedData(a + ([f] + b), sa + ([stamp] + sb))
  {
    DataConcat(a, sa, b, sb);
    DataConcat(a, sa, [f] + b, [stamp] + sb);
    DataConcat([f], [stamp], b, sb);
    assert [f][1..] == [] && [stamp][1..] == [];
    assert [] + StampedData(b, sb) == StampedData(b, sb);
  }

  lemma DataSplit(frames: seq<Frame>, stamps: seq<nat>, n: nat)
    requires |frames| == |stamps| && n <= |frames|
    ensures StampedData(frames, stamps) == StampedData(frames[..n], stamps[..n]) + StampedData(frames[n..], stamps[n..])
  {
    assert frames == frames[..n] + frames[n..] && stamps == stamps[..n] + stamps[n..];
    DataConcat(frames[..n], stamps[..n], frames[n..], stamps[n..]);
  }

  lemma FetchSkipsData(s: System)
    requires Invariant(s) && !s.t.dead && s.down != [] && s.down[0].op == Stats && !Fetched(s).t.dead
    ensures var r := Fetched(s); StampedData(Pipeline(r), r.stamps) == StampedData(Pipeline(s), s.stamps)
  {
    var k := |s.t.client|;
    var r := Fetched(s);
    var rest := s.down[1..] + s.b.out;
    FetchReads(s);
    assert Pipeline(r) == s.t.client + rest && r.stamps == s.stamps[..k] + s.stamps[k + 1..];
    DataSkips(s.t.client, s.stamps[..k], s.down[0], s.stamps[k], rest, s.stamps[k + 1..]);
  }

  lemma FetchKeepsData(s: System)
    requires Aligned(s) && !s.t.dead && s.down != [] && s.down[0].op in {Connected, Disconnected, Data} && !Fetched(s).t.dead
    ensures var r := Fetched(s); Pipeline(r) == Pipeline(s) && r.stamps == s.stamps
  {
    var r := Fetched(s);
    KeptInPipe(s.t.client, s.down, s.b.out);
    assert s.t.client + [s.down[0]] != s.t.client;
  }

  lemma KeptInPipe(a: seq<Frame>, b: seq<Frame>, c: seq<Frame>)
    requires b != []
    ensures (a + [b[0]]) + b[1..] + c == a + b + c
  {
  }

  lemma FetchWhole(h: Traced)
    requires Invariant(h.s) && Whole(h) && !h.s.t.dead
    ensures Whole(h.(s := Fetched(h.s)))
  {
    if h.s.down != [] && !Fetched(h.s).t.dead {
      FetchReads(h.s);
      if h.s.down[0].op == Stats {
        FetchSkipsData(h.s);
      } else {
        FetchKeepsData(h.s);
      }
    }
  }

  lemma PipelineDrops(client: seq<Frame>, down: seq<Frame>, out: seq<Frame>, n: nat)
    requires n <= |client|
    ensures (client + down + out)[n..] == client[n..] + down + out && (client + down + out)[..n] == client[..n]
  {
  }

  lemma ServiceTakes(s: System)
    requires Invariant(s) && !s.t.dead
    ensures var r := Serviced(s);
            var n := SteamTransport.Service(s.t).2;
            && !r.t.dead && r.b == s.b && Pipeline(r) == Pipeline(s)[n..] && r.stamps == s.stamps[n..]
            && s.t.client[..n] == Pipeline(s)[..n]
  {
    ServiceReads(s);
    PipelineDrops(s.t.client, s.down, s.b.out, SteamTransport.Service(s.t).2);
  }

  lemma TakenWhole(h: Traced, r: Traced, front: seq<(nat, Body)>, rest: seq<(nat, Body)>)
    requires Aligned(h.s) && !h.s.t.dead && Whole(h) && Aligned(r.s) && !r.s.t.dead
    requires StampedData(Pipeline(h.s), h.s.stamps) == front + rest && StampedData(Pipeline(r.s), r.s.stamps) == rest
    requires r.read == h.read + front && r.taken == h.taken && r.s.b == h.s.b
    requires h.read + (front + rest) == (h.read + front) + rest
    ensures Whole(r)
  {
  }

  lemma ServiceWhole(h: Traced)
    requires Invariant(h.s) && Whole(h) && !h.s.t.dead
    ensures Whole(Trace(h, ServiceEndpoint)) && !Serviced(h.s).t.dead
  {
    var s := h.s;
    var n := SteamTransport.Service(s.t).2;
    ServiceTakes(s);
    DataSplit(Pipeline(s), s.stamps, n);
    var front, rest := StampedData(Pipeline(s)[..n], s.stamps[..n]), StampedData(Pipeline(s)[n..], s.stamps[n..]);
    Regroup(h.read, front, rest);
    TakenWhole(h, Trace(h, ServiceEndpoint), front, rest);
  }

  // The application's own steps leave the pipe as it is, or end the attachment.
  lemma OwnStepWhole(h: Traced, step: Step)
    requires Invariant(h.s) && Whole(h) && !h.s.t.dead && Allowed(h.s, step)
    requires !step.Serve? && !step.Pass? && !step.Fetch? && !step.ServiceEndpoint?
    ensures Whole(h.(s := Apply(h.s, step)))
  {
    var r := Apply(h.s, step);
    if !r.t.dead {
      assert Pipeline(r) == Pipeline(h.s) && r.stamps == h.s.stamps && r.b.failure == h.s.b.failure;
    }
  }

  lemma StepWhole(h: Traced, step: Step)
    requires Invariant(h.s) && Whole(h) && Allowed(h.s, step)
    ensures Whole(Trace(h, step))
  {
    assert h.taken + [] == h.taken && h.read + [] == h.read;
    if !h.s.t.dead {
      match step
      case Pass(now, backlog, api) => PassWhole(h, now, backlog, api);
      case Serve(now, api) =>
        if h.s.up != [] && h.s.b.failure.None? {
          ServeWhole(h, now, api);
        }
      case Fetch => FetchWhole(h);
      case ServiceEndpoint => ServiceWhole(h);
      case _ => OwnStepWhole(h, step);
    }
  }

  // ---------------------------------------------------------------- what the application is handed

  ghost predicate Hears(h: Traced) {
    && (forall x :: x in h.read ==> x.0 <= h.s.joins)
    && (forall gen: nat :: Of(h.heard, gen) <= Of(h.read, gen))
    && (!h.s.t.dead && Open(h.s.t) ==> Of(h.heard, h.s.joins) == Of(h.read, h.s.joins))
  }

  function Handed(e: SteamTransport.Event): seq<Body> {
    match e
    case Receive(bytes, reliable) => [Body(bytes, reliable)]
    case _ => []
  }

  lemma DropSettles(t: Transport, c: Cursor, joins: nat, stamp: nat, v: Transport)
    requires t.client != [] && t.stale > 0 && Settled(t, c, joins) && Advance(c, t.client[0], stamp).Some?
    requires t.client[0].op in {Connected, Disconnected, Data}
    requires v == t.(client := t.client[1..], stale := if t.client[0].op == Disconnected then t.stale - 1 else t.stale)
    ensures Settled(v, Advance(c, t.client[0], stamp).value, joins) && Open(v) == Open(t)
  {
  }

  lemma FirstHears(t: Transport, c: Cursor, joins: nat, stamps: seq<nat>)
    requires !t.dead && |stamps| == |t.client| > 0 && t.stale == 0 && Settled(t, c, joins) && Deliverable(t.client)
    requires Advance(c, t.client[0], stamps[0]).Some? && stamps[0] <= joins
    ensures var (u, e, n) := SteamTransport.Drain(t);
            Open(t) && Of(StampedData(t.client[..n], stamps[..n]), joins) == Handed(e)
  {
    var f := t.client[0];
    assert f in t.client;
    DeliverReads(t.(client := t.client[1..]), c, joins, f, stamps[0]);
    OneHeard(t, joins, f, stamps[0]);
    assert t.client[..1] == [f] && stamps[..1] == [stamps[0]];
  }

  // While an answer is owed the first frame is dropped.
  lemma DrainDrops(t: Transport, v: Transport)
    requires t.client != [] && t.stale > 0
    requires v == t.(client := t.client[1..], stale := if t.client[0].op == Disconnected then t.stale - 1 else t.stale)
    ensures var r := SteamTransport.Drain(v); SteamTransport.Drain(t) == (r.0, r.1, r.2 + 1) && r.2 < |t.client|
  {
  }

  lemma WalkRest(c: Cursor, frames: seq<Frame>, stamps: seq<nat>, joins: nat)
    requires frames != [] && |stamps| == |frames| && Walk(c, frames, stamps).Some? && UpTo(stamps, joins)
    requires Deliverable(frames)
    ensures frames[0].op in {Connected, Disconnected, Data} && stamps[0] <= joins
    ensures Advance(c, frames[0], stamps[0]).Some?
    ensures Walk(Advance(c, frames[0], stamps[0]).value, frames[1..], stamps[1..]).Some?
    ensures UpTo(stamps[1..], joins) && Deliverable(frames[1..])
  {
    assert frames[0] in frames;
  }

  // One `service` drops only payloads of closed connections, and hands on one of the open connection.
  lemma {:induction false} DrainHears(t: Transport, c: Cursor, joins: nat, stamps: seq<nat>)
    requires !t.dead && |stamps| == |t.client| && Settled(t, c, joins) && Deliverable(t.client)
    requires Walk(c, t.client, stamps).Some? && UpTo(stamps, joins)
    ensures var (u, e, n) := SteamTransport.Drain(t);
            && (Open(t) ==> Of(StampedData(t.client[..n], stamps[..n]), joins) == Handed(e))
            && (!Open(t) ==> Handed(e) == [])
    decreases |t.client|
  {
    if t.client == [] {
      assert t.client[..0] == [] && stamps[..0] == [];
    } else {
      var f := t.client[0];
      WalkRest(c, t.client, stamps, joins);
      if t.stale > 0 {
        var v := t.(client := t.client[1..], stale := if f.op == Disconnected then t.stale - 1 else t.stale);
        DropSettles(t, c, joins, stamps[0], v);
        DrainDrops(t, v);
        DrainHears(v, Advance(c, f, stamps[0]).value, joins, stamps[1..]);
        DroppedFirst(t, c, joins, stamps, SteamTransport.Drain(v).2);
      } else {
        FirstHears(t, c, joins, stamps);
      }
    }
  }

  lemma DroppedFirst(t: Transport, c: Cursor, joins: nat, stamps: seq<nat>, n: nat)
    requires |stamps| == |t.client| > n && Settled(t, c, joins) && t.stale > 0
    requires Advance(c, t.client[0], stamps[0]).Some?
    ensures Open(t) ==> Of(StampedData(t.client[..n + 1], stamps[..n + 1]), joins)
                        == Of(StampedData(t.client[1..][..n], stamps[1..][..n]), joins)
  {
    assert t.client[..n + 1][1..] == t.client[1..][..n] && stamps[..n + 1][1..] == stamps[1..][..n];
    var first := if t.client[0].op == Data then [(stamps[0], Body(t.client[0].bytes, t.client[0].reliable))] else [];
    var rest := StampedData(t.client[1..][..n], stamps[1..][..n]);
    assert StampedData(t.client[..n + 1], stamps[..n + 1]) == first + rest;
    if Open(t) {
      OfNone(first, joins);
      OfConcat(first, rest, joins);
      assert [] + Of(rest, joins) == Of(rest, joins);
    }
  }

  lemma OneHeard(t: Transport, joins: nat, f: Frame, stamp: nat)
    requires t.client != [] && f.op in {Connected, Disconnected, Data} && stamp == joins
    requires SteamTransport.Deliver(t.(client := t.client[1..]), f).1 != Broken
    ensures Of(StampedData([f], [stamp]), joins) == Handed(SteamTransport.Deliver(t.(client := t.client[1..]), f).1)
  {
    assert [f][1..] == [] && [stamp][1..] == [];
    var body := Body(f.bytes, f.reliable);
    if f.op == Data {
      assert StampedData([f], [stamp]) == [(stamp, body)] + [];
      assert [(stamp, body)][1..] == [];
      assert Of([(stamp, body)], joins) == [body] + [];
    } else {
      NoData(f, stamp);
    }
  }

  lemma NoData(f: Frame, stamp: nat)
    requires f.op != Data
    ensures StampedData([f], [stamp]) == []
  {
    assert [f][1..] == [] && [stamp][1..] == [];
  }

  lemma ServiceHands(s: System)
    requires Invariant(s) && !s.t.dead
    ensures Open(s.t) ==> Of(ReadBy(s, ServiceEndpoint), s.joins) == Handed(SteamTransport.Service(s.t).1)
    ensures !Open(s.t) ==> Handed(SteamTransport.Service(s.t).1) == []
    ensures forall x :: x in ReadBy(s, ServiceEndpoint) ==> x.0 <= s.joins
  {
    var k := |s.t.client|;
    var n := SteamTransport.Service(s.t).2;
    if s.t.open {
      ReaderMoves(s, k);
      assert s.t.client[..k] == s.t.client;
      DrainHears(s.t, s.reader, s.joins, s.stamps[..k]);
      assert s.stamps[..k][..n] == s.stamps[..n];
    } else {
      assert s.t.client[..0] == [] && s.stamps[..0] == [];
    }
    DataWithin(s.t.client[..n], s.stamps[..n], s.joins);
  }

  lemma HandedStamped(s: System)
    requires !s.t.dead
    ensures forall gen: nat :: Of(HeardBy(s, ServiceEndpoint), gen) == if gen == s.joins then Handed(SteamTransport.Service(s.t).1) else []
  {
    var x := HeardBy(s, ServiceEndpoint);
    if x != [] {
      assert x[1..] == [];
    }
  }

  lemma GrownPrefix(heard: seq<(nat, Body)>, read: seq<(nat, Body)>, x: seq<(nat, Body)>, y: seq<(nat, Body)>, gen: nat)
    requires Of(heard, gen) <= Of(read, gen)
    requires Of(x, gen) == [] || (Of(heard, gen) == Of(read, gen) && Of(x, gen) == Of(y, gen))
    ensures Of(heard + x, gen) <= Of(read + y, gen)
    ensures Of(heard, gen) == Of(read, gen) && Of(x, gen) == Of(y, gen) ==> Of(heard + x, gen) == Of(read + y, gen)
  {
    OfConcat(heard, x, gen);
    OfConcat(read, y, gen);
    assert Of(heard, gen) + [] == Of(heard, gen);
  }

  // The application was handed x while y left the pipe, on the connection it has open.
  lemma HearsGrow(h: Traced, r: Traced, x: seq<(nat, Body)>, y: seq<(nat, Body)>)
    requires Hears(h) && !h.s.t.dead && r.heard == h.heard + x && r.read == h.read + y && r.s.joins == h.s.joins
    requires forall e :: e in y ==> e.0 <= h.s.joins
    requires forall gen: nat :: gen != h.s.joins ==> Of(x, gen) == []
    requires if Open(h.s.t) then Of(x, h.s.joins) == Of(y, h.s.joins) else Of(x, h.s.joins) == []
    requires Open(r.s.t) ==> Open(h.s.t)
    ensures Hears(r)
  {
    forall gen: nat ensures Of(r.heard, gen) <= Of(r.read, gen) {
      GrownPrefix(h.heard, h.read, x, y, gen);
    }
    if Open(h.s.t) {
      GrownPrefix(h.heard, h.read, x, y, h.s.joins);
    }
  }

  lemma ServiceHears(h: Traced)
    requires Invariant(h.s) && !h.s.t.dead && Hears(h)
    ensures Hears(Trace(h, ServiceEndpoint))
  {
    ServiceReads(h.s);
    ServiceHands(h.s);
    HandedStamped(h.s);
    HearsGrow(h, Trace(h, ServiceEndpoint), HeardBy(h.s, ServiceEndpoint), ReadBy(h.s, ServiceEndpoint));
  }

  // A new connection has heard nothing yet.
  lemma OtherHears(h: Traced, step: Step)
    requires Invariant(h.s) && !h.s.t.dead && Hears(h) && Allowed(h.s, step) && !step.ServiceEndpoint?
    ensures Hears(h.(s := Apply(h.s, step)))
  {
    var r := Apply(h.s, step);
    assert r.joins == h.s.joins || (r.joins == h.s.joins + 1 && step.ConnectHost?);
    if r.joins == h.s.joins + 1 {
      OfNone(h.read, r.joins);
      assert Of(h.heard, r.joins) <= Of(h.read, r.joins);
    } else if Open(r.t) && !r.t.dead {
      SameOpen(h.s, step);
    }
  }

  lemma SameOpen(s: System, step: Step)
    requires Invariant(s) && !s.t.dead && !step.ServiceEndpoint? && Apply(s, step).joins == s.joins
    requires !Apply(s, step).t.dead && Open(Apply(s, step).t)
    ensures Open(s.t)
  {
  }

  lemma StepHears(h: Traced, step: Step)
    requires Invariant(h.s) && Hears(h) && Allowed(h.s, step)
    ensures Hears(Trace(h, step))
  {
    assert h.heard + [] == h.heard && h.read + [] == h.read;
    if !h.s.t.dead {
      if step.ServiceEndpoint? {
        ServiceHears(h);
      } else {
        OtherHears(h, step);
      }
    }
  }

  // ---------------------------------------------------------------- over every run

  lemma {:induction false} TraceHolds(h: Traced, steps: seq<Step>)
    requires Invariant(h.s) && Whole(h) && Hears(h) && AllAllowed(h.s, steps)
    ensures var r := TraceAll(h, steps); Invariant(r.s) && Whole(r) && Hears(r) && r.s == Run(h.s, steps)
    decreases |steps|
  {
    if steps != [] {
      StepHolds(h.s, steps[0]);
      StepWhole(h, steps[0]);
      StepHears(h, steps[0]);
      TraceHolds(Trace(h, steps[0]), steps[1..]);
    }
  }

  lemma UntracedHolds(identity: nat, host: nat)
    requires ValidId(identity) && ValidId(host) && host != identity
    ensures var h := Untraced(identity, host); Invariant(h.s) && Whole(h) && Hears(h)
  {
    StartHolds(identity, host);
  }

  // Over every run, and for each connection: what the application has received is a prefix of what
  // Steam delivered to the broker. While the connection is open and the broker has not failed, the
  // rest is still in the pipe, in order.
  lemma ReceivedAsDelivered(identity: nat, host: nat, steps: seq<Step>, gen: nat)
    requires ValidId(identity) && ValidId(host) && host != identity
    requires AllAllowed(Start(identity, host), steps)
    ensures var h := TraceAll(Untraced(identity, host), steps);
            && h.s == Run(Start(identity, host), steps)
            && Of(h.heard, gen) <= Of(h.taken, gen)
            && (!h.s.t.dead && Open(h.s.t) && h.s.b.failure.None? ==>
                  Of(h.taken, h.s.joins) == Of(h.heard, h.s.joins) + Of(StampedData(Pipeline(h.s), h.s.stamps), h.s.joins))
  {
    UntracedHolds(identity, host);
    TraceHolds(Untraced(identity, host), steps);
    var h := TraceAll(Untraced(identity, host), steps);
    if h.s.t.dead {
      OfPrefix(h.read, h.taken, gen);
    } else {
      var piped := StampedData(Pipeline(h.s), h.s.stamps);
      OfPrefix(h.read, h.read + piped, gen);
      OfPrefix(h.read + piped, h.taken, gen);
      OfConcat(h.read, piped, h.s.joins);
    }
  }

  // Every payload still to be read belongs to the reader's connection or a later one.
  lemma {:induction false} DataAhead(c: Cursor, frames: seq<Frame>, stamps: seq<nat>)
    requires |frames| == |stamps| && Walk(c, frames, stamps).Some?
    ensures forall x :: x in StampedData(frames, stamps) ==> x.0 >= c.gen
    decreases |frames|
  {
    if frames != [] {
      DataAhead(Advance(c, frames[0], stamps[0]).value, frames[1..], stamps[1..]);
    }
  }

  lemma NothingBehind(s: System)
    requires Invariant(s) && !s.t.dead && SteamTransport.Service(s.t).1.Disconnect?
    ensures Of(StampedData(Pipeline(s), s.stamps), s.joins) == []
  {
    var n := SteamTransport.Service(s.t).2;
    var r := Serviced(s);
    ServiceReads(s);
    ServiceTakes(s);
    ServiceHands(s);
    OwedAfter(s);
    ServiceDownstream(s);
    assert r.reader.gen == s.joins + 1;
    DataAhead(r.reader, Pipeline(r), r.stamps);
    OfNone(StampedData(Pipeline(r), r.stamps), s.joins);
    DataSplit(Pipeline(s), s.stamps, n);
    OfConcat(ReadBy(s, ServiceEndpoint), StampedData(Pipeline(r), r.stamps), s.joins);
  }

  // When the application is told that the host has left, it has been handed everything Steam
  // delivered on that connection, unless the broker failed.
  lemma ToldAfterAll(identity: nat, host: nat, steps: seq<Step>)
    requires ValidId(identity) && ValidId(host) && host != identity && AllAllowed(Start(identity, host), steps)
    requires var s := Run(Start(identity, host), steps);
             !s.t.dead && s.b.failure.None? && SteamTransport.Service(s.t).1.Disconnect?
    ensures var h := TraceAll(Untraced(identity, host), steps);
            Of(h.heard, h.s.joins) == Of(h.taken, h.s.joins)
  {
    UntracedHolds(identity, host);
    TraceHolds(Untraced(identity, host), steps);
    var h := TraceAll(Untraced(identity, host), steps);
    ServiceReads(h.s);
    NothingBehind(h.s);
    OfConcat(h.read, StampedData(Pipeline(h.s), h.s.stamps), h.s.joins);
    assert Of(h.read, h.s.joins) + [] == Of(h.read, h.s.joins);
  }
}
