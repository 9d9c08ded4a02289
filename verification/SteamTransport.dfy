// The runtime's end of a joiner's Steam link (common/src/SteamTransport.cpp): the hub's queues and
// the one remote peer, the host, as a value and as the object the source updates in place.
module SteamTransport {
  import opened Common
  import opened Bytes
  import opened SteamBroker

  // `closed` and `connected` are the peer's flags once `known`; `stale` counts the Disconnected
  // receipts still owed for connections the application closed itself.
  datatype Transport = Transport(identity: nat, host: nat, open: bool, dead: bool, known: bool, connected: bool,
                                 closed: bool, stale: nat, commands: seq<Frame>, client: seq<Frame>)

  datatype Event = Quiet | Connect | Disconnect(reason: nat) | Receive(bytes: seq<byte>, reliable: bool) | Broken

  predicate Open(t: Transport) { t.known && !t.closed }

  function Submit(t: Transport, f: Frame): Transport {
    if t.dead || |t.commands| >= MAX_QUEUE then t.(dead := true) else t.(commands := t.commands + [f])
  }

  function Terminated(t: Transport): Transport {
    if !t.open then t else t.(open := false, dead := true, client := [], connected := false, closed := t.known || t.closed)
  }

  function CreateClient(t: Transport): Transport {
    if t.dead then t else t.(open := true)
  }

  function ConnectPeer(t: Transport): Transport {
    if !t.open || t.dead || !ValidId(t.host) || t.host == t.identity then t else
      var s := Submit(t, Notice(Join, t.host, 0));
      if s.dead then s else s.(known := true, closed := false)
  }

  // One Close for a live peer; its answer is owed from then on.
  function ClosePeer(t: Transport, reason: nat): Transport {
    if !Open(t) then t else
      var s := Submit(t.(connected := false, closed := true), Notice(Close, t.host, reason));
      if s.dead then Terminated(s) else s.(stale := t.stale + 1)
  }

  function CloseAll(t: Transport): Transport {
    if !t.open then t else if t.dead then Terminated(t) else ClosePeer(t, 1)
  }

  function DisconnectPeer(t: Transport, reason: nat): Transport {
    if !t.known || t.dead then t else ClosePeer(t, reason)
  }

  function SendData(t: Transport, bytes: seq<byte>, channel: nat, reliable: bool): Transport {
    if !t.open || t.dead || !t.known || !t.connected || bytes == [] || |bytes| > MAX_PACKET - 8 || channel >= 3 then t
    else Submit(t, Frame(Send, t.host, 0, channel, reliable, bytes))
  }

  predicate StatsOk(f: Frame) { |f.bytes| == 8 && ValidId(f.peer) && Get(f.bytes[4..]) <= 1000 }

  // One frame of the pipe as the hub takes it in.
  function TakeIn(t: Transport, f: Frame): Transport {
    match f.op
    case Error => t.(dead := true)
    case Ready => if f.peer != t.identity then t.(dead := true) else t
    case Stats => if StatsOk(f) then t else t.(dead := true)
    case Connected => Enqueue(t, f)
    case Disconnected => Enqueue(t, f)
    case Data => Enqueue(t, f)
    case _ => t.(dead := true)
  }

  function Enqueue(t: Transport, f: Frame): Transport {
    if |t.client| >= MAX_QUEUE then t.(dead := true) else t.(client := t.client + [f])
  }

  // What one dequeued frame becomes when nothing is owed.
  function Deliver(t: Transport, f: Frame): (Transport, Event) {
    if f.op == Connected then (t.(known := true, connected := true, closed := false), Connect)
    else if f.op == Disconnected then (t.(known := true, connected := false, closed := true), Disconnect(f.reason))
    else if f.op == Data && t.known && t.connected then (t, Receive(f.bytes, f.reliable))
    else (t.(dead := true), Broken)
  }

  // The queue part of `service`: frames of connections already closed are consumed silently,
  // each Disconnected among them repaying one debt; the first other frame is delivered. The last
  // component counts the frames taken.
  function Drain(t: Transport): (r: (Transport, Event, nat))
    ensures r.2 <= |t.client| && |r.0.client| == |t.client| - r.2
    decreases |t.client|
  {
    if t.client == [] then (t, Quiet, 0) else
      var f := t.client[0];
      var u := t.(client := t.client[1..]);
      if t.stale > 0 then
        var (v, e, n) := Drain(if f.op == Disconnected then u.(stale := t.stale - 1) else u);
        (v, e, n + 1)
      else
        var (v, e) := Deliver(u, f);
        (v, e, 1)
  }

  function Service(t: Transport): (r: (Transport, Event, nat))
    ensures r.2 <= |t.client| && |r.0.client| == |t.client| - r.2
  {
    if !t.open then (t, Quiet, 0)
    else if t.dead then
      if Open(t) then (t.(connected := false, closed := true), Disconnect(0), 0) else (t, Broken, 0)
    else Drain(t)
  }

  // The same object with its fields updated in place.
  class Joiner {
    const identity: nat
    const host: nat
    var open: bool
    var dead: bool
    var known: bool
    var connected: bool
    var closed: bool
    var stale: nat
    var commands: seq<Frame>
    var client: seq<Frame>

    function Abs(): Transport
      reads this
    {
      Transport(identity, host, open, dead, known, connected, closed, stale, commands, client)
    }

    constructor (identity: nat, host: nat)
      ensures Abs() == Transport(identity, host, false, false, false, false, false, 0, [], [])
    {
      this.identity, this.host := identity, host;
      open, dead, known, connected, closed := false, false, false, false, false;
      stale, commands, client := 0, [], [];
    }

    method Command(f: Frame) returns (ok: bool)
      modifies this
      ensures Abs() == Submit(old(Abs()), f) && ok == !dead
    {
      if dead || |commands| >= MAX_QUEUE {
        dead := true;
        return false;
      }
      commands := commands + [f];
      return true;
    }

    method Terminate()
      modifies this
      ensures Abs() == Terminated(old(Abs()))
    {
      if open {
        open, dead, client := false, true, [];
        connected := false;
        closed := known || closed;
      }
    }

    method ConnectTo() returns (resolved: bool)
      modifies this
      ensures Abs() == ConnectPeer(old(Abs()))
      ensures resolved <==> Abs().commands == old(commands) + [Notice(Join, host, 0)]
    {
      if !open || dead || !ValidId(host) || host == identity {
        return false;
      }
      var ok := Command(Notice(Join, host, 0));
      if ok {
        known, closed := true, false;
      }
      return ok;
    }

    method CloseOne(reason: nat)
      modifies this
      ensures Abs() == ClosePeer(old(Abs()), reason)
    {
      if known && !closed {
        connected, closed := false, true;
        var ok := Command(Notice(Close, host, reason));
        if !ok {
          Terminate();
        } else {
          stale := stale + 1;
        }
      }
    }

    method CloseEverything()
      modifies this
      ensures Abs() == CloseAll(old(Abs()))
    {
      if open {
        if dead {
          Terminate();
        } else {
          CloseOne(1);
        }
      }
    }

    method DeliverFrame(f: Frame) returns (e: Event)
      modifies this
      ensures (Abs(), e) == Deliver(old(Abs()), f)
    {
      if f.op == Connected {
        known, connected, closed := true, true, false;
        return Connect;
      } else if f.op == Disconnected {
        known, connected, closed := true, false, true;
        return Disconnect(f.reason);
      } else if f.op == Data && known && connected {
        return Receive(f.bytes, f.reliable);
      } else {
        dead := true;
        return Broken;
      }
    }

    // The loop over the queue.
    method DrainQueue() returns (e: Event, taken: nat)
      modifies this
      ensures (Abs(), e, taken) == Drain(old(Abs()))
    {
      taken := 0;
      while client != [] && stale > 0
        invariant Drain(old(Abs())) == (Drain(Abs()).0, Drain(Abs()).1, Drain(Abs()).2 + taken)
        decreases |client|
      {
        if client[0].op == Disconnected {
          stale := stale - 1;
        }
        client, taken := client[1..], taken + 1;
      }
      if client == [] {
        return Quiet, taken;
      }
      var f := client[0];
      client, taken := client[1..], taken + 1;
      e := DeliverFrame(f);
    }

    // `service` after its pump.
    method ServiceQueue() returns (e: Event, taken: nat)
      modifies this
      ensures (Abs(), e, taken) == Service(old(Abs()))
    {
      if !open {
        return Quiet, 0;
      } else if !dead {
        e, taken := DrainQueue();
      } else if known && !closed {
        connected, closed := false, true;
        return Disconnect(0), 0;
      } else {
        return Broken, 0;
      }
    }
  }
}
