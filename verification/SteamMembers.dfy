// Whom the broker talks to (common/src/SteamBroker.cpp): over every run a host's peers are on its
// allowlist, a joiner's is the host it joined, and every connected one was vouched for by Steam.
module SteamMembers {
  import opened Common
  import opened Bytes
  import opened SteamBroker
  import opened BrokerOrder

  // ---------------------------------------------------------------- the invariant

  // Valid, distinct identities, none the broker's own.
  predicate Identities(ids: seq<nat>, own: nat) {
    && (forall i :: 0 <= i < |ids| ==> ValidId(ids[i]) && ids[i] != own)
    && forall i, j :: 0 <= i < j < |ids| ==> ids[i] != ids[j]
  }

  // Steam's word for a connection: authenticated, relayed, no other transport.
  predicate Vetted(s: Status) { s.state == 3 && s.authenticated && s.relay && s.iceOff && s.flags % 4 == 0 }

  predicate Vouched(seen: seq<Status>, id: nat, p: Peer) {
    exists i :: 0 <= i < |seen| && seen[i].identity == id && seen[i].handle == p.handle && Vetted(seen[i])
  }

  predicate Hosting(b: State) { b.listener != 0 && b.configured && b.target == 0 }

  // What holds of the peers, `seen` being every status Steam has reported.
  predicate Members(b: State, seen: seq<Status>) {
    && |b.allowed| <= MAX_PEERS && Identities(b.allowed, b.identity) && |b.peers| <= MAX_PEERS
    && (b.listener != 0 ==> Hosting(b)) && (b.listener == 0 ==> b.allowed == [])
    && (b.configured ==> b.identity != 0) && (b.target != 0 ==> b.configured && ValidId(b.target) && b.target != b.identity)
    && (b.listener == 0 && b.target != 0 ==> b.target in b.admitted)
    && (forall id | id in b.peers :: (if b.listener != 0 then id in b.allowed else id == b.target && b.target != 0))
    && (forall id | id in b.peers :: id in b.admitted && (b.peers[id].connected ==> Vouched(seen, id, b.peers[id])))
  }

  // A step that takes on nobody: it keeps the roles and some of the peers, or stops everything.
  predicate Cleared(b: State) {
    b.peers == map[] && b.listener == 0 && !b.configured && b.allowed == [] && b.admitted == [] && b.target == 0
  }

  predicate SameRole(b: State, c: State) {
    && c.identity == b.identity && c.listener == b.listener && c.configured == b.configured && c.allowed == b.allowed
    && c.admitted == b.admitted && c.target == b.target
  }

  predicate SomePeers(b: State, c: State) {
    && c.peers.Keys <= b.peers.Keys
    && forall id | id in c.peers :: c.peers[id].handle == b.peers[id].handle && (c.peers[id].connected ==> b.peers[id].connected)
  }

  predicate Shrinks(b: State, c: State) {
    c.identity == b.identity && (Cleared(c) || (SameRole(b, c) && SomePeers(b, c)))
  }

  // The identity a broker was given is still the session's, as far as it was asked in the last second.
  predicate Itself(b: State, now: nat, current: nat) {
    b.identity != 0 && b.lastIdentityCheck <= now && (now - b.lastIdentityCheck >= 1000 ==> current == b.identity)
  }

  // A tick goes on exactly while callbacks are healthy and, before the first Hello, five seconds have
  // not passed, or, after it, the session is the same and a command came in the last five seconds.
  lemma AliveIff(b: State, now: nat, api: TickApi)
    requires b.failure.None?
    ensures TickChecks(b, now, api).failure.None? <==>
            && api.healthy
            && (if b.identity == 0 then b.firstTick == 0 || Elapsed(now, b.firstTick) <= 5000
                else Itself(b, now, api.currentIdentity) && b.lastCommand <= now <= b.lastCommand + 5000)
  {
  }

  // A command other than Hello of another session stops the broker, and of its own is never refused
  // for that.
  lemma SameSessionIff(b: State, f: Frame, now: nat, api: CommandApi)
    requires b.failure.None? && f.op != Hello
    ensures Command(b, f, now, api).failure == Some(SessionChanged) <==> !Itself(b, now, api.currentIdentity)
  {
  }

  // A peer whose connection does not come up is given thirty seconds.
  lemma UnconnectedIff(b: State, id: nat, now: nat, backlog: nat, a: PeerApi)
    requires id in b.peers && !b.peers[id].connected && |b.out| < MAX_QUEUE
    ensures var c := PeerStep(b, id, now, backlog, a);
            if Elapsed(now, b.peers[id].started) > 30000 && |b.out| + backlog < MAX_QUEUE - 32 then
              id !in c.peers && c.out == b.out + [Notice(Disconnected, id, 0)]
            else c == b
  {
  }

  // A draining peer leaves when everything queued and, of a host, the end envelope is delivered, or
  // after two seconds, and is then reported under the reason it was closed for.
  lemma DrainedIff(b: State, id: nat, now: nat, a: PeerApi)
    requires id in b.peers && |b.out| < MAX_QUEUE
    ensures var (p, c) := (b.peers[id], DrainStep(b, id, now, a));
            var ended := p.terminalSent || (p.pending == [] && (b.listener == 0 || a.endAccepted));
            if (p.pending == [] && ended && a.drained) || Elapsed(now, p.closeStarted) >= 2000 then
              id !in c.peers && c.out == b.out + [Notice(Disconnected, id, p.closeReason)]
            else id in c.peers && c.out == b.out && c.peers[id].terminalSent == ended
  {
  }

  lemma FewerPeers(a: map<nat, Peer>, b: map<nat, Peer>)
    requires a.Keys <= b.Keys
    ensures |a| <= |b|
  {
    assert b.Keys == a.Keys + (b.Keys - a.Keys);
  }

  lemma ShrinksKeeps(b: State, c: State, seen: seq<Status>)
    requires Members(b, seen) && Shrinks(b, c)
    ensures Members(c, seen)
  {
    if !Cleared(c) {
      FewerPeers(c.peers, b.peers);
      forall id | id in c.peers && c.peers[id].connected ensures Vouched(seen, id, c.peers[id]) {
        assert Vouched(seen, id, b.peers[id]);
      }
    }
  }

  lemma ShrinksChains(a: State, b: State, c: State)
    requires Shrinks(a, b) && Shrinks(b, c)
    ensures Shrinks(a, c)
  {
  }

  lemma MoreSeen(b: State, seen: seq<Status>, more: seq<Status>)
    requires Members(b, seen)
    ensures Members(b, seen + more)
  {
    forall id | id in b.peers && b.peers[id].connected ensures Vouched(seen + more, id, b.peers[id]) {
      var i :| 0 <= i < |seen| && seen[i].identity == id && seen[i].handle == b.peers[id].handle && Vetted(seen[i]);
      assert (seen + more)[i] == seen[i];
    }
  }

  // ---------------------------------------------------------------- one peer's pass

  lemma DropShrinks(b: State, id: nat, linger: bool, reason: nat, why: CloseWhy, f: Frame)
    requires id in b.peers
    ensures Shrinks(b, Drop(b, id, linger, reason, why)) && Shrinks(b, Emit(Drop(b, id, linger, reason, why), f))
  {
  }

  lemma {:induction false} FlushShrinks(b: State, id: nat, answers: seq<SendAnswer>, n: nat)
    ensures Shrinks(b, FlushLoop(b, id, answers, n))
    decreases n
  {
    if n > 0 && id in b.peers && !b.peers[id].remoteClosed && b.peers[id].pending != [] {
      var p := b.peers[id];
      var answer := if answers == [] then LimitExceeded else answers[0];
      if answer == Accepted {
        var c := b.(peers := b.peers[id := p.(pending := p.pending[1..], sent := p.sent + [p.pending[0]])]);
        FlushShrinks(c, id, answers[1..], n - 1);
        ShrinksChains(b, c, FlushLoop(c, id, answers[1..], n - 1));
      }
    }
  }

  lemma DrainShrinks(b: State, id: nat, now: nat, a: PeerApi)
    requires id in b.peers
    ensures Shrinks(b, DrainStep(b, id, now, a))
  {
    var q := EndSent(b.peers[id], b.listener != 0, a.endAccepted);
    var c := b.(peers := b.peers[id := q]);
    assert Shrinks(b, c);
    DropShrinks(c, id, true, q.closeReason, HostLeftDelivered, Notice(Disconnected, id, q.closeReason));
    DropShrinks(c, id, true, q.closeReason, HostLeftTimeout, Notice(Disconnected, id, q.closeReason));
    ShrinksChains(b, c, DrainStep(b, id, now, a));
  }

  lemma MessageShrinks(b: State, id: nat, m: Message)
    requires id in b.peers
    ensures Shrinks(b, ReceiveStep(b, id, m))
  {
  }

  lemma {:induction false} ReceiveShrinks(b: State, id: nat, inbox: seq<Message>, backlog: nat, n: nat)
    ensures Shrinks(b, ReceiveLoop(b, id, inbox, backlog, n).0)
    decreases n
  {
    if n > 0 && id in b.peers && OutputRoom(b, backlog) && inbox != [] {
      var c := ReceiveStep(b, id, inbox[0]);
      MessageShrinks(b, id, inbox[0]);
      ReceiveShrinks(c, id, inbox[1..], backlog, n - 1);
      ShrinksChains(b, c, ReceiveLoop(c, id, inbox[1..], backlog, n - 1).0);
    }
  }

  lemma RemoteCloseShrinks(b: State, id: nat, now: nat, backlog: nat, empty: bool)
    requires id in b.peers
    ensures Shrinks(b, RemoteCloseStep(b, id, now, backlog, empty))
  {
    var reason := if b.peers[id].closing then b.peers[id].closeReason else b.peers[id].remoteReason;
    DropShrinks(b, id, b.peers[id].closing, reason, if empty then TerminalDrained else TerminalDrainTimeout,
                Notice(Disconnected, id, reason));
  }

  lemma InboundShrinks(b: State, id: nat, now: nat, backlog: nat, a: PeerApi)
    requires id in b.peers
    ensures Shrinks(b, InboundStep(b, id, now, backlog, a))
  {
    var s := StatsStep(b, id, now, backlog, a);
    assert Shrinks(b, s);
    if s.failure.None? {
      ReceiveShrinks(s, id, a.inbox, backlog, 16);
      var (r, empty) := ReceiveLoop(s, id, a.inbox, backlog, 16);
      ShrinksChains(b, s, r);
      if r.failure.None? && id in r.peers {
        RemoteCloseShrinks(r, id, now, backlog, empty);
        ShrinksChains(b, r, RemoteCloseStep(r, id, now, backlog, empty));
      }
    }
  }

  lemma PeerStepShrinks(b: State, id: nat, now: nat, backlog: nat, a: PeerApi)
    ensures Shrinks(b, PeerStep(b, id, now, backlog, a))
  {
    if id in b.peers {
      DropShrinks(b, id, false, 0, PeerRetired, Notice(Disconnected, id, 0));
      if b.peers[id].connected {
        var f := FlushLoop(b, id, a.sends, 16);
        FlushShrinks(b, id, a.sends, 16);
        if f.failure.None? && id in f.peers {
          DrainShrinks(f, id, now, a);
          InboundShrinks(f, id, now, backlog, a);
          ShrinksChains(b, f, PeerStep(b, id, now, backlog, a));
        }
      }
    }
  }

  lemma {:induction false} PeersShrink(b: State, ids: seq<nat>, now: nat, backlog: nat, api: TickApi)
    ensures Shrinks(b, PeerLoop(b, ids, now, backlog, api))
    decreases |ids|
  {
    if ids != [] && b.failure.None? {
      var c := PeerStep(b, ids[0], now, backlog, AnswersFor(api, ids[0]));
      PeerStepShrinks(b, ids[0], now, backlog, AnswersFor(api, ids[0]));
      PeersShrink(c, ids[1..], now, backlog, api);
      ShrinksChains(b, c, PeerLoop(c, ids[1..], now, backlog, api));
    }
  }

  // ---------------------------------------------------------------- statuses

  // A caller on the host's own listener is taken on exactly when he is an authenticated, relayed
  // member of the allowlist who is not there yet, while there is a place.
  predicate Welcome(b: State, s: Status) {
    && s.state == 1 && b.listener != 0 && s.listener == b.listener && s.identity in b.allowed && s.identity !in b.peers
    && |b.peers| < MAX_PEERS && s.authenticated && s.flags % 2 == 0 && s.iceOff && s.accepted
  }

  lemma TakenOnIff(b: State, seen: seq<Status>, s: Status, now: nat, id: nat)
    requires Members(b, seen) && id !in b.peers
    ensures id in StatusStep(b, s, now).peers <==> Welcome(b, s) && id == s.identity
    ensures id in StatusStep(b, s, now).peers ==> StatusStep(b, s, now).peers[id] == NewPeer(s.handle, now)
  {
  }

  // A peer is connected exactly by a status of its own handle that Steam vouches for; a connection
  // Steam does not vouch for stops the broker.
  lemma ConnectedIff(b: State, s: Status, now: nat, id: nat)
    requires id in b.peers && !b.peers[id].connected
    ensures var c := StatusStep(b, s, now);
            var own := s.identity == id && s.handle == b.peers[id].handle && s.state == 3;
            && ((id in c.peers && c.peers[id].connected) <==> own && Vetted(s) && |b.out| < MAX_QUEUE)
            && (own && !Vetted(s) ==> c == Fail(b, ConnectionUnverified))
            && (own && Vetted(s) && |b.out| < MAX_QUEUE ==> c.out == b.out + [Notice(Connected, id, 0)])
  {
  }

  lemma JoinedHolds(b: State, seen: seq<Status>, s: Status, now: nat)
    requires Members(b, seen) && Welcome(b, s)
    ensures Members(StatusStep(b, s, now), seen)
  {
    var c := StatusStep(b, s, now);
    assert c.peers.Keys == b.peers.Keys + {s.identity};
    forall id | id in c.peers && c.peers[id].connected ensures Vouched(seen, id, c.peers[id]) {
      assert Vouched(seen, id, b.peers[id]);
    }
  }

  // A caller turned away leaves the peers as they were.
  lemma TurnedAway(b: State, s: Status, now: nat)
    requires s.state == 1 && b.listener != 0 && s.listener == b.listener && (RefusesIncoming(b, s) || !s.accepted)
    ensures var c := StatusStep(b, s, now);
            c.identity == b.identity
            && (Cleared(c)
                || (c.peers == b.peers && c.listener == b.listener && c.configured == b.configured && c.allowed == b.allowed
                    && c.target == b.target && (c.admitted == b.admitted || c.admitted == b.admitted + [s.identity])))
  {
    if !RefusesIncoming(b, s) {
      assert b.peers[s.identity := NewPeer(s.handle, now)] - {s.identity} == b.peers;
    }
  }

  lemma RefusedHolds(b: State, seen: seq<Status>, s: Status, now: nat)
    requires Members(b, seen) && s.state == 1 && b.listener != 0 && s.listener == b.listener && !Welcome(b, s)
    ensures Members(StatusStep(b, s, now), seen)
  {
    TurnedAway(b, s, now);
  }

  lemma ConnectsHolds(b: State, seen: seq<Status>, s: Status, now: nat)
    requires Members(b, seen) && s in seen && s.identity in b.peers && b.peers[s.identity].handle == s.handle
    requires s.state == 3 && Vetted(s)
    ensures Members(StatusStep(b, s, now), seen)
  {
    var c := StatusStep(b, s, now);
    if !Shrinks(b, c) {
      assert c.peers.Keys == b.peers.Keys + {s.identity} == b.peers.Keys;
      FewerPeers(c.peers, b.peers);
      forall id | id in c.peers && c.peers[id].connected ensures Vouched(seen, id, c.peers[id]) {
        if id != s.identity {
          assert Vouched(seen, id, b.peers[id]);
        } else {
          var i :| 0 <= i < |seen| && seen[i] == s;
        }
      }
    } else {
      ShrinksKeeps(b, c, seen);
    }
  }

  lemma StatusHolds(b: State, seen: seq<Status>, s: Status, now: nat)
    requires Members(b, seen) && s in seen
    ensures Members(StatusStep(b, s, now), seen)
  {
    var c := StatusStep(b, s, now);
    if s.state == 1 && b.listener != 0 && s.listener == b.listener {
      if Welcome(b, s) {
        JoinedHolds(b, seen, s, now);
      } else {
        RefusedHolds(b, seen, s, now);
      }
    } else if s.state == 3 && s.identity in b.peers && b.peers[s.identity].handle == s.handle && Vetted(s) {
      ConnectsHolds(b, seen, s, now);
    } else {
      OtherShrinks(b, s, now);
      ShrinksKeeps(b, c, seen);
    }
  }

  lemma OtherShrinks(b: State, s: Status, now: nat)
    requires !(s.state == 1 && b.listener != 0 && s.listener == b.listener)
    requires !(s.state == 3 && s.identity in b.peers && b.peers[s.identity].handle == s.handle && Vetted(s))
    ensures Shrinks(b, StatusStep(b, s, now))
  {
    if s.identity in b.peers {
      DropShrinks(b, s.identity, false, 0, TerminalStatus, Notice(Disconnected, s.identity, s.reason));
    }
  }

  lemma {:induction false} StatusesHold(b: State, seen: seq<Status>, statuses: seq<Status>, now: nat, backlog: nat, n: nat)
    requires Members(b, seen) && forall i :: 0 <= i < |statuses| ==> statuses[i] in seen
    ensures Members(StatusLoop(b, statuses, now, backlog, n), seen)
    decreases n
  {
    if n > 0 && b.failure.None? && OutputRoom(b, backlog) && statuses != [] {
      StatusHolds(b, seen, statuses[0], now);
      StatusesHold(StatusStep(b, statuses[0], now), seen, statuses[1..], now, backlog, n - 1);
    }
  }

  // ---------------------------------------------------------------- commands

  // The identities a Host command carries, eight little-endian bytes each.
  function Carried(bytes: seq<byte>): (ids: seq<nat>)
    requires |bytes| % 8 == 0
    ensures |ids| == |bytes| / 8
    decreases |bytes|
  {
    if bytes == [] then [] else [Get(bytes[..8])] + Carried(bytes[8..])
  }

  lemma OneMore(known: seq<nat>, id: nat, rest: seq<nat>, own: nat)
    requires Identities(known, own)
    ensures Identities(known + [id], own) <==> ValidId(id) && id != own && id !in known
    ensures Identities(known + ([id] + rest), own) ==> Identities(known + [id], own)
  {
    var more := known + [id];
    assert more[|known|] == id;
    if id in known {
      var i :| 0 <= i < |known| && known[i] == id;
      assert more[i] == more[|known|];
    }
    var all := known + ([id] + rest);
    if Identities(all, own) {
      assert forall i :: 0 <= i < |more| ==> more[i] == all[i];
    }
  }

  // A list of identities is accepted exactly when they are valid, distinct and not the broker's own.
  lemma {:induction false} AllowlistIff(bytes: seq<byte>, own: nat, known: seq<nat>)
    requires |bytes| % 8 == 0 && Identities(known, own)
    ensures var all := known + Carried(bytes);
            Allowlist(bytes, own, known) == if Identities(all, own) then Some(all) else None
    decreases |bytes|
  {
    if bytes == [] {
      assert known + Carried(bytes) == known;
    } else {
      var id, rest := Get(bytes[..8]), Carried(bytes[8..]);
      OneMore(known, id, rest, own);
      assert known + ([id] + rest) == known + [id] + rest;
      if Identities(known + [id], own) {
        AllowlistIff(bytes[8..], own, known + [id]);
      }
    }
  }

  lemma HostHolds(b: State, seen: seq<Status>, f: Frame, api: CommandApi)
    requires Members(b, seen) && b.identity != 0
    ensures Members(HostCommand(b, f, api), seen)
  {
    if !(b.configured || f.peer != 0 || |f.bytes| > MAX_PEERS * 8 || |f.bytes| % 8 != 0) {
      AllowlistIff(f.bytes, b.identity, b.allowed);
      assert b.peers == map[] by {
        if id :| id in b.peers {
          assert false;
        }
      }
    }
  }

  lemma JoinHolds(b: State, seen: seq<Status>, f: Frame, now: nat, api: CommandApi)
    requires Members(b, seen) && b.identity != 0
    ensures Members(JoinCommand(b, f, now, api), seen)
  {
    if !b.configured {
      assert b.peers == map[] by {
        if id :| id in b.peers {
          assert false;
        }
      }
    }
  }

  lemma SendShrinks(b: State, f: Frame, api: CommandApi)
    requires f.peer in b.peers
    ensures Shrinks(b, SendCommand(b, f, api))
  {
    DropShrinks(b, f.peer, false, 0, PeerRetired, Notice(Disconnected, f.peer, 0));
  }

  lemma PeerCommandShrinks(b: State, f: Frame, now: nat, api: CommandApi)
    ensures Shrinks(b, PeerCommand(b, f, now, api))
  {
    if f.peer in b.peers {
      DropShrinks(b, f.peer, true, f.reason, RuntimeClose, Notice(Disconnected, f.peer, f.reason));
      SendShrinks(b, f, api);
    }
  }

  lemma CommandHolds(b: State, seen: seq<Status>, f: Frame, now: nat, api: CommandApi)
    requires Members(b, seen)
    ensures Members(Command(b, f, now, api), seen)
  {
    if b.failure.None? {
      var c := b.(lastCommand := now);
      ShrinksKeeps(b, c, seen);
      if f.op == Hello {
        HelloHolds(c, seen, f, now, api);
      } else {
        var i := IdentityChecked(c, now);
        ShrinksKeeps(c, i, seen);
        ShrinksKeeps(i, StopOwned(i), seen);
        ShrinksKeeps(i, Fail(i, SessionChanged), seen);
        if IdentityCurrent(c, now, api.currentIdentity) {
          HostHolds(i, seen, f, api);
          JoinHolds(i, seen, f, now, api);
          PeerCommandShrinks(i, f, now, api);
          ShrinksKeeps(i, PeerCommand(i, f, now, api), seen);
          ShrinksKeeps(i, Fail(i, BadPing), seen);
        }
      }
    }
  }

  lemma HelloHolds(b: State, seen: seq<Status>, f: Frame, now: nat, api: CommandApi)
    requires Members(b, seen) && f.op == Hello && b.failure.None?
    ensures Members(Command(b, f, now, api), seen)
  {
  }

  // ---------------------------------------------------------------- runs

  function Reported(inputs: seq<Input>): seq<Status> {
    if inputs == [] then []
    else
      var last := inputs[|inputs| - 1];
      Reported(inputs[..|inputs| - 1]) + (if last.Pass? then last.tick.statuses else [])
  }

  lemma PassHolds(b: State, seen: seq<Status>, now: nat, backlog: nat, api: TickApi)
    requires Members(b, seen)
    ensures Members(Tick(b, now, backlog, api), seen + api.statuses)
  {
    var all := seen + api.statuses;
    MoreSeen(b, seen, api.statuses);
    if b.failure.None? {
      var c := TickChecks(b, now, api);
      assert Shrinks(b, c);
      ShrinksKeeps(b, c, all);
      if c.failure.None? {
        forall i | 0 <= i < |api.statuses| ensures api.statuses[i] in all {
          assert all[|seen| + i] == api.statuses[i];
        }
        StatusesHold(c, all, api.statuses, now, backlog, 64);
        var s := StatusLoop(c, api.statuses, now, backlog, 64);
        PeersShrink(s, Ascending(s.peers.Keys), now, backlog, api);
        ShrinksKeeps(s, PeerLoop(s, Ascending(s.peers.Keys), now, backlog, api), all);
      }
    }
  }

  lemma {:induction false} RunSplits(b: State, inputs: seq<Input>)
    requires inputs != []
    ensures Run(b, inputs) == Step(Run(b, inputs[..|inputs| - 1]), inputs[|inputs| - 1])
    decreases |inputs|
  {
    var n := |inputs| - 1;
    if n > 0 {
      RunSplits(Step(b, inputs[0]), inputs[1..]);
      assert inputs[1..][..n - 1] == inputs[..n][1..];
    }
  }

  // Over every run from a fresh broker: a host's peers are at most two, all on its allowlist of valid
  // identities; a joiner's only peer is the host it asked for; and each connected peer's connection was
  // reported by Steam as authenticated and relayed.
  lemma {:induction false} MembersAreKnown(inputs: seq<Input>)
    ensures Members(Run(Initial(), inputs), Reported(inputs))
    decreases |inputs|
  {
    if inputs != [] {
      var n := |inputs| - 1;
      MembersAreKnown(inputs[..n]);
      RunSplits(Initial(), inputs);
      var b, seen := Run(Initial(), inputs[..n]), Reported(inputs[..n]);
      match inputs[n]
      case Issue(f, now, api) =>
        CommandHolds(b, seen, f, now, api);
        assert Reported(inputs) == seen;
      case Take =>
        ShrinksKeeps(b, Pop(b), seen);
        assert Reported(inputs) == seen;
      case Pass(now, backlog, api) => PassHolds(b, seen, now, backlog, api);
    }
  }
}
