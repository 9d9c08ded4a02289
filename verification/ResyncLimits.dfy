// Two packets that reach the application in quarantine, each at the end of a run of a friend's
// client from its first moment.
module ResyncLimits {
  import opened Common
  import opened Snapshot
  import opened Transfer
  import opened ResyncClient
  import opened ResyncSafety

  const AN_ID: string := "0123456789abcdef0123456789abcdef"
  const A_KEY: Key := Key(AN_ID, 7, 1)
  const THE_TARGETS: seq<Target> := [Target(1, 8, 1)]
  const AT_ONCE: Times := Times(0, 0, 0)

  lemma {:induction false} AfterConcat(d: Receiver, s: State, a: seq<(Event, Times)>, b: seq<(Event, Times)>)
    ensures After(d, s, a + b) == After(d, After(d, s, a), b)
    decreases |a|
  {
    if a == [] {
      assert a + b == b;
    } else {
      assert (a + b)[1..] == a[1..] + b;
      AfterConcat(d, Step(d, s, a[0].0, a[0].1).0, a[1..], b);
    }
  }

  lemma AfterOne(d: Receiver, s: State, e: Event)
    ensures After(d, s, [(e, AT_ONCE)]) == Step(d, s, e, AT_ONCE).0
  {
    assert [(e, AT_ONCE)][1..] == [];
  }

  // ---------------------------------------------------------------- a request frame

  // The second seat of a session, bound to this delivery.
  function Joining(delivery: u64): seq<(Event, Times)> {
    [(Connect, AT_ONCE)] + [(Roster(true, AN_ID, [7, 8, 0], 1, false), AT_ONCE)]
    + [(Bind(Binding(AN_ID, 7, 8, 1, delivery)), AT_ONCE)]
  }

  function Seated(delivery: u64): State {
    State(true, false, true, AN_ID, 1, [7, 8, 0], AN_ID, 7, [7, 8, 0], [1, 1, 1], Some(Binding(AN_ID, 7, 8, 1, delivery)), None,
          None, None, EMPTY, None, delivery > 1, 0, 0, 0)
  }

  lemma JoinsSeated(d: Receiver, delivery: u64)
    requires delivery > 0
    ensures After(d, Idle(), Joining(delivery)) == Seated(delivery)
  {
    var roster := Roster(true, AN_ID, [7, 8, 0], 1, false);
    var bind := Bind(Binding(AN_ID, 7, 8, 1, delivery));
    AfterConcat(d, Idle(), [(Connect, AT_ONCE)] + [(roster, AT_ONCE)], [(bind, AT_ONCE)]);
    AfterConcat(d, Idle(), [(Connect, AT_ONCE)], [(roster, AT_ONCE)]);
    AfterOne(d, Idle(), Connect);
    var c := Step(d, Idle(), Connect, AT_ONCE).0;
    AfterOne(d, c, roster);
    AfterOne(d, Step(d, c, roster, AT_ONCE).0, bind);
  }

  // A client bound to its second delivery is quarantined, and passes the frame on.
  lemma RequestReachesQuarantine(d: Receiver, frame: seq<byte>, t: Times)
    ensures var s := After(d, Idle(), Joining(2));
            s.quarantined && Step(d, s, RequestIn(frame), t) == (s, [Passed(frame)])
  {
    JoinsSeated(d, 2);
  }

  // ---------------------------------------------------------------- a late abort

  function Header(d: Receiver, room: Room, data: seq<byte>): Begin
    requires 0 < |data| <= MAX_SNAPSHOT_BYTES
  {
    Begin(A_KEY, Bootstrap, room, THE_TARGETS, 5, |data|, Ceiling(|data|), d.sha(data))
  }

  function ThePlan(room: Room): Plan { Plan(Request(A_KEY, room, 2, [7, 8, 0]), THE_TARGETS, 100, Bootstrap) }

  function Parts(b: Begin, data: seq<byte>, i: nat): seq<(Event, Times)>
    requires |data| <= MAX_SNAPSHOT_BYTES
    decreases |data| - PART_BYTES * i
  {
    if PART_BYTES * i >= |data| then [] else [(PartIn(Piece(b, data, PART_BYTES * i)), AT_ONCE)] + Parts(b, data, i + 1)
  }

  // The plan, then the whole snapshot under it.
  function Restoring(d: Receiver, room: Room, data: seq<byte>): seq<(Event, Times)>
    requires 0 < |data| <= MAX_SNAPSHOT_BYTES
  {
    var b := Header(d, room, data);
    Joining(1) + [(PlanIn(ThePlan(room)), AT_ONCE)] + [(BeginIn(b), AT_ONCE)] + Parts(b, data, 0)
    + [(EndIn(End(A_KEY, Bootstrap, 5, |data|, b.sha)), AT_ONCE)]
  }

  function WithPlan(room: Room): State {
    Seated(1).(plan := Some(ThePlan(room)), deadline := 100, lastPlan := 1, quarantined := true)
  }

  lemma PlanOpens(d: Receiver, room: Room)
    ensures Step(d, Seated(1), PlanIn(ThePlan(room)), AT_ONCE).0 == WithPlan(room)
  {
    var s := Seated(1);
    assert Selected(s, ThePlan(room)) by {
      assert THE_TARGETS[0].slot == s.slot;
    }
    assert Reserialized(s.deliveries, THE_TARGETS) == [1, 1, 1] by {
      assert THE_TARGETS[1..] == [];
      assert Reserialized([1, 1, 1], []) == [1, 1, 1];
    }
  }

  lemma HeaderValid(d: Receiver, room: Room, data: seq<byte>)
    requires 0 < |data| <= MAX_SNAPSHOT_BYTES && room.epoch != 0
    ensures Announces(d, Header(d, room, data), data)
  {
  }

  lemma HeaderOpens(d: Receiver, room: Room, data: seq<byte>)
    requires 0 < |data| <= MAX_SNAPSHOT_BYTES && room.epoch != 0
    ensures var b := Header(d, room, data);
            Step(d, WithPlan(room), BeginIn(b), AT_ONCE).0 == WithPlan(room).(assembler := Upto(b, data, 0))
  {
    HeaderValid(d, room, data);
    UptoAll(d, Header(d, room, data), data);
  }

  lemma {:induction false} PartsArrive(d: Receiver, room: Room, data: seq<byte>, i: nat)
    requires 0 < |data| <= MAX_SNAPSHOT_BYTES && room.epoch != 0 && i <= Header(d, room, data).count
    ensures var b := Header(d, room, data);
            After(d, WithPlan(room).(assembler := Upto(b, data, i)), Parts(b, data, i))
            == WithPlan(room).(assembler := Upto(b, data, b.count))
    decreases Header(d, room, data).count - i
  {
    var b := Header(d, room, data);
    var s := WithPlan(room).(assembler := Upto(b, data, i));
    HeaderValid(d, room, data);
    if i < b.count {
      Transfer.TakePiece(d, b, data, i, i);
      var e := PartIn(Piece(b, data, PART_BYTES * i));
      assert Parts(b, data, i) == [(e, AT_ONCE)] + Parts(b, data, i + 1);
      assert Step(d, s, e, AT_ONCE).0 == s.(assembler := Upto(b, data, i + 1));
      PartsArrive(d, room, data, i + 1);
      AfterConcat(d, s, [(e, AT_ONCE)], Parts(b, data, i + 1));
      AfterOne(d, s, e);
    } else {
      assert PART_BYTES * i >= |data|;
    }
  }

  // The friend after its snapshot: no longer quarantined, its plan still open.
  function WithSnapshot(d: Receiver, room: Room, data: seq<byte>): State
    requires 0 < |data| <= MAX_SNAPSHOT_BYTES
  {
    WithPlan(room).(quarantined := false, floor := 5, hostRoom := Some(room), completed := Some(Header(d, room, data)))
  }

  lemma EndRestores(d: Receiver, data: seq<byte>, snapshot: Snapshot)
    requires 0 < |data| <= MAX_SNAPSHOT_BYTES && snapshot.room.epoch != 0 && d.decode(data) == Some(snapshot)
    ensures var b := Header(d, snapshot.room, data);
            Step(d, WithPlan(snapshot.room).(assembler := Upto(b, data, b.count)),
                 EndIn(End(A_KEY, Bootstrap, 5, |data|, b.sha)), AT_ONCE).0 == WithSnapshot(d, snapshot.room, data)
  {
    HeaderValid(d, snapshot.room, data);
    UptoAll(d, Header(d, snapshot.room, data), data);
  }

  lemma RestoringRestores(d: Receiver, data: seq<byte>, snapshot: Snapshot)
    requires 0 < |data| <= MAX_SNAPSHOT_BYTES && snapshot.room.epoch != 0 && d.decode(data) == Some(snapshot)
    ensures After(d, Idle(), Restoring(d, snapshot.room, data)) == WithSnapshot(d, snapshot.room, data)
  {
    var room := snapshot.room;
    var b := Header(d, room, data);
    var plan, begin := PlanIn(ThePlan(room)), BeginIn(b);
    var end := EndIn(End(A_KEY, Bootstrap, 5, |data|, b.sha));
    var header := Joining(1) + [(plan, AT_ONCE)] + [(begin, AT_ONCE)];
    AfterConcat(d, Idle(), header + Parts(b, data, 0), [(end, AT_ONCE)]);
    AfterConcat(d, Idle(), header, Parts(b, data, 0));
    AfterConcat(d, Idle(), Joining(1) + [(plan, AT_ONCE)], [(begin, AT_ONCE)]);
    AfterConcat(d, Idle(), Joining(1), [(plan, AT_ONCE)]);
    JoinsSeated(d, 1);
    AfterOne(d, Seated(1), plan);
    PlanOpens(d, room);
    AfterOne(d, WithPlan(room), begin);
    HeaderOpens(d, room, data);
    PartsArrive(d, room, data, 0);
    AfterOne(d, WithPlan(room).(assembler := Upto(b, data, b.count)), end);
    EndRestores(d, data, snapshot);
  }

  // After any snapshot that decodes: a packet admitted at 99 and handed out at 100, when the plan's
  // deadline has quarantined the friend again.
  lemma LateAbortHappens(d: Receiver, data: seq<byte>, snapshot: Snapshot)
    requires 0 < |data| <= MAX_SNAPSHOT_BYTES && snapshot.room.epoch != 0 && d.decode(data) == Some(snapshot)
    ensures var s := After(d, Idle(), Restoring(d, snapshot.room, data));
            var c := Scope(AN_ID, 7, 1, 6, 8, 1, Native);
            var p := Inner(false, false, None, true);
            var (r, outs) := Step(d, s, Envelope(c, p), Times(99, 100, 100));
            !s.quarantined && outs == [World(c, p)] && r.quarantined
  {
    RestoringRestores(d, data, snapshot);
    var s := WithSnapshot(d, snapshot.room, data);
    var c := Scope(AN_ID, 7, 1, 6, 8, 1, Native);
    assert At(s.connections, 0) == 7 && At(s.connections, 1) == 8 && At(s.deliveries, 0) == 1;
    assert KnownSource(s, c);
  }
}
