// The client's stream of mirrored enemy poses (inject/src/EnemyMirrorState.hpp): a ring of samples
// per track, a render cursor behind the newest host frame, and the release and retake of a track.
// Cursors are whole host frames; positions are reals.
module MirrorStream {
  import opened Common

  const PUBLISH_INTERVAL: nat := 3
  const MIN_LAG: nat := 1
  const MAX_LAG: nat := 18
  const STALE_FRAMES: nat := 30
  const RETAKE: nat := 2
  const RING: nat := 8
  const MAX_TRACKS: nat := 256
  const DEFAULT_DELAY: nat := 6
  const MIN_DELAY: nat := 4
  const MAX_DELAY: nat := 18

  // Serial a is after b as a signed 32-bit difference.
  predicate Newer(a: u32, b: u32) { 0 < Minus(a, b, U32_RANGE) < 0x8000_0000 }

  // Frames between two local frame counts, modulo 2^32.
  function Elapsed(now: u32, since: u32): nat { Minus(now, since, U32_RANGE) }

  function Delay(asked: nat): nat { if MIN_DELAY <= asked <= MAX_DELAY then asked else DEFAULT_DELAY }

  // ---------------------------------------------------------------- the cursor

  datatype Clock = Clock(
    haveNewest: bool, newest: u32, newestLocal: u32, haveCursor: bool, natural: int, cursor: int, delay: nat)

  function NewClock(delay: nat): Clock { Clock(false, 0, 0, false, 0, 0, delay) }

  function Heard(c: Clock, hostFrame: u32, localFrame: u32): Clock {
    if !c.haveNewest || Newer(hostFrame, c.newest) then c.(haveNewest := true, newest := hostFrame, newestLocal := localFrame) else c
  }

  function Live(c: Clock, localFrame: u32): bool { Elapsed(localFrame, c.newestLocal) <= PUBLISH_INTERVAL + 1 }

  // Catch up by two, hold, or advance by one.
  function Advanced(c: Clock, localFrame: u32): int {
    var lag := c.newest - c.natural;
    if lag > c.delay + 3 then c.natural + 2
    else if Live(c, localFrame) && lag < c.delay - 3 then c.natural
    else c.natural + 1
  }

  // Snap forward when too far behind; bound how far ahead.
  function Bounded(c: Clock, natural: int): int {
    var n := if natural < c.newest - MAX_LAG then c.newest - c.delay else natural;
    if n > c.newest + STALE_FRAMES then c.newest + STALE_FRAMES else n
  }

  function NextNatural(c: Clock, localFrame: u32): int {
    if !c.haveCursor then c.newest - c.delay else Bounded(c, Advanced(c, localFrame))
  }

  function Shown(c: Clock, natural: int): int { if natural > c.newest - MIN_LAG then c.newest - MIN_LAG else natural }

  function TickClock(c: Clock, localFrame: u32): Clock {
    if !c.haveNewest then c
    else
      var n := NextNatural(c, localFrame);
      c.(haveCursor := true, natural := n, cursor := Shown(c, n))
  }

  predicate DelayOk(c: Clock) { MIN_DELAY <= c.delay <= MAX_DELAY }

  // After a tick the cursor trails the newest frame by 1 to 18 and the motion runs ahead of it by
  // at most 31 frames.
  predicate Bounds(c: Clock) {
    && c.newest - MAX_LAG <= c.cursor <= c.newest - MIN_LAG
    && c.cursor <= c.natural <= c.newest + STALE_FRAMES
    && 0 <= c.natural - c.cursor <= STALE_FRAMES + MIN_LAG
    && (c.natural > c.cursor ==> c.cursor == c.newest - MIN_LAG)
  }

  // Between ticks the newest frame may only have grown.
  predicate Ready(c: Clock) {
    && DelayOk(c)
    && (c.haveCursor ==>
          c.haveNewest && c.cursor <= c.newest - MIN_LAG && c.cursor <= c.natural <= c.newest + STALE_FRAMES
          && (c.natural > c.cursor ==> c.cursor <= c.newest - MIN_LAG))
  }

  lemma TickBounds(c: Clock, localFrame: u32)
    requires Ready(c) && c.haveNewest
    ensures Bounds(TickClock(c, localFrame)) && Ready(TickClock(c, localFrame))
    ensures c.haveCursor ==> TickClock(c, localFrame).natural >= c.natural
  {
  }

  // An event of one epoch: a packet's host frame, or a tick.
  datatype Beat = Packet(hostFrame: u32, at: u32) | Frame(now: u32)

  function Beats(c: Clock, b: Beat): Clock {
    match b case Packet(hostFrame, at) => Heard(c, hostFrame, at) case Frame(now) => TickClock(c, now)
  }

  // The newest frame does not cross zero: the packet is not newer by serial yet smaller as a number.
  predicate Unwrapped(c: Clock, b: Beat) {
    b.Packet? && c.haveNewest && Newer(b.hostFrame, c.newest) ==> b.hostFrame > c.newest
  }

  predicate Steady(c: Clock, bs: seq<Beat>)
    decreases |bs|
  {
    bs != [] ==> Unwrapped(c, bs[0]) && Steady(Beats(c, bs[0]), bs[1..])
  }

  function Play(c: Clock, bs: seq<Beat>): Clock
    decreases |bs|
  {
    if bs == [] then c else Play(Beats(c, bs[0]), bs[1..])
  }

  lemma BeatForward(c: Clock, b: Beat)
    requires Ready(c) && Unwrapped(c, b) && (c.haveCursor ==> CursorIsShown(c))
    ensures var d := Beats(c, b);
            Ready(d) && (d.haveCursor ==> CursorIsShown(d)) && d.newest >= (if c.haveNewest then c.newest else 0)
            && (c.haveCursor ==> d.haveCursor && d.cursor >= c.cursor && d.natural >= c.natural)
  {
    if b.Frame? && c.haveNewest {
      TickBounds(c, b.now);
    }
  }

  // The displayed cursor is the natural one, or was held just behind a newest frame since passed.
  predicate CursorIsShown(c: Clock) { c.cursor == c.natural || (c.cursor < c.natural && c.cursor <= c.newest - MIN_LAG) }

  lemma {:induction false} PlayForward(c: Clock, bs: seq<Beat>)
    requires Ready(c) && Steady(c, bs) && (c.haveCursor ==> CursorIsShown(c))
    ensures Ready(Play(c, bs)) && (Play(c, bs).haveCursor ==> CursorIsShown(Play(c, bs)))
    ensures c.haveCursor ==> Play(c, bs).haveCursor && Play(c, bs).cursor >= c.cursor
    decreases |bs|
  {
    if bs != [] {
      BeatForward(c, bs[0]);
      PlayForward(Beats(c, bs[0]), bs[1..]);
    }
  }

  lemma BeatsNeverBackwards(asked: nat, before: seq<Beat>, after: seq<Beat>, now: u32)
    requires Steady(NewClock(Delay(asked)), before) && Steady(Play(NewClock(Delay(asked)), before), after)
    ensures var c := Play(NewClock(Delay(asked)), before);
            var d := Play(c, after);
            && (c.haveCursor ==> d.haveCursor && d.cursor >= c.cursor)
            && (d.haveNewest ==> Bounds(TickClock(d, now)))
  {
    var c := Play(NewClock(Delay(asked)), before);
    PlayForward(NewClock(Delay(asked)), before);
    PlayForward(c, after);
    var d := Play(c, after);
    if d.haveNewest {
      TickBounds(d, now);
    }
  }

  // Exactly when the cursor can move back: a packet newer by serial but smaller as a number, after
  // which the next tick always takes it back.
  lemma WrapMovesBack(c: Clock, hostFrame: u32, at: u32, now: u32)
    requires Ready(c) && c.haveCursor && Bounds(c)
    ensures TickClock(Heard(c, hostFrame, at), now).cursor < c.cursor <==> !Unwrapped(c, Packet(hostFrame, at))
  {
    var d := Heard(c, hostFrame, at);
    if Unwrapped(c, Packet(hostFrame, at)) {
      TickBounds(d, now);
    }
  }

  // ---------------------------------------------------------------- a track

  datatype Vec3 = Vec3(x: real, y: real, z: real)

  datatype Sample = Sample(hostFrame: u32, objectId: u32, motionId: u32, motionTime: real, position: Vec3, rotation: real)

  const NO_SAMPLE := Sample(0, 0, 0, 0.0, Vec3(0.0, 0.0, 0.0), 0.0)

  // `arrivals` are the local frames of the samples taken since recovery credit was last cleared.
  datatype Track = Track(
    occurrence: nat, ring: seq<Sample>, head: nat, count: nat, lastArrival: u32, sinceRelease: nat, haveArrival: bool,
    released: bool, arrivals: seq<u32>)

  function NewTrack(occurrence: nat): Track {
    Track(occurrence, [NO_SAMPLE, NO_SAMPLE, NO_SAMPLE, NO_SAMPLE, NO_SAMPLE, NO_SAMPLE, NO_SAMPLE, NO_SAMPLE], 0, 0, 0, 0, false,
          true, [])
  }

  predicate RingOk(t: Track) { |t.ring| == RING && t.head < RING && t.count <= RING }

  function Slot(t: Track, i: nat): (p: nat)
    requires RingOk(t) && i < t.count
    ensures p < RING
  {
    (t.head + RING - t.count + i) % RING
  }

  // The samples from oldest to newest.
  function View(t: Track): (v: seq<Sample>)
    requires RingOk(t)
    ensures |v| == t.count
  {
    seq(t.count, i requires 0 <= i < t.count => t.ring[Slot(t, i)])
  }

  // A gap in arrivals, or no arrival yet, releases the track and clears its credit.
  function Expire(t: Track, localFrame: u32): Track {
    if t.haveArrival && Elapsed(localFrame, t.lastArrival) <= STALE_FRAMES then t
    else t.(released := true, sinceRelease := 0, arrivals := [])
  }

  function Store(t: Track, s: Sample): Track
    requires RingOk(t)
  {
    t.(ring := t.ring[t.head := s], head := (t.head + 1) % RING, count := if t.count < RING then t.count + 1 else RING)
  }

  predicate Late(t: Track, hostFrame: u32)
    requires RingOk(t)
  {
    t.count > 0 && !Newer(hostFrame, t.ring[(t.head + RING - 1) % RING].hostFrame)
  }

  function Credit(t: Track, localFrame: u32): Track {
    var u := t.(lastArrival := localFrame, haveArrival := true, arrivals := t.arrivals + [localFrame]);
    if !u.released then u
    else if u.sinceRelease + 1 >= RETAKE then u.(sinceRelease := u.sinceRelease + 1, released := false)
    else u.(sinceRelease := u.sinceRelease + 1)
  }

  // A sample arrives: stale ones are dropped, others enter the ring and count towards a retake.
  function Take(t: Track, s: Sample, localFrame: u32): Track
    requires RingOk(t)
  {
    if Late(t, s.hostFrame) then t else Credit(Store(Expire(t, localFrame), s), localFrame)
  }

  // ---------------------------------------------------------------- the ring

  // The newest is appended, and the oldest leaves a full ring.
  lemma StoreAppends(t: Track, s: Sample)
    requires RingOk(t)
    ensures RingOk(Store(t, s))
    ensures View(Store(t, s)) == (if t.count < RING then View(t) else View(t)[1..]) + [s]
  {
    var u := Store(t, s);
    var was := if t.count < RING then View(t) else View(t)[1..];
    forall i | 0 <= i < u.count ensures View(u)[i] == (was + [s])[i] {
      SlotAfter(t, s, i);
    }
  }

  lemma SlotAfter(t: Track, s: Sample, i: nat)
    requires RingOk(t) && i < Store(t, s).count
    ensures var u := Store(t, s);
            if i == u.count - 1 then Slot(u, i) == t.head
            else Slot(u, i) != t.head && (if t.count < RING then Slot(u, i) == Slot(t, i) else Slot(u, i) == Slot(t, i + 1))
  {
  }

  lemma NewestSlot(t: Track)
    requires RingOk(t) && t.count > 0
    ensures t.ring[(t.head + RING - 1) % RING] == View(t)[t.count - 1]
  {
    assert Slot(t, t.count - 1) == (t.head + RING - 1) % RING;
  }

  predicate Rising(v: seq<Sample>) { forall i, j :: 0 <= i < j < |v| ==> v[i].hostFrame < v[j].hostFrame }

  // All frames of the epoch lie within 2^31 of its first, below 2^32.
  predicate InSpan(base: u32, frame: u32) { base <= frame < base + 0x8000_0000 }

  predicate TrackIn(base: u32, t: Track) {
    RingOk(t) && Rising(View(t)) && forall i :: 0 <= i < t.count ==> InSpan(base, View(t)[i].hostFrame)
  }

  lemma RisingAppends(base: u32, v: seq<Sample>, s: Sample, drop: bool)
    requires Rising(v) && InSpan(base, s.hostFrame) && (drop ==> v != [])
    requires forall i :: 0 <= i < |v| ==> InSpan(base, v[i].hostFrame)
    requires v != [] ==> Newer(s.hostFrame, v[|v| - 1].hostFrame)
    ensures var w := (if drop then v[1..] else v) + [s];
            Rising(w) && forall i :: 0 <= i < |w| ==> InSpan(base, w[i].hostFrame)
  {
    if v != [] {
      assert v[|v| - 1].hostFrame < s.hostFrame;
    }
  }

  lemma TakeKeepsOrder(base: u32, t: Track, s: Sample, localFrame: u32)
    requires TrackIn(base, t) && InSpan(base, s.hostFrame)
    ensures TrackIn(base, Take(t, s, localFrame))
  {
    if !Late(t, s.hostFrame) {
      var e := Expire(t, localFrame);
      SameRing(t, e);
      if t.count > 0 {
        NewestSlot(t);
      }
      StoreAppends(e, s);
      RisingAppends(base, View(t), s, t.count == RING);
      SameRing(Store(e, s), Credit(Store(e, s), localFrame));
    }
  }

  // The view depends on the ring alone.
  lemma SameRing(t: Track, u: Track)
    requires RingOk(t) && u.ring == t.ring && u.head == t.head && u.count == t.count
    ensures RingOk(u) && View(u) == View(t)
  {
    forall i | 0 <= i < t.count ensures Slot(u, i) == Slot(t, i) {
    }
  }

  // ---------------------------------------------------------------- release and retake

  // No two neighbouring arrivals are more than 30 local frames apart.
  predicate Gapless(arrivals: seq<u32>) {
    forall i :: 0 <= i < |arrivals| - 1 ==> Elapsed(arrivals[i + 1], arrivals[i]) <= STALE_FRAMES
  }

  predicate CreditOk(t: Track) {
    && Gapless(t.arrivals)
    && (t.arrivals != [] ==> t.haveArrival && t.arrivals[|t.arrivals| - 1] == t.lastArrival)
    && (if t.released then |t.arrivals| == t.sinceRelease < RETAKE else |t.arrivals| >= RETAKE)
  }

  lemma NewTrackOk(base: u32, occurrence: nat)
    ensures CreditOk(NewTrack(occurrence)) && TrackIn(base, NewTrack(occurrence))
  {
  }

  lemma ExpireKeepsCredit(t: Track, localFrame: u32)
    requires CreditOk(t)
    ensures CreditOk(Expire(t, localFrame))
  {
  }

  lemma TakeKeepsCredit(t: Track, s: Sample, localFrame: u32)
    requires CreditOk(t) && RingOk(t)
    ensures CreditOk(Take(t, s, localFrame))
  {
    if !Late(t, s.hostFrame) {
      var e := Expire(t, localFrame);
      var u := Take(t, s, localFrame);
      assert u.arrivals == e.arrivals + [localFrame];
      forall i | 0 <= i < |u.arrivals| - 1 ensures Elapsed(u.arrivals[i + 1], u.arrivals[i]) <= STALE_FRAMES {
        if i < |e.arrivals| - 1 {
          assert u.arrivals[i + 1] == e.arrivals[i + 1];
        }
      }
    }
  }

  // ---------------------------------------------------------------- the stream

  // One entry of a motion packet; `allowed` and `revoked` are what the family and permit tables say.
  datatype Entry = Entry(
    netId: nat, allowed: bool, revoked: bool, occurrence: nat, objectId: u32, motionId: u32, motionTime: real, position: Vec3,
    rotation: real)

  datatype Motion = Motion(epoch: nat, sequence: nat, hostFrame: u32, entries: seq<Entry>)

  datatype Stream = Stream(clock: Clock, epoch: nat, sequence: nat, tracks: map<nat, Track>)

  function SampleOf(m: Motion, e: Entry): Sample {
    Sample(m.hostFrame, e.objectId, e.motionId, e.motionTime, e.position, e.rotation)
  }

  predicate TracksOk(tracks: map<nat, Track>) { forall id | id in tracks :: RingOk(tracks[id]) }

  function TrackFor(tracks: map<nat, Track>, e: Entry): (t: Track)
    requires TracksOk(tracks)
    ensures RingOk(t)
  {
    if e.netId in tracks && tracks[e.netId].occurrence == e.occurrence then tracks[e.netId] else NewTrack(e.occurrence)
  }

  function TakeEntry(tracks: map<nat, Track>, m: Motion, e: Entry, localFrame: u32): (next: map<nat, Track>)
    requires TracksOk(tracks)
    ensures TracksOk(next)
  {
    if e.netId == 0 || !e.allowed then (if e.netId != 0 && e.revoked then tracks - {e.netId} else tracks)
    else if |tracks| >= MAX_TRACKS && e.netId !in tracks then tracks
    else
      var t := Take(TrackFor(tracks, e), SampleOf(m, e), localFrame);
      TakeRing(TrackFor(tracks, e), SampleOf(m, e), localFrame);
      tracks[e.netId := t]
  }

  lemma TakeRing(t: Track, s: Sample, localFrame: u32)
    requires RingOk(t)
    ensures RingOk(Take(t, s, localFrame))
  {
    StoreAppends(Expire(t, localFrame), s);
  }

  function TakeEntries(tracks: map<nat, Track>, m: Motion, es: seq<Entry>, localFrame: u32): (next: map<nat, Track>)
    requires TracksOk(tracks)
    ensures TracksOk(next)
    decreases |es|
  {
    if es == [] then tracks else TakeEntries(TakeEntry(tracks, m, es[0], localFrame), m, es[1..], localFrame)
  }

  function Reset(s: Stream, epoch: nat): Stream { Stream(NewClock(s.clock.delay), epoch, 0, map[]) }

  function Ingest(s: Stream, m: Motion, localFrame: u32): (next: Stream)
    requires TracksOk(s.tracks)
    ensures TracksOk(next.tracks)
  {
    if m.epoch == 0 || m.sequence == 0 then s
    else
      var r := if m.epoch != s.epoch then Reset(s, m.epoch) else s;
      if m.sequence <= r.sequence then r
      else
        Stream(Heard(r.clock, m.hostFrame, localFrame), r.epoch, m.sequence, TakeEntries(r.tracks, m, m.entries, localFrame))
  }

  function ExpireAll(tracks: map<nat, Track>, localFrame: u32): map<nat, Track> {
    map id | id in tracks :: Expire(tracks[id], localFrame)
  }

  function Tick(s: Stream, localFrame: u32): (next: Stream)
    requires TracksOk(s.tracks)
    ensures TracksOk(next.tracks)
  {
    s.(clock := TickClock(s.clock, localFrame), tracks := ExpireAll(s.tracks, localFrame))
  }

  predicate Drivable(s: Stream, id: nat, localFrame: u32) {
    && id in s.tracks
    && var t := s.tracks[id];
    !t.released && t.haveArrival && t.count > 0 && s.clock.haveCursor && Elapsed(localFrame, t.lastArrival) <= STALE_FRAMES
  }

  // ---------------------------------------------------------------- every run of one epoch

  datatype Event = Arrive(motion: Motion, at: u32) | Frames(now: u32) | Dead(id: nat)

  function Apply(s: Stream, e: Event): (next: Stream)
    requires TracksOk(s.tracks)
    ensures TracksOk(next.tracks)
  {
    match e
    case Arrive(m, at) => Ingest(s, m, at)
    case Frames(now) => Tick(s, now)
    case Dead(id) => s.(tracks := s.tracks - {id})
  }

  function Run(s: Stream, es: seq<Event>): (next: Stream)
    requires TracksOk(s.tracks)
    ensures TracksOk(next.tracks)
    decreases |es|
  {
    if es == [] then s else Run(Apply(s, es[0]), es[1..])
  }

  predicate OneEpoch(base: u32, epoch: nat, es: seq<Event>) {
    forall i :: 0 <= i < |es| && es[i].Arrive? ==> es[i].motion.epoch == epoch && InSpan(base, es[i].motion.hostFrame)
  }

  predicate AllTracks(base: u32, tracks: map<nat, Track>) {
    forall id | id in tracks :: TrackIn(base, tracks[id]) && CreditOk(tracks[id])
  }

  lemma EntryKeeps(base: u32, tracks: map<nat, Track>, m: Motion, e: Entry, localFrame: u32)
    requires TracksOk(tracks) && AllTracks(base, tracks) && InSpan(base, m.hostFrame)
    ensures AllTracks(base, TakeEntry(tracks, m, e, localFrame))
  {
    var t := TrackFor(tracks, e);
    NewTrackOk(base, e.occurrence);
    TakeKeepsOrder(base, t, SampleOf(m, e), localFrame);
    TakeKeepsCredit(t, SampleOf(m, e), localFrame);
  }

  lemma {:induction false} EntriesKeep(base: u32, tracks: map<nat, Track>, m: Motion, es: seq<Entry>, localFrame: u32)
    requires TracksOk(tracks) && AllTracks(base, tracks) && InSpan(base, m.hostFrame)
    ensures AllTracks(base, TakeEntries(tracks, m, es, localFrame))
    decreases |es|
  {
    if es != [] {
      EntryKeeps(base, tracks, m, es[0], localFrame);
      EntriesKeep(base, TakeEntry(tracks, m, es[0], localFrame), m, es[1..], localFrame);
    }
  }

  lemma ApplyKeeps(base: u32, s: Stream, e: Event)
    requires TracksOk(s.tracks) && AllTracks(base, s.tracks)
    requires e.Arrive? ==> e.motion.epoch == s.epoch && InSpan(base, e.motion.hostFrame)
    ensures AllTracks(base, Apply(s, e).tracks) && Apply(s, e).epoch == s.epoch
  {
    match e
    case Arrive(m, at) => EntriesKeep(base, s.tracks, m, m.entries, at);
    case Frames(now) =>
      forall id | id in s.tracks
        ensures TrackIn(base, Expire(s.tracks[id], now)) && CreditOk(Expire(s.tracks[id], now))
      {
        SameRing(s.tracks[id], Expire(s.tracks[id], now));
        ExpireKeepsCredit(s.tracks[id], now);
      }
    case Dead(id) =>
  }

  lemma {:induction false} RunKeeps(base: u32, s: Stream, es: seq<Event>)
    requires TracksOk(s.tracks) && AllTracks(base, s.tracks) && OneEpoch(base, s.epoch, es)
    ensures AllTracks(base, Run(s, es).tracks)
    decreases |es|
  {
    if es != [] {
      ApplyKeeps(base, s, es[0]);
      RunKeeps(base, Apply(s, es[0]), es[1..]);
    }
  }

  // ---------------------------------------------------------------- the stream's clock

  // What an event is to the clock: a packet that is not refused, a tick, or nothing.
  function BeatOf(s: Stream, e: Event): seq<Beat> {
    match e
    case Arrive(m, at) => if m.epoch == 0 || m.sequence <= s.sequence then [] else [Packet(m.hostFrame, at)]
    case Frames(now) => [Frame(now)]
    case Dead(_) => []
  }

  function BeatsOf(s: Stream, es: seq<Event>): seq<Beat>
    requires TracksOk(s.tracks)
    decreases |es|
  {
    if es == [] then [] else BeatOf(s, es[0]) + BeatsOf(Apply(s, es[0]), es[1..])
  }

  // No packet starts another epoch; stale and unnumbered ones may come.
  predicate KeepsEpoch(epoch: nat, es: seq<Event>) {
    forall i :: 0 <= i < |es| && es[i].Arrive? ==> es[i].motion.epoch == epoch || es[i].motion.epoch == 0
  }

  lemma {:induction false} PlayConcat(c: Clock, a: seq<Beat>, b: seq<Beat>)
    ensures Play(c, a + b) == Play(Play(c, a), b)
    decreases |a|
  {
    if a == [] {
      assert a + b == b;
    } else {
      assert (a + b)[1..] == a[1..] + b;
      PlayConcat(Beats(c, a[0]), a[1..], b);
    }
  }

  lemma ApplyIsBeat(s: Stream, e: Event)
    requires TracksOk(s.tracks) && (e.Arrive? ==> e.motion.epoch == s.epoch || e.motion.epoch == 0)
    ensures Apply(s, e).clock == Play(s.clock, BeatOf(s, e)) && Apply(s, e).epoch == s.epoch
  {
    if BeatOf(s, e) != [] {
      var b := BeatOf(s, e)[0];
      assert BeatOf(s, e)[1..] == [] && Play(Beats(s.clock, b), []) == Beats(s.clock, b);
    }
  }

  // A run of the whole stream moves its clock as the packets taken and the ticks do.
  lemma {:induction false} RunIsBeats(s: Stream, es: seq<Event>)
    requires TracksOk(s.tracks) && KeepsEpoch(s.epoch, es)
    ensures Run(s, es).clock == Play(s.clock, BeatsOf(s, es)) && Run(s, es).epoch == s.epoch
    decreases |es|
  {
    if es != [] {
      ApplyIsBeat(s, es[0]);
      RunIsBeats(Apply(s, es[0]), es[1..]);
      PlayConcat(s.clock, BeatOf(s, es[0]), BeatsOf(Apply(s, es[0]), es[1..]));
    }
  }

  // The newest frame does not cross zero in the run.
  predicate Uncrossed(s: Stream, es: seq<Event>)
    requires TracksOk(s.tracks)
  {
    Steady(s.clock, BeatsOf(s, es))
  }

  function NewStream(asked: nat, epoch: nat): Stream { Stream(NewClock(Delay(asked)), epoch, 0, map[]) }

  // Over every run of the stream in one epoch whose newest frame does not cross zero, the displayed
  // cursor never moves backwards, and each tick leaves it within its bounds.
  lemma CursorNeverBackwards(asked: nat, epoch: nat, before: seq<Event>, after: seq<Event>, now: u32)
    requires KeepsEpoch(epoch, before) && KeepsEpoch(epoch, after)
    requires Uncrossed(NewStream(asked, epoch), before) && Uncrossed(Run(NewStream(asked, epoch), before), after)
    ensures var s := Run(NewStream(asked, epoch), before);
            var r := Run(s, after);
            && (s.clock.haveCursor ==> r.clock.haveCursor && r.clock.cursor >= s.clock.cursor)
            && (r.clock.haveNewest ==> Bounds(Tick(r, now).clock))
  {
    var s0 := NewStream(asked, epoch);
    RunIsBeats(s0, before);
    var s := Run(s0, before);
    RunIsBeats(s, after);
    BeatsNeverBackwards(asked, BeatsOf(s0, before), BeatsOf(s, after), now);
  }

  // The last frame before the wrap, a tick, the first frame after it, a tick: the cursor goes from
  // six frames behind the one to one frame behind the other.
  lemma WrapHappens()
    ensures var s := Run(NewStream(DEFAULT_DELAY, 1), [Arrive(Motion(1, 1, 0xffff_ffff, []), 0), Frames(0)]);
            var r := Run(s, [Arrive(Motion(1, 2, 0, []), 1), Frames(1)]);
            s.clock.cursor == 0xffff_fff9 && r.clock.cursor == -1
  {
    var s0 := NewStream(DEFAULT_DELAY, 1);
    var a, b := Arrive(Motion(1, 1, 0xffff_ffff, []), 0), Arrive(Motion(1, 2, 0, []), 1);
    TwoEvents(s0, a, Frames(0));
    var s := Apply(Apply(s0, a), Frames(0));
    TwoEvents(s, b, Frames(1));
    var c := Heard(s.clock, 0, 1);
    assert c.newest == 0 && c.natural == 0xffff_fff9 && NextNatural(c, 1) == STALE_FRAMES;
  }

  lemma TwoEvents(s: Stream, a: Event, b: Event)
    requires TracksOk(s.tracks)
    ensures Run(s, [a, b]) == Apply(Apply(s, a), b)
  {
    assert [a, b][1..] == [b] && [b][1..] == [];
    assert Run(Apply(s, a), [b]) == Run(Apply(Apply(s, a), b), []);
  }

  // Over every run of one epoch each track's ring, read oldest to newest, is strictly increasing.
  lemma RingsRise(base: u32, delay: nat, epoch: nat, es: seq<Event>, id: nat)
    requires OneEpoch(base, epoch, es)
    requires id in Run(Stream(NewClock(delay), epoch, 0, map[]), es).tracks
    ensures Rising(View(Run(Stream(NewClock(delay), epoch, 0, map[]), es).tracks[id]))
  {
    RunKeeps(base, Stream(NewClock(delay), epoch, 0, map[]), es);
  }

  // A drivable track has taken at least two samples since its last release, and neither between
  // them nor up to now was there a gap of more than 30 local frames.
  lemma DrivableIsFresh(base: u32, delay: nat, epoch: nat, es: seq<Event>, id: nat, now: u32)
    requires OneEpoch(base, epoch, es) && Drivable(Run(Stream(NewClock(delay), epoch, 0, map[]), es), id, now)
    ensures var t := Run(Stream(NewClock(delay), epoch, 0, map[]), es).tracks[id];
            |t.arrivals| >= RETAKE && Gapless(t.arrivals + [now])
  {
    RunKeeps(base, Stream(NewClock(delay), epoch, 0, map[]), es);
    var t := Run(Stream(NewClock(delay), epoch, 0, map[]), es).tracks[id];
    assert CreditOk(t);
    forall i | 0 <= i < |t.arrivals| ensures Elapsed((t.arrivals + [now])[i + 1], (t.arrivals + [now])[i]) <= STALE_FRAMES {
      if i < |t.arrivals| - 1 {
        assert (t.arrivals + [now])[i + 1] == t.arrivals[i + 1];
      }
    }
  }

  // ---------------------------------------------------------------- the pose

  datatype Pose = Pose(objectId: u32, motionId: u32, motionTime: real, position: Vec3, rotation: real)

  function Weight(s0: Sample, s1: Sample, cursor: int): real
    requires s0.hostFrame < s1.hostFrame
  {
    ((cursor - s0.hostFrame) as real) / ((s1.hostFrame - s0.hostFrame) as real)
  }

  function Lerp(a: real, b: real, u: real): real { a + (b - a) * u }

  // A full turn, in radians.
  const TURN: real := 6.283185307179586476925

  // The nearest whole number, the even one of two.
  function Nearest(x: real): int {
    var low := x.Floor;
    var over := x - low as real;
    if over < 0.5 || (over == 0.5 && low % 2 == 0) then low else low + 1
  }

  // The IEEE remainder of an angle by a full turn.
  function Wrap(a: real): real { a - TURN * Nearest(a / TURN) as real }

  function LerpAngle(a: real, b: real, u: real): real { Wrap(a + Wrap(b - a) * u) }

  function Between(s0: Sample, s1: Sample, cursor: int, overflow: int): Pose
    requires s0.hostFrame < s1.hostFrame
  {
    var u := Weight(s0, s1, cursor);
    var time := if s1.motionId == s0.motionId && s1.motionTime >= s0.motionTime then Lerp(s0.motionTime, s1.motionTime, u)
                else s0.motionTime + (cursor - s0.hostFrame) as real;
    Pose(s0.objectId, s0.motionId, time + overflow as real,
         Vec3(Lerp(s0.position.x, s1.position.x, u), Lerp(s0.position.y, s1.position.y, u), Lerp(s0.position.z, s1.position.z, u)),
         LerpAngle(s0.rotation, s1.rotation, u))
  }

  function HoldAt(s0: Sample, cursor: int, overflow: int): Pose {
    var ahead := cursor - s0.hostFrame;
    Pose(s0.objectId, s0.motionId, s0.motionTime + (if ahead > 0 then ahead as real else 0.0) + overflow as real, s0.position,
         s0.rotation)
  }

  predicate Within(a: real, b: real, x: real) { (a <= x <= b) || (b <= x <= a) }

  lemma Scaled(d: real, u: real)
    requires 0.0 <= u <= 1.0 && d >= 0.0
    ensures 0.0 <= d * u <= d
  {
    assert d * (1.0 - u) >= 0.0;
  }

  lemma LerpRises(a: real, b: real, u: real)
    requires 0.0 <= u <= 1.0 && a <= b
    ensures a <= Lerp(a, b, u) <= b
  {
    var d := b - a;
    Scaled(d, u);
    Offset(a, b, d, u);
  }

  lemma Offset(a: real, b: real, d: real, u: real)
    requires d == b - a
    ensures Lerp(a, b, u) == a + d * u
  {
  }

  lemma Negated(d: real, u: real)
    ensures (-d) * u == -(d * u)
  {
  }

  lemma ScaledDown(d: real, u: real)
    requires 0.0 <= u <= 1.0 && d <= 0.0
    ensures d <= d * u <= 0.0
  {
    Scaled(-d, u);
    Negated(d, u);
  }

  lemma LerpFalls(a: real, b: real, u: real)
    requires 0.0 <= u <= 1.0 && b <= a
    ensures b <= Lerp(a, b, u) <= a
  {
    var d := b - a;
    ScaledDown(d, u);
    Offset(a, b, d, u);
  }

  lemma LerpWithin(a: real, b: real, u: real)
    requires 0.0 <= u <= 1.0
    ensures Within(a, b, Lerp(a, b, u))
  {
    if a <= b {
      LerpRises(a, b, u);
    } else {
      LerpFalls(a, b, u);
    }
  }

  lemma Fraction(n: real, d: real)
    requires 0.0 <= n < d
    ensures 0.0 <= n / d < 1.0
  {
    var q := n / d;
    assert q * d == n;
    if q >= 1.0 {
      AtLeast(q, d);
    }
  }

  lemma AtLeast(q: real, d: real)
    requires q >= 1.0 && d > 0.0
    ensures q * d >= d
  {
    assert (q - 1.0) * d >= 0.0;
  }

  lemma WeightInUnit(s0: Sample, s1: Sample, cursor: int)
    requires s0.hostFrame <= cursor < s1.hostFrame
    ensures 0.0 <= Weight(s0, s1, cursor) < 1.0
  {
    Fraction((cursor - s0.hostFrame) as real, (s1.hostFrame - s0.hostFrame) as real);
  }

  // The pose at the cursor: held at the oldest or the newest sample, or inside the segment of the
  // two neighbouring samples that bracket it.
  predicate Poses(v: seq<Sample>, cursor: int, overflow: int, p: Pose)
    requires v != []
  {
    if cursor < v[0].hostFrame then p == HoldAt(v[0], cursor, overflow)
    else if v[|v| - 1].hostFrame <= cursor then p == HoldAt(v[|v| - 1], cursor, overflow)
    else exists i :: 0 <= i < |v| - 1 && Brackets(v[i], v[i + 1], cursor, overflow, p)
  }

  predicate Brackets(s0: Sample, s1: Sample, cursor: int, overflow: int, p: Pose) {
    && s0.hostFrame <= cursor < s1.hostFrame
    && 0.0 <= Weight(s0, s1, cursor) < 1.0 && p == Between(s0, s1, cursor, overflow)
    && Within(s0.position.x, s1.position.x, p.position.x) && Within(s0.position.y, s1.position.y, p.position.y)
    && Within(s0.position.z, s1.position.z, p.position.z)
  }

  lemma BetweenBrackets(s0: Sample, s1: Sample, cursor: int, overflow: int)
    requires s0.hostFrame <= cursor < s1.hostFrame
    ensures Brackets(s0, s1, cursor, overflow, Between(s0, s1, cursor, overflow))
  {
    WeightInUnit(s0, s1, cursor);
    var u := Weight(s0, s1, cursor);
    LerpWithin(s0.position.x, s1.position.x, u);
    LerpWithin(s0.position.y, s1.position.y, u);
    LerpWithin(s0.position.z, s1.position.z, u);
  }

  // The scan from the oldest sample to the first one past the cursor.
  method PoseAt(t: Track, natural: int, cursor: int) returns (p: Pose)
    requires RingOk(t) && t.count > 0 && Rising(View(t))
    ensures Poses(View(t), cursor, natural - cursor, p)
  {
    var s0 := t.ring[Slot(t, 0)];
    var s1: Option<Sample> := None;
    var i := 0;
    while i < t.count && s1.None?
      invariant i <= t.count
      invariant s1.None? ==> forall k :: 0 <= k < i ==> View(t)[k].hostFrame <= cursor
      invariant s1.None? ==> s0 == View(t)[if i == 0 then 0 else i - 1]
      invariant s1.Some? ==> i < t.count && s1.value == View(t)[i] && View(t)[i].hostFrame > cursor
      invariant s1.Some? ==> s0 == View(t)[if i == 0 then 0 else i - 1] && (i > 0 ==> View(t)[i - 1].hostFrame <= cursor)
      decreases t.count - i, s1.None?
    {
      var s := t.ring[Slot(t, i)];
      assert s == View(t)[i];
      if s.hostFrame <= cursor {
        s0 := s;
        i := i + 1;
      } else {
        s1 := Some(s);
      }
    }
    if s1.None? || s0.hostFrame > cursor {
      return HoldAt(s0, cursor, natural - cursor);
    }
    assert Rising(View(t)) && View(t)[i - 1].hostFrame < View(t)[i].hostFrame <= View(t)[t.count - 1].hostFrame;
    BetweenBrackets(s0, s1.value, cursor, natural - cursor);
    assert Brackets(View(t)[i - 1], View(t)[i - 1 + 1], cursor, natural - cursor, Between(s0, s1.value, cursor, natural - cursor));
    return Between(s0, s1.value, cursor, natural - cursor);
  }

  // ---------------------------------------------------------------- the object

  class Buffer {
    var clock: Clock
    var epoch: nat
    var sequence: nat
    var tracks: map<nat, Track>

    predicate Valid()
      reads this
    {
      TracksOk(tracks)
    }

    function Abs(): Stream
      reads this
    {
      Stream(clock, epoch, sequence, tracks)
    }

    constructor (delay: nat)
      ensures Valid() && Abs() == Stream(NewClock(Delay(delay)), 0, 0, map[])
    {
      clock, epoch, sequence, tracks := NewClock(Delay(delay)), 0, 0, map[];
    }

    method TakeOne(m: Motion, e: Entry, localFrame: u32)
      requires Valid()
      modifies this`tracks
      ensures Valid() && tracks == TakeEntry(old(tracks), m, e, localFrame)
    {
      if e.netId == 0 || !e.allowed {
        if e.netId != 0 && e.revoked {
          tracks := tracks - {e.netId};
        }
        return;
      }
      if |tracks| >= MAX_TRACKS && e.netId !in tracks {
        return;
      }
      var t := TrackFor(tracks, e);
      TakeRing(t, SampleOf(m, e), localFrame);
      if Late(t, m.hostFrame) {
        tracks := tracks[e.netId := t];
        return;
      }
      t := Expire(t, localFrame);
      t := t.(ring := t.ring[t.head := SampleOf(m, e)], head := (t.head + 1) % RING);
      if t.count < RING {
        t := t.(count := t.count + 1);
      }
      t := t.(lastArrival := localFrame, haveArrival := true, arrivals := t.arrivals + [localFrame]);
      if t.released {
        t := t.(sinceRelease := t.sinceRelease + 1);
        if t.sinceRelease >= RETAKE {
          t := t.(released := false);
        }
      }
      tracks := tracks[e.netId := t];
    }

    method TakePacket(m: Motion, localFrame: u32) returns (ok: bool)
      requires Valid()
      modifies this
      ensures Valid() && Abs() == Ingest(old(Abs()), m, localFrame)
    {
      if m.epoch == 0 || m.sequence == 0 {
        return false;
      }
      if m.epoch != epoch {
        clock, epoch, sequence, tracks := NewClock(clock.delay), m.epoch, 0, map[];
      }
      if m.sequence <= sequence {
        return false;
      }
      sequence := m.sequence;
      if !clock.haveNewest || Newer(m.hostFrame, clock.newest) {
        clock := clock.(newest := m.hostFrame, newestLocal := localFrame);
      }
      clock := clock.(haveNewest := true);
      ghost var was := tracks;
      var i := 0;
      assert m.entries[0..] == m.entries;
      while i < |m.entries|
        modifies this`tracks
        invariant i <= |m.entries| && Valid()
        invariant TakeEntries(tracks, m, m.entries[i..], localFrame) == TakeEntries(was, m, m.entries, localFrame)
      {
        assert m.entries[i..][1..] == m.entries[i + 1..];
        TakeOne(m, m.entries[i], localFrame);
        i := i + 1;
      }
      return true;
    }

    method Advance(localFrame: u32)
      requires Valid()
      modifies this
      ensures Valid() && Abs() == Tick(old(Abs()), localFrame)
    {
      if clock.haveNewest {
        if !clock.haveCursor {
          clock := clock.(natural := clock.newest - clock.delay, haveCursor := true);
        } else {
          var lag := clock.newest - clock.natural;
          var live := Elapsed(localFrame, clock.newestLocal) <= PUBLISH_INTERVAL + 1;
          if lag > clock.delay + 3 {
            clock := clock.(natural := clock.natural + 2);
          } else if !(live && lag < clock.delay - 3) {
            clock := clock.(natural := clock.natural + 1);
          }
          if clock.natural < clock.newest - MAX_LAG {
            clock := clock.(natural := clock.newest - clock.delay);
          }
          if clock.natural > clock.newest + STALE_FRAMES {
            clock := clock.(natural := clock.newest + STALE_FRAMES);
          }
        }
        clock := clock.(cursor := if clock.natural > clock.newest - MIN_LAG then clock.newest - MIN_LAG else clock.natural);
      }
      tracks := map id | id in tracks :: Expire(tracks[id], localFrame);
    }
  }
}
