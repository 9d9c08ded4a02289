// How the mirror stream gets on (inject/src/EnemyMirrorState.hpp): under a steady publisher the
// cursor settles at its delay and then plays one host frame a frame, and a track that is heard in
// time is driven.
module MirrorProgress {
  import opened Common
  import opened MirrorStream

  // ---------------------------------------------------------------- the cursor settles

  function After(at: u32, n: nat): u32 { (at + n) % U32_RANGE }

  // One publishing interval: a packet three host frames on, then three ticks.
  function Interval(c: Clock, at: u32): Clock
    requires c.newest + PUBLISH_INTERVAL < U32_RANGE
  {
    var p := Heard(c, c.newest + PUBLISH_INTERVAL, at);
    TickClock(TickClock(TickClock(p, at), After(at, 1)), After(at, 2))
  }

  // How far the cursor's natural position is behind the newest frame.
  function Lag(c: Clock): int { c.newest - c.natural }

  // The lags, before a packet, from which an interval plays at exactly one host frame a frame.
  predicate Settled(c: Clock) {
    c.haveCursor && c.delay - 4 <= Lag(c) <= c.delay && Lag(c) <= MAX_LAG - 2
  }

  // How many lags away from them.
  function Away(c: Clock): nat {
    if Lag(c) < c.delay - 4 then c.delay - 4 - Lag(c)
    else if Lag(c) > c.delay then Lag(c) - c.delay
    else if Lag(c) > MAX_LAG - 2 then Lag(c) - (MAX_LAG - 2)
    else 0
  }

  lemma HeardNext(c: Clock, at: u32)
    requires c.newest + PUBLISH_INTERVAL < U32_RANGE
    ensures Heard(c, c.newest + PUBLISH_INTERVAL, at)
            == c.(haveNewest := true, newest := c.newest + PUBLISH_INTERVAL, newestLocal := at)
  {
  }

  lemma StillLive(c: Clock, at: u32, n: nat)
    requires c.newestLocal == at && n <= 2
    ensures Live(c, After(at, n))
  {
  }

  // What a live tick makes of a lag.
  function OneLag(lag: int, delay: nat): int {
    if lag > MAX_LAG + 2 then delay
    else if lag > delay + 3 then lag - 2
    else if lag < delay - 3 then lag
    else if lag > MAX_LAG + 1 then delay
    else lag - 1
  }

  // A live tick by its lag alone.
  predicate LagTick(c: Clock, d: Clock) {
    && Ready(d) && d.newest == c.newest && d.newestLocal == c.newestLocal && d.delay == c.delay
    && d.haveNewest && d.haveCursor && Lag(d) == OneLag(Lag(c), c.delay)
  }

  lemma LiveTick(c: Clock, at: u32, n: nat)
    requires Ready(c) && c.haveNewest && c.haveCursor && c.newestLocal == at && n <= 2
    ensures LagTick(c, TickClock(c, After(at, n)))
  {
    StillLive(c, at, n);
    TickBounds(c, After(at, n));
  }

  // Three live ticks.
  function ThreeLags(lag: int, delay: nat): int { OneLag(OneLag(OneLag(lag, delay), delay), delay) }

  lemma IntervalLag(c: Clock, at: u32)
    requires Ready(c) && c.haveCursor && c.newest + PUBLISH_INTERVAL < U32_RANGE
    ensures var d := Interval(c, at);
            Ready(d) && d.haveCursor && d.delay == c.delay && d.newest == c.newest + PUBLISH_INTERVAL
            && Lag(d) == ThreeLags(Lag(c) + PUBLISH_INTERVAL, c.delay)
  {
    HeardNext(c, at);
    var p := Heard(c, c.newest + PUBLISH_INTERVAL, at);
    assert After(at, 0) == at;
    LiveTick(p, at, 0);
    ThreeTicks(p, TickClock(p, at), at);
  }

  lemma ThreeTicks(p: Clock, one: Clock, at: u32)
    requires LagTick(p, one) && p.newestLocal == at
    ensures var d := TickClock(TickClock(one, After(at, 1)), After(at, 2));
            Ready(d) && d.haveCursor && d.delay == p.delay && d.newest == p.newest && Lag(d) == ThreeLags(Lag(p), p.delay)
  {
    LiveTick(one, at, 1);
    LiveTick(TickClock(one, After(at, 1)), at, 2);
  }

  lemma LagsApproach(lag: int, delay: nat)
    requires MIN_DELAY <= delay <= MAX_DELAY && lag + STALE_FRAMES >= 0
    ensures var next := ThreeLags(lag + PUBLISH_INTERVAL, delay);
            if delay - 4 <= lag <= delay && lag <= MAX_LAG - 2 then next == lag
            else if lag < delay - 4 then lag < next <= delay - 4
            else (if delay < MAX_LAG - 2 then delay else MAX_LAG - 2) >= next || next < lag
  {
  }

  lemma IntervalApproaches(c: Clock, at: u32)
    requires Ready(c) && c.haveCursor && c.newest + PUBLISH_INTERVAL < U32_RANGE
    ensures var d := Interval(c, at); if Settled(c) then Settled(d) && Lag(d) == Lag(c) else Settled(d) || Away(d) < Away(c)
  {
    IntervalLag(c, at);
    LagsApproach(Lag(c), c.delay);
  }

  function Intervals(c: Clock, at: u32, k: nat): Clock
    requires c.newest + PUBLISH_INTERVAL * k < U32_RANGE
    decreases k
  {
    if k == 0 then c
    else
      HeardNext(c, at);
      assert Interval(c, at).newest == c.newest + PUBLISH_INTERVAL;
      Intervals(Interval(c, at), After(at, 3), k - 1)
  }

  // From any state of the cursor a steady publisher brings it, in at most as many intervals as it is
  // frames away, to its delay, where it stays.
  lemma {:induction false} SteadySettles(c: Clock, at: u32, k: nat)
    requires Ready(c) && c.haveCursor && c.newest + PUBLISH_INTERVAL * k < U32_RANGE
    requires Settled(c) || Away(c) <= k
    ensures Settled(Intervals(c, at, k))
    decreases k
  {
    if k > 0 {
      IntervalLag(c, at);
      IntervalApproaches(c, at);
      SteadySettles(Interval(c, at), After(at, 3), k - 1);
    }
  }

  // Once settled, every tick shows exactly the next host frame.
  lemma SettledPlaysEveryFrame(c: Clock, at: u32)
    requires Ready(c) && Settled(c) && c.newest + PUBLISH_INTERVAL < U32_RANGE
    ensures var one := TickClock(Heard(c, c.newest + PUBLISH_INTERVAL, at), at);
            var two := TickClock(one, After(at, 1));
            var three := TickClock(two, After(at, 2));
            && three == Interval(c, at)
            && one.natural == c.natural + 1 && two.natural == c.natural + 2 && three.natural == c.natural + 3
            && Settled(three)
  {
    HeardNext(c, at);
    var p := Heard(c, c.newest + PUBLISH_INTERVAL, at);
    assert After(at, 0) == at;
    LiveTick(p, at, 0);
    LiveTick(TickClock(p, at), at, 1);
    LiveTick(TickClock(TickClock(p, at), After(at, 1)), at, 2);
  }

  // A stalled stream shows its newest frame less one, and the motion still plays a frame a tick, up
  // to thirty frames past the newest.
  lemma StallPlaysOn(c: Clock, now: u32)
    requires Ready(c) && c.haveNewest && c.haveCursor && !Live(c, now) && Lag(c) <= c.delay + 3 && Lag(c) <= MAX_LAG
    ensures var d := TickClock(c, now);
            && d.natural == (if c.natural < c.newest + STALE_FRAMES then c.natural + 1 else c.natural)
            && d.cursor == (if d.natural < c.newest then d.natural else c.newest - 1)
  {
  }

  // ---------------------------------------------------------------- packets

  // A packet is taken exactly when its epoch and sequence are not zero and, in the epoch that is
  // open, its sequence is past the last; another epoch always starts the stream over.
  lemma PacketTakenIff(s: Stream, m: Motion, localFrame: u32)
    requires TracksOk(s.tracks)
    ensures var t := Ingest(s, m, localFrame);
            if m.epoch != 0 && m.sequence != 0 && (m.epoch != s.epoch || m.sequence > s.sequence) then
              && t.epoch == m.epoch && t.sequence == m.sequence && t.clock.haveNewest
              && (m.epoch != s.epoch ==> t == Ingest(Stream(NewClock(s.clock.delay), m.epoch, 0, map[]), m, localFrame))
            else t == s
  {
  }

  lemma MapGains<T>(m: map<nat, T>, id: nat, t: T)
    ensures |m[id := t]| <= |m| + 1 && (id in m ==> |m[id := t]| == |m|)
  {
    assert m[id := t].Keys == m.Keys + {id};
    if id in m {
      assert m.Keys + {id} == m.Keys;
    }
  }

  lemma MapLoses<T>(m: map<nat, T>, id: nat)
    ensures |m - {id}| <= |m|
  {
    if id in m {
      assert (m - {id}).Keys == m.Keys - {id};
    } else {
      assert m - {id} == m;
    }
  }

  lemma EntryElsewhere(tracks: map<nat, Track>, m: Motion, e: Entry, localFrame: u32, id: nat)
    requires TracksOk(tracks) && id != e.netId
    ensures var next := TakeEntry(tracks, m, e, localFrame);
            && |next| <= |tracks| + 1 && (id in next <==> id in tracks) && (id in tracks ==> next[id] == tracks[id])
  {
    MapLoses(tracks, e.netId);
    MapGains(tracks, e.netId, Take(TrackFor(tracks, e), SampleOf(m, e), localFrame));
  }

  predicate Apart(es: seq<Entry>) { forall i, j :: 0 <= i < j < |es| ==> es[i].netId != es[j].netId }

  lemma {:induction false} EntriesElsewhere(tracks: map<nat, Track>, m: Motion, es: seq<Entry>, localFrame: u32, id: nat)
    requires TracksOk(tracks) && forall i :: 0 <= i < |es| ==> es[i].netId != id
    ensures var next := TakeEntries(tracks, m, es, localFrame);
            (id in next <==> id in tracks) && (id in tracks ==> next[id] == tracks[id])
    decreases |es|
  {
    if es != [] {
      EntryElsewhere(tracks, m, es[0], localFrame, id);
      EntriesElsewhere(TakeEntry(tracks, m, es[0], localFrame), m, es[1..], localFrame, id);
    }
  }

  // What a packet makes of one entry's track: a known enemy's sample is offered to it while there is
  // room, a revoked one's track is gone, and any other entry does nothing.
  predicate Reached(tracks: map<nat, Track>, m: Motion, e: Entry, localFrame: u32, next: map<nat, Track>)
    requires TracksOk(tracks)
  {
    if e.netId != 0 && e.allowed then
      e.netId in next && next[e.netId] == Take(TrackFor(tracks, e), SampleOf(m, e), localFrame)
    else if e.netId != 0 && e.revoked then e.netId !in next
    else (e.netId in next <==> e.netId in tracks) && (e.netId in tracks ==> next[e.netId] == tracks[e.netId])
  }

  // The entries of a packet reach their own tracks, each once, whatever the others are.
  lemma {:induction false} EntriesReach(tracks: map<nat, Track>, m: Motion, es: seq<Entry>, localFrame: u32, i: nat)
    requires TracksOk(tracks) && Apart(es) && i < |es| && |tracks| + |es| <= MAX_TRACKS
    ensures Reached(tracks, m, es[i], localFrame, TakeEntries(tracks, m, es, localFrame))
    decreases |es|
  {
    var next := TakeEntry(tracks, m, es[0], localFrame);
    if i == 0 {
      EntriesElsewhere(next, m, es[1..], localFrame, es[0].netId);
    } else {
      EntryElsewhere(tracks, m, es[0], localFrame, es[i].netId);
      EntriesReach(next, m, es[1..], localFrame, i - 1);
      assert TrackFor(next, es[i]) == TrackFor(tracks, es[i]);
    }
  }

  // Not newer as a serial: level with it, or behind by at most half the range.
  predicate Behind(frame: u32, newest: u32) { (newest - frame) % U32_RANGE <= 0x8000_0000 }

  lemma BehindIsNotNewer(frame: u32, newest: u32)
    ensures Behind(frame, newest) <==> !Newer(frame, newest)
  {
  }

  // A sample enters the ring exactly when it is the first or ahead, by serial, of the newest there.
  lemma SampleTakenIff(t: Track, s: Sample, localFrame: u32)
    requires RingOk(t)
    ensures var (v, u) := (View(t), Take(t, s, localFrame));
            RingOk(u)
            && if v != [] && Behind(s.hostFrame, v[|v| - 1].hostFrame) then u == t
               else View(u) == (if |v| < RING then v else v[1..]) + [s]
  {
    if t.count > 0 {
      NewestSlot(t);
      BehindIsNotNewer(s.hostFrame, View(t)[t.count - 1].hostFrame);
    }
    if !Late(t, s.hostFrame) {
      SampleEnters(t, s, localFrame);
    }
  }

  lemma SampleEnters(t: Track, s: Sample, localFrame: u32)
    requires RingOk(t) && !Late(t, s.hostFrame)
    ensures var (v, u) := (View(t), Take(t, s, localFrame));
            RingOk(u) && View(u) == (if |v| < RING then v else v[1..]) + [s]
  {
    var e := Expire(t, localFrame);
    SameRing(t, e);
    StoreAppends(e, s);
    SameRing(Store(e, s), Credit(Store(e, s), localFrame));
  }

  // ---------------------------------------------------------------- driving

  lemma TakenCredits(t: Track, s: Sample, at: u32)
    requires RingOk(t) && !Late(t, s.hostFrame)
    ensures var u := Take(t, s, at);
            && u.haveArrival && u.lastArrival == at && u.count > 0
            && u.released == (var e := Expire(t, at); e.released && e.sinceRelease == 0)
            && (u.released ==> u.sinceRelease == 1)
  {
  }

  // Two samples taken within thirty local frames of each other make a track drivable, however it was
  // released before.
  lemma TwoSamplesRetake(t: Track, s1: Sample, at1: u32, s2: Sample, at2: u32)
    requires RingOk(t) && RingOk(Take(t, s1, at1)) && Elapsed(at2, at1) <= STALE_FRAMES
    requires Take(t, s1, at1) != t && Take(Take(t, s1, at1), s2, at2) != Take(t, s1, at1)
    ensures var w := Take(Take(t, s1, at1), s2, at2);
            !w.released && w.haveArrival && w.lastArrival == at2 && w.count > 0
  {
    TakenCredits(t, s1, at1);
    TakenCredits(Take(t, s1, at1), s2, at2);
  }

  // A drivable track stays drivable over a tick exactly while it was heard from in the last thirty
  // local frames.
  lemma DrivenIff(s: Stream, id: nat, since: u32, now: u32)
    requires TracksOk(s.tracks) && Drivable(s, id, since)
    ensures Drivable(Tick(s, now), id, now) <==> Elapsed(now, s.tracks[id].lastArrival) <= STALE_FRAMES
  {
  }

  // The clock follows the newest frame by serial: a packet is heard exactly when it is the first or
  // is ahead of it by less than half the range.
  lemma HeardIff(c: Clock, hostFrame: u32, at: u32)
    requires c.haveNewest && hostFrame != c.newest
    ensures Heard(c, hostFrame, at) == c <==> (c.newest - hostFrame) % U32_RANGE <= 0x8000_0000
    ensures Heard(c, hostFrame, at) != c ==> Heard(c, hostFrame, at) == c.(newest := hostFrame, newestLocal := at)
  {
  }
}
