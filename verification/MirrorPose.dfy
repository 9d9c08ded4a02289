// What a mirrored pose is (inject/src/EnemyMirrorState.hpp, PoseAt): the straight line between the
// two samples around the cursor, and a motion that keeps playing while the position is held.
module MirrorPose {
  import opened Common
  import opened MirrorStream

  // x is where the straight line through (f0, a) and (f1, b) passes frame c.
  predicate Straight(a: real, f0: int, b: real, f1: int, c: int, x: real) {
    x * (f1 - f0) as real == a * (f1 - c) as real + b * (c - f0) as real
  }

  lemma Distributes(a: real, d: real, u: real, n: real)
    ensures (a + d * u) * n == a * n + d * (u * n)
  {
    assert (d * u) * n == d * (u * n);
  }

  lemma Regroups(a: real, b: real, p: real, q: real)
    ensures a * (p + q) + (b - a) * q == a * p + b * q
  {
    assert a * (p + q) == a * p + a * q;
    assert (b - a) * q == b * q - a * q;
  }

  lemma LerpIsStraight(a: real, f0: int, b: real, f1: int, c: int)
    requires f0 < f1
    ensures Straight(a, f0, b, f1, c, Lerp(a, b, (c - f0) as real / (f1 - f0) as real))
  {
    var n, q, p := (f1 - f0) as real, (c - f0) as real, (f1 - c) as real;
    var u := q / n;
    assert u * n == q;
    Distributes(a, b - a, u, n);
    assert n == p + q;
    Regroups(a, b, p, q);
  }

  // ---------------------------------------------------------------- turning

  // The same direction: a whole number of turns apart.
  function WholeTurns(k: int): real { TURN * k as real }

  ghost predicate SameDirection(a: real, b: real) { exists k: int :: a - b == WholeTurns(k) }

  predicate HalfTurn(a: real) { -TURN / 2.0 <= a <= TURN / 2.0 }

  lemma NearestIsNear(x: real)
    ensures -0.5 <= x - Nearest(x) as real <= 0.5
  {
  }

  lemma Times(a: real, n: real)
    requires -0.5 <= a <= 0.5 && n > 0.0
    ensures -n / 2.0 <= n * a <= n / 2.0
  {
    assert (0.5 - a) * n >= 0.0 && (a + 0.5) * n >= 0.0;
  }

  // Wrapping keeps the direction and leaves at most half a turn.
  lemma WrapKeeps(a: real)
    ensures HalfTurn(Wrap(a)) && SameDirection(a, Wrap(a))
  {
    var x := a / TURN;
    NearestIsNear(x);
    var n := Nearest(x) as real;
    Times(x - n, TURN);
    assert TURN * x == a;
    assert TURN * (x - n) == a - TURN * n;
    assert a - Wrap(a) == WholeTurns(Nearest(x));
  }

  // From direction a at frame f0 towards b at f1, by the turn d: the shortest way there, and at frame
  // c the part of it that is due, in direction r.
  ghost predicate Turns(a: real, f0: int, b: real, f1: int, c: int, d: real, r: real) {
    && HalfTurn(d) && SameDirection(b - a, d) && HalfTurn(r)
    && exists x: real :: Straight(0.0, f0, d, f1, c, x) && SameDirection(a + x, r)
  }

  ghost predicate Turned(a: real, f0: int, b: real, f1: int, c: int, r: real) {
    exists d: real :: Turns(a, f0, b, f1, c, d, r)
  }

  lemma TurnsAlong(a: real, f0: int, b: real, f1: int, c: int, u: real)
    requires f0 < f1 && u == (c - f0) as real / (f1 - f0) as real
    ensures Turned(a, f0, b, f1, c, LerpAngle(a, b, u))
  {
    var d := Wrap(b - a);
    WrapKeeps(b - a);
    WrapKeeps(a + d * u);
    LerpIsStraight(0.0, f0, d, f1, c);
    assert Lerp(0.0, d, u) == d * u;
    assert Straight(0.0, f0, d, f1, c, d * u) && SameDirection(a + d * u, LerpAngle(a, b, u));
    assert Turns(a, f0, b, f1, c, d, LerpAngle(a, b, u));
  }

  // ---------------------------------------------------------------- the pose

  // The sample the pose is taken from: the newest one not after the cursor, or the oldest of all.
  predicate Source(v: seq<Sample>, cursor: int, i: nat) {
    i < |v| && (i > 0 ==> v[i].hostFrame <= cursor) && (i + 1 < |v| ==> cursor < v[i + 1].hostFrame)
  }

  // Only one sample to go by: its place is held, and its motion plays on past it.
  predicate HeldFrom(s: Sample, cursor: int, overflow: int, p: Pose) {
    p.position == s.position && p.rotation == s.rotation
    && p.motionTime == s.motionTime + (if s.hostFrame <= cursor then (cursor - s.hostFrame) as real else 0.0) + overflow as real
  }

  predicate Along(s0: Sample, s1: Sample, cursor: int, p: Vec3) {
    && Straight(s0.position.x, s0.hostFrame, s1.position.x, s1.hostFrame, cursor, p.x)
    && Straight(s0.position.y, s0.hostFrame, s1.position.y, s1.hostFrame, cursor, p.y)
    && Straight(s0.position.z, s0.hostFrame, s1.position.z, s1.hostFrame, cursor, p.z)
  }

  // The motion's time follows its own line, or, when the motion changes or restarts, plays from the
  // older sample.
  predicate Timed(s0: Sample, s1: Sample, cursor: int, overflow: int, time: real) {
    if s0.motionId == s1.motionId && s0.motionTime <= s1.motionTime then
      Straight(s0.motionTime, s0.hostFrame, s1.motionTime, s1.hostFrame, cursor, time - overflow as real)
    else time == s0.motionTime + (cursor + overflow - s0.hostFrame) as real
  }

  ghost predicate Described(v: seq<Sample>, cursor: int, overflow: int, p: Pose, i: nat)
    requires i < |v|
  {
    && p.objectId == v[i].objectId && p.motionId == v[i].motionId
    && if i + 1 == |v| || cursor < v[i].hostFrame then HeldFrom(v[i], cursor, overflow, p)
       else
         && Along(v[i], v[i + 1], cursor, p.position) && Timed(v[i], v[i + 1], cursor, overflow, p.motionTime)
         && Turned(v[i].rotation, v[i].hostFrame, v[i + 1].rotation, v[i + 1].hostFrame, cursor, p.rotation)
  }

  lemma BetweenIsAlong(s0: Sample, s1: Sample, cursor: int, overflow: int)
    requires s0.hostFrame < s1.hostFrame
    ensures var p := Between(s0, s1, cursor, overflow);
            Along(s0, s1, cursor, p.position) && Timed(s0, s1, cursor, overflow, p.motionTime)
    ensures Turned(s0.rotation, s0.hostFrame, s1.rotation, s1.hostFrame, cursor, Between(s0, s1, cursor, overflow).rotation)
  {
    TurnsAlong(s0.rotation, s0.hostFrame, s1.rotation, s1.hostFrame, cursor, Weight(s0, s1, cursor));
    LerpIsStraight(s0.position.x, s0.hostFrame, s1.position.x, s1.hostFrame, cursor);
    LerpIsStraight(s0.position.y, s0.hostFrame, s1.position.y, s1.hostFrame, cursor);
    LerpIsStraight(s0.position.z, s0.hostFrame, s1.position.z, s1.hostFrame, cursor);
    LerpIsStraight(s0.motionTime, s0.hostFrame, s1.motionTime, s1.hostFrame, cursor);
    var u := Weight(s0, s1, cursor);
    var line := Lerp(s0.motionTime, s1.motionTime, u);
    assert line + overflow as real - overflow as real == line;
  }

  lemma OneSource(v: seq<Sample>, cursor: int, i: nat, j: nat)
    requires Rising(v) && Source(v, cursor, i) && Source(v, cursor, j)
    ensures i == j
  {
  }

  // A ring has exactly one source for each cursor, and the pose is described by it and by the
  // sample after it.
  lemma PoseIsExact(v: seq<Sample>, cursor: int, overflow: int, p: Pose, i: nat)
    requires Rising(v) && v != [] && Poses(v, cursor, overflow, p) && Source(v, cursor, i)
    ensures Described(v, cursor, overflow, p, i)
  {
    var last := |v| - 1;
    if cursor < v[0].hostFrame {
      OneSource(v, cursor, 0, i);
    } else if v[last].hostFrame <= cursor {
      OneSource(v, cursor, last, i);
    } else {
      var k :| 0 <= k < |v| - 1 && Brackets(v[k], v[k + 1], cursor, overflow, p);
      OneSource(v, cursor, k, i);
      BetweenIsAlong(v[k], v[k + 1], cursor, overflow);
    }
  }

  lemma {:induction false} SourceExists(v: seq<Sample>, cursor: int)
    requires v != []
    ensures exists i: nat :: Source(v, cursor, i)
    decreases |v|
  {
    var last := |v| - 1;
    if last == 0 || v[last].hostFrame <= cursor {
      assert Source(v, cursor, last);
    } else {
      SourceExists(v[..last], cursor);
      var i: nat :| Source(v[..last], cursor, i);
      assert Source(v, cursor, i);
    }
  }

  // ---------------------------------------------------------------- uniform motion

  function OnLine(at: real, speed: real, frame: int): real { at + speed * frame as real }

  lemma LineMeets(at: real, speed: real, f0: int, f1: int, c: int, x: real)
    requires f0 < f1 && Straight(OnLine(at, speed, f0), f0, OnLine(at, speed, f1), f1, c, x)
    ensures x == OnLine(at, speed, c)
  {
    var n, p, q := (f1 - f0) as real, (f1 - c) as real, (c - f0) as real;
    Spread(at, speed, f0 as real, p);
    Spread(at, speed, f1 as real, q);
    assert at * p + at * q == at * n;
    Weighted(f0 as real, f1 as real, c as real);
    assert speed * (f0 as real * p) + speed * (f1 as real * q) == speed * (f0 as real * p + f1 as real * q);
    assert speed * (c as real * n) == (speed * c as real) * n;
    Spread(at, speed, c as real, n);
    Cancel(x, OnLine(at, speed, c), n);
  }

  lemma Spread(at: real, speed: real, f: real, p: real)
    ensures (at + speed * f) * p == at * p + speed * (f * p)
  {
    assert (speed * f) * p == speed * (f * p);
  }

  lemma Weighted(f0: real, f1: real, c: real)
    ensures f0 * (f1 - c) + f1 * (c - f0) == c * (f1 - f0)
  {
  }

  lemma Cancel(x: real, y: real, n: real)
    requires n > 0.0 && x * n == y * n
    ensures x == y
  {
    assert (x - y) * n == 0.0;
  }

  // Samples of an enemy that moves uniformly and plays one motion at one frame a frame.
  predicate Uniform(v: seq<Sample>, at: Vec3, speed: Vec3, start: real) {
    forall i :: 0 <= i < |v| ==>
      && v[i].motionId == v[0].motionId && v[i].motionTime == start + v[i].hostFrame as real
      && v[i].position.x == OnLine(at.x, speed.x, v[i].hostFrame)
      && v[i].position.y == OnLine(at.y, speed.y, v[i].hostFrame)
      && v[i].position.z == OnLine(at.z, speed.z, v[i].hostFrame)
  }

  function PlaceAt(at: Vec3, speed: Vec3, frame: int): Vec3 {
    Vec3(OnLine(at.x, speed.x, frame), OnLine(at.y, speed.y, frame), OnLine(at.z, speed.z, frame))
  }

  // Of such an enemy the pose is exact: it is where the enemy was at the cursor, or at the newest
  // sample when that is behind, and its motion is never behind the unheld cursor, stalled or not.
  lemma UniformIsExact(v: seq<Sample>, at: Vec3, speed: Vec3, start: real, cursor: int, overflow: int, p: Pose)
    requires Rising(v) && v != [] && Uniform(v, at, speed, start)
    requires v[0].hostFrame <= cursor && Poses(v, cursor, overflow, p)
    ensures var last := v[|v| - 1].hostFrame;
            p.position == PlaceAt(at, speed, if cursor < last then cursor else last)
    ensures p.motionTime == start + (cursor + overflow) as real
  {
    SourceExists(v, cursor);
    var i: nat :| Source(v, cursor, i);
    PoseIsExact(v, cursor, overflow, p, i);
    if i + 1 < |v| {
      var f0, f1 := v[i].hostFrame, v[i + 1].hostFrame;
      assert f0 < f1 <= v[|v| - 1].hostFrame;
      LineMeets(at.x, speed.x, f0, f1, cursor, p.position.x);
      LineMeets(at.y, speed.y, f0, f1, cursor, p.position.y);
      LineMeets(at.z, speed.z, f0, f1, cursor, p.position.z);
      TimeMeets(v[i], v[i + 1], start, cursor, overflow, p.motionTime);
    }
  }

  lemma TimeMeets(s0: Sample, s1: Sample, start: real, cursor: int, overflow: int, time: real)
    requires s0.hostFrame < s1.hostFrame && s0.motionId == s1.motionId && Timed(s0, s1, cursor, overflow, time)
    requires s0.motionTime == start + s0.hostFrame as real && s1.motionTime == start + s1.hostFrame as real
    ensures time == start + (cursor + overflow) as real
  {
    assert s0.motionTime == OnLine(start, 1.0, s0.hostFrame) && s1.motionTime == OnLine(start, 1.0, s1.hostFrame);
    LineMeets(start, 1.0, s0.hostFrame, s1.hostFrame, cursor, time - overflow as real);
  }
}
