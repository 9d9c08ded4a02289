// The two button automatons of an event hold (inject/src/EventHoldInputState.hpp): one opens the
// game's pause, keeps it and closes it again; the other closes a pause left behind. Each press is
// followed by a neutral sample, and the closing presses are bounded.
module EventHold {
  import opened Common

  const CLOSED: nat := 255
  const UNWIND_STEP_MS: nat := 400
  const UNWIND_PRESSES: nat := 24
  const RELEASE_TIMEOUT_MS: nat := 10000
  const OPEN_TIMEOUT_MS: nat := 1000

  datatype Button = Start | Circle | Cross

  datatype Phase = Idle | OpenRelease | Opening | Paused | CloseRelease | Closing | OwnerWait | ReleaseBoundary | Complete | Failed

  datatype Sample = Sample(now: nat, menu: nat, safeToPause: bool, healthy: bool, ownerReleased: bool)

  datatype Output = Output(neutral: bool, press: Option<Button>, failed: bool, released: bool, timedOut: bool, stuck: bool)

  datatype Hold = Hold(
    phase: Phase, deadline: nat, releaseDeadline: nat, lastPress: nat, unwound: nat, owned: bool, wake: bool, follow: bool,
    pressing: bool, pauseMenu: nat, failedMenu: nat)

  const NOTHING := Output(false, None, false, false, false, false)
  const FAILING := NOTHING.(failed := true)
  const NEUTRAL := NOTHING.(neutral := true)

  function Initial(): Hold { Hold(Idle, 0, 0, 0, 0, false, false, false, false, 10, 0) }

  predicate Holding(h: Hold) { h.phase != Idle && h.phase != Complete && h.phase != Failed }

  predicate PauseOpen(h: Hold) { h.owned && (h.phase == Paused || h.phase == CloseRelease || h.phase == Closing) }

  function Acquire(h: Hold, s: Sample): (Hold, bool) {
    if Holding(h) || !s.healthy || !s.safeToPause || s.menu != CLOSED || s.now == 0 then (h, false)
    else
      (h.(phase := OpenRelease, failedMenu := 0, deadline := s.now + OPEN_TIMEOUT_MS, releaseDeadline := 0, owned := false,
          wake := false, follow := false, pressing := true), true)
  }

  function Fail(h: Hold): Hold {
    h.(failedMenu := if h.phase != Failed then (if PauseOpen(h) then h.pauseMenu else 0) else h.failedMenu,
       phase := Failed, pressing := false)
  }

  // A new host event ends a hold that only waits for its owner.
  function Supersede(h: Hold): Hold { if h.phase == OwnerWait || h.phase == ReleaseBoundary then h.(phase := Complete) else h }

  // Circle, Start, Cross, and round again.
  function Unwinding(n: nat): Button { if n % 3 == 0 then Circle else if n % 3 == 1 then Start else Cross }

  function Pressed(b: Button): Output { NEUTRAL.(press := Some(b)) }

  function TickClosing(h: Hold, s: Sample): (Hold, Output) {
    if s.menu == CLOSED then (h.(owned := false, phase := OwnerWait), NEUTRAL)
    else if h.unwound == 0 && s.menu != h.pauseMenu then (Fail(h), FAILING)
    else if s.now >= h.lastPress + UNWIND_STEP_MS then
      if h.unwound >= UNWIND_PRESSES then (Fail(h), FAILING.(stuck := true))
      else (h.(unwound := h.unwound + 1, lastPress := s.now, phase := CloseRelease), Pressed(Unwinding(h.unwound)))
    else (h, NEUTRAL)
  }

  function TickWaiting(h: Hold, s: Sample): (Hold, Output) {
    if s.menu != CLOSED then (Fail(h), FAILING)
    else if h.follow then (h.(phase := Complete), NEUTRAL.(released := true))
    else if s.ownerReleased then (h.(phase := ReleaseBoundary), NEUTRAL)
    else if h.releaseDeadline != 0 && s.now >= h.releaseDeadline then
      (h.(phase := Complete), NEUTRAL.(released := true, timedOut := true))
    else (h, NEUTRAL)
  }

  function Tick(h: Hold, s: Sample): (Hold, Output) {
    if h.phase == Idle || h.phase == Complete then (h, NOTHING)
    else if h.phase == Failed then (h, FAILING)
    else if !s.healthy || s.now == 0 then (Fail(h), FAILING)
    else if h.pressing then (h.(pressing := false), Pressed(Start))
    else match h.phase
      case OpenRelease => (h.(phase := Opening), NEUTRAL)
      case Opening =>
        if s.menu == 10 || s.menu == 8 then (h.(owned := true, pauseMenu := s.menu, phase := Paused), NEUTRAL)
        else if s.menu != CLOSED || s.now >= h.deadline then (Fail(h), FAILING)
        else (h, NEUTRAL)
      case Paused =>
        if !h.owned || s.menu != h.pauseMenu then (Fail(h), FAILING)
        else if h.wake then (h.(phase := CloseRelease, lastPress := s.now, unwound := 0), Pressed(Start))
        else (h, NEUTRAL)
      case CloseRelease => (h.(phase := Closing), NEUTRAL)
      case Closing => TickClosing(h, s)
      case OwnerWait => TickWaiting(h, s)
      case ReleaseBoundary =>
        if s.menu != CLOSED || !s.ownerReleased then (Fail(h), FAILING)
        else (h.(phase := Complete), NEUTRAL.(released := true))
      case _ => (Fail(h), FAILING)
  }

  // ---------------------------------------------------------------- runs of one hold

  datatype Event = Sampled(s: Sample) | Wake | FollowScene | Release(now: nat) | Superseded | Broken

  function Step(h: Hold, e: Event): (Hold, Output) {
    match e
    case Sampled(s) => Tick(h, s)
    case Wake => (h.(wake := true), NOTHING)
    case FollowScene => (h.(wake := true, follow := true), NOTHING)
    case Release(now) => (h.(releaseDeadline := now + RELEASE_TIMEOUT_MS), NOTHING)
    case Superseded => (Supersede(h), NOTHING)
    case Broken => (Fail(h), NOTHING)
  }

  function Run(h: Hold, es: seq<Event>): Hold
    decreases |es|
  {
    if es == [] then h else Run(Step(h, es[0]).0, es[1..])
  }

  // The buttons pressed by a run, in order.
  function Presses(h: Hold, es: seq<Event>): seq<Button>
    decreases |es|
  {
    if es == [] then []
    else
      var (next, out) := Step(h, es[0]);
      (if out.press.Some? then [out.press.value] else []) + Presses(next, es[1..])
  }

  // How many presses this hold may still make.
  function Budget(h: Hold): nat {
    match h.phase
    case OpenRelease => (if h.pressing then 1 else 0) + 1 + UNWIND_PRESSES
    case Opening => 1 + UNWIND_PRESSES
    case Paused => 1 + UNWIND_PRESSES
    case CloseRelease => if h.unwound <= UNWIND_PRESSES then UNWIND_PRESSES - h.unwound else 0
    case Closing => if h.unwound <= UNWIND_PRESSES then UNWIND_PRESSES - h.unwound else 0
    case _ => 0
  }

  predicate Shape(h: Hold) { h.pressing ==> h.phase == OpenRelease }

  lemma StepSpends(h: Hold, e: Event)
    requires Shape(h)
    ensures var (next, out) := Step(h, e);
            Shape(next) && Budget(next) + (if out.press.Some? then 1 else 0) <= Budget(h)
  {
  }

  lemma {:induction false} PressesBounded(h: Hold, es: seq<Event>)
    requires Shape(h)
    ensures |Presses(h, es)| <= Budget(h)
    decreases |es|
  {
    if es != [] {
      StepSpends(h, es[0]);
      PressesBounded(Step(h, es[0]).0, es[1..]);
    }
  }

  // From its acquisition a hold presses at most one Start to open, one to close and 24 to unwind.
  lemma HoldPressesBounded(h: Hold, s: Sample, es: seq<Event>)
    requires Acquire(h, s).1
    ensures |Presses(Acquire(h, s).0, es)| <= 2 + UNWIND_PRESSES
  {
    PressesBounded(Acquire(h, s).0, es);
  }

  // A press still to be followed by a neutral sample.
  predicate MustRelease(h: Hold) { !h.pressing && (h.phase == OpenRelease || h.phase == CloseRelease) }

  // Between two presses of one hold there is always a sample without one.
  lemma PressThenRelease(h: Hold, e: Event, between: seq<Event>, s: Sample)
    requires Shape(h) && Step(h, e).1.press.Some?
    requires forall i :: 0 <= i < |between| ==> !between[i].Sampled?
    ensures Tick(Run(Step(h, e).0, between), s).1.press.None?
  {
    ReleaseStays(Step(h, e).0, between);
  }

  lemma {:induction false} ReleaseStays(h: Hold, es: seq<Event>)
    requires MustRelease(h) || (h.phase == Failed && !h.pressing)
    requires forall i :: 0 <= i < |es| ==> !es[i].Sampled?
    ensures var r := Run(h, es); MustRelease(r) || (r.phase == Failed && !r.pressing)
    decreases |es|
  {
    if es != [] {
      ReleaseStays(Step(h, es[0]).0, es[1..]);
    }
  }

  // What each kind of press means: a closing press comes 400 ms after the one before, while the
  // hold's own pause still shows or an unwind has begun, and Cross only after Circle and Start.
  lemma UnwindDiscipline(h: Hold, s: Sample)
    requires Shape(h) && h.phase == Closing && Tick(h, s).1.press.Some?
    ensures s.menu != CLOSED && s.now >= h.lastPress + UNWIND_STEP_MS && h.unwound < UNWIND_PRESSES
    ensures h.unwound == 0 ==> s.menu == h.pauseMenu
    ensures Tick(h, s).1.press == Some(Cross) ==> h.unwound >= 2
  {
  }

  // Control is handed back only with the menu closed.
  lemma ReleasedWhenClosed(h: Hold, s: Sample)
    requires Tick(h, s).1.released
    ensures s.menu == CLOSED && s.healthy && Tick(h, s).0.phase == Complete
    ensures Tick(h, s).1.timedOut <==> h.phase == OwnerWait && !h.follow && !s.ownerReleased
  {
  }

  // ---------------------------------------------------------------- the object

  class InputState {
    var phase: Phase
    var deadline: nat
    var releaseDeadline: nat
    var lastPress: nat
    var unwound: nat
    var owned: bool
    var wake: bool
    var follow: bool
    var pressing: bool
    var pauseMenu: nat
    var failedMenu: nat

    function Abs(): Hold
      reads this
    {
      Hold(phase, deadline, releaseDeadline, lastPress, unwound, owned, wake, follow, pressing, pauseMenu, failedMenu)
    }

    // Only the opening press is ever held back.
    ghost predicate Valid()
      reads this
    {
      Shape(Abs())
    }

    constructor ()
      ensures Valid() && Abs() == Initial()
    {
      phase, deadline, releaseDeadline, lastPress, unwound := Idle, 0, 0, 0, 0;
      owned, wake, follow, pressing, pauseMenu, failedMenu := false, false, false, false, 10, 0;
    }

    method TryAcquire(s: Sample) returns (ok: bool)
      requires Valid()
      modifies this
      ensures Valid() && (Abs(), ok) == Acquire(old(Abs()), s)
    {
      if (phase != Idle && phase != Complete && phase != Failed) || !s.healthy || !s.safeToPause || s.menu != CLOSED || s.now == 0 {
        return false;
      }
      phase, failedMenu, deadline, releaseDeadline := OpenRelease, 0, s.now + OPEN_TIMEOUT_MS, 0;
      owned, wake, follow, pressing := false, false, false, true;
      return true;
    }

    method Break()
      modifies this
      ensures Valid() && Abs() == Fail(old(Abs()))
    {
      if phase != Failed {
        failedMenu := if owned && (phase == Paused || phase == CloseRelease || phase == Closing) then pauseMenu else 0;
      }
      phase, pressing := Failed, false;
    }

    method OnClosing(s: Sample) returns (out: Output)
      modifies this
      ensures (Abs(), out) == TickClosing(old(Abs()), s)
    {
      if s.menu == CLOSED {
        owned, phase := false, OwnerWait;
      } else if unwound == 0 && s.menu != pauseMenu {
        Break();
        return FAILING;
      } else if s.now >= lastPress + UNWIND_STEP_MS {
        if unwound >= UNWIND_PRESSES {
          Break();
          return FAILING.(stuck := true);
        }
        var press := Unwinding(unwound);
        unwound, lastPress, phase := unwound + 1, s.now, CloseRelease;
        return Pressed(press);
      }
      return NEUTRAL;
    }

    method OnWaiting(s: Sample) returns (out: Output)
      modifies this
      ensures (Abs(), out) == TickWaiting(old(Abs()), s)
    {
      if s.menu != CLOSED {
        Break();
        return FAILING;
      }
      if follow {
        phase := Complete;
        return NEUTRAL.(released := true);
      }
      if s.ownerReleased {
        phase := ReleaseBoundary;
      } else if releaseDeadline != 0 && s.now >= releaseDeadline {
        phase := Complete;
        return NEUTRAL.(released := true, timedOut := true);
      }
      return NEUTRAL;
    }

    method OnSample(s: Sample) returns (out: Output)
      requires Valid()
      modifies this
      ensures Valid() && (Abs(), out) == Tick(old(Abs()), s)
    {
      if phase == Idle || phase == Complete {
        return NOTHING;
      }
      if phase == Failed {
        return FAILING;
      }
      if !s.healthy || s.now == 0 {
        Break();
        return FAILING;
      }
      if pressing {
        pressing := false;
        return Pressed(Start);
      }
      out := NEUTRAL;
      if phase == OpenRelease {
        phase := Opening;
      } else if phase == Opening {
        if s.menu == 10 || s.menu == 8 {
          owned, pauseMenu, phase := true, s.menu, Paused;
        } else if s.menu != CLOSED || s.now >= deadline {
          Break();
          out := FAILING;
        }
      } else if phase == Paused {
        if !owned || s.menu != pauseMenu {
          Break();
          out := FAILING;
        } else if wake {
          phase, lastPress, unwound := CloseRelease, s.now, 0;
          out := Pressed(Start);
        }
      } else if phase == CloseRelease {
        phase := Closing;
      } else if phase == Closing {
        out := OnClosing(s);
      } else if phase == OwnerWait {
        out := OnWaiting(s);
      } else if s.menu != CLOSED || !s.ownerReleased {
        Break();
        out := FAILING;
      } else {
        phase := Complete;
        out := NEUTRAL.(released := true);
      }
    }
  }

  // ---------------------------------------------------------------- a pause left open

  datatype Native = Native(valid: bool, menu: nat, eventState: int, context: nat)

  datatype Orphan = Orphan(armed: bool, release: bool, pauseMenu: nat, presses: nat, lastPress: nat, eventState: int, context: nat)

  datatype Answer = Answer(neutral: bool, press: Option<Button>, done: bool, gaveUp: bool)

  const QUIET := Answer(false, None, false, false)

  function Arm(o: Orphan, ownedOpen: bool, menu: nat, n: Native, now: nat): (Orphan, bool) {
    if o.armed || !ownedOpen || !n.valid || (menu != 8 && menu != 10) || n.menu != menu || now == 0 then (o, false)
    else (Orphan(true, false, menu, 0, 0, n.eventState, n.context), true)
  }

  function TickOrphan(o: Orphan, n: Native, now: nat): (Orphan, Answer) {
    if !o.armed then (o, QUIET)
    else if !n.valid then (o.(armed := false), QUIET.(gaveUp := true))
    else if n.menu == CLOSED then (o.(armed := false), QUIET.(done := true))
    else if n.menu != o.pauseMenu || n.eventState != o.eventState || n.context != o.context then
      (o.(armed := false), QUIET.(gaveUp := true))
    else if o.release then (o.(release := false), QUIET.(neutral := true))
    else if o.presses != 0 && now < o.lastPress + UNWIND_STEP_MS then (o, QUIET.(neutral := true))
    else if o.presses > UNWIND_PRESSES then (o.(armed := false), QUIET.(gaveUp := true))
    else
      (o.(presses := o.presses + 1, lastPress := now, release := true),
       QUIET.(neutral := true, press := Some(if o.presses == 0 then Start else Unwinding(o.presses - 1))))
  }

  function OrphanPresses(o: Orphan, samples: seq<(Native, nat)>): nat
    decreases |samples|
  {
    if samples == [] then 0
    else
      var (next, out) := TickOrphan(o, samples[0].0, samples[0].1);
      (if out.press.Some? then 1 else 0) + OrphanPresses(next, samples[1..])
  }

  lemma {:induction false} OrphanBounded(o: Orphan, samples: seq<(Native, nat)>)
    ensures OrphanPresses(o, samples) <= if o.presses <= UNWIND_PRESSES + 1 then UNWIND_PRESSES + 1 - o.presses else 0
    decreases |samples|
  {
    if samples != [] {
      OrphanBounded(TickOrphan(o, samples[0].0, samples[0].1).0, samples[1..]);
    }
  }

  // From arming: at most 25 presses in all, each followed by a sample without one, and only while
  // the same pause shows in the same event.
  lemma OrphanDiscipline(o: Orphan, menu: nat, n: Native, at: nat, samples: seq<(Native, nat)>)
    requires Arm(o, true, menu, n, at).1
    ensures OrphanPresses(Arm(o, true, menu, n, at).0, samples) <= 1 + UNWIND_PRESSES
  {
    OrphanBounded(Arm(o, true, menu, n, at).0, samples);
  }

  lemma OrphanPressMeans(o: Orphan, n: Native, now: nat, m: Native, later: nat)
    requires TickOrphan(o, n, now).1.press.Some?
    ensures o.armed && n.valid && n.menu == o.pauseMenu && n.eventState == o.eventState && n.context == o.context
    ensures TickOrphan(TickOrphan(o, n, now).0, m, later).1.press.None?
    ensures TickOrphan(o, n, now).1.press == Some(Cross) ==> o.presses >= 3
  {
  }

  // ---------------------------------------------------------------- what does happen

  predicate Sound(s: Sample) { s.healthy && s.now != 0 }

  // An unwinding press is made exactly when one is due: the menu is open, 400 ms have passed, fewer
  // than 24 were made, and the first finds the hold's own pause. They go round Circle, Start, Cross.
  lemma UnwindIff(h: Hold, s: Sample)
    requires h.phase == Closing && !h.pressing && Sound(s)
    ensures var out := Tick(h, s).1;
            var due := s.menu != 255 && (h.unwound == 0 ==> s.menu == h.pauseMenu) && s.now >= h.lastPress + 400;
            && (out.press.Some? <==> due && h.unwound < 24) && (out.stuck <==> due && h.unwound >= 24)
            && (out.press.Some? ==> out.press.value == [Circle, Start, Cross][h.unwound % 3])
    ensures Tick(h, s).0.phase == OwnerWait <==> s.menu == 255
  {
  }

  // Control is handed back exactly when the menu is closed and the player followed the scene, the
  // owner released it in this sample and the one before, or ten seconds have passed since he did.
  lemma ReleasedIff(h: Hold, s: Sample)
    requires Shape(h) && Sound(s)
    ensures Tick(h, s).1.released <==>
            s.menu == 255
            && (if h.phase == OwnerWait then h.follow || (!s.ownerReleased && h.releaseDeadline != 0 && s.now >= h.releaseDeadline)
                else h.phase == ReleaseBoundary && s.ownerReleased)
  {
  }

  // A hold of a sound game: the pause opens before its deadline, is kept, and is closed on waking.
  lemma HoldCompletes(h: Hold, s0: Sample, s: seq<Sample>, open: nat)
    requires Acquire(h, s0).1 && |s| == 8 && forall i :: 0 <= i < 8 ==> Sound(s[i])
    requires (open == 8 || open == 10) && s[2].menu == open && s[3].menu == open
    requires s[5].menu == CLOSED && s[6].menu == CLOSED && s[7].menu == CLOSED && s[6].ownerReleased && s[7].ownerReleased
    ensures var es := [Sampled(s[0]), Sampled(s[1]), Sampled(s[2]), Wake, Sampled(s[3]), Sampled(s[4]), Sampled(s[5]),
                       Sampled(s[6]), Sampled(s[7])];
            var held := Acquire(h, s0).0;
            && Run(held, es[..3]).phase == Paused && Run(held, es[..3]).pauseMenu == open
            && Run(Run(held, es[..3]), es[3..6]).phase == Closing
            && Run(Run(Run(held, es[..3]), es[3..6]), es[6..]).phase == Complete
  {
    var es := [Sampled(s[0]), Sampled(s[1]), Sampled(s[2]), Wake, Sampled(s[3]), Sampled(s[4]), Sampled(s[5]),
               Sampled(s[6]), Sampled(s[7])];
    var held := Acquire(h, s0).0;
    ThreeEvents(held, es[..3]);
    var paused := Run(held, es[..3]);
    ThreeEvents(paused, es[3..6]);
    ThreeEvents(Run(paused, es[3..6]), es[6..]);
  }

  lemma ThreeEvents(h: Hold, es: seq<Event>)
    requires |es| == 3
    ensures Run(h, es) == Step(Step(Step(h, es[0]).0, es[1]).0, es[2]).0
  {
    var a := Step(h, es[0]).0;
    var b := Step(a, es[1]).0;
    assert es[1..][1..] == es[2..] && es[2..][1..] == [];
    assert Run(a, es[1..]) == Run(b, es[2..]);
    assert Run(b, es[2..]) == Run(Step(b, es[2]).0, []);
  }
}
