// What a downed player is owed (inject/src/DownedReturn.hpp): the receipt of a return that could
// not be applied at once, and the bounded requests that ask for one.
module DownedReturn {
  import opened Common

  const OWED_RETRY_FRAMES := 30
  const RETURN_RETRY_FRAMES := 90
  const RETURN_ATTEMPTS := 3

  // ---------------------------------------------------------------- the owed receipt

  // The room change's own rule.
  datatype After = Resolve | SitOut

  // `kind` 0 is no receipt.
  datatype Owed = Owed(kind: nat, identity: u64, waits: u32, lastWait: u32, carried: bool, fallback: After)

  const NOTHING_OWED := Owed(0, 0, 0, 0, false, SitOut)

  datatype Facts = Facts(known: bool, identity: u64, downed: bool, applyReady: bool, resolveReady: bool, frame: u32)

  datatype Action = Nothing | Attempt | Resolved | Forgotten | RevokedSitOut | RevokedResolve

  // What the one revive entry reports.
  datatype Outcome = Applied | NotReady | Terminal

  function Owe(o: Owed, kind: nat, refusedInEvent: bool, known: bool, identity: u64): (Owed, bool) {
    if kind == 0 || !refusedInEvent || !known || identity == 0 || o.kind != 0 then (o, false)
    else (NOTHING_OWED.(kind := kind, identity := identity), true)
  }

  function Carry(o: Owed, plain: After): (Owed, bool) {
    if o.kind == 0 then (o, false) else (o.(carried := true, fallback := plain), true)
  }

  // The receipt's decision for one frame.
  function Decide(o: Owed, f: Facts): (Owed, Action) {
    if o.kind == 0 then (o, Nothing)
    else if f.known && f.identity != o.identity then
      (NOTHING_OWED, if !o.carried then Forgotten else if o.fallback == SitOut then RevokedSitOut else RevokedResolve)
    else if !f.known then (o, Nothing)
    else if o.carried then (if f.resolveReady then (NOTHING_OWED, Resolved) else (o, Nothing))
    else if !f.downed then (NOTHING_OWED, Forgotten)
    else if !f.applyReady || (o.waits != 0 && Minus(f.frame, o.lastWait, U32_RANGE) < OWED_RETRY_FRAMES) then (o, Nothing)
    else (o, Attempt)
  }

  function Attempted(o: Owed, outcome: Outcome, frame: u32): Owed {
    if outcome != NotReady then NOTHING_OWED else o.(waits := (o.waits + 1) % U32_RANGE, lastWait := frame)
  }

  // The per-frame step: an attempt is made at once, and its outcome taken.
  function OwedTick(o: Owed, f: Facts, outcome: Outcome): (Owed, Action) {
    var (p, action) := Decide(o, f);
    if action == Attempt then (Attempted(p, outcome, f.frame), action) else (p, action)
  }

  // ---------------------------------------------------------------- runs of one seat

  datatype Event =
    | Refused(kind: nat, inEvent: bool, known: bool, identity: u64)
    | RoomChange(plain: After)
    | Frame(facts: Facts, outcome: Outcome)
    | Clear

  // A receipt's life: when it was issued, the room changes' rules since, the frames it was tried at.
  datatype Life = Life(identity: u64, plain: Option<After>, attempts: seq<u32>)

  datatype End = Funnel(facts: Facts) | Decided(action: Action, facts: Facts) | Cleared

  datatype History = History(o: Owed, issued: seq<u64>, life: Option<Life>, settled: seq<(Life, End)>)

  function Fresh(): History { History(NOTHING_OWED, [], None, []) }

  function Settle(h: History, o: Owed, life: Life, end: End): History {
    h.(o := o, life := None, settled := h.settled + [(life, end)])
  }

  function StepFrame(h: History, f: Facts, outcome: Outcome): History {
    var (o, action) := OwedTick(h.o, f, outcome);
    if action == Nothing || h.life.None? then h.(o := o)
    else if action == Attempt then
      var life := h.life.value.(attempts := h.life.value.attempts + [f.frame]);
      if outcome == NotReady then h.(o := o, life := Some(life)) else Settle(h, o, life, Funnel(f))
    else Settle(h, o, h.life.value, Decided(action, f))
  }

  function Step(h: History, e: Event): History {
    match e
    case Refused(kind, inEvent, known, identity) =>
      var (o, issued) := Owe(h.o, kind, inEvent, known, identity);
      if issued then h.(o := o, issued := h.issued + [identity], life := Some(Life(identity, None, []))) else h.(o := o)
    case RoomChange(plain) =>
      var (o, carried) := Carry(h.o, plain);
      if carried && h.life.Some? then h.(o := o, life := Some(h.life.value.(plain := Some(plain)))) else h.(o := o)
    case Frame(f, outcome) => StepFrame(h, f, outcome)
    case Clear => if h.life.Some? then Settle(h, NOTHING_OWED, h.life.value, Cleared) else h.(o := NOTHING_OWED)
  }

  function Run(h: History, es: seq<Event>): History
    decreases |es|
  {
    if es == [] then h else Run(Step(h, es[0]), es[1..])
  }

  // Two tries of one receipt are a retry apart; the count of tries is a machine word, and the try
  // after it comes round to zero is not held back.
  predicate Spaced(attempts: seq<u32>) {
    forall i :: 0 < i < |attempts| && i % U32_RANGE != 0 ==>
      Minus(attempts[i], attempts[i - 1], U32_RANGE) >= OWED_RETRY_FRAMES
  }

  // Only the receipt's own identity authorizes a return; another one forgets or revokes it, and a
  // revoked receipt falls back to the last room change's rule. A carried receipt is not tried.
  predicate Justified(life: Life, end: End) {
    match end
    case Cleared => true
    case Funnel(f) => f.known && f.identity == life.identity && f.downed && f.applyReady && life.plain == None
    case Decided(Resolved, f) => f.known && f.identity == life.identity && f.resolveReady && life.plain.Some?
    case Decided(RevokedSitOut, f) => f.known && f.identity != life.identity && life.plain == Some(SitOut)
    case Decided(RevokedResolve, f) => f.known && f.identity != life.identity && life.plain == Some(Resolve)
    case Decided(Forgotten, f) => f.known && life.plain == None && (f.identity != life.identity || !f.downed)
    case _ => false
  }

  predicate LifeOf(o: Owed, life: Life) {
    && o.kind != 0 && o.identity == life.identity && o.carried == life.plain.Some?
    && (life.plain.Some? ==> o.fallback == life.plain.value)
    && Spaced(life.attempts) && o.waits == |life.attempts| % U32_RANGE
    && (life.attempts != [] ==> o.lastWait == life.attempts[|life.attempts| - 1])
  }

  predicate SettledWell(h: History) {
    |h.settled| <= |h.issued| && forall i :: 0 <= i < |h.settled| ==>
      h.settled[i].0.identity == h.issued[i] && Spaced(h.settled[i].0.attempts) && Justified(h.settled[i].0, h.settled[i].1)
  }

  predicate Invariant(h: History) {
    && (if h.life.Some? then LifeOf(h.o, h.life.value) else h.o.kind == 0)
    && |h.issued| == |h.settled| + (if h.life.Some? then 1 else 0)
    && (h.life.Some? ==> h.issued[|h.settled|] == h.life.value.identity)
    && SettledWell(h)
  }

  lemma TriedAgain(o: Owed, life: Life, f: Facts)
    requires LifeOf(o, life) && Decide(o, f).1 == Attempt
    ensures Spaced(life.attempts + [f.frame])
  {
  }

  lemma CountWraps(n: nat)
    ensures (n % U32_RANGE + 1) % U32_RANGE == (n + 1) % U32_RANGE
  {
  }

  lemma SettleHolds(h: History, life: Life, end: End)
    requires Invariant(h) && h.life.Some? && life.identity == h.life.value.identity
    requires Spaced(life.attempts) && Justified(life, end)
    ensures Invariant(Settle(h, NOTHING_OWED, life, end))
  {
  }

  lemma FrameHolds(h: History, f: Facts, outcome: Outcome)
    requires Invariant(h)
    ensures Invariant(StepFrame(h, f, outcome))
  {
    var (o, action) := OwedTick(h.o, f, outcome);
    if action != Nothing && h.life.Some? {
      var life := h.life.value;
      if action == Attempt {
        TriedAgain(h.o, life, f);
        var tried := life.(attempts := life.attempts + [f.frame]);
        if outcome == NotReady {
          CountWraps(|life.attempts|);
          assert LifeOf(o, tried);
        } else {
          SettleHolds(h, tried, Funnel(f));
        }
      } else {
        SettleHolds(h, life, Decided(action, f));
      }
    }
  }

  lemma StepHolds(h: History, e: Event)
    requires Invariant(h)
    ensures Invariant(Step(h, e))
  {
    match e
    case Refused(_, _, _, _) =>
    case RoomChange(_) =>
    case Frame(f, outcome) => FrameHolds(h, f, outcome);
    case Clear =>
      if h.life.Some? {
        SettleHolds(h, h.life.value, Cleared);
      }
  }

  lemma {:induction false} RunHolds(h: History, es: seq<Event>)
    requires Invariant(h)
    ensures Invariant(Run(h, es))
    decreases |es|
  {
    if es != [] {
      StepHolds(h, es[0]);
      RunHolds(Step(h, es[0]), es[1..]);
    }
  }

  // Every receipt issued is settled once, in order, or is the one still owed: the funnel runs at
  // most once for it, only under its own identity, and its tries are spaced.
  lemma ReceiptsSettleOnce(es: seq<Event>)
    ensures var h := Run(Fresh(), es);
            && |h.issued| == |h.settled| + (if h.o.kind != 0 then 1 else 0)
            && SettledWell(h)
  {
    RunHolds(Fresh(), es);
  }

  // A receipt owed names its downing, and one that is not owed holds nothing.
  predicate Shape(o: Owed) { if o.kind == 0 then o == NOTHING_OWED else o.identity != 0 }

  class Receipt {
    var kind: nat
    var identity: u64
    var waits: u32
    var lastWait: u32
    var carried: bool
    var fallback: After

    function Abs(): Owed
      reads this
    {
      Owed(kind, identity, waits, lastWait, carried, fallback)
    }

    ghost predicate Valid()
      reads this
    {
      Shape(Abs())
    }

    constructor ()
      ensures Valid() && Abs() == NOTHING_OWED
    {
      kind, identity, waits, lastWait, carried, fallback := 0, 0, 0, 0, false, SitOut;
    }

    method Forget()
      modifies this
      ensures Valid() && Abs() == NOTHING_OWED
    {
      kind, identity, waits, lastWait, carried, fallback := 0, 0, 0, 0, false, SitOut;
    }

    method OweReturn(newKind: nat, refusedInEvent: bool, known: bool, newIdentity: u64) returns (ok: bool)
      requires Valid()
      modifies this
      ensures Valid() && (Abs(), ok) == Owe(old(Abs()), newKind, refusedInEvent, known, newIdentity)
    {
      if newKind == 0 || !refusedInEvent || !known || newIdentity == 0 || kind != 0 {
        return false;
      }
      Forget();
      kind, identity := newKind, newIdentity;
      return true;
    }

    method AtTransition(plain: After) returns (ok: bool)
      requires Valid()
      modifies this
      ensures Valid() && (Abs(), ok) == Carry(old(Abs()), plain)
    {
      if kind == 0 {
        return false;
      }
      carried, fallback := true, plain;
      return true;
    }

    method OnFrame(f: Facts) returns (action: Action)
      requires Valid()
      modifies this
      ensures Valid() && (Abs(), action) == Decide(old(Abs()), f)
    {
      if kind == 0 {
        return Nothing;
      }
      if f.known && f.identity != identity {
        var wasCarried, plain := carried, fallback;
        Forget();
        return if !wasCarried then Forgotten else if plain == SitOut then RevokedSitOut else RevokedResolve;
      }
      if !f.known {
        return Nothing;
      }
      if carried {
        if !f.resolveReady {
          return Nothing;
        }
        Forget();
        return Resolved;
      }
      if !f.downed {
        Forget();
        return Forgotten;
      }
      if !f.applyReady || (waits != 0 && Minus(f.frame, lastWait, U32_RANGE) < OWED_RETRY_FRAMES) {
        return Nothing;
      }
      return Attempt;
    }

    method Report(outcome: Outcome, frame: u32)
      modifies this
      ensures old(Valid()) && old(kind) != 0 ==> Valid()
      ensures Abs() == Attempted(old(Abs()), outcome, frame)
    {
      if outcome != NotReady {
        Forget();
        return;
      }
      waits := (waits + 1) % U32_RANGE;
      lastWait := frame;
    }

    // The adapter's step; `outcome` is what the revive entry would report.
    method Tick(f: Facts, outcome: Outcome) returns (action: Action)
      requires Valid()
      modifies this
      ensures Valid() && (Abs(), action) == OwedTick(old(Abs()), f, outcome)
    {
      action := OnFrame(f);
      if action == Attempt {
        Report(outcome, f.frame);
      }
    }
  }

  // ---------------------------------------------------------------- the requests

  // One slot's latch.
  datatype Entry = Entry(episode: u64, frame: u32, attempts: nat)

  const NO_ENTRY := Entry(0, 0, 0)

  function Take(e: Entry, episode: u64, frame: u32): (Entry, bool) {
    if episode == 0 then (e, false)
    else if e.episode != episode then (Entry(episode, frame, 1), true)
    else if e.attempts >= RETURN_ATTEMPTS || Minus(frame, e.frame, U32_RANGE) < RETURN_RETRY_FRAMES then (e, false)
    else (Entry(episode, frame, e.attempts + 1), true)
  }

  // The requests granted, in order.
  function Grants(e: Entry, asks: seq<(u64, u32)>): (r: (Entry, seq<(u64, u32)>))
    decreases |asks|
  {
    if asks == [] then (e, [])
    else
      var (f, granted) := Grants(e, asks[..|asks| - 1]);
      var (g, ok) := Take(f, asks[|asks| - 1].0, asks[|asks| - 1].1);
      (g, if ok then granted + [asks[|asks| - 1]] else granted)
  }

  // The latch holds the last grants: how many in a row name its episode, and the last one's frame.
  predicate Holds(e: Entry, granted: seq<(u64, u32)>) {
    && e.attempts <= |granted| && e.attempts <= RETURN_ATTEMPTS
    && (forall i :: |granted| - e.attempts <= i < |granted| ==> granted[i].0 == e.episode)
    && (granted == [] ==> e == NO_ENTRY)
    && (granted != [] ==> e.attempts > 0 && e.frame == granted[|granted| - 1].1)
    && (e.attempts < |granted| ==> granted[|granted| - e.attempts - 1].0 != e.episode)
  }

  // The last three grants all name this downing.
  predicate Thrice(granted: seq<(u64, u32)>, episode: u64) {
    var n := |granted|;
    n >= 3 && granted[n - 1].0 == episode && granted[n - 2].0 == episode && granted[n - 3].0 == episode
  }

  // Four grants in a row never name one episode.
  predicate Few(granted: seq<(u64, u32)>) {
    forall i :: 0 <= i < |granted| ==> !Thrice(granted[..i], granted[i].0)
  }

  predicate Apart(granted: seq<(u64, u32)>) {
    forall i :: 0 < i < |granted| && granted[i].0 == granted[i - 1].0 ==>
      Minus(granted[i].1, granted[i - 1].1, U32_RANGE) >= RETURN_RETRY_FRAMES
  }

  lemma GrantHolds(e: Entry, granted: seq<(u64, u32)>, episode: u64, frame: u32)
    requires Holds(e, granted) && Take(e, episode, frame).1
    ensures Holds(Take(e, episode, frame).0, granted + [(episode, frame)])
  {
  }

  lemma GrantIsFew(e: Entry, granted: seq<(u64, u32)>, episode: u64, frame: u32)
    requires Holds(e, granted) && Few(granted) && Take(e, episode, frame).1
    ensures Few(granted + [(episode, frame)])
  {
    var n := |granted|;
    var more := granted + [(episode, frame)];
    forall i | 0 <= i < |more| ensures !Thrice(more[..i], more[i].0) {
      if i < n {
        assert more[..i] == granted[..i] && more[i] == granted[i];
      } else {
        assert more[..i] == granted && more[i].0 == episode;
        ThreeInARow(e, granted, episode);
      }
    }
  }

  lemma ThreeInARow(e: Entry, granted: seq<(u64, u32)>, episode: u64)
    requires Holds(e, granted) && episode != 0
    ensures Thrice(granted, episode) <==> e.episode == episode && e.attempts >= RETURN_ATTEMPTS
  {
    var n := |granted|;
    if n > 0 {
      assert granted[n - 1].0 == e.episode;
      if e.attempts < n {
        assert granted[n - e.attempts - 1].0 != e.episode;
      }
    }
  }

  lemma GrantIsApart(e: Entry, granted: seq<(u64, u32)>, episode: u64, frame: u32)
    requires Holds(e, granted) && Apart(granted) && Take(e, episode, frame).1
    ensures Apart(granted + [(episode, frame)])
  {
  }

  // One seat's downing is asked for at most three times in a row, 90 frames apart.
  lemma {:induction false} GrantsAreBounded(asks: seq<(u64, u32)>)
    ensures Holds(Grants(NO_ENTRY, asks).0, Grants(NO_ENTRY, asks).1) && Few(Grants(NO_ENTRY, asks).1)
    ensures Apart(Grants(NO_ENTRY, asks).1)
    decreases |asks|
  {
    if asks != [] {
      GrantsAreBounded(asks[..|asks| - 1]);
      var (f, granted) := Grants(NO_ENTRY, asks[..|asks| - 1]);
      var (episode, frame) := asks[|asks| - 1];
      if Take(f, episode, frame).1 {
        GrantHolds(f, granted, episode, frame);
        GrantIsFew(f, granted, episode, frame);
        GrantIsApart(f, granted, episode, frame);
      }
    }
  }

  // The three slots' latches.
  class Latch {
    const entries: array<Entry>

    ghost predicate Valid()
      reads this
    {
      entries.Length == 3
    }

    constructor ()
      ensures Valid() && fresh(entries) && entries[..] == [NO_ENTRY, NO_ENTRY, NO_ENTRY]
    {
      entries := new Entry[3](_ => NO_ENTRY);
    }

    method TakeSlot(slot: nat, episode: u64, frame: u32) returns (ok: bool)
      requires Valid()
      modifies entries
      ensures ok <==> slot < 3 && Take(old(entries[..])[slot], episode, frame).1
      ensures entries[..] == if slot < 3 then old(entries[..])[slot := Take(old(entries[..])[slot], episode, frame).0]
                             else old(entries[..])
    {
      if slot >= 3 || episode == 0 {
        return false;
      }
      var e := entries[slot];
      if e.episode != episode {
        entries[slot] := Entry(episode, frame, 1);
        return true;
      }
      if e.attempts >= RETURN_ATTEMPTS || Minus(frame, e.frame, U32_RANGE) < RETURN_RETRY_FRAMES {
        return false;
      }
      entries[slot] := Entry(episode, frame, e.attempts + 1);
      return true;
    }

    method Reset()
      requires Valid()
      modifies entries
      ensures entries[..] == [NO_ENTRY, NO_ENTRY, NO_ENTRY]
    {
      var i := 0;
      while i < 3
        invariant i <= 3 && forall k :: 0 <= k < i ==> entries[k] == NO_ENTRY
      {
        entries[i] := NO_ENTRY;
        i := i + 1;
      }
    }
  }

  // ---------------------------------------------------------------- what does happen

  // Over every run, from the receipt's own life: a frame tries the return exactly when the same
  // downing is known, still down and ready, no room was changed, and thirty frames have passed.
  lemma TriedIff(es: seq<Event>, f: Facts, outcome: Outcome)
    requires Run(Fresh(), es).life.Some?
    ensures var h := Run(Fresh(), es);
            var life := h.life.value;
            var due := |life.attempts| % U32_RANGE == 0 || Minus(f.frame, life.attempts[|life.attempts| - 1], U32_RANGE) >= 30;
            OwedTick(h.o, f, outcome).1 == Attempt <==>
            f.known && f.identity == life.identity && life.plain.None? && f.downed && f.applyReady && due
  {
    RunHolds(Fresh(), es);
  }

  // And it is settled exactly when a try is not put off, another downing is known, the player is up
  // again, or a room was changed and its rule can be applied.
  lemma SettledIff(es: seq<Event>, f: Facts, outcome: Outcome)
    requires Run(Fresh(), es).life.Some?
    ensures var h := Run(Fresh(), es);
            var life := h.life.value;
            Step(h, Frame(f, outcome)).life.None? <==>
            || (OwedTick(h.o, f, outcome).1 == Attempt && outcome != NotReady)
            || (f.known && f.identity != life.identity)
            || (f.known && life.plain.None? && !f.downed) || (f.known && life.plain.Some? && f.resolveReady)
  {
    RunHolds(Fresh(), es);
  }

  // A request is granted exactly when it names a downing that the last three grants did not all name,
  // and ninety frames have passed if the last one did.
  lemma GrantedIff(asks: seq<(u64, u32)>, episode: u64, frame: u32)
    ensures var (e, granted) := Grants(NO_ENTRY, asks);
            var n := |granted|;
            Take(e, episode, frame).1 <==>
            && episode != 0
            && !Thrice(granted, episode)
            && (n > 0 && granted[n - 1].0 == episode ==> Minus(frame, granted[n - 1].1, U32_RANGE) >= 90)
  {
    GrantsAreBounded(asks);
    var (e, granted) := Grants(NO_ENTRY, asks);
    if episode != 0 {
      ThreeInARow(e, granted, episode);
      if granted != [] {
        LastGrant(e, granted);
      }
    }
  }

  lemma LastGrant(e: Entry, granted: seq<(u64, u32)>)
    requires Holds(e, granted) && granted != []
    ensures granted[|granted| - 1] == (e.episode, e.frame)
  {
  }
}
