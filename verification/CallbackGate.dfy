// The callback gate (inject/src/DownedSpectateAdapter.hpp): readers enter by compare-and-swap, a
// drainer closes the gate and waits for the last of them before it retires what they use. Each
// atomic access is one step; steps of any number of readers and one drainer interleave freely.
module CallbackGate {
  // The atomic word: how many are inside, and whether the gate is closed.
  datatype Word = Word(inside: nat, closed: bool)

  datatype Reader = Outside | Loaded(value: Word) | Inside | Refused

  datatype Drainer = Running | Closed | Waiting | Retired | Declined

  datatype State = State(word: Word, readers: map<nat, Reader>, drainer: Drainer)

  function Initial(): State { State(Word(0, false), map[], Running) }

  datatype Move =
    | Load(id: nat)
    | Swap(id: nat, spurious: bool)
    | Leave(id: nat)
    | Close
    | StopFollow(insideCallback: bool)
    | CheckDrained

  // A reader looks, then swaps if the word is still what it saw; a failed swap looks again.
  function Step(s: State, m: Move): State {
    match m
    case Load(id) =>
      if id in s.readers && s.readers[id] != Outside then s
      else s.(readers := s.readers[id := if s.word.closed then Refused else Loaded(s.word)])
    case Swap(id, spurious) =>
      if id !in s.readers || !s.readers[id].Loaded? then s
      else if !spurious && s.readers[id].value == s.word then
        s.(word := s.word.(inside := s.word.inside + 1), readers := s.readers[id := Inside])
      else s.(readers := s.readers[id := if s.word.closed then Refused else Loaded(s.word)])
    case Leave(id) =>
      if id !in s.readers || s.readers[id] != Inside || s.word.inside == 0 then s
      else s.(word := s.word.(inside := s.word.inside - 1), readers := s.readers[id := Outside])
    case Close => if s.drainer == Running then s.(word := s.word.(closed := true), drainer := Closed) else s
    case StopFollow(insideCallback) =>
      if s.drainer != Closed then s else s.(drainer := if insideCallback then Declined else Waiting)
    case CheckDrained => if s.drainer == Waiting && s.word.inside == 0 then s.(drainer := Retired) else s
  }

  function Run(s: State, ms: seq<Move>): State
    decreases |ms|
  {
    if ms == [] then s else Run(Step(s, ms[0]), ms[1..])
  }

  function Occupants(readers: map<nat, Reader>): set<nat> { set id | id in readers && readers[id] == Inside }

  // The count is the readers inside; a reader about to swap saw the gate open; past the close the
  // gate is closed; a retirement found nobody inside.
  predicate Invariant(s: State) {
    && s.word.inside == |Occupants(s.readers)|
    && (forall id | id in s.readers && s.readers[id].Loaded? :: !s.readers[id].value.closed)
    && (s.drainer != Running ==> s.word.closed)
    && (s.drainer == Retired ==> s.word.inside == 0)
  }

  lemma InitialHolds()
    ensures Invariant(Initial())
  {
    assert Occupants(Initial().readers) == {};
  }

  lemma EnterCounts(readers: map<nat, Reader>, id: nat)
    requires id !in readers || readers[id] != Inside
    ensures Occupants(readers[id := Inside]) == Occupants(readers) + {id} && id !in Occupants(readers)
  {
  }

  lemma OtherCounts(readers: map<nat, Reader>, id: nat, r: Reader)
    requires (id !in readers || readers[id] != Inside) && r != Inside
    ensures Occupants(readers[id := r]) == Occupants(readers)
  {
  }

  lemma LeaveCounts(readers: map<nat, Reader>, id: nat)
    requires id in readers && readers[id] == Inside
    ensures Occupants(readers[id := Outside]) == Occupants(readers) - {id} && id in Occupants(readers)
  {
  }

  lemma SwapHolds(s: State, id: nat, spurious: bool)
    requires Invariant(s) && id in s.readers && s.readers[id].Loaded?
    ensures Invariant(Step(s, Swap(id, spurious)))
  {
    if !spurious && s.readers[id].value == s.word {
      EnterCounts(s.readers, id);
    } else {
      OtherCounts(s.readers, id, if s.word.closed then Refused else Loaded(s.word));
    }
  }

  lemma LeaveHolds(s: State, id: nat)
    requires Invariant(s) && id in s.readers && s.readers[id] == Inside
    ensures Invariant(Step(s, Leave(id)))
  {
    LeaveCounts(s.readers, id);
  }

  lemma StepHolds(s: State, m: Move)
    requires Invariant(s)
    ensures Invariant(Step(s, m))
  {
    match m
    case Load(id) =>
      if id !in s.readers || s.readers[id] == Outside {
        OtherCounts(s.readers, id, if s.word.closed then Refused else Loaded(s.word));
      }
    case Swap(id, spurious) =>
      if id in s.readers && s.readers[id].Loaded? {
        SwapHolds(s, id, spurious);
      }
    case Leave(id) =>
      if id in s.readers && s.readers[id] == Inside {
        LeaveHolds(s, id);
      }
    case _ =>
  }

  lemma {:induction false} RunHolds(s: State, ms: seq<Move>)
    requires Invariant(s)
    ensures Invariant(Run(s, ms))
    decreases |ms|
  {
    if ms != [] {
      StepHolds(s, ms[0]);
      RunHolds(Step(s, ms[0]), ms[1..]);
    }
  }

  // Once closed the gate lets nobody new in: the readers inside are some of those inside before.
  lemma {:induction false} ClosedOnlyEmpties(s: State, ms: seq<Move>)
    requires Invariant(s) && s.word.closed
    ensures Run(s, ms).word.closed && Occupants(Run(s, ms).readers) <= Occupants(s.readers)
    decreases |ms|
  {
    if ms != [] {
      StepHolds(s, ms[0]);
      StepEmpties(s, ms[0]);
      ClosedOnlyEmpties(Step(s, ms[0]), ms[1..]);
    }
  }

  lemma StepEmpties(s: State, m: Move)
    requires Invariant(s) && s.word.closed
    ensures Step(s, m).word.closed && Occupants(Step(s, m).readers) <= Occupants(s.readers)
  {
  }

  // Retirement is safe: when the drainer retires, and ever after, no reader is inside.
  lemma RetireIsSafe(before: seq<Move>, after: seq<Move>)
    requires Run(Initial(), before).drainer == Retired
    ensures Occupants(Run(Initial(), before).readers) == {}
    ensures Occupants(Run(Run(Initial(), before), after).readers) == {}
  {
    InitialHolds();
    RunHolds(Initial(), before);
    var s := Run(Initial(), before);
    assert |Occupants(s.readers)| == 0;
    ClosedOnlyEmpties(s, after);
  }

  lemma {:induction false} DeclinedStays(s: State, ms: seq<Move>)
    requires s.drainer == Declined
    ensures Run(s, ms).drainer == Declined
    decreases |ms|
  {
    if ms != [] {
      DeclinedStays(Step(s, ms[0]), ms[1..]);
    }
  }

  // A drainer called from inside a callback never retires, whatever follows its call.
  lemma InsideNeverRetires(before: seq<Move>, after: seq<Move>)
    requires Run(Initial(), before).drainer == Closed
    ensures Run(Step(Run(Initial(), before), StopFollow(true)), after).drainer == Declined
  {
    DeclinedStays(Step(Run(Initial(), before), StopFollow(true)), after);
  }

  // ---------------------------------------------------------------- what does happen

  // A reader that looks and swaps undisturbed is let in exactly when the gate is open.
  lemma LetInIff(s: State, id: nat)
    requires id !in s.readers || s.readers[id] == Outside
    ensures var t := Step(Step(s, Load(id)), Swap(id, false));
            && t.readers[id] == (if s.word.closed then Refused else Inside)
            && t.word == (if s.word.closed then s.word else s.word.(inside := s.word.inside + 1))
  {
  }

  // Over every run, a waiting drainer retires exactly when no reader is inside.
  lemma RetiresIff(before: seq<Move>)
    requires Run(Initial(), before).drainer == Waiting
    ensures var s := Run(Initial(), before); Step(s, CheckDrained).drainer == Retired <==> Occupants(s.readers) == {}
  {
    InitialHolds();
    RunHolds(Initial(), before);
  }

  ghost predicate OnlyLeaves(ms: seq<Move>) { forall i :: 0 <= i < |ms| ==> ms[i].Leave? }

  // The readers inside have only to leave for a waiting drainer to retire.
  lemma {:induction false} DrainerRetires(s: State)
    requires Invariant(s) && s.drainer == Waiting
    ensures exists ms :: OnlyLeaves(ms) && Step(Run(s, ms), CheckDrained).drainer == Retired
    decreases s.word.inside
  {
    if s.word.inside == 0 {
      assert OnlyLeaves([]) && Run(s, []) == s;
    } else {
      var id :| id in Occupants(s.readers);
      LeaveHolds(s, id);
      var t := Step(s, Leave(id));
      DrainerRetires(t);
      var ms :| OnlyLeaves(ms) && Step(Run(t, ms), CheckDrained).drainer == Retired;
      var all := [Leave(id)] + ms;
      assert all[1..] == ms && OnlyLeaves(all);
      assert Run(s, all) == Run(t, ms);
    }
  }
}
