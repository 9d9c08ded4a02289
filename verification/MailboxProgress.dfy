// When the HUD mailbox delivers (inject/src/CoopHudMailbox.hpp): a store nobody disturbs makes its
// value visible, and copies, however many at once, return what is visible while nobody writes.
module MailboxProgress {
  import opened Common
  import opened Mailbox

  const LUCKY: Luck := Luck(true, true)

  // ---------------------------------------------------------------- a store by itself

  function Accesses<V>(id: nat, n: nat): seq<Move<V>> {
    if n == 0 then [] else [Access(id, LUCKY)] + Accesses(id, n - 1)
  }

  function Steps<V>(s: State<V>, id: nat, n: nat): State<V>
    decreases n
  {
    if n == 0 then s else Steps(Step(s, id, LUCKY), id, n - 1)
  }

  lemma {:induction false} AccessesAreSteps<V>(s: State<V>, id: nat, n: nat)
    ensures Run(s, Accesses(id, n)) == Steps(s, id, n)
    decreases n
  {
    if n > 0 {
      var ms: seq<Move<V>> := Accesses(id, n);
      assert ms[1..] == Accesses(id, n - 1);
      AccessesAreSteps(Step(s, id, LUCKY), id, n - 1);
    }
  }

  lemma StoreSteps<V>(s: State<V>, id: nat, v: V)
    requires id in s.calls && s.calls[id] == Publishing(v) && s.lock == Free && !s.stopped
    ensures var t := Steps(s, id, 8);
            && id in t.calls && t.calls[id] == Published && t.lock == Free && !t.stopped && t.revision == s.revision + 1
            && t.value == v && t.valueRevision == t.revision
  {
    var d := Steps(s, id, 4);
    TakesLock(s, id, v);
    FourAndFour(s, id);
    Stores(d, id, v, s.revision + 1);
  }

  lemma FourAndFour<V>(s: State<V>, id: nat)
    ensures Steps(s, id, 8) == Steps(Steps(s, id, 4), id, 4)
  {
    var a := Step(s, id, LUCKY);
    assert Steps(s, id, 8) == Steps(a, id, 7) && Steps(s, id, 4) == Steps(a, id, 3);
    var b := Step(a, id, LUCKY);
    assert Steps(a, id, 7) == Steps(b, id, 6) && Steps(a, id, 3) == Steps(b, id, 2);
  }

  lemma TakesLock<V>(s: State<V>, id: nat, v: V)
    requires id in s.calls && s.calls[id] == Publishing(v) && s.lock == Free && !s.stopped
    ensures var d := Steps(s, id, 4);
            && id in d.calls && d.calls[id] == Newest(v, s.revision + 1)
            && d.revision == s.revision + 1 && d.lock == Exclusive(id) && !d.stopped
  {
    var a := Step(s, id, LUCKY);
    var b := Step(a, id, LUCKY);
    assert b.calls[id] == Unlocked(v, s.revision + 1);
    assert Steps(s, id, 4) == Steps(b, id, 2);
  }

  lemma Stores<V>(d: State<V>, id: nat, v: V, ticket: nat)
    requires id in d.calls && d.calls[id] == Newest(v, ticket) && !d.stopped
    ensures var t := Steps(d, id, 4);
            && id in t.calls && t.calls[id] == Published && t.lock == Free && !t.stopped && t.revision == d.revision
            && t.value == v && t.valueRevision == ticket
  {
    var e := Step(d, id, LUCKY);
    var f := Step(e, id, LUCKY);
    assert f.calls[id] == Stamping(v, ticket);
    assert Steps(d, id, 4) == Steps(f, id, 2);
  }

  // A store that finds the lock free and the box open, and is not disturbed, is what is visible then.
  lemma StoreIsVisible<V>(s: State<V>, id: nat, v: V)
    requires id !in s.calls && s.lock == Free && !s.stopped
    ensures var t := Run(s, [Start(id, Publishing(v))] + Accesses(id, 8));
            Visible(t) == Some(v) && t.lock == Free && !t.stopped && id in t.calls && t.calls[id] == Published
  {
    var ms := [Start(id, Publishing(v))] + Accesses(id, 8);
    assert ms[1..] == Accesses(id, 8);
    AccessesAreSteps(Begin(s, id, Publishing(v)), id, 8);
    StoreSteps(Begin(s, id, Publishing(v)), id, v);
  }

  // ---------------------------------------------------------------- copies with nobody writing

  // A copy on its way while nothing is written.
  predicate OnCourse<V(==)>(s: State<V>, c: Call<V>) {
    match c
    case Copying => true
    case Read(t) => t == s.revision
    case Waiting(t) => t == s.revision
    case Holding(t) => t == s.revision
    case Copied(t, v) => t == s.revision && v == s.value
    case Compared(t, v, matched) => t == s.revision && v == s.value && matched == (s.valueRevision == s.revision)
    case Released(t, v, matched) => t == s.revision && v == s.value && matched == (s.valueRevision == s.revision)
    case Rechecked(v) => v == s.value && s.valueRevision == s.revision
    case Done(result) => result == Visible(s)
    case _ => false
  }

  // Nobody is writing, invalidating or stopping; `readers` are the copies being made.
  predicate Quiet<V(==)>(s: State<V>, readers: set<nat>) {
    && !s.stopped && !s.lock.Exclusive?
    && (forall id | id in s.calls && id !in readers :: Finished(s.calls[id]))
    && forall id | id in s.calls && id in readers :: OnCourse(s, s.calls[id])
  }

  predicate CopyMove<V>(m: Move<V>) {
    match m case Start(_, c) => c.Copying? case Access(_, luck) => luck == LUCKY
  }

  function Reads<V>(readers: set<nat>, s: State<V>, m: Move<V>): set<nat> {
    match m case Start(id, _) => if id in s.calls then readers else readers + {id} case Access(_, _) => readers
  }

  // An access touches no other call.
  lemma StepElsewhere<V>(s: State<V>, id: nat, luck: Luck)
    ensures Step(s, id, luck).calls.Keys == s.calls.Keys
    ensures forall j | j in s.calls && j != id :: Step(s, id, luck).calls[j] == s.calls[j]
  {
    if id in s.calls {
      assert s.calls.Keys + {id} == s.calls.Keys;
      assert Step(s, id, luck).calls == s.calls[id := Step(s, id, luck).calls[id]] by {
        GoneTo(s, id, luck);
      }
    }
  }

  lemma GoneTo<V>(s: State<V>, id: nat, luck: Luck)
    requires id in s.calls
    ensures id in Step(s, id, luck).calls && Step(s, id, luck).calls == s.calls[id := Step(s, id, luck).calls[id]]
  {
    var c := s.calls[id];
    if c.Publishing? || Ticketing(c) || c.Releasing? {
      WriterGoneTo(s, id, luck);
    } else if Left(c) > 0 {
      ReaderGoneTo(s, id, luck);
    }
  }

  lemma WriterGoneTo<V>(s: State<V>, id: nat, luck: Luck)
    requires id in s.calls && (s.calls[id].Publishing? || Ticketing(s.calls[id]) || s.calls[id].Releasing?)
    ensures id in Step(s, id, luck).calls && Step(s, id, luck).calls == s.calls[id := Step(s, id, luck).calls[id]]
  {
  }

  lemma ReaderGoneTo<V>(s: State<V>, id: nat, luck: Luck)
    requires id in s.calls && Left(s.calls[id]) > 0
    ensures id in Step(s, id, luck).calls && Step(s, id, luck).calls == s.calls[id := Step(s, id, luck).calls[id]]
  {
  }

  // What a copy sees of the box is as before.
  predicate SameBox<V(==)>(s: State<V>, t: State<V>) {
    t.revision == s.revision && t.value == s.value && t.valueRevision == s.valueRevision && t.stopped == s.stopped
  }

  lemma CopyStep<V>(s: State<V>, id: nat)
    requires id in s.calls && OnCourse(s, s.calls[id]) && !s.stopped && !s.lock.Exclusive?
    ensures var t := Step(s, id, LUCKY); SameBox(s, t) && !t.lock.Exclusive? && id in t.calls && OnCourse(t, t.calls[id])
  {
  }

  lemma QuietStep<V>(s: State<V>, readers: set<nat>, m: Move<V>)
    requires Quiet(s, readers) && CopyMove(m)
    ensures Quiet(Apply(s, m), Reads(readers, s, m)) && Visible(Apply(s, m)) == Visible(s)
    ensures Apply(s, m).calls.Keys == s.calls.Keys + (if m.Start? then {m.id} else {})
  {
    match m
    case Start(id, c) =>
    case Access(id, luck) =>
      StepElsewhere(s, id, luck);
      if id in readers && id in s.calls {
        CopyStep(s, id);
      }
      OthersOnCourse(s, Step(s, id, luck), readers, id);
  }

  lemma OthersOnCourse<V>(s: State<V>, t: State<V>, readers: set<nat>, id: nat)
    requires Quiet(s, readers) && SameBox(s, t) && !t.lock.Exclusive? && t.calls.Keys == s.calls.Keys
    requires forall j | j in s.calls && j != id :: t.calls[j] == s.calls[j]
    requires id in t.calls ==> if id in readers then OnCourse(t, t.calls[id]) else Finished(t.calls[id])
    ensures Quiet(t, readers) && Visible(t) == Visible(s)
  {
    forall j | j in t.calls && j in readers && j != id ensures OnCourse(t, t.calls[j]) {
      assert OnCourse(s, s.calls[j]);
    }
  }

  function AllReads<V>(readers: set<nat>, s: State<V>, ms: seq<Move<V>>): set<nat>
    decreases |ms|
  {
    if ms == [] then readers else AllReads(Reads(readers, s, ms[0]), Apply(s, ms[0]), ms[1..])
  }

  lemma {:induction false} QuietRun<V>(s: State<V>, readers: set<nat>, ms: seq<Move<V>>)
    requires Quiet(s, readers) && forall i :: 0 <= i < |ms| ==> CopyMove(ms[i])
    ensures Quiet(Run(s, ms), AllReads(readers, s, ms)) && Visible(Run(s, ms)) == Visible(s)
    ensures readers <= AllReads(readers, s, ms)
    ensures forall i :: 0 <= i < |ms| && ms[i].Start? && ms[i].id !in s.calls ==>
              ms[i].id in AllReads(readers, s, ms) && ms[i].id in Run(s, ms).calls
    ensures s.calls.Keys <= Run(s, ms).calls.Keys
    decreases |ms|
  {
    if ms != [] {
      QuietStep(s, readers, ms[0]);
      QuietRun(Apply(s, ms[0]), Reads(readers, s, ms[0]), ms[1..]);
      forall i | 0 <= i < |ms| && ms[i].Start? && ms[i].id !in s.calls
        ensures ms[i].id in AllReads(readers, s, ms) && ms[i].id in Run(s, ms).calls
      {
        if i > 0 {
          assert ms[1..][i - 1] == ms[i];
          assert ms[i].id in Apply(s, ms[0]).calls ==> ms[0].Start? && ms[0].id == ms[i].id;
        }
      }
    }
  }

  // While nobody writes, every copy begun and finished, interleaved with any others in any way,
  // returns exactly what is visible: the value, or nothing when there is none.
  lemma CopiesAgree<V>(s: State<V>, ms: seq<Move<V>>, i: nat)
    requires !s.stopped && !s.lock.Exclusive? && forall id | id in s.calls :: Finished(s.calls[id])
    requires (forall k :: 0 <= k < |ms| ==> CopyMove(ms[k])) && i < |ms| && ms[i].Start? && ms[i].id !in s.calls
    ensures ms[i].id in Run(s, ms).calls
    ensures Run(s, ms).calls[ms[i].id].Done? ==> Run(s, ms).calls[ms[i].id] == Done(Visible(s))
  {
    QuietRun(s, {}, ms);
    var t := Run(s, ms);
    assert OnCourse(t, t.calls[ms[i].id]);
  }

  // How many accesses a copy still makes at most.
  function Left<V>(c: Call<V>): nat {
    match c
    case Copying => 8
    case Read(_) => 7
    case Waiting(_) => 6
    case Holding(_) => 5
    case Copied(_, _) => 4
    case Compared(_, _, _) => 3
    case Released(_, _, _) => 2
    case Rechecked(_) => 1
    case _ => 0
  }

  // Each of its accesses brings a copy nearer its end, whatever its luck, so no copy waits.
  lemma CopyAdvances<V>(s: State<V>, id: nat, luck: Luck)
    requires id in s.calls && Left(s.calls[id]) > 0
    ensures Left(Step(s, id, luck).calls[id]) < Left(s.calls[id])
    ensures Left(Step(s, id, luck).calls[id]) == 0 ==> Step(s, id, luck).calls[id].Done?
  {
  }

  // A store and then a copy, neither disturbed: the copy returns the value stored.
  lemma StoredIsCopied<V>(s: State<V>, writer: nat, v: V, reader: nat)
    requires writer !in s.calls && reader !in s.calls && reader != writer && s.lock == Free && !s.stopped
    requires forall id | id in s.calls :: Finished(s.calls[id])
    ensures var t := Run(s, [Start(writer, Publishing(v))] + Accesses(writer, 8));
            var u := Run(t, [Start(reader, Copying)] + Accesses(reader, 8));
            reader in u.calls && u.calls[reader] == Done(Some(v))
  {
    StoreIsVisible(s, writer, v);
    StoreLeavesOthers(s, writer, v);
    CopyAlone(Run(s, [Start(writer, Publishing(v))] + Accesses(writer, 8)), reader);
  }

  lemma StoreLeavesOthers<V>(s: State<V>, writer: nat, v: V)
    requires writer !in s.calls
    ensures var t := Run(s, [Start(writer, Publishing(v))] + Accesses(writer, 8));
            t.calls.Keys == s.calls.Keys + {writer} && forall j | j in s.calls :: t.calls[j] == s.calls[j]
  {
    var ms := [Start(writer, Publishing(v))] + Accesses(writer, 8);
    var b := Begin(s, writer, Publishing(v));
    assert ms[1..] == Accesses(writer, 8);
    AccessesAreSteps(b, writer, 8);
    StepsLeaveOthers(b, writer, 8);
  }

  // An undisturbed copy finishes with what is visible.
  lemma CopyAlone<V>(t: State<V>, reader: nat)
    requires !t.stopped && !t.lock.Exclusive? && reader !in t.calls && forall id | id in t.calls :: Finished(t.calls[id])
    ensures var u := Run(t, [Start(reader, Copying)] + Accesses(reader, 8));
            reader in u.calls && u.calls[reader] == Done(Visible(t))
  {
    var ms := [Start(reader, Copying)] + Accesses(reader, 8);
    AccessesCopy<V>(reader, 8);
    CopiesAgree(t, ms, 0);
    assert ms[1..] == Accesses(reader, 8);
    AccessesAreSteps(Begin(t, reader, Copying), reader, 8);
    StepsFinish(Begin(t, reader, Copying), reader, 8);
  }

  lemma {:induction false} AccessesCopy<V>(id: nat, n: nat)
    ensures forall k :: 0 <= k < |Accesses<V>(id, n)| ==> CopyMove(Accesses<V>(id, n)[k])
  {
    if n > 0 {
      AccessesCopy<V>(id, n - 1);
    }
  }

  lemma {:induction false} StepsLeaveOthers<V>(s: State<V>, id: nat, n: nat)
    requires id in s.calls
    ensures Steps(s, id, n).calls.Keys == s.calls.Keys
    ensures forall j | j in s.calls && j != id :: Steps(s, id, n).calls[j] == s.calls[j]
    decreases n
  {
    if n > 0 {
      StepElsewhere(s, id, LUCKY);
      StepsLeaveOthers(Step(s, id, LUCKY), id, n - 1);
    }
  }

  lemma {:induction false} StepsFinish<V>(s: State<V>, id: nat, n: nat)
    requires id in s.calls && (s.calls[id].Done? || 0 < Left(s.calls[id]) <= n)
    ensures id in Steps(s, id, n).calls && Steps(s, id, n).calls[id].Done?
    decreases n
  {
    if n > 0 {
      if !s.calls[id].Done? {
        CopyAdvances(s, id, LUCKY);
      }
      StepsFinish(Step(s, id, LUCKY), id, n - 1);
    }
  }
}
