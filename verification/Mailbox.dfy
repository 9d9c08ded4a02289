// The HUD mailbox (inject/src/CoopHudMailbox.hpp): a try-lock and a revision ticket between a
// writer, a reader and a stopper. Each atomic access is one step, and steps of any number of calls
// interleave freely.
module Mailbox {
  import opened Common

  datatype Lock = Free | Exclusive(owner: nat) | Shared(readers: set<nat>)

  // Where a call has got to.
  datatype Call<V> =
    // TryPublish: take a ticket, look at the stop flag, try the lock, check the ticket and the flag,
    // store value and revision, release.
    | Publishing(value: V)
    | Ticketed(value: V, ticket: nat)
    | Unlocked(value: V, ticket: nat)
    | Locked(value: V, ticket: nat)
    | Newest(value: V, ticket: nat)
    | Storing(value: V, ticket: nat)
    | Stamping(value: V, ticket: nat)
    | Releasing(stored: bool)
    // TryCopy: read the revision, look at the stop flag, try the lock, copy value and revision,
    // release, read the revision and the flag again.
    | Copying
    | Read(seen: nat)
    | Waiting(seen: nat)
    | Holding(seen: nat)
    | Copied(seen: nat, copy: V)
    | Compared(seen: nat, copy: V, matched: bool)
    | Released(seen: nat, copy: V, matched: bool)
    | Rechecked(copy: V)
    // Invalidate and Stop.
    | Invalidating
    | Stopping
    | Stopped
    // A finished call: a store that succeeded, or any other with what it returns.
    | Published
    | Done(result: Option<V>)

  // `takers` records which call took each publishing ticket.
  datatype State<V> = State(
    revision: nat, stopped: bool, lock: Lock, value: V, valueRevision: nat, calls: map<nat, Call<V>>, takers: map<nat, nat>)

  function Initial<V>(empty: V): State<V> { State(1, false, Free, empty, 0, map[], map[]) }

  // A caller's luck: whether a try-lock on a free lock is granted, and whether the copy is recent.
  datatype Luck = Luck(granted: bool, recent: bool)

  function Go<V>(s: State<V>, id: nat, c: Call<V>): State<V> { s.(calls := s.calls[id := c]) }

  function Begin<V>(s: State<V>, id: nat, c: Call<V>): State<V> {
    if id in s.calls || !(c.Publishing? || c.Copying? || c.Invalidating? || c.Stopping?) then s else Go(s, id, c)
  }

  function Unshare(l: Lock, id: nat): Lock {
    match l
    case Shared(readers) => if readers == {id} then Free else Shared(readers - {id})
    case _ => l
  }

  // One atomic access of call `id`.
  function Step<V>(s: State<V>, id: nat, luck: Luck): State<V> {
    if id !in s.calls then s
    else match s.calls[id]
      case Publishing(v) =>
        Go(s, id, Ticketed(v, s.revision + 1)).(revision := s.revision + 1, takers := s.takers[s.revision + 1 := id])
      case Ticketed(v, t) => if s.stopped then Go(s, id, Done(None)) else Go(s, id, Unlocked(v, t))
      case Unlocked(v, t) =>
        if s.lock == Free && luck.granted then Go(s, id, Locked(v, t)).(lock := Exclusive(id)) else Go(s, id, Done(None))
      case Locked(v, t) => if s.revision == t then Go(s, id, Newest(v, t)) else Go(s, id, Releasing(false))
      case Newest(v, t) => if s.stopped then Go(s, id, Releasing(false)) else Go(s, id, Storing(v, t))
      case Storing(v, t) => Go(s, id, Stamping(v, t)).(value := v)
      case Stamping(v, t) => Go(s, id, Releasing(true)).(valueRevision := t)
      case Releasing(stored) => Go(s, id, if stored then Published else Done(None)).(lock := Free)
      case Copying => Go(s, id, Read(s.revision))
      case Read(t) => if s.stopped then Go(s, id, Done(None)) else Go(s, id, Waiting(t))
      case Waiting(t) =>
        if !luck.granted || s.lock.Exclusive? then Go(s, id, Done(None))
        else Go(s, id, Holding(t)).(lock := Shared(if s.lock.Shared? then s.lock.readers + {id} else {id}))
      case Holding(t) => Go(s, id, Copied(t, s.value))
      case Copied(t, v) => Go(s, id, Compared(t, v, s.valueRevision == t))
      case Compared(t, v, matched) => Go(s, id, Released(t, v, matched)).(lock := Unshare(s.lock, id))
      case Released(t, v, matched) =>
        if matched && s.revision == t then Go(s, id, Rechecked(v)) else Go(s, id, Done(None))
      case Rechecked(v) => Go(s, id, Done(if s.stopped || !luck.recent then None else Some(v)))
      case Invalidating => Go(s, id, Done(None)).(revision := s.revision + 1)
      case Stopping => Go(s, id, Stopped).(stopped := true)
      case Stopped => Go(s, id, Done(None)).(revision := s.revision + 1)
      case Published => s
      case Done(_) => s
  }

  predicate Finished<V>(c: Call<V>) { c.Done? || c.Published? }

  // ---------------------------------------------------------------- the atomic object it stands for

  // What a copy taken at this instant would see: the value whose ticket is the newest revision.
  function Visible<V>(s: State<V>): Option<V> {
    if s.valueRevision == s.revision then Some(s.value) else None
  }

  // ---------------------------------------------------------------- the invariant

  function TicketOf<V>(c: Call<V>): nat {
    match c
    case Ticketed(_, t) => t
    case Unlocked(_, t) => t
    case Locked(_, t) => t
    case Newest(_, t) => t
    case Storing(_, t) => t
    case Stamping(_, t) => t
    case _ => 0
  }

  // A publisher that has taken its ticket and not yet stored.
  predicate Ticketing<V>(c: Call<V>) {
    c.Ticketed? || c.Unlocked? || c.Locked? || c.Newest? || c.Storing? || c.Stamping?
  }

  predicate HasExclusive<V>(c: Call<V>) { c.Locked? || c.Newest? || c.Storing? || c.Stamping? || c.Releasing? }

  predicate HasShared<V>(c: Call<V>) { c.Holding? || c.Copied? || c.Compared? }

  // Past its ticket check, about to store.
  predicate Admitted<V>(c: Call<V>) { c.Newest? || c.Storing? || c.Stamping? }

  // A copy that found its ticket on the value, and the ticket is still the newest revision.
  predicate MatchedLive<V>(s: State<V>, c: Call<V>) {
    (c.Compared? || c.Released?) && c.matched && c.seen == s.revision
  }

  predicate LockOk<V>(s: State<V>, id: nat, c: Call<V>) {
    (HasExclusive(c) <==> s.lock == Exclusive(id)) && (HasShared(c) <==> s.lock.Shared? && id in s.lock.readers)
  }

  // A ticket is a revision taken by this call alone; a publisher past its check is newer than the
  // stored value.
  predicate TicketOk<V>(s: State<V>, id: nat, c: Call<V>) {
    && (Ticketing(c) ==>
          && 0 < TicketOf(c) <= s.revision && s.valueRevision != TicketOf(c)
          && TicketOf(c) in s.takers && s.takers[TicketOf(c)] == id)
    && (Admitted(c) ==> s.valueRevision < TicketOf(c))
  }

  // A copy under the lock is the stored value; a matched one that is still newest is what is visible.
  ghost predicate CopyOk<V>(s: State<V>, c: Call<V>) {
    && (c.Copied? ==> c.copy == s.value)
    && (c.Stamping? ==> s.value == c.value)
    && ((c.Read? || c.Waiting? || c.Holding? || c.Copied? || c.Compared? || c.Released?) ==> c.seen <= s.revision)
    && (MatchedLive(s, c) ==> Visible(s) == Some(c.copy))
  }

  ghost predicate CallOk<V>(s: State<V>, id: nat, c: Call<V>) { LockOk(s, id, c) && TicketOk(s, id, c) && CopyOk(s, c) }

  predicate SharedOk<V>(s: State<V>) {
    && s.valueRevision <= s.revision && s.revision > 0
    && (forall t | t in s.takers :: t <= s.revision)
    && (s.lock.Exclusive? ==> s.lock.owner in s.calls)
    && (s.lock.Shared? ==> s.lock.readers != {} && forall id | id in s.lock.readers :: id in s.calls)
  }

  ghost predicate Invariant<V>(s: State<V>) {
    SharedOk(s) && forall id | id in s.calls :: CallOk(s, id, s.calls[id])
  }

  lemma InitialHolds<V>(empty: V)
    ensures Invariant(Initial(empty)) && Visible(Initial(empty)) == None
  {
  }

  // Every other call stays as good as it was.
  ghost predicate Frames<V>(s: State<V>, t: State<V>, id: nat) {
    && (forall j | j in t.calls && j != id :: j in s.calls && t.calls[j] == s.calls[j])
    && forall j | j in s.calls && j != id :: CallOk(t, j, s.calls[j])
  }

  lemma Combine<V>(s: State<V>, t: State<V>, id: nat)
    requires Frames(s, t, id) && SharedOk(t) && id in t.calls && CallOk(t, id, t.calls[id])
    ensures Invariant(t)
  {
  }

  // ---------------------------------------------------------------- each kind of access

  // A step that changes nothing shared.
  lemma LocalHolds<V>(s: State<V>, id: nat, c: Call<V>)
    requires Invariant(s) && CallOk(s, id, c)
    ensures Invariant(Go(s, id, c))
  {
    var t := Go(s, id, c);
    forall j | j in s.calls && j != id ensures CallOk(t, j, s.calls[j]) {
      assert CallOk(s, j, s.calls[j]);
    }
    assert CallOk(t, id, c);
    Combine(s, t, id);
  }

  // A new revision: no matched copy is live any more.
  lemma BumpHolds<V>(s: State<V>, id: nat, c: Call<V>, takers: map<nat, nat>)
    requires Invariant(s) && id in s.calls
    requires takers == s.takers || takers == s.takers[s.revision + 1 := id]
    requires CallOk(Go(s, id, c).(revision := s.revision + 1, takers := takers), id, c)
    ensures Invariant(Go(s, id, c).(revision := s.revision + 1, takers := takers))
  {
    var t := Go(s, id, c).(revision := s.revision + 1, takers := takers);
    forall j | j in s.calls && j != id ensures CallOk(t, j, s.calls[j]) {
      assert CallOk(s, j, s.calls[j]);
    }
    Combine(s, t, id);
  }

  lemma LockHolds<V>(s: State<V>, id: nat, c: Call<V>, lock: Lock)
    requires Invariant(s) && id in s.calls && CallOk(Go(s, id, c).(lock := lock), id, c)
    requires forall j | j in s.calls && j != id ::
               (s.lock == Exclusive(j) <==> lock == Exclusive(j))
               && ((s.lock.Shared? && j in s.lock.readers) <==> (lock.Shared? && j in lock.readers))
    requires (lock.Exclusive? ==> lock.owner == id) && (lock.Shared? ==> lock.readers != {} && forall j | j in lock.readers :: j in s.calls)
    ensures Invariant(Go(s, id, c).(lock := lock))
  {
    var t := Go(s, id, c).(lock := lock);
    forall j | j in s.calls && j != id ensures CallOk(t, j, s.calls[j]) {
      assert CallOk(s, j, s.calls[j]);
    }
    Combine(s, t, id);
  }

  // The owner of the lock writes the value: nothing was visible, and no copy is being made.
  lemma StoreHolds<V>(s: State<V>, id: nat, v: V, ticket: nat)
    requires Invariant(s) && id in s.calls && s.calls[id] == Storing(v, ticket)
    ensures Invariant(Go(s, id, Stamping(v, ticket)).(value := v)) && Visible(s) == None
  {
    var t := Go(s, id, Stamping(v, ticket)).(value := v);
    assert CallOk(s, id, s.calls[id]);
    forall j | j in s.calls && j != id ensures CallOk(t, j, s.calls[j]) {
      assert CallOk(s, j, s.calls[j]);
    }
    assert CallOk(t, id, t.calls[id]);
    Combine(s, t, id);
  }

  lemma StampHolds<V>(s: State<V>, id: nat, v: V, ticket: nat)
    requires Invariant(s) && id in s.calls && s.calls[id] == Stamping(v, ticket)
    ensures Invariant(Go(s, id, Releasing(true)).(valueRevision := ticket)) && s.value == v && Visible(s) == None
  {
    var t := Go(s, id, Releasing(true)).(valueRevision := ticket);
    assert CallOk(s, id, s.calls[id]);
    forall j | j in s.calls && j != id ensures CallOk(t, j, s.calls[j]) {
      assert CallOk(s, j, s.calls[j]);
    }
    assert CallOk(t, id, t.calls[id]);
    Combine(s, t, id);
  }

  // ---------------------------------------------------------------- every step

  lemma TicketHolds<V>(s: State<V>, id: nat, luck: Luck)
    requires Invariant(s) && id in s.calls && (s.calls[id].Publishing? || s.calls[id].Ticketed? || s.calls[id].Unlocked?)
    ensures Invariant(Step(s, id, luck))
  {
    assert CallOk(s, id, s.calls[id]);
    match s.calls[id]
    case Publishing(v) => BumpHolds(s, id, Ticketed(v, s.revision + 1), s.takers[s.revision + 1 := id]);
    case Ticketed(v, t) => LocalHolds(s, id, if s.stopped then Done(None) else Unlocked(v, t));
    case Unlocked(v, t) =>
      if s.lock == Free && luck.granted {
        LockHolds(s, id, Locked(v, t), Exclusive(id));
      } else {
        LocalHolds(s, id, Done(None));
      }
  }

  lemma CheckHolds<V>(s: State<V>, id: nat, luck: Luck)
    requires Invariant(s) && id in s.calls && (s.calls[id].Locked? || s.calls[id].Newest?)
    ensures Invariant(Step(s, id, luck))
  {
    assert CallOk(s, id, s.calls[id]);
    match s.calls[id]
    case Locked(v, t) => LocalHolds(s, id, if s.revision == t then Newest(v, t) else Releasing(false));
    case Newest(v, t) => LocalHolds(s, id, if s.stopped then Releasing(false) else Storing(v, t));
  }

  lemma PublisherHolds<V>(s: State<V>, id: nat, luck: Luck)
    requires Invariant(s) && id in s.calls
    requires var c := s.calls[id]; c.Publishing? || Ticketing(c) || c.Releasing?
    ensures Invariant(Step(s, id, luck))
  {
    assert CallOk(s, id, s.calls[id]);
    match s.calls[id]
    case Storing(v, t) => StoreHolds(s, id, v, t);
    case Stamping(v, t) => StampHolds(s, id, v, t);
    case Releasing(stored) => LockHolds(s, id, if stored then Published else Done(None), Free);
    case c => if c.Locked? || c.Newest? { CheckHolds(s, id, luck); } else { TicketHolds(s, id, luck); }
  }

  lemma AskerHolds<V>(s: State<V>, id: nat, luck: Luck)
    requires Invariant(s) && id in s.calls && (s.calls[id].Copying? || s.calls[id].Read? || s.calls[id].Waiting?)
    ensures Invariant(Step(s, id, luck))
  {
    assert CallOk(s, id, s.calls[id]);
    match s.calls[id]
    case Copying => LocalHolds(s, id, Read(s.revision));
    case Read(t) => LocalHolds(s, id, if s.stopped then Done(None) else Waiting(t));
    case Waiting(t) =>
      if !luck.granted || s.lock.Exclusive? {
        LocalHolds(s, id, Done(None));
      } else {
        LockHolds(s, id, Holding(t), Shared(if s.lock.Shared? then s.lock.readers + {id} else {id}));
      }
  }

  lemma CopierHolds<V>(s: State<V>, id: nat, luck: Luck)
    requires Invariant(s) && id in s.calls
    requires var c := s.calls[id]; c.Holding? || c.Copied? || c.Compared? || c.Released? || c.Rechecked?
    ensures Invariant(Step(s, id, luck))
  {
    assert CallOk(s, id, s.calls[id]);
    match s.calls[id]
    case Holding(t) => LocalHolds(s, id, Copied(t, s.value));
    case Copied(t, v) => LocalHolds(s, id, Compared(t, v, s.valueRevision == t));
    case Compared(t, v, matched) => UnshareHolds(s, id);
    case Released(t, v, matched) => LocalHolds(s, id, if matched && s.revision == t then Rechecked(v) else Done(None));
    case Rechecked(v) => LocalHolds(s, id, Done(if s.stopped || !luck.recent then None else Some(v)));
  }

  lemma OthersLeft(readers: set<nat>, id: nat)
    requires id in readers
    ensures readers == {id} || readers - {id} != {}
  {
    if readers - {id} == {} {
      assert readers == {id};
    }
  }

  lemma UnshareHolds<V>(s: State<V>, id: nat)
    requires Invariant(s) && id in s.calls && s.calls[id].Compared?
    ensures var c := s.calls[id]; Invariant(Go(s, id, Released(c.seen, c.copy, c.matched)).(lock := Unshare(s.lock, id)))
  {
    var c := s.calls[id];
    assert CallOk(s, id, c);
    OthersLeft(s.lock.readers, id);
    LockHolds(s, id, Released(c.seen, c.copy, c.matched), Unshare(s.lock, id));
  }

  lemma StepHolds<V>(s: State<V>, id: nat, luck: Luck)
    requires Invariant(s)
    ensures Invariant(Step(s, id, luck))
  {
    if id in s.calls {
      assert CallOk(s, id, s.calls[id]);
      match s.calls[id]
      case Invalidating => BumpHolds(s, id, Done(None), s.takers);
      case Stopped => BumpHolds(s, id, Done(None), s.takers);
      case Stopping => StopHolds(s, id);
      case Done(_) =>
      case Published =>
      case c =>
        if c.Publishing? || Ticketing(c) || c.Releasing? {
          PublisherHolds(s, id, luck);
        } else if c.Copying? || c.Read? || c.Waiting? {
          AskerHolds(s, id, luck);
        } else {
          CopierHolds(s, id, luck);
        }
    }
  }

  lemma StopHolds<V>(s: State<V>, id: nat)
    requires Invariant(s) && id in s.calls && s.calls[id].Stopping?
    ensures Invariant(Go(s, id, Stopped).(stopped := true))
  {
    var t := Go(s, id, Stopped).(stopped := true);
    assert CallOk(s, id, s.calls[id]);
    forall j | j in s.calls && j != id ensures CallOk(t, j, s.calls[j]) {
      assert CallOk(s, j, s.calls[j]);
    }
    assert CallOk(t, id, t.calls[id]);
    Combine(s, t, id);
  }

  lemma BeginHolds<V>(s: State<V>, id: nat, c: Call<V>)
    requires Invariant(s)
    ensures Invariant(Begin(s, id, c)) && Visible(Begin(s, id, c)) == Visible(s)
  {
    if id !in s.calls && (c.Publishing? || c.Copying? || c.Invalidating? || c.Stopping?) {
      LocalHolds(s, id, c);
    }
  }

  // ---------------------------------------------------------------- runs

  datatype Move<V> = Start(id: nat, call: Call<V>) | Access(id: nat, luck: Luck)

  function Apply<V>(s: State<V>, m: Move<V>): State<V> {
    match m case Start(id, c) => Begin(s, id, c) case Access(id, luck) => Step(s, id, luck)
  }

  function Run<V>(s: State<V>, ms: seq<Move<V>>): State<V>
    decreases |ms|
  {
    if ms == [] then s else Run(Apply(s, ms[0]), ms[1..])
  }

  lemma {:induction false} RunHolds<V>(s: State<V>, ms: seq<Move<V>>)
    requires Invariant(s)
    ensures Invariant(Run(s, ms))
    decreases |ms|
  {
    if ms != [] {
      match ms[0] {
        case Start(id, c) => BeginHolds(s, id, c);
        case Access(id, luck) => StepHolds(s, id, luck);
      }
      RunHolds(Apply(s, ms[0]), ms[1..]);
    }
  }

  // ---------------------------------------------------------------- what the calls mean

  // Each access is one change, or none, of the atomic object: taking a ticket or invalidating hides
  // the value, the stamp of the newest publisher shows its own, and nothing else is seen.
  lemma AccessIsAtomic<V>(empty: V, ms: seq<Move<V>>, id: nat, luck: Luck)
    ensures var s := Run(Initial(empty), ms);
            var t := Step(s, id, luck);
            if id !in s.calls then Visible(t) == Visible(s)
            else match s.calls[id]
              case Publishing(_) => Visible(t) == None
              case Invalidating => Visible(t) == None
              case Stopped => Visible(t) == None
              case Stamping(v, ticket) => Visible(s) == None && Visible(t) == if ticket == s.revision then Some(v) else None
              case _ => Visible(t) == Visible(s)
  {
    InitialHolds(empty);
    RunHolds(Initial(empty), ms);
    var s := Run(Initial(empty), ms);
    if id in s.calls {
      assert CallOk(s, id, s.calls[id]);
      match s.calls[id]
      case Storing(v, t) => StoreHolds(s, id, v, t);
      case Stamping(v, t) => StampHolds(s, id, v, t);
      case _ =>
    }
  }

  // A copy passes its recheck only with the value visible at that instant, which is the one stored
  // by the call that took the newest ticket.
  lemma CopyReturnsVisible<V>(empty: V, ms: seq<Move<V>>, id: nat, luck: Luck)
    requires var s := Run(Initial(empty), ms);
             id in s.calls && s.calls[id].Released? && Step(s, id, luck).calls[id].Rechecked?
    ensures var s := Run(Initial(empty), ms);
            Visible(s) == Some(Step(s, id, luck).calls[id].copy) && s.calls[id].seen == s.revision
  {
    InitialHolds(empty);
    RunHolds(Initial(empty), ms);
    var s := Run(Initial(empty), ms);
    assert CallOk(s, id, s.calls[id]);
  }

  // Once stopped, always stopped; no copy succeeds from then on.
  lemma {:induction false} StopIsFinal<V>(s: State<V>, ms: seq<Move<V>>)
    requires s.stopped
    ensures Run(s, ms).stopped
    decreases |ms|
  {
    if ms != [] {
      StopIsFinal(Apply(s, ms[0]), ms[1..]);
    }
  }

  lemma NoCopyAfterStop<V>(s: State<V>, id: nat, luck: Luck)
    requires s.stopped && id in s.calls && !s.calls[id].Done? && id in Step(s, id, luck).calls
    ensures Step(s, id, luck).calls[id].Done? ==> Step(s, id, luck).calls[id].result == None
  {
  }

  // The revision only grows, so a value hidden by an invalidation or by any newer attempt, even a
  // failed one, is never shown again.
  lemma {:induction false} RevisionGrows<V>(s: State<V>, ms: seq<Move<V>>)
    ensures s.revision <= Run(s, ms).revision
    decreases |ms|
  {
    if ms != [] {
      RevisionGrows(Apply(s, ms[0]), ms[1..]);
    }
  }

  // Once revision r has been taken, what is visible carries a ticket of at least r.
  lemma HiddenStaysHidden<V>(empty: V, before: seq<Move<V>>, after: seq<Move<V>>)
    ensures var s := Run(Initial(empty), before);
            var t := Run(s, after);
            Visible(t).Some? ==> t.valueRevision >= s.revision
  {
    RevisionGrows(Run(Initial(empty), before), after);
  }
}
