/** The single-writer discipline (internal/database/db.go): a mutex held for the whole life of a write transaction or
    write call. */
module WriterTx {
  import opened Text

  /** A transaction handle: `done` is the flag of Go's database/sql, `unlocked` the spent unlock function. */
  datatype Tx = Tx(write: bool, done: bool, unlocked: bool)

  /** Who locks the mutex: a transaction, a single write call, or a begin that failed at once. */
  datatype Holder = OfTx(id: nat) | OfCall(call: nat) | OfAttempt

  /** What happened, as a caller sees it. */
  datatype Event =
    | Began(id: nat, write: bool)
    | Committed(id: nat)
    | RolledBack(id: nat)
    | Called(call: nat)
    | Returned(call: nat)

  /** How the engine takes the end of a transaction: it obeys, or fails and is out of the transaction, or fails and
      stays in it. */
  datatype Ending = Obeys | FailsOut | FailsStuck

  datatype BeginError = NestedTransaction | OtherError

  /** `engine` is the transaction the writer connection is in. The logs of lock and unlock operations and of events are
      bookkeeping. */
  datatype State = State(
    locked: bool, txs: seq<Tx>, calls: seq<bool>, engine: Option<nat>,
    locks: seq<Holder>, unlocks: seq<Holder>, events: seq<Event>)

  function Init(): State {
    State(false, [], [], None, [], [], [])
  }

  datatype Step =
    | Begin(readOnly: bool, fails: bool)
    | Commit(id: nat, ending: Ending)
    | Rollback(id: nat, ending: Ending)
    | CancelContext(id: nat, ending: Ending)
    | StartCall
    | EndCall(call: nat)

  /** Locking waits for the mutex; the rest needs an existing handle. */
  predicate Enabled(s: State, step: Step) {
    match step
    case Begin(readOnly, _) => readOnly || !s.locked
    case Commit(id, _) => id < |s.txs|
    case Rollback(id, _) => id < |s.txs|
    case CancelContext(id, _) => id < |s.txs|
    case StartCall => !s.locked
    case EndCall(c) => c < |s.calls| && s.calls[c]
  }

  function Locked(s: State, h: Holder): State {
    s.(locked := true, locks := s.locks + [h])
  }

  function Unlocked(s: State, h: Holder): State {
    s.(locked := false, unlocks := s.unlocks + [h])
  }

  /** The unlock function of a write transaction, run at most once. */
  function Released(s: State, id: nat): State
    requires id < |s.txs|
  {
    if s.txs[id].write && !s.txs[id].unlocked
    then Unlocked(s.(txs := s.txs[id := s.txs[id].(unlocked := true)]), OfTx(id))
    else s
  }

  /** database/sql marks the handle done before it asks the engine, whatever the engine then answers. */
  function Ended(s: State, id: nat, ending: Ending): State
    requires id < |s.txs|
  {
    if s.txs[id].done then s
    else s.(txs := s.txs[id := s.txs[id].(done := true)],
            engine := if s.txs[id].write && ending != FailsStuck then None else s.engine)
  }

  function Logged(s: State, e: Event): State {
    s.(events := s.events + [e])
  }

  predicate CommitSucceeds(s: State, id: nat, ending: Ending)
    requires id < |s.txs|
  {
    !s.txs[id].done && ending == Obeys
  }

  function Apply(s: State, step: Step): State
    requires Enabled(s, step)
  {
    match step
    case Begin(readOnly, fails) =>
      if readOnly then
        if fails then s else Logged(s.(txs := s.txs + [Tx(false, false, false)]), Began(|s.txs|, false))
      else if fails || s.engine.Some? then Unlocked(Locked(s, OfAttempt), OfAttempt)
      else
        var id := |s.txs|;
        Logged(Locked(s, OfTx(id)).(txs := s.txs + [Tx(true, false, false)], engine := Some(id)), Began(id, true))
    case Commit(id, ending) =>
      if CommitSucceeds(s, id, ending) then Logged(Released(Ended(s, id, ending), id), Committed(id))
      else Ended(s, id, ending)
    case Rollback(id, ending) => Logged(Released(Ended(s, id, ending), id), RolledBack(id))
    case CancelContext(id, ending) => Ended(s, id, ending)
    case StartCall => Logged(Locked(s, OfCall(|s.calls|)).(calls := s.calls + [true]), Called(|s.calls|))
    case EndCall(c) => Logged(Unlocked(s.(calls := s.calls[c := false]), OfCall(c)), Returned(c))
  }

  function After(steps: seq<Step>): State
    decreases |steps|
  {
    if steps == [] then Init()
    else
      var before := After(steps[..|steps| - 1]);
      if Enabled(before, steps[|steps| - 1]) then Apply(before, steps[|steps| - 1]) else before
  }

  // ----- the methods -----

  class Database {
    var locked: bool
    var txs: seq<Tx>
    var calls: seq<bool>
    var engine: Option<nat>
    ghost var locks: seq<Holder>
    ghost var unlocks: seq<Holder>
    ghost var events: seq<Event>

    constructor ()
      ensures Now() == Init()
    {
      locked, txs, calls, engine, locks, unlocks, events := false, [], [], None, [], [], [];
    }

    ghost function Now(): State
      reads this
    {
      State(locked, txs, calls, engine, locks, unlocks, events)
    }

    method Lock(ghost h: Holder)
      requires !locked
      modifies this`locked, this`locks
      ensures Now() == Locked(old(Now()), h)
    {
      locked, locks := true, locks + [h];
    }

    /** Unlocking a free mutex would abort the program. */
    method Unlock(ghost h: Holder)
      requires locked
      modifies this`locked, this`unlocks
      ensures Now() == Unlocked(old(Now()), h)
    {
      locked, unlocks := false, unlocks + [h];
    }

    /** `waits` means that the caller would block on the mutex and nothing has happened yet. */
    method BeginTx(readOnly: bool, fails: bool) returns (waits: bool, id: Option<nat>, error: Option<BeginError>)
      modifies this
      ensures waits <==> !Enabled(old(Now()), Begin(readOnly, fails))
      ensures Now() == if waits then old(Now()) else Apply(old(Now()), Begin(readOnly, fails))
      ensures !waits ==> (id.None? <==> error.Some?) && (id.Some? ==> id.value == |old(txs)| && |txs| == |old(txs)| + 1)
      ensures !waits ==> (error == Some(NestedTransaction) <==> !readOnly && !fails && old(engine).Some?)
      ensures !waits ==> (error == Some(OtherError) <==> fails)
    {
      if readOnly {
        if fails {
          return false, None, Some(OtherError);
        }
        events := events + [Began(|txs|, false)];
        txs := txs + [Tx(false, false, false)];
        return false, Some(|txs| - 1), None;
      }
      if locked {
        return true, None, None;
      }
      ghost var holder := if fails || engine.Some? then OfAttempt else OfTx(|txs|);
      Lock(holder);
      if fails || engine.Some? {
        Unlock(OfAttempt);
        return false, None, Some(if fails then OtherError else NestedTransaction);
      }
      engine := Some(|txs|);
      events := events + [Began(|txs|, true)];
      txs := txs + [Tx(true, false, false)];
      return false, Some(|txs| - 1), None;
    }

    method End(id: nat, ending: Ending)
      requires id < |txs|
      modifies this`txs, this`engine
      ensures Now() == Ended(old(Now()), id, ending)
    {
      if !txs[id].done {
        if txs[id].write && ending != FailsStuck {
          engine := None;
        }
        txs := txs[id := txs[id].(done := true)];
      }
    }

    /** unlockOnce. */
    method Release(id: nat)
      requires id < |txs| && (txs[id].write && !txs[id].unlocked ==> locked)
      modifies this`txs, this`locked, this`unlocks
      ensures Now() == Released(old(Now()), id)
    {
      if txs[id].write && !txs[id].unlocked {
        txs := txs[id := txs[id].(unlocked := true)];
        Unlock(OfTx(id));
      }
    }

    method CommitTx(id: nat, ending: Ending) returns (ok: bool)
      requires Inv(Now()) && id < |txs|
      modifies this
      ensures Now() == Apply(old(Now()), Commit(id, ending))
      ensures ok <==> !old(txs[id].done) && ending == Obeys
      ensures !ok ==> locked == old(locked)
    {
      PendingHolds(Now(), OfTx(id));
      ok := !txs[id].done && ending == Obeys;
      End(id, ending);
      if ok {
        Release(id);
        events := events + [Committed(id)];
      }
    }

    method RollbackTx(id: nat, ending: Ending)
      requires Inv(Now()) && id < |txs|
      modifies this
      ensures Now() == Apply(old(Now()), Rollback(id, ending))
    {
      PendingHolds(Now(), OfTx(id));
      End(id, ending);
      Release(id);
      events := events + [RolledBack(id)];
    }

    /** ExecContext, QueryContext and QueryRowContext up to the point where the mutex is held. */
    method BeginCall() returns (waits: bool)
      modifies this
      ensures waits <==> !Enabled(old(Now()), StartCall)
      ensures Now() == if waits then old(Now()) else Apply(old(Now()), StartCall)
    {
      if locked {
        return true;
      }
      Lock(OfCall(|calls|));
      events := events + [Called(|calls|)];
      calls := calls + [true];
      return false;
    }

    method FinishCall(c: nat)
      requires Inv(Now()) && Enabled(Now(), EndCall(c))
      modifies this
      ensures Now() == Apply(old(Now()), EndCall(c))
    {
      PendingHolds(Now(), OfCall(c));
      calls := calls[c := false];
      Unlock(OfCall(c));
      events := events + [Returned(c)];
    }
  }

  // ----- who may hold the mutex -----

  /** A write transaction between its begin and its first successful commit or rollback, or a write call under way,
      going by the events alone. */
  ghost predicate Open(s: State, h: Holder) {
    match h
    case OfTx(id) => Began(id, true) in s.events && Committed(id) !in s.events && RolledBack(id) !in s.events
    case OfCall(c) => Called(c) in s.events && Returned(c) !in s.events
    case OfAttempt => false
  }

  /** The same, going by the handles. */
  ghost predicate Pending(s: State, h: Holder) {
    match h
    case OfTx(id) => id < |s.txs| && s.txs[id].write && !s.txs[id].unlocked
    case OfCall(c) => c < |s.calls| && s.calls[c]
    case OfAttempt => false
  }

  /** Locks and unlocks alternate, each unlock by the one who locked. */
  ghost predicate Alternating(s: State) {
    if s.locked then s.locks != [] && s.unlocks == s.locks[..|s.locks| - 1] else s.unlocks == s.locks
  }

  ghost predicate HeldByPending(s: State) {
    forall h :: Pending(s, h) <==> s.locked && s.locks != [] && s.locks[|s.locks| - 1] == h
  }

  /** The engine is in a write transaction: the one that holds the mutex, or one it could not leave. */
  ghost predicate EngineSound(s: State) {
    && (s.engine.Some? ==> s.engine.value < |s.txs| && s.txs[s.engine.value].write
                           && (!s.txs[s.engine.value].done ==> Pending(s, OfTx(s.engine.value))))
    && (forall id :: 0 <= id < |s.txs| && s.txs[id].write && !s.txs[id].done ==> s.engine == Some(id))
  }

  ghost predicate BeginsMatch(s: State) {
    && (forall id :: 0 <= id < |s.txs| ==> Began(id, s.txs[id].write) in s.events)
    && (forall id: nat, write :: Began(id, write) in s.events ==> id < |s.txs| && s.txs[id].write == write)
  }

  predicate Finished(s: State, id: nat) {
    Committed(id) in s.events || RolledBack(id) in s.events
  }

  ghost predicate FinishesMatch(s: State) {
    && (forall id :: 0 <= id < |s.txs| && s.txs[id].write ==> (s.txs[id].unlocked <==> Finished(s, id)))
    && (forall id: nat :: Finished(s, id) ==> id < |s.txs| && s.txs[id].done)
  }

  ghost predicate CallsMatch(s: State) {
    && (forall c: nat :: Called(c) in s.events <==> c < |s.calls|)
    && (forall c: nat :: Returned(c) in s.events <==> c < |s.calls| && !s.calls[c])
  }

  ghost predicate EventsMatch(s: State) {
    BeginsMatch(s) && FinishesMatch(s) && CallsMatch(s)
  }

  ghost predicate Inv(s: State) {
    Alternating(s) && HeldByPending(s) && EngineSound(s) && EventsMatch(s)
  }

  lemma PendingHolds(s: State, h: Holder)
    requires Inv(s)
    ensures Pending(s, h) ==> s.locked && s.locks != [] && s.locks[|s.locks| - 1] == h
  {}

  // ----- every step keeps the discipline -----

  lemma ReleasedKeeps(s: State, id: nat)
    requires Alternating(s) && HeldByPending(s) && id < |s.txs|
    ensures Alternating(Released(s, id)) && HeldByPending(Released(s, id))
  {
    var r := Released(s, id);
    if s.txs[id].write && !s.txs[id].unlocked {
      assert Pending(s, OfTx(id));
      assert s.locks == s.locks[..|s.locks| - 1] + [OfTx(id)];
      forall h ensures !Pending(r, h) {
        assert Pending(r, h) ==> Pending(s, h) && h != OfTx(id);
      }
    }
  }

  lemma StepKeepsLocking(s: State, step: Step)
    requires Inv(s) && Enabled(s, step)
    ensures Alternating(Apply(s, step)) && HeldByPending(Apply(s, step))
  {
    hide EventsMatch, EngineSound;
    var t := Apply(s, step);
    match step
    case Begin(readOnly, fails) =>
      forall h ensures Pending(t, h) <==> Pending(s, h) || (h == OfTx(|s.txs|) && t.locked && !readOnly) {}
    case Commit(id, ending) => EndedKeepsLocking(s, id, ending); ReleasedKeeps(Ended(s, id, ending), id);
      LoggedKeepsLocking(Released(Ended(s, id, ending), id), Committed(id));
    case Rollback(id, ending) => EndedKeepsLocking(s, id, ending); ReleasedKeeps(Ended(s, id, ending), id);
      LoggedKeepsLocking(Released(Ended(s, id, ending), id), RolledBack(id));
    case CancelContext(id, ending) => EndedKeepsLocking(s, id, ending);
    case StartCall =>
      forall h ensures Pending(t, h) <==> h == OfCall(|s.calls|) {
        assert !Pending(s, h);
      }
    case EndCall(c) =>
      assert Pending(s, OfCall(c));
      assert s.locks == s.locks[..|s.locks| - 1] + [OfCall(c)];
      forall h ensures !Pending(t, h) {
        assert Pending(t, h) ==> Pending(s, h) && h != OfCall(c);
      }
  }

  lemma EndedKeepsLocking(s: State, id: nat, ending: Ending)
    requires Alternating(s) && HeldByPending(s) && id < |s.txs|
    ensures Alternating(Ended(s, id, ending)) && HeldByPending(Ended(s, id, ending))
    ensures forall h :: Pending(Ended(s, id, ending), h) <==> Pending(s, h)
  {
    forall h ensures Pending(Ended(s, id, ending), h) <==> Pending(s, h) {}
  }

  lemma LoggedKeepsLocking(s: State, e: Event)
    requires Alternating(s) && HeldByPending(s)
    ensures Alternating(Logged(s, e)) && HeldByPending(Logged(s, e))
  {
    forall h ensures Pending(Logged(s, e), h) <==> Pending(s, h) {}
  }

  lemma StepKeepsEngine(s: State, step: Step)
    requires Inv(s) && Enabled(s, step)
    ensures EngineSound(Apply(s, step))
  {
    hide EventsMatch, Alternating;
    assert step.Begin? || step.StartCall? ==> forall h :: Pending(s, h) ==> s.locked;
  }

  lemma StepKeepsBegins(s: State, step: Step)
    requires BeginsMatch(s) && Enabled(s, step)
    ensures BeginsMatch(Apply(s, step))
  {
    if step.Commit? || step.Rollback? || step.CancelContext? {
      EndingKeeps(s, step.id, step.ending);
    }
  }

  /** Ending and releasing a handle changes no event, no kind and no call. */
  lemma EndingKeeps(s: State, id: nat, ending: Ending)
    requires id < |s.txs|
    ensures var e := Ended(s, id, ending);
            && e.events == s.events && e.calls == s.calls && |e.txs| == |s.txs| && e.txs[id].done
            && (forall k :: 0 <= k < |s.txs| ==>
                e.txs[k].write == s.txs[k].write && e.txs[k].unlocked == s.txs[k].unlocked)
            && (forall k :: 0 <= k < |s.txs| && s.txs[k].done ==> e.txs[k].done)
    ensures var r := Released(Ended(s, id, ending), id);
            && r.events == s.events && r.calls == s.calls && |r.txs| == |s.txs| && r.txs[id].done
            && (s.txs[id].write ==> r.txs[id].unlocked)
            && (forall k :: 0 <= k < |s.txs| ==> r.txs[k].write == s.txs[k].write)
            && (forall k :: 0 <= k < |s.txs| && k != id ==> r.txs[k].unlocked == s.txs[k].unlocked)
            && (forall k :: 0 <= k < |s.txs| && s.txs[k].done ==> r.txs[k].done)
  {}

  lemma StepKeepsFinishes(s: State, step: Step)
    requires BeginsMatch(s) && FinishesMatch(s) && Enabled(s, step)
    ensures FinishesMatch(Apply(s, step))
  {
    var t := Apply(s, step);
    match step
    case Commit(id, ending) => EndingKeeps(s, id, ending); hide Ended, Released;
      assert forall k: nat :: Finished(t, k) <==> Finished(s, k) || (k == id && CommitSucceeds(s, id, ending));
    case Rollback(id, ending) => EndingKeeps(s, id, ending); hide Ended, Released;
      assert forall k: nat :: Finished(t, k) <==> Finished(s, k) || k == id;
    case CancelContext(id, ending) => EndingKeeps(s, id, ending); hide Ended;
      assert forall k: nat :: Finished(t, k) <==> Finished(s, k);
    case _ =>
      assert forall k: nat :: Finished(t, k) <==> Finished(s, k);
  }

  lemma StepKeepsCalls(s: State, step: Step)
    requires CallsMatch(s) && Enabled(s, step)
    ensures CallsMatch(Apply(s, step))
  {
    if step.Commit? || step.Rollback? || step.CancelContext? {
      EndingKeeps(s, step.id, step.ending);
      hide Ended, Released;
    }
  }

  lemma StepKeepsEvents(s: State, step: Step)
    requires Inv(s) && Enabled(s, step)
    ensures EventsMatch(Apply(s, step))
  {
    hide BeginsMatch, FinishesMatch, CallsMatch, Apply, Enabled;
    StepKeepsBegins(s, step);
    StepKeepsFinishes(s, step);
    StepKeepsCalls(s, step);
  }

  lemma {:induction false} EveryRunKeepsInv(steps: seq<Step>)
    ensures Inv(After(steps))
    decreases |steps|
  {
    hide Alternating, HeldByPending, EngineSound, EventsMatch, Apply, Enabled;
    if steps == [] {
      InitInv();
    } else {
      var front := steps[..|steps| - 1];
      EveryRunKeepsInv(front);
      var before, last := After(front), steps[|steps| - 1];
      if Enabled(before, last) {
        StepKeepsLocking(before, last);
        StepKeepsEngine(before, last);
        StepKeepsEvents(before, last);
      }
    }
  }

  lemma InitInv()
    ensures Inv(Init())
  {}

  // ----- what holds in every run -----

  /** The mutex is held exactly while one write transaction or write call is open, and never two are. */
  lemma MutexHeldExactlyWhileOpen(steps: seq<Step>)
    ensures var s := After(steps);
            && (s.locked <==> exists h :: Open(s, h))
            && (forall h, k :: Open(s, h) && Open(s, k) ==> h == k)
  {
    hide After, EngineSound, Alternating, HeldByPending;
    EveryRunKeepsInv(steps);
    var s := After(steps);
    forall h ensures Open(s, h) <==> Pending(s, h) {
      OpenIsPending(s, h);
    }
    hide EventsMatch, Open, Pending;
    LastIsHolder(s);
    if s.locked {
      assert s.locks != [] by { LockedHasLock(s); }
      LockedByPending(s);
      assert Open(s, s.locks[|s.locks| - 1]);
    }
  }

  lemma LastIsHolder(s: State)
    requires HeldByPending(s)
    ensures forall h :: Pending(s, h) ==> s.locked && s.locks != [] && s.locks[|s.locks| - 1] == h
  {}

  lemma LockedHasLock(s: State)
    requires Alternating(s) && s.locked
    ensures s.locks != []
  {}

  lemma LockedByPending(s: State)
    requires HeldByPending(s) && s.locked && s.locks != []
    ensures Pending(s, s.locks[|s.locks| - 1])
  {}

  lemma OpenIsPending(s: State, h: Holder)
    requires EventsMatch(s)
    ensures Open(s, h) <==> Pending(s, h)
  {}

  /** Only begins that fail at once lock more than once. */
  ghost predicate FreshLocks(s: State) {
    && (forall i :: 0 <= i < |s.locks| ==>
          match s.locks[i] case OfTx(id) => id < |s.txs| case OfCall(c) => c < |s.calls| case OfAttempt => true)
    && (forall i, j :: 0 <= i < j < |s.locks| && s.locks[i] == s.locks[j] ==> s.locks[i] == OfAttempt)
  }

  /** Locks are only ever added at the end, one at a time. */
  lemma StepKeepsFresh(s: State, step: Step)
    requires FreshLocks(s) && Enabled(s, step)
    ensures FreshLocks(Apply(s, step))
  {
    if step.Commit? || step.Rollback? || step.CancelContext? {
      EndingKeeps(s, step.id, step.ending);
      assert Apply(s, step).locks == s.locks;
      hide Ended, Released;
    }
  }

  lemma {:induction false} EveryRunLocksFresh(steps: seq<Step>)
    ensures FreshLocks(After(steps))
    decreases |steps|
  {
    hide Apply, Enabled;
    if steps != [] {
      hide FreshLocks;
      EveryRunLocksFresh(steps[..|steps| - 1]);
      var before, last := After(steps[..|steps| - 1]), steps[|steps| - 1];
      if Enabled(before, last) {
        StepKeepsFresh(before, last);
      }
    }
  }

  /** Every unlock is by whoever locked last, and no transaction or call unlocks twice. */
  lemma ReleasedOncePerHolder(steps: seq<Step>)
    ensures var s := After(steps);
            && (forall k :: 0 <= k < |s.unlocks| ==> k < |s.locks| && s.unlocks[k] == s.locks[k])
            && |s.locks| == |s.unlocks| + (if s.locked then 1 else 0)
            && (forall i, j :: 0 <= i < j < |s.unlocks| && s.unlocks[i] == s.unlocks[j] ==> s.unlocks[i] == OfAttempt)
  {
    hide After, HeldByPending, EngineSound, EventsMatch;
    EveryRunKeepsInv(steps);
    EveryRunLocksFresh(steps);
  }

  /** With the mutex free and the engine not stuck, a write transaction opens and takes both; a write call opens and
      takes the mutex, and its end closes it and frees the mutex. */
  lemma BeginningOpens(steps: seq<Step>)
    requires !After(steps).locked
    ensures var s := After(steps);
            && Enabled(s, Begin(false, false)) && Enabled(s, StartCall)
            && (s.engine == None ==>
                  var t := Apply(s, Begin(false, false));
                  Open(t, OfTx(|s.txs|)) && t.locked && t.engine == Some(|s.txs|))
            && (var t := Apply(s, StartCall);
                && Open(t, OfCall(|s.calls|)) && t.locked && Enabled(t, EndCall(|s.calls|))
                && !Open(Apply(t, EndCall(|s.calls|)), OfCall(|s.calls|)) && !Apply(t, EndCall(|s.calls|)).locked)
  {
    hide After, Alternating, HeldByPending, EngineSound;
    EveryRunKeepsInv(steps);
    var s := After(steps);
    assert !Finished(s, |s.txs|);
    assert Called(|s.calls|) !in s.events && Returned(|s.calls|) !in s.events;
  }

  /** A commit ends an open write transaction, freeing mutex and engine, exactly if database/sql has not ended it before
      and the engine obeys; otherwise it stays open under the mutex. A rollback ends it in any case. */
  lemma CommitDecides(steps: seq<Step>, id: nat, ending: Ending)
    requires Open(After(steps), OfTx(id))
    ensures var s := After(steps);
            && Enabled(s, Commit(id, ending)) && Enabled(s, Rollback(id, ending))
            && (if !s.txs[id].done && ending == Obeys then
                  var t := Apply(s, Commit(id, ending));
                  !Open(t, OfTx(id)) && Committed(id) in t.events && !t.locked && t.engine == None
                else
                  var t := Apply(s, Commit(id, ending));
                  Open(t, OfTx(id)) && t.locked)
            && (var t := Apply(s, Rollback(id, ending));
                !Open(t, OfTx(id)) && RolledBack(id) in t.events && !t.locked
                && (!s.txs[id].done ==> (t.engine == None <==> ending != FailsStuck)))
  {
    hide After, Alternating;
    EveryRunKeepsInv(steps);
    var s := After(steps);
    assert Pending(s, OfTx(id));
  }

  /** A rollback, deferred or repeated, of a transaction that is committed or rolled back changes neither the mutex nor
      the engine, whoever holds them by then. */
  lemma LateRollbackHarmless(steps: seq<Step>, id: nat, ending: Ending)
    requires Finished(After(steps), id)
    ensures var s := After(steps);
            && Enabled(s, Rollback(id, ending))
            && Apply(s, Rollback(id, ending)) == Logged(Ended(s, id, ending), RolledBack(id))
            && Ended(s, id, ending).locked == s.locked && Ended(s, id, ending).engine == s.engine
  {
    hide After, Alternating, HeldByPending, EngineSound;
    EveryRunKeepsInv(steps);
    assert Finished(After(steps), id);
  }

  // ----- the engine -----

  /** The connection is stuck in a transaction that database/sql regards as over. */
  predicate Wedged(s: State) {
    s.engine.Some? && s.engine.value < |s.txs| && s.txs[s.engine.value].done
  }

  /** The step asks the engine to end an open write transaction and the engine fails and stays in it. */
  predicate Sticks(s: State, step: Step) {
    match step
    case Commit(id, ending) => id < |s.txs| && s.txs[id].write && !s.txs[id].done && ending == FailsStuck
    case Rollback(id, ending) => id < |s.txs| && s.txs[id].write && !s.txs[id].done && ending == FailsStuck
    case CancelContext(id, ending) => id < |s.txs| && s.txs[id].write && !s.txs[id].done && ending == FailsStuck
    case _ => false
  }

  predicate EverStuck(steps: seq<Step>)
    decreases |steps|
  {
    steps != [] && (EverStuck(steps[..|steps| - 1]) || Sticks(After(steps[..|steps| - 1]), steps[|steps| - 1]))
  }

  lemma StepWedges(s: State, step: Step)
    requires Inv(s) && Enabled(s, step)
    ensures Wedged(Apply(s, step)) <==> Wedged(s) || Sticks(s, step)
  {
    hide Alternating, HeldByPending, EventsMatch, Pending;
  }

  /** The connection is wedged exactly when at some point it stayed in a transaction it was told to end: nothing else
      wedges it, and no rollback frees it again. */
  lemma {:induction false} WedgedExactly(steps: seq<Step>)
    ensures Wedged(After(steps)) <==> EverStuck(steps)
    decreases |steps|
  {
    hide Apply, Inv;
    if steps != [] {
      var front := steps[..|steps| - 1];
      WedgedExactly(front);
      EveryRunKeepsInv(front);
      var before, last := After(front), steps[|steps| - 1];
      if Enabled(before, last) {
        StepWedges(before, last);
      }
    }
  }

  /** A begin that gets the mutex meets the nested-transaction error exactly in that case. */
  lemma NestedOnlyIfStuck(steps: seq<Step>)
    requires !After(steps).locked
    ensures After(steps).engine.Some? <==> EverStuck(steps)
  {
    hide After, Alternating, EventsMatch, EverStuck;
    EveryRunKeepsInv(steps);
    WedgedExactly(steps);
  }

  /** A failed commit that leaves the engine in the transaction is not repaired by the rollback that follows it:
      the mutex is free again, the connection is not. */
  lemma RollbackAfterFailedCommit()
    ensures var s := After([Begin(false, false), Commit(0, FailsStuck), Rollback(0, Obeys)]);
            !s.locked && s.engine == Some(0)
  {
    var steps := [Begin(false, false), Commit(0, FailsStuck), Rollback(0, Obeys)];
    assert steps[..2] == [Begin(false, false), Commit(0, FailsStuck)];
    assert steps[..2][..1] == [Begin(false, false)];
    assert steps[..2][..1][..0] == [];
    var one := After([Begin(false, false)]);
    assert one == Apply(Init(), Begin(false, false));
    var two := After(steps[..2]);
    assert two == Apply(one, Commit(0, FailsStuck));
    assert After(steps) == Apply(two, Rollback(0, Obeys));
  }
}
