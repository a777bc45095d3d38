/** Queueing of backup runs (internal/backups/service.go): callers of QueueRun and workers share the in-flight map and
    a bounded job channel. */
module QueueProtocol {
  import opened Text
  import opened Ordering

  // ----- the shared state of the service -----

  datatype Job = Job(runID: nat, instanceID: int)

  /** The in-flight map after `markInstance`. */
  function Mark(inflight: map<int, nat>, instanceID: int, runID: nat): map<int, nat> {
    if instanceID in inflight then inflight else inflight[instanceID := runID]
  }

  /** The in-flight map after `clearInstance`: only the claim of that very run is given up. */
  function Clear(inflight: map<int, nat>, instanceID: int, runID: nat): map<int, nat> {
    if instanceID in inflight && inflight[instanceID] == runID then inflight - {instanceID} else inflight
  }

  // ----- callers and workers -----

  /** Where a caller of QueueRun stands. Releasing with run 0 follows a failed creation, otherwise a cancellation. */
  datatype Caller =
    | Idle
    | Creating(instanceID: int)
    | Created(instanceID: int, runID: nat)
    | Sending(instanceID: int, runID: nat)
    | Releasing(instanceID: int, runID: nat)
    | Deleting(runID: nat)

  /** Where a worker stands: before the run is marked running, during executeBackup, before the final clear. */
  datatype Worker =
    | Waiting
    | Handling(job: Job)
    | Executing(job: Job)
    | Finishing(job: Job)
    | Stopped

  datatype State = State(
    inflight: map<int, nat>,
    progress: set<nat>,
    jobs: seq<Job>,
    capacity: nat,
    callers: seq<Caller>,
    workers: seq<Worker>,
    nextRun: nat,
    stored: set<nat>,
    forgotten: set<nat>,
    sent: seq<nat>,
    delivered: seq<nat>,
    finished: set<nat>)

  function Init(workerCount: nat): State {
    State(map[], {}, [], 2 * workerCount, [], seq(workerCount, i => Waiting), 1, {}, {}, [], [], {})
  }

  datatype Step =
    | Arrive
    | Claim(caller: nat, instance: int)
    | Create(caller: nat)
    | CreateFails(caller: nat)
    | Publish(caller: nat)
    | Send(caller: nat)
    | Cancel(caller: nat)
    | Release(caller: nat)
    | Delete(caller: nat, succeeds: bool)
    | Receive(worker: nat)
    | Begin(worker: nat)
    | Report(worker: nat)
    | Finish(worker: nat)
    | ClearRun(worker: nat)
    | StopWorker(worker: nat)
    | OtherRun
    | Forget(run: nat)

  /** Whether the step can happen. Sending waits for room, receiving for a job, a cancellation for the context. */
  predicate Enabled(s: State, step: Step) {
    match step
    case Arrive => true
    case Claim(c, _) => c < |s.callers| && s.callers[c].Idle?
    case Create(c) => c < |s.callers| && s.callers[c].Creating?
    case CreateFails(c) => c < |s.callers| && s.callers[c].Creating?
    case Publish(c) => c < |s.callers| && s.callers[c].Created?
    case Send(c) => c < |s.callers| && s.callers[c].Sending? && |s.jobs| < s.capacity
    case Cancel(c) => c < |s.callers| && s.callers[c].Sending?
    case Release(c) => c < |s.callers| && s.callers[c].Releasing?
    case Delete(c, _) => c < |s.callers| && s.callers[c].Deleting?
    case Receive(w) => w < |s.workers| && s.workers[w].Waiting? && s.jobs != []
    case Begin(w) => w < |s.workers| && s.workers[w].Handling?
    case Report(w) => w < |s.workers| && s.workers[w].Executing?
    case Finish(w) => w < |s.workers| && (s.workers[w].Handling? || s.workers[w].Executing?)
    case ClearRun(w) => w < |s.workers| && s.workers[w].Finishing?
    case StopWorker(w) => w < |s.workers| && s.workers[w].Waiting?
    case OtherRun => true
    case Forget(run) => run in s.stored
  }

  function Apply(s: State, step: Step): State
    requires Enabled(s, step)
  {
    match step
    case Arrive => s.(callers := s.callers + [Idle])
    case Claim(c, i) =>
      if i in s.inflight then s
      else s.(inflight := Mark(s.inflight, i, 0), callers := s.callers[c := Creating(i)])
    case Create(c) =>
      s.(callers := s.callers[c := Created(s.callers[c].instanceID, s.nextRun)],
         stored := s.stored + {s.nextRun}, nextRun := s.nextRun + 1)
    case CreateFails(c) => s.(callers := s.callers[c := Releasing(s.callers[c].instanceID, 0)])
    case Publish(c) =>
      var at := s.callers[c];
      s.(inflight := s.inflight[at.instanceID := at.runID], callers := s.callers[c := Sending(at.instanceID, at.runID)])
    case Send(c) =>
      var at := s.callers[c];
      s.(jobs := s.jobs + [Job(at.runID, at.instanceID)], callers := s.callers[c := Idle], sent := s.sent + [at.runID])
    case Cancel(c) => s.(callers := s.callers[c := Releasing(s.callers[c].instanceID, s.callers[c].runID)])
    case Release(c) =>
      var at := s.callers[c];
      s.(inflight := Clear(s.inflight, at.instanceID, at.runID), progress := s.progress - {at.runID},
         callers := s.callers[c := if at.runID == 0 then Idle else Deleting(at.runID)],
         finished := if at.runID == 0 then s.finished else s.finished + {at.runID})
    case Delete(c, succeeds) =>
      s.(callers := s.callers[c := Idle], stored := if succeeds then s.stored - {s.callers[c].runID} else s.stored)
    case Receive(w) =>
      s.(jobs := s.jobs[1..], workers := s.workers[w := Handling(s.jobs[0])],
         delivered := s.delivered + [s.jobs[0].runID])
    case Begin(w) => s.(workers := s.workers[w := Executing(s.workers[w].job)])
    case Report(w) => s.(progress := s.progress + {s.workers[w].job.runID})
    case Finish(w) => s.(workers := s.workers[w := Finishing(s.workers[w].job)])
    case ClearRun(w) =>
      var job := s.workers[w].job;
      s.(inflight := Clear(s.inflight, job.instanceID, job.runID), progress := s.progress - {job.runID},
         workers := s.workers[w := Waiting], finished := s.finished + {job.runID})
    case StopWorker(w) => s.(workers := s.workers[w := Stopped])
    case OtherRun => s.(stored := s.stored + {s.nextRun}, nextRun := s.nextRun + 1)
    case Forget(run) => s.(stored := s.stored - {run}, forgotten := s.forgotten + {run})
  }

  /** The fields callers and workers share. Every method is one critical section or channel operation, and a step of
      the caller or worker that runs it; where callers and workers stand, and what the store did, is bookkeeping. */
  class Service {
    var inflight: map<int, nat>
    var progress: set<nat>
    var jobs: seq<Job>
    const capacity: nat
    ghost var callers: seq<Caller>
    ghost var workers: seq<Worker>
    ghost var nextRun: nat
    ghost var stored: set<nat>
    ghost var forgotten: set<nat>
    ghost var sent: seq<nat>
    ghost var delivered: seq<nat>
    ghost var finished: set<nat>

    constructor (workerCount: int)
      ensures Now() == Init(if workerCount <= 0 then 1 else workerCount)
    {
      var count := if workerCount <= 0 then 1 else workerCount;
      inflight, progress, jobs := map[], {}, [];
      capacity := 2 * count;
      callers, workers, nextRun, stored, forgotten := [], seq(count, i => Waiting), 1, {}, {};
      sent, delivered, finished := [], [], {};
    }

    ghost function Now(): State
      reads this
    {
      State(inflight, progress, jobs, capacity, callers, workers, nextRun, stored, forgotten, sent, delivered, finished)
    }

    method MarkInstance(instanceID: int, runID: nat) returns (ok: bool)
      modifies this`inflight
      ensures ok <==> instanceID !in old(inflight)
      ensures inflight == Mark(old(inflight), instanceID, runID)
    {
      if instanceID in inflight {
        return false;
      }
      inflight := inflight[instanceID := runID];
      return true;
    }

    method ClearInstance(instanceID: int, runID: nat)
      modifies this`inflight, this`progress
      ensures inflight == Clear(old(inflight), instanceID, runID)
      ensures progress == old(progress) - {runID}
    {
      if instanceID in inflight && inflight[instanceID] == runID {
        inflight := inflight - {instanceID};
      }
      progress := progress - {runID};
    }

    /** QueueRun starts: it takes the claim or answers that the instance is busy. */
    method TakeClaim(ghost c: nat, instanceID: int) returns (busy: bool)
      requires Enabled(Now(), Claim(c, instanceID))
      modifies this
      ensures Now() == Apply(old(Now()), Claim(c, instanceID))
      ensures busy <==> callers[c] == Idle
    {
      var ok := MarkInstance(instanceID, 0);
      if ok {
        callers := callers[c := Creating(instanceID)];
      }
      busy := !ok;
    }

    /** QueueRun has created the run and enters its number. */
    method PublishRun(ghost c: nat, instanceID: int, runID: nat)
      requires c < |callers| && callers[c] == Created(instanceID, runID)
      modifies this
      ensures Now() == Apply(old(Now()), Publish(c))
    {
      inflight := inflight[instanceID := runID];
      callers := callers[c := Sending(instanceID, runID)];
    }

    /** QueueRun sends the job; it waits while the channel is full. */
    method SendJob(ghost c: nat, instanceID: int, runID: nat) returns (waits: bool)
      requires c < |callers| && callers[c] == Sending(instanceID, runID)
      modifies this
      ensures waits <==> !Enabled(old(Now()), Send(c))
      ensures Now() == if waits then old(Now()) else Apply(old(Now()), Send(c))
    {
      if |jobs| >= capacity {
        return true;
      }
      jobs := jobs + [Job(runID, instanceID)];
      callers, sent := callers[c := Idle], sent + [runID];
      return false;
    }

    /** QueueRun gives up its claim, after a failed creation (run 0) or a cancellation. */
    method GiveUp(ghost c: nat, instanceID: int, runID: nat)
      requires c < |callers| && callers[c] == Releasing(instanceID, runID)
      modifies this
      ensures Now() == Apply(old(Now()), Release(c))
    {
      ClearInstance(instanceID, runID);
      callers := callers[c := if runID == 0 then Idle else Deleting(runID)];
      finished := if runID == 0 then finished else finished + {runID};
    }

    /** A waiting worker takes a job; it waits while there is none. */
    method ReceiveJob(ghost w: nat) returns (job: Option<Job>)
      requires w < |workers| && workers[w] == Waiting
      modifies this
      ensures job.None? <==> !Enabled(old(Now()), Receive(w))
      ensures job.None? ==> Now() == old(Now())
      ensures job.Some? ==> Now() == Apply(old(Now()), Receive(w)) && workers[w] == Handling(job.value)
    {
      if jobs == [] {
        return None;
      }
      job := Some(jobs[0]);
      workers, delivered := workers[w := Handling(jobs[0])], delivered + [jobs[0].runID];
      jobs := jobs[1..];
    }

    /** The worker's last act for a job. */
    method FinishJob(ghost w: nat, job: Job)
      requires w < |workers| && workers[w] == Finishing(job)
      modifies this
      ensures Now() == Apply(old(Now()), ClearRun(w))
    {
      ClearInstance(job.instanceID, job.runID);
      workers, finished := workers[w := Waiting], finished + {job.runID};
    }
  }

  /** The state after an interleaving; steps that cannot happen are skipped. */
  function After(workerCount: nat, steps: seq<Step>): State
    decreases |steps|
  {
    if steps == [] then Init(workerCount)
    else
      var before := After(workerCount, steps[..|steps| - 1]);
      if Enabled(before, steps[|steps| - 1]) then Apply(before, steps[|steps| - 1]) else before
  }

  // ----- who owns an instance -----

  /** A place where a run can be: with a caller, in the channel, with a worker. */
  datatype Owner = AtCaller(index: nat) | InQueue(index: nat) | AtWorker(index: nat)

  /** A claim on an instance: the value the in-flight map holds for it, and the run (0 before it is created). */
  datatype Claimed = Claimed(instanceID: int, token: nat, runID: nat)

  function CallerClaim(c: Caller): Option<Claimed> {
    match c
    case Creating(i) => Some(Claimed(i, 0, 0))
    case Created(i, run) => Some(Claimed(i, 0, run))
    case Sending(i, run) => Some(Claimed(i, run, run))
    case Releasing(i, run) => Some(Claimed(i, run, run))
    case _ => None
  }

  function WorkerClaim(w: Worker): Option<Claimed> {
    if w.Waiting? || w.Stopped? then None else Some(Claimed(w.job.instanceID, w.job.runID, w.job.runID))
  }

  function Holds(s: State, o: Owner): Option<Claimed> {
    match o
    case AtCaller(c) => if c < |s.callers| then CallerClaim(s.callers[c]) else None
    case InQueue(k) =>
      if k < |s.jobs| then Some(Claimed(s.jobs[k].instanceID, s.jobs[k].runID, s.jobs[k].runID)) else None
    case AtWorker(w) => if w < |s.workers| then WorkerClaim(s.workers[w]) else None
  }

  predicate Owns(s: State, o: Owner, instanceID: int) {
    Holds(s, o).Some? && Holds(s, o).value.instanceID == instanceID
  }

  /** The in-flight map has every claim under its token. */
  ghost predicate Backed(s: State) {
    forall o :: Holds(s, o).Some? ==>
      var c := Holds(s, o).value;
      c.instanceID in s.inflight && s.inflight[c.instanceID] == c.token && (c.token == 0 || c.token == c.runID)
  }

  /** The in-flight map has no entry without an owner. */
  ghost predicate Covered(s: State) {
    forall i :: i in s.inflight ==> exists o :: Owns(s, o, i)
  }

  /** No two owners of one instance. */
  ghost predicate Exclusive(s: State) {
    forall o, p :: Holds(s, o).Some? && Holds(s, p).Some? ==>
      Holds(s, o).value.instanceID == Holds(s, p).value.instanceID ==> o == p
  }

  /** No two owners of one run. */
  ghost predicate Unshared(s: State) {
    forall o, p :: Holds(s, o).Some? && Holds(s, p).Some? && Holds(s, o).value.runID == Holds(s, p).value.runID != 0 ==>
      o == p
  }

  predicate NumberedClaim(s: State, o: Owner, r: nat) {
    && r < s.nextRun && r !in s.finished
    && (o.AtCaller? ==> r !in s.sent)
    && (!o.AtCaller? ==> r in s.sent)
  }

  /** Runs are numbered before they are held, and no held run is already cleared; only sent runs have left their
      caller. */
  ghost predicate Numbered(s: State) {
    && s.nextRun > 0
    && (forall r :: r in s.finished || r in s.sent ==> 0 < r < s.nextRun)
    && (forall o :: Holds(s, o).Some? ==>
          NumberedClaim(s, o, Holds(s, o).value.runID))
    && (forall c :: 0 <= c < |s.callers| ==>
          (s.callers[c].Created? || s.callers[c].Sending? || s.callers[c].Deleting? ==> s.callers[c].runID != 0))
  }

  function RunIDs(jobs: seq<Job>): seq<nat> {
    seq(|jobs|, i requires 0 <= i < |jobs| => jobs[i].runID)
  }

  /** The channel delivers every sent run once and in order. */
  ghost predicate Fifo(s: State) {
    && s.sent == s.delivered + RunIDs(s.jobs)
    && NoDuplicates(s.sent)
    && |s.jobs| <= s.capacity
  }

  /** Progress is only kept for runs a worker is executing. */
  ghost predicate ProgressOwned(s: State) {
    forall r :: r in s.progress ==>
      exists w :: 0 <= w < |s.workers| && (s.workers[w].Executing? || s.workers[w].Finishing?)
        && s.workers[w].job.runID == r
  }

  /** QueueRun deletes only runs that are cleared; a held run is stored unless somebody else deleted it. */
  ghost predicate Kept(s: State) {
    && (forall c :: 0 <= c < |s.callers| && s.callers[c].Deleting? ==> s.callers[c].runID in s.finished)
    && (forall o :: Holds(s, o).Some? && Holds(s, o).value.runID != 0 ==>
          Holds(s, o).value.runID in s.stored || Holds(s, o).value.runID in s.forgotten)
  }

  /** Every instance in the in-flight map has exactly one owner, and nothing else has one. */
  ghost predicate Claims(s: State) {
    Backed(s) && Covered(s) && Exclusive(s) && Unshared(s)
  }

  ghost predicate Inv(s: State) {
    Claims(s) && Numbered(s) && Fifo(s) && ProgressOwned(s) && Kept(s)
  }

  lemma InitInv(workerCount: nat)
    ensures Inv(Init(workerCount))
  {}

  // ----- how steps change claims -----

  ghost predicate OthersKeep(s: State, t: State, place: Owner) {
    forall o :: o != place ==> Holds(t, o) == Holds(s, o)
  }

  lemma ClaimTaken(s: State, t: State, place: Owner, i: int)
    requires Claims(s) && OthersKeep(s, t, place)
    requires Holds(s, place) == None && i !in s.inflight
    requires Holds(t, place) == Some(Claimed(i, 0, 0)) && t.inflight == s.inflight[i := 0]
    ensures Claims(t)
  {
    hide Holds;
    forall j | j in t.inflight ensures exists o :: Owns(t, o, j) {
      if j == i {
        assert Owns(t, place, j);
      } else {
        var o :| Owns(s, o, j);
        assert Owns(t, o, j);
      }
    }
  }

  lemma ClaimRenewed(s: State, t: State, place: Owner, to: Claimed)
    requires Claims(s) && OthersKeep(s, t, place)
    requires Holds(s, place).Some? && Holds(s, place).value.instanceID == to.instanceID
    requires Holds(t, place) == Some(to) && (to.token == 0 || to.token == to.runID)
    requires t.inflight == s.inflight[to.instanceID := to.token]
    requires to.runID == Holds(s, place).value.runID
             || forall o :: Holds(s, o).Some? ==> Holds(s, o).value.runID != to.runID
    ensures Claims(t)
  {
    hide Holds;
    forall j | j in t.inflight ensures exists o :: Owns(t, o, j) {
      var o :| Owns(s, o, j);
      assert Owns(t, o, j);
    }
  }

  lemma ClaimDropped(s: State, t: State, place: Owner)
    requires Claims(s) && OthersKeep(s, t, place)
    requires Holds(s, place).Some? && Holds(t, place) == None
    requires t.inflight == s.inflight - {Holds(s, place).value.instanceID}
    ensures Claims(t)
  {
    hide Holds;
    forall j | j in t.inflight ensures exists o :: Owns(t, o, j) {
      var o :| Owns(s, o, j);
      assert Owns(t, o, j);
    }
  }

  /** Claims only change places: `from` tells where an owner's claim was. */
  lemma ClaimsMoved(s: State, t: State, from: Owner -> Owner, to: Owner -> Owner)
    requires Claims(s) && t.inflight == s.inflight
    requires forall o :: Holds(t, o).Some? ==> Holds(s, from(o)) == Holds(t, o) && to(from(o)) == o
    requires forall o :: Holds(s, o).Some? ==> Holds(t, to(o)) == Holds(s, o)
    ensures Claims(t)
  {
    hide Holds;
    forall j | j in t.inflight ensures exists o :: Owns(t, o, j) {
      var o :| Owns(s, o, j);
      assert Owns(t, to(o), j);
    }
    forall o | Holds(t, o).Some?
      ensures var c := Holds(t, o).value;
              c.instanceID in t.inflight && t.inflight[c.instanceID] == c.token && (c.token == 0 || c.token == c.runID)
    {
      assert Holds(s, from(o)).Some?;
    }
    forall o, p | Holds(t, o).Some? && Holds(t, p).Some?
      ensures Holds(t, o).value.instanceID == Holds(t, p).value.instanceID ==> o == p
      ensures Holds(t, o).value.runID == Holds(t, p).value.runID != 0 ==> o == p
    {
      assert Holds(s, from(o)).Some? && Holds(s, from(p)).Some?;
    }
  }

  /** A clear by the holder of a claim removes that entry. */
  lemma ClearsOwnClaim(s: State, place: Owner)
    requires Backed(s) && Holds(s, place).Some? && Holds(s, place).value.token == Holds(s, place).value.runID
    ensures var c := Holds(s, place).value; Clear(s.inflight, c.instanceID, c.runID) == s.inflight - {c.instanceID}
  {
    hide Holds;
  }

  // ----- every step keeps the claims -----

  lemma CallerStepKeepsClaims(s: State, step: Step)
    requires Inv(s) && Enabled(s, step)
    requires step.Create? || step.CreateFails? || step.Publish? || step.Cancel?
    ensures Claims(Apply(s, step))
  {
    hide Claims, Fifo, ProgressOwned;
    var t, place := Apply(s, step), AtCaller(step.caller);
    assert Holds(s, place).Some?;
    InflightUnderToken(s, place);
    ClaimRenewed(s, t, place, Holds(t, place).value);
  }

  lemma InflightUnderToken(s: State, place: Owner)
    requires Claims(s) && Holds(s, place).Some?
    ensures var c := Holds(s, place).value;
            c.instanceID in s.inflight && s.inflight[c.instanceID := c.token] == s.inflight
  {
    hide Holds;
  }

  lemma TakingKeepsClaims(s: State, c: nat, i: int)
    requires Inv(s) && Enabled(s, Claim(c, i))
    ensures Claims(Apply(s, Claim(c, i)))
  {
    hide Claims, Fifo, ProgressOwned;
    if i !in s.inflight {
      ClaimTaken(s, Apply(s, Claim(c, i)), AtCaller(c), i);
    }
  }

  lemma SendKeepsClaims(s: State, c: nat)
    requires Inv(s) && Enabled(s, Send(c))
    ensures Claims(Apply(s, Send(c)))
  {
    hide Claims, Fifo, ProgressOwned;
    var last := |s.jobs|;
    ClaimsMoved(s, Apply(s, Send(c)), o => if o == InQueue(last) then AtCaller(c) else o,
                o => if o == AtCaller(c) then InQueue(last) else o);
  }

  lemma ReceiveKeepsClaims(s: State, w: nat)
    requires Inv(s) && Enabled(s, Receive(w))
    ensures Claims(Apply(s, Receive(w)))
  {
    hide Claims, Fifo, ProgressOwned, Numbered;
    ClaimsMoved(s, Apply(s, Receive(w)),
                o => if o == AtWorker(w) then InQueue(0) else if o.InQueue? then InQueue(o.index + 1) else o,
                o => if o == InQueue(0) then AtWorker(w)
                     else if o.InQueue? && o.index > 0 then InQueue(o.index - 1) else o);
  }

  lemma GivingUpKeepsClaims(s: State, step: Step)
    requires Inv(s) && Enabled(s, step) && (step.Release? || step.ClearRun?)
    ensures Claims(Apply(s, step))
  {
    hide Covered, Exclusive, Unshared, Fifo, ProgressOwned, Numbered;
    var place := if step.Release? then AtCaller(step.caller) else AtWorker(step.worker);
    ClearsOwnClaim(s, place);
    ClaimDropped(s, Apply(s, step), place);
  }

  lemma StepKeepsClaims(s: State, step: Step)
    requires Inv(s) && Enabled(s, step)
    ensures Claims(Apply(s, step))
  {
    hide Claims, Fifo, ProgressOwned, Numbered;
    match step
    case Claim(c, i) => TakingKeepsClaims(s, c, i);
    case Send(c) => SendKeepsClaims(s, c);
    case Receive(w) => ReceiveKeepsClaims(s, w);
    case Create(_) => CallerStepKeepsClaims(s, step);
    case CreateFails(_) => CallerStepKeepsClaims(s, step);
    case Publish(_) => CallerStepKeepsClaims(s, step);
    case Cancel(_) => CallerStepKeepsClaims(s, step);
    case Release(_) => GivingUpKeepsClaims(s, step);
    case ClearRun(_) => GivingUpKeepsClaims(s, step);
    case _ => ClaimsMoved(s, Apply(s, step), o => o, o => o);
  }

  // ----- every step keeps the numbering, the channel and the progress map -----

  lemma StepKeepsFifo(s: State, step: Step)
    requires Inv(s) && Enabled(s, step)
    ensures Fifo(Apply(s, step))
  {
    hide Claims, ProgressOwned;
    if step.Send? {
      assert Holds(s, AtCaller(step.caller)).Some?;
      hide Numbered;
      var job := Job(s.callers[step.caller].runID, s.callers[step.caller].instanceID);
      assert RunIDs(s.jobs + [job]) == RunIDs(s.jobs) + [job.runID];
    } else if step.Receive? {
      hide Numbered;
      assert RunIDs(s.jobs) == [s.jobs[0].runID] + RunIDs(s.jobs[1..]);
    }
  }

  lemma StepKeepsProgress(s: State, step: Step)
    requires Inv(s) && Enabled(s, step)
    ensures ProgressOwned(Apply(s, step))
  {
    hide Backed, Covered, Exclusive, Fifo, Numbered, Unshared;
    var t := Apply(s, step);
    forall r | r in t.progress
      ensures exists w :: 0 <= w < |t.workers| && (t.workers[w].Executing? || t.workers[w].Finishing?)
                          && t.workers[w].job.runID == r
    {
      if step.Report? && r == s.workers[step.worker].job.runID {
        assert t.workers[step.worker].job.runID == r;
      } else {
        var w :| 0 <= w < |s.workers| && (s.workers[w].Executing? || s.workers[w].Finishing?)
          && s.workers[w].job.runID == r;
        assert t.workers[w].job.runID == r;
      }
    }
  }

  /** Where the owner of a claim was before the step. */
  function Origin(s: State, step: Step, o: Owner): Owner {
    match step
    case Send(c) => if o == InQueue(|s.jobs|) then AtCaller(c) else o
    case Receive(w) => if o == AtWorker(w) then InQueue(0) else if o.InQueue? then InQueue(o.index + 1) else o
    case _ => o
  }

  lemma StepKeepsNumberedClaim(s: State, step: Step, o: Owner)
    requires Inv(s) && Enabled(s, step) && Holds(Apply(s, step), o).Some?
    ensures NumberedClaim(Apply(s, step), o, Holds(Apply(s, step), o).value.runID)
  {
    hide Backed, Covered, Exclusive, Unshared, ProgressOwned, Fifo;
    var from := Origin(s, step, o);
    if step.Send? || step.Release? || step.ClearRun? {
      LeavingKeepsNumberedClaim(s, step, o);
    } else if (step.Create? || step.Claim?) && o == AtCaller(step.caller) {
    } else {
      assert Holds(s, from).Some? && Holds(s, from).value.runID == Holds(Apply(s, step), o).value.runID;
    }
  }

  /** A run that leaves its caller, or is cleared, is not held anywhere else. */
  lemma LeavingKeepsNumberedClaim(s: State, step: Step, o: Owner)
    requires Inv(s) && Enabled(s, step) && Holds(Apply(s, step), o).Some?
    requires step.Send? || step.Release? || step.ClearRun?
    ensures NumberedClaim(Apply(s, step), o, Holds(Apply(s, step), o).value.runID)
  {
    hide Backed, Covered, Exclusive, ProgressOwned, Fifo;
    var from := Origin(s, step, o);
    var place := if step.ClearRun? then AtWorker(step.worker) else AtCaller(step.caller);
    assert Holds(s, place).Some?;
    assert Holds(s, from).Some? && Holds(s, from).value.runID == Holds(Apply(s, step), o).value.runID;
  }

  lemma StepKeepsNumbered(s: State, step: Step)
    requires Inv(s) && Enabled(s, step)
    ensures Numbered(Apply(s, step))
  {
    hide Claims, ProgressOwned, Fifo, NumberedClaim;
    var t := Apply(s, step);
    forall o | Holds(t, o).Some? ensures NumberedClaim(t, o, Holds(t, o).value.runID) {
      StepKeepsNumberedClaim(s, step, o);
    }
    forall r | r in t.finished || r in t.sent ensures 0 < r < t.nextRun {
      StepKeepsRange(s, step, r);
    }
  }

  lemma StepKeepsRange(s: State, step: Step, r: nat)
    requires Inv(s) && Enabled(s, step)
    requires r in Apply(s, step).finished || r in Apply(s, step).sent
    ensures 0 < r < Apply(s, step).nextRun
  {
    hide Claims, ProgressOwned, Fifo;
    if step.Send? || step.Release? {
      assert Holds(s, AtCaller(step.caller)).Some?;
    } else if step.ClearRun? {
      assert Holds(s, AtWorker(step.worker)).Some?;
    }
  }

  lemma StepKeepsStored(s: State, step: Step)
    requires Inv(s) && Enabled(s, step)
    ensures Kept(Apply(s, step))
  {
    hide Claims, ProgressOwned, Fifo, Numbered;
    var t := Apply(s, step);
    forall o | Holds(t, o).Some? && Holds(t, o).value.runID != 0
      ensures Holds(t, o).value.runID in t.stored || Holds(t, o).value.runID in t.forgotten
    {
      StepKeepsStoredRun(s, step, o);
    }
  }

  lemma StepKeepsStoredRun(s: State, step: Step, o: Owner)
    requires Inv(s) && Enabled(s, step) && Holds(Apply(s, step), o).Some? && Holds(Apply(s, step), o).value.runID != 0
    ensures var r := Holds(Apply(s, step), o).value.runID; r in Apply(s, step).stored || r in Apply(s, step).forgotten
  {
    hide Claims, ProgressOwned, Fifo, NumberedClaim;
    var from := Origin(s, step, o);
    if !(step.Create? && o == AtCaller(step.caller)) {
      assert Holds(s, from).Some? && Holds(s, from).value.runID == Holds(Apply(s, step), o).value.runID;
      assert NumberedClaim(s, from, Holds(s, from).value.runID);
      HeldIsUnfinished(s, from);
    }
  }

  lemma HeldIsUnfinished(s: State, o: Owner)
    requires Holds(s, o).Some? && NumberedClaim(s, o, Holds(s, o).value.runID)
    ensures Holds(s, o).value.runID !in s.finished
  {}

  lemma StepKeepsInv(s: State, step: Step)
    requires Inv(s) && Enabled(s, step)
    ensures Inv(Apply(s, step))
  {
    hide Claims, Numbered, Fifo, ProgressOwned, Kept;
    StepKeepsClaims(s, step);
    StepKeepsStored(s, step);
    StepKeepsNumbered(s, step);
    StepKeepsFifo(s, step);
    StepKeepsProgress(s, step);
  }

  lemma {:induction false} EveryRunKeepsInv(workerCount: nat, steps: seq<Step>)
    ensures Inv(After(workerCount, steps))
    decreases |steps|
  {
    hide Inv, Apply, Enabled;
    if steps == [] {
      InitInv(workerCount);
    } else {
      EveryRunKeepsInv(workerCount, steps[..|steps| - 1]);
      var before := After(workerCount, steps[..|steps| - 1]);
      if Enabled(before, steps[|steps| - 1]) {
        StepKeepsInv(before, steps[|steps| - 1]);
      }
    }
  }

  // ----- what holds in every interleaving -----

  /** An instance is in the in-flight map exactly when a run of it is being created, queued or executed; there is then
      exactly one such run, and the map holds its number from its publication on. */
  lemma OneRunPerInstance(workerCount: nat, steps: seq<Step>, instanceID: int)
    ensures var s := After(workerCount, steps);
            && (instanceID in s.inflight <==> exists o :: Owns(s, o, instanceID))
            && (forall o, p :: Owns(s, o, instanceID) && Owns(s, p, instanceID) ==> o == p)
            && (forall o :: Owns(s, o, instanceID) ==> s.inflight[instanceID] == Holds(s, o).value.token)
  {
    hide After, Holds, Numbered, Fifo, ProgressOwned;
    EveryRunKeepsInv(workerCount, steps);
    var s := After(workerCount, steps);
    forall o | Owns(s, o, instanceID)
      ensures instanceID in s.inflight && s.inflight[instanceID] == Holds(s, o).value.token
    {
      assert Holds(s, o).Some?;
    }
  }

  /** QueueRun answers that the instance is busy exactly when some run of it is under way. */
  lemma BusyExactlyWhenOwned(workerCount: nat, steps: seq<Step>, c: nat, instanceID: int)
    requires Enabled(After(workerCount, steps), Claim(c, instanceID))
    ensures var s := After(workerCount, steps);
            Apply(s, Claim(c, instanceID)).callers[c] == Idle <==> exists o :: Owns(s, o, instanceID)
  {
    hide After, Owns;
    OneRunPerInstance(workerCount, steps, instanceID);
  }

  /** What a caller or worker waits for: sending for room among the `2 * workerCount` places, receiving for a job, and
      nothing else for anything. */
  lemma WaitsExactly(workerCount: nat, steps: seq<Step>, c: nat, w: nat)
    requires c < |After(workerCount, steps).callers| && w < |After(workerCount, steps).workers|
    ensures var s := After(workerCount, steps);
            && (match s.callers[c]
                case Idle => forall i :: Enabled(s, Claim(c, i))
                case Creating(_) => Enabled(s, Create(c)) && Enabled(s, CreateFails(c))
                case Created(_, _) => Enabled(s, Publish(c))
                case Sending(_, _) => (Enabled(s, Send(c)) <==> |s.jobs| < 2 * workerCount) && Enabled(s, Cancel(c))
                case Releasing(_, _) => Enabled(s, Release(c))
                case Deleting(_) => Enabled(s, Delete(c, true)) && Enabled(s, Delete(c, false)))
            && (match s.workers[w]
                case Waiting => (Enabled(s, Receive(w)) <==> s.jobs != []) && Enabled(s, StopWorker(w))
                case Handling(_) => Enabled(s, Begin(w)) && Enabled(s, Finish(w))
                case Executing(_) => Enabled(s, Report(w)) && Enabled(s, Finish(w))
                case Finishing(_) => Enabled(s, ClearRun(w))
                case Stopped => true)
  {
    CapacityFixed(workerCount, steps);
    hide After;
  }

  /** Sent runs reach the workers in order, each at most once, and none is lost in between. */
  lemma DeliveredOnce(workerCount: nat, steps: seq<Step>)
    ensures var s := After(workerCount, steps);
            && s.sent == s.delivered + RunIDs(s.jobs)
            && NoDuplicates(s.delivered)
            && |s.jobs| <= 2 * workerCount
  {
    hide After, Claims, Numbered, ProgressOwned;
    EveryRunKeepsInv(workerCount, steps);
    CapacityFixed(workerCount, steps);
    var s := After(workerCount, steps);
    forall i, j | 0 <= i < j < |s.delivered| ensures s.delivered[i] != s.delivered[j] {
      assert s.sent[i] == s.delivered[i] && s.sent[j] == s.delivered[j];
    }
  }

  lemma {:induction false} CapacityFixed(workerCount: nat, steps: seq<Step>)
    ensures After(workerCount, steps).capacity == 2 * workerCount
    decreases |steps|
  {
    if steps != [] {
      CapacityFixed(workerCount, steps[..|steps| - 1]);
    }
  }

  /** Clearing again for a run that is already cleared changes nothing, whoever claimed the instance since. */
  lemma LateClearHarmless(workerCount: nat, steps: seq<Step>, instanceID: int, runID: nat)
    requires runID in After(workerCount, steps).finished
    ensures var s := After(workerCount, steps); Clear(s.inflight, instanceID, runID) == s.inflight
  {
    hide After, Exclusive, Unshared, Fifo, ProgressOwned;
    EveryRunKeepsInv(workerCount, steps);
    var s := After(workerCount, steps);
    if instanceID in s.inflight {
      var o :| Owns(s, o, instanceID);
      assert NumberedClaim(s, o, Holds(s, o).value.runID);
      assert s.inflight[instanceID] == Holds(s, o).value.token;
    }
  }

  /** The clear of a run under way gives up its own instance and no other. */
  lemma ClearReleasesOwnClaim(workerCount: nat, steps: seq<Step>, step: Step)
    requires Enabled(After(workerCount, steps), step) && (step.Release? || step.ClearRun?)
    ensures var s := After(workerCount, steps);
            var own := if step.Release? then s.callers[step.caller].instanceID
                       else s.workers[step.worker].job.instanceID;
            own in s.inflight && Apply(s, step).inflight == s.inflight - {own}
  {
    hide After, Exclusive, Unshared, Covered, Fifo, ProgressOwned, Numbered;
    EveryRunKeepsInv(workerCount, steps);
    var s := After(workerCount, steps);
    var place := if step.Release? then AtCaller(step.caller) else AtWorker(step.worker);
    assert Holds(s, place).Some?;
    ClearsOwnClaim(s, place);
  }

  /** A run that is queued, executed or still with its caller is in the store unless somebody else deleted it: the
      deletion after a cancellation only ever hits a run that nobody holds. */
  lemma HeldRunIsStored(workerCount: nat, steps: seq<Step>, o: Owner)
    requires Holds(After(workerCount, steps), o).Some? && Holds(After(workerCount, steps), o).value.runID != 0
    ensures var s := After(workerCount, steps);
            var r := Holds(s, o).value.runID;
            r in s.stored || r in s.forgotten
  {
    hide After, Claims, Numbered, Fifo, ProgressOwned, Holds;
    EveryRunKeepsInv(workerCount, steps);
  }
}
