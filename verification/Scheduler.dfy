/** The backup scheduler (internal/backups/service.go): its decision, and the spacing it enforces over the whole life of
    one instance's runs of a kind. */
module Scheduler {
  import opened Text
  import opened Ordering

  datatype Kind = Manual | Hourly | Daily | Weekly | Monthly

  datatype Status = Pending | Running | Success | Failed | Canceled

  /** A stored run; instants are counted in seconds. */
  datatype Run = Run(requestedAt: int, status: Status, completedAt: Option<int>)

  const HOUR := 3600

  /** A monthly backup is due at the same day of the next month: the calendar is a parameter. */
  datatype Config = Config(failureCooldown: int, monthLater: int -> int)

  /** What the constructor and the calendar guarantee. */
  ghost predicate ValidConfig(config: Config) {
    config.failureCooldown > 0 && forall t :: config.monthLater(t) > t
  }

  function Reference(r: Run): int {
    if r.completedAt.Some? then r.completedAt.value else r.requestedAt
  }

  /** A run of the kind is due again at `now`, given a success at `ref`. */
  predicate DueAgain(config: Config, kind: Kind, ref: int, now: int) {
    match kind
    case Hourly => ref + HOUR <= now
    case Daily => ref + 24 * HOUR <= now
    case Weekly => ref + 7 * 24 * HOUR <= now
    case Monthly => config.monthLater(ref) <= now
    case Manual => false
  }

  predicate InFlight(r: Run) {
    r.status == Pending || r.status == Running
  }

  predicate Unsuccessful(r: Run) {
    r.status == Failed || r.status == Canceled
  }

  /** The newest run forbids a new one. */
  predicate Blocks(config: Config, r: Run, now: int) {
    InFlight(r) || (Unsuccessful(r) && config.failureCooldown > 0 && now < Reference(r) + config.failureCooldown)
  }

  ghost predicate NewestSuccess(runs: seq<Run>, i: nat) {
    i < |runs| && runs[i].status == Success && forall j :: 0 <= j < i ==> runs[j].status != Success
  }

  /** A backup is missed: nothing recent forbids it, and the newest success listed, if any, is old enough. */
  ghost predicate Missed(config: Config, kind: Kind, runs: seq<Run>, now: int) {
    && (runs != [] ==> !Blocks(config, runs[0], now))
    && forall i: nat :: NewestSuccess(runs, i) ==> DueAgain(config, kind, Reference(runs[i]), now)
  }

  /** The newest run, if there is one, is over, and a failed or canceled one long enough ago. */
  predicate NothingRecent(cooldown: int, runs: seq<Run>, now: int) {
    runs == []
    || match runs[0].status
       case Pending => false
       case Running => false
       case Success => true
       case Failed => cooldown <= 0 || Reference(runs[0]) + cooldown <= now
       case Canceled => cooldown <= 0 || Reference(runs[0]) + cooldown <= now
  }

  /** From the newest success listed, if there is one, an hour, a day, a week or a month has passed. */
  ghost predicate EverySuccessPast(config: Config, kind: Kind, runs: seq<Run>, now: int) {
    forall i :: 0 <= i < |runs| && runs[i].status == Success
                && (forall j :: 0 <= j < i ==> runs[j].status != Success) ==>
      Past(config, kind, Reference(runs[i]), now)
  }

  predicate Past(config: Config, kind: Kind, since: int, now: int) {
    && (kind == Hourly ==> now - since >= 3600)
    && (kind == Daily ==> now - since >= 86400)
    && (kind == Weekly ==> now - since >= 604800)
    && (kind == Monthly ==> now >= config.monthLater(since))
    && kind != Manual
  }

  lemma MissedExactly(config: Config, kind: Kind, runs: seq<Run>, now: int)
    ensures Missed(config, kind, runs, now)
        <==> NothingRecent(config.failureCooldown, runs, now) && EverySuccessPast(config, kind, runs, now)
  {
    forall i: nat ensures NewestSuccess(runs, i) ==>
                            (DueAgain(config, kind, Reference(runs[i]), now)
                             <==> Past(config, kind, Reference(runs[i]), now))
    {}
    if EverySuccessPast(config, kind, runs, now) {
      forall i: nat | NewestSuccess(runs, i) ensures DueAgain(config, kind, Reference(runs[i]), now) {}
    }
    if forall i: nat :: NewestSuccess(runs, i) ==> DueAgain(config, kind, Reference(runs[i]), now) {
      forall i | 0 <= i < |runs| && runs[i].status == Success
                 && (forall j :: 0 <= j < i ==> runs[j].status != Success)
        ensures Past(config, kind, Reference(runs[i]), now)
      {
        assert NewestSuccess(runs, i);
      }
    }
  }

  /** `runs` is the answer of the store, newest request first; none if the query failed. */
  method IsBackupMissed(config: Config, kind: Kind, enabled: bool, runs: Option<seq<Run>>, now: int)
    returns (missed: bool)
    ensures missed <==> enabled && runs.Some? && Missed(config, kind, runs.value, now)
    ensures missed <==> enabled && runs.Some? && NothingRecent(config.failureCooldown, runs.value, now)
                        && EverySuccessPast(config, kind, runs.value, now)
    ensures enabled && runs.Some? && (forall r :: r in runs.value ==> r.status == Failed || r.status == Canceled) ==>
              (missed <==> runs.value == [] || config.failureCooldown <= 0
                           || Reference(runs.value[0]) + config.failureCooldown <= now)
  {
    if runs.Some? {
      MissedExactly(config, kind, runs.value, now);
    }
    if !enabled || runs.None? {
      return false;
    }
    var rows := runs.value;
    if rows != [] {
      var newest := rows[0];
      match newest.status {
        case Pending => return false;
        case Running => return false;
        case Success =>
        case _ =>
          if config.failureCooldown > 0 {
            var ref := if newest.completedAt.Some? then newest.completedAt.value else newest.requestedAt;
            if now < ref + config.failureCooldown {
              return false;
            }
          }
      }
    }
    var refTime: Option<int> := None;
    var i := 0;
    while i < |rows|
      invariant 0 <= i <= |rows|
      invariant refTime.None?
      invariant forall j :: 0 <= j < i ==> rows[j].status != Success
    {
      if rows[i].status == Success {
        refTime := Some(if rows[i].completedAt.Some? then rows[i].completedAt.value else rows[i].requestedAt);
        break;
      }
      i := i + 1;
    }
    if refTime.None? {
      return true;
    }
    assert NewestSuccess(rows, i);
    assert forall k: nat :: NewestSuccess(rows, k) ==> k == i;
    var interval := 0;
    match kind {
      case Hourly => interval := HOUR;
      case Daily => interval := 24 * HOUR;
      case Weekly => interval := 7 * 24 * HOUR;
      case Monthly => return !(now < config.monthLater(refTime.value));
      case _ => return false;
    }
    return !(refTime.value + interval > now);
  }

  // ----- the life of one instance's runs of a kind -----

  /** `history` has every run that was not withdrawn, newest first; the store has the first `kept` of them. `queued`
      says that QueueRun still holds the newest one. */
  datatype Line = Line(now: int, history: seq<Run>, kept: nat, queued: bool)

  datatype Step =
    | Wait(duration: nat)
    | Request
    | Sent
    | Withdraw
    | Start
    | Finish(status: Status)
    | Retain(keep: nat)
    | Restart

  const LIST_LIMIT := 10

  /** ListRunsByKind: the newest ten stored runs. */
  function Listed(line: Line): seq<Run>
    requires line.kept <= |line.history|
  {
    line.history[..if line.kept < LIST_LIMIT then line.kept else LIST_LIMIT]
  }

  /** A request is made when the scheduler finds a backup missed; retention runs within another run of the instance,
      or at the end of this one, and keeps at least one run of an enabled kind. */
  ghost predicate Enabled(config: Config, kind: Kind, line: Line, step: Step) {
    match step
    case Wait(_) => true
    case Request => line.kept <= |line.history| && !line.queued && Missed(config, kind, Listed(line), line.now)
    case Sent => line.queued
    case Withdraw => line.queued && line.history != [] && line.kept > 0
    case Start => !line.queued && line.history != [] && line.history[0].status == Pending
    case Finish(status) =>
      && !line.queued && line.history != [] && InFlight(line.history[0])
      && (status == Success || status == Failed || status == Canceled)
    case Retain(keep) => !line.queued && keep >= 1
    case Restart => true
  }

  ghost function Apply(config: Config, kind: Kind, line: Line, step: Step): Line
    requires Enabled(config, kind, line, step)
  {
    var h := line.history;
    match step
    case Wait(duration) => line.(now := line.now + duration)
    case Request => line.(history := [Run(line.now, Pending, None)] + h, kept := line.kept + 1, queued := true)
    case Sent => line.(queued := false)
    case Withdraw => line.(history := h[1..], kept := line.kept - 1, queued := false)
    case Start => line.(history := [h[0].(status := Running)] + h[1..])
    case Finish(status) => line.(history := [h[0].(status := status, completedAt := Some(line.now))] + h[1..])
    case Retain(keep) => if keep < line.kept then line.(kept := keep) else line
    case Restart =>
      if h != [] && InFlight(h[0])
      then line.(history := [h[0].(status := Failed, completedAt := Some(line.now))] + h[1..], queued := false)
      else line.(queued := false)
  }

  ghost function After(config: Config, kind: Kind, start: int, steps: seq<Step>): Line
    decreases |steps|
  {
    if steps == [] then Line(start, [], 0, false)
    else
      var before := After(config, kind, start, steps[..|steps| - 1]);
      if Enabled(config, kind, before, steps[|steps| - 1]) then Apply(config, kind, before, steps[|steps| - 1])
      else before
  }

  // ----- spacing -----

  /** A run allows another one to be requested at `later`. */
  ghost predicate Allows(config: Config, kind: Kind, r: Run, later: int) {
    && !InFlight(r)
    && (r.status == Success ==> DueAgain(config, kind, Reference(r), later))
    && (Unsuccessful(r) ==> r.completedAt.Some? && r.completedAt.value + config.failureCooldown <= later)
    && r.requestedAt < later
  }

  ghost predicate Spaced(config: Config, kind: Kind, history: seq<Run>) {
    forall i, j :: 0 <= j < i < |history| ==> Allows(config, kind, history[i], history[j].requestedAt)
  }

  ghost predicate WellTimed(r: Run, now: int) {
    && r.requestedAt <= now
    && (InFlight(r) <==> r.completedAt.None?)
    && (r.completedAt.Some? ==> r.requestedAt <= r.completedAt.value <= now)
  }

  ghost predicate Inv(config: Config, kind: Kind, line: Line) {
    && line.kept <= |line.history|
    && (line.history != [] && !line.queued ==> line.kept >= 1)
    && (line.queued ==> line.history != [] && line.kept >= 1 && line.history[0].status == Pending)
    && (line.queued && |line.history| >= 2 ==> line.kept >= 2)
    && (forall i :: 0 <= i < |line.history| ==> WellTimed(line.history[i], line.now))
    && Spaced(config, kind, line.history)
  }

  /** A request happens only when every earlier run allows it, although the decision sees ten stored runs at most. */
  lemma RequestRespectsAll(config: Config, kind: Kind, line: Line, i: nat)
    requires ValidConfig(config) && Inv(config, kind, line) && Enabled(config, kind, line, Request)
    requires i < |line.history|
    ensures Allows(config, kind, line.history[i], line.now)
  {
    var h, runs := line.history, Listed(line);
    assert runs[0] == h[0] && WellTimed(h[0], line.now);
    if i == 0 {
      if h[0].status == Success {
        assert NewestSuccess(runs, 0);
      }
    } else {
      assert Allows(config, kind, h[i], h[0].requestedAt);
      DueLater(config, kind, Reference(h[i]), h[0].requestedAt, line.now);
    }
  }

  /** And it happens as soon as they all do: a backup is requested exactly when no earlier run forbids it. */
  lemma RequestExactly(config: Config, kind: Kind, line: Line)
    requires ValidConfig(config) && Inv(config, kind, line)
    ensures Enabled(config, kind, line, Request)
       <==> !line.queued && forall i :: 0 <= i < |line.history| ==> Allows(config, kind, line.history[i], line.now)
  {
    hide DueAgain;
    if Enabled(config, kind, line, Request) {
      forall i | 0 <= i < |line.history| ensures Allows(config, kind, line.history[i], line.now) {
        RequestRespectsAll(config, kind, line, i);
      }
    }
    if !line.queued && forall i :: 0 <= i < |line.history| ==> Allows(config, kind, line.history[i], line.now) {
      var runs := Listed(line);
      assert forall i :: 0 <= i < |runs| ==> runs[i] == line.history[i];
    }
  }

  /** In every life of a kind: while no request is being queued, a backup is requested exactly if no earlier run is
      pending or running, every success is an hour, a day, a week or a month past, and every failure a cooldown. */
  lemma RequestedWhenDue(config: Config, kind: Kind, start: int, steps: seq<Step>)
    requires ValidConfig(config) && !After(config, kind, start, steps).queued
    ensures var line := After(config, kind, start, steps);
            Enabled(config, kind, line, Request)
            <==> forall i :: 0 <= i < |line.history| ==>
                   var r := line.history[i];
                   && r.status != Pending && r.status != Running && r.requestedAt < line.now
                   && (r.status == Success ==> Past(config, kind, Reference(r), line.now))
                   && (r.status == Failed || r.status == Canceled ==>
                         r.completedAt.Some? && r.completedAt.value + config.failureCooldown <= line.now)
  {
    hide After, Enabled;
    EveryLifeKeepsInv(config, kind, start, steps);
    RequestExactly(config, kind, After(config, kind, start, steps));
  }

  lemma DueLater(config: Config, kind: Kind, ref: int, now: int, later: int)
    requires now <= later
    ensures DueAgain(config, kind, ref, now) ==> DueAgain(config, kind, ref, later)
  {}

  lemma RequestKeepsInv(config: Config, kind: Kind, line: Line)
    requires ValidConfig(config) && Inv(config, kind, line) && Enabled(config, kind, line, Request)
    ensures Inv(config, kind, Apply(config, kind, line, Request))
  {
    hide DueAgain, Missed, Allows;
    forall i | 0 <= i < |line.history| ensures Allows(config, kind, line.history[i], line.now) {
      RequestRespectsAll(config, kind, line, i);
    }
  }

  /** The newest run may still change: nothing has been requested after it. */
  lemma NewestMayChange(config: Config, kind: Kind, history: seq<Run>, r: Run)
    requires Spaced(config, kind, history) && history != [] && r.requestedAt == history[0].requestedAt
    ensures Spaced(config, kind, [r] + history[1..])
  {
    hide Allows;
    var h := [r] + history[1..];
    forall i, j | 0 <= j < i < |h| ensures Allows(config, kind, h[i], h[j].requestedAt) {
      assert Allows(config, kind, history[i], history[j].requestedAt);
    }
  }

  lemma StepKeepsInv(config: Config, kind: Kind, line: Line, step: Step)
    requires ValidConfig(config) && Inv(config, kind, line) && Enabled(config, kind, line, step)
    ensures Inv(config, kind, Apply(config, kind, line, step))
  {
    hide Allows, Missed;
    if step.Request? {
      RequestKeepsInv(config, kind, line);
    } else if step.Start? || step.Finish? || (step.Restart? && line.history != []) {
      NewestMayChange(config, kind, line.history, Apply(config, kind, line, step).history[0]);
    }
  }

  lemma {:induction false} EveryLifeKeepsInv(config: Config, kind: Kind, start: int, steps: seq<Step>)
    requires ValidConfig(config)
    ensures Inv(config, kind, After(config, kind, start, steps))
    decreases |steps|
  {
    hide Enabled, Apply, ValidConfig;
    if steps != [] {
      var front := steps[..|steps| - 1];
      EveryLifeKeepsInv(config, kind, start, front);
      var before := After(config, kind, start, front);
      if Enabled(config, kind, before, steps[|steps| - 1]) {
        StepKeepsInv(config, kind, before, steps[|steps| - 1]);
      }
    }
  }

  /** Over the whole life: after a success no later run is requested before an hour, a day, a week or a month has
      passed, after a failure none before the cooldown is over, and none while the latest is pending or running. */
  lemma SchedulerSpacing(config: Config, kind: Kind, start: int, steps: seq<Step>, i: nat, j: nat)
    requires ValidConfig(config)
    requires j < i < |After(config, kind, start, steps).history|
    ensures var h := After(config, kind, start, steps).history;
            && !InFlight(h[i])
            && (h[i].status == Success ==> Past(config, kind, Reference(h[i]), h[j].requestedAt))
            && (Unsuccessful(h[i]) ==> Reference(h[i]) + config.failureCooldown <= h[j].requestedAt)
  {
    hide After;
    EveryLifeKeepsInv(config, kind, start, steps);
    var h := After(config, kind, start, steps).history;
    assert Allows(config, kind, h[i], h[j].requestedAt);
  }

  // ----- the store's answer -----

  predicate NewerFirst(a: Run, b: Run) {
    a.requestedAt >= b.requestedAt
  }

  /** However the stored runs are laid out and however the store breaks ties, ordering them by request time gives the
      newest first as the decision expects. */
  lemma StoreListsNewestFirst(config: Config, kind: Kind, start: int, steps: seq<Step>, rows: seq<Run>)
    requires ValidConfig(config)
    requires var line := After(config, kind, start, steps);
             line.kept <= |line.history| && multiset(rows) == multiset(line.history[..line.kept])
    requires SortedBy(NewerFirst, rows)
    ensures var line := After(config, kind, start, steps); rows == line.history[..line.kept]
  {
    hide After;
    EveryLifeKeepsInv(config, kind, start, steps);
    var line := After(config, kind, start, steps);
    var stored := line.history[..line.kept];
    forall a, b | 0 <= a < b < |stored| ensures stored[a].requestedAt > stored[b].requestedAt {
      assert Allows(config, kind, line.history[b], line.history[a].requestedAt);
    }
    SamePermutationDuplicates(rows, stored);
    forall x ensures x in rows <==> x in stored {
      assert x in rows <==> x in multiset(rows);
      assert x in stored <==> x in multiset(stored);
    }
    SortedUnique(NewerFirst, rows, stored);
  }
}
