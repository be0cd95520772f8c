/** Lineage of retries and replays, and the two independent classifiers that read it. */
module QueueLineage {
  import opened Wrappers
  import opened JobPolicy
  import opened JobTable
  import opened QueueProtocol

  // ---- idempotence and lineage ----

  /** Two active jobs of one owner never share a non-empty dedup key. */
  lemma {:induction false} OneActivePerKey(c: Config, start: State, steps: seq<Step>, i: nat, j: nat)
    requires Initial(start)
    requires var t := Run(c, start, steps).jobs;
      && i < |t| && j < |t| && Active(t[i].status) && Active(t[j].status)
      && t[i].owner == t[j].owner && t[i].dedup == t[j].dedup != ""
    ensures i == j
  {
    RunKeepsInv(c, start, steps);
  }

  /** Every retry carries the key of the job it retries. */
  predicate RetryKeyed(j: Job) {
    j.origin == Retry ==> j.parent.Some? && j.dedup == RetryKey(j.parent.value)
  }

  lemma {:induction false} ClientStepKeepsKeys(c: Config, s: State, step: Step)
    requires ByClient(step) && forall i | 0 <= i < |s.jobs| :: RetryKeyed(s.jobs[i])
    ensures forall i | 0 <= i < |Apply(c, s, step).jobs| :: RetryKeyed(Apply(c, s, step).jobs[i])
  {
  }

  lemma {:induction false} RetriesAreKeyed(c: Config, start: State, steps: seq<Step>)
    requires Initial(start)
    ensures forall i | 0 <= i < |Run(c, start, steps).jobs| :: RetryKeyed(Run(c, start, steps).jobs[i])
  {
    if steps == [] {
    } else {
      var init, step := steps[..|steps| - 1], steps[|steps| - 1];
      var s := Run(c, start, init);
      RetriesAreKeyed(c, start, init);
      if ByClient(step) {
        ClientStepKeepsKeys(c, s, step);
      } else {
        RunKeepsInv(c, start, init);
        StepKeepsInv(c, s, step);
        WorkersAddNothing(c, s, step);
        forall i | 0 <= i < |s.jobs| ensures RetryKeyed(Apply(c, s, step).jobs[i]) {
          assert RowEvolves(s.jobs[i], Apply(c, s, step).jobs[i]);
        }
      }
    }
  }

  lemma {:induction false} WorkersAddNothing(c: Config, s: State, step: Step)
    requires !ByClient(step)
    ensures |Apply(c, s, step).jobs| == |s.jobs|
  {
  }

  /** A double click cannot double-run: a failed job has at most one active retry. */
  lemma {:induction false} OneActiveRetry(c: Config, start: State, steps: seq<Step>, i: nat, j: nat)
    requires Initial(start)
    requires var t := Run(c, start, steps).jobs;
      && i < |t| && j < |t| && Active(t[i].status) && Active(t[j].status)
      && t[i].origin == t[j].origin == Retry && t[i].parent == t[j].parent
    ensures i == j
  {
    RunKeepsInv(c, start, steps);
    RetriesAreKeyed(c, start, steps);
    var t := Run(c, start, steps).jobs;
    assert RetryKeyed(t[i]) && RetryKeyed(t[j]);
    var p := t[i].parent.value;
    assert LineageOk(t, i) && LineageOk(t, j);
    assert |RetryKey(p)| >= 6;
  }

  /** In every reachable state, a retry's parent is an older job of the same owner and work
    * that has failed: it failed before the retry was made, and stays so. */
  lemma {:induction false} RetryParentStaysFailed(c: Config, start: State, early: seq<Step>, late: seq<Step>, i: nat)
    requires Initial(start)
    requires i < |Run(c, start, early).jobs| && Run(c, start, early).jobs[i].origin == Retry
    ensures var t := Run(c, Run(c, start, early), late).jobs;
      && i < |t| && t[i].parent.Some? && t[i].parent.value < i
      && var parent := t[t[i].parent.value];
        parent.status == Failed && parent.owner == t[i].owner && parent.kind == t[i].kind && parent.payload == t[i].payload
  {
    RunKeepsInv(c, start, early);
    RunKeepsInv(c, Run(c, start, early), late);
    var t := Run(c, Run(c, start, early), late).jobs;
    assert RowEvolves(Run(c, start, early).jobs[i], t[i]);
    assert LineageOk(t, i);
  }

  /** The job a chain of retries and replays started from. */
  function Root(t: Table, i: nat, budget: nat): (r: nat)
    requires TableOk(t, budget) && i < |t|
    ensures r <= i && t[r].parent.None? && t[r].origin == Original
    ensures t[r].owner == t[i].owner && t[r].kind == t[i].kind && t[r].payload == t[i].payload
  {
    assert LineageOk(t, i);
    if t[i].parent.None? then i else Root(t, t[i].parent.value, budget)
  }

  /** Every chain of re-runs is finite and ends at an original job with the same owner and
    * work, and over any later run it keeps ending at that same job. */
  lemma {:induction false} LineageIsStable(c: Config, start: State, early: seq<Step>, late: seq<Step>, i: nat)
    requires Initial(start) && i < |Run(c, start, early).jobs|
    ensures var budget := MaxAttempts(c.cfg);
      var t, t' := Run(c, start, early).jobs, Run(c, Run(c, start, early), late).jobs;
      && TableOk(t, budget) && TableOk(t', budget) && i < |t'|
      && Root(t', i, budget) == Root(t, i, budget)
    decreases i
  {
    RunKeepsInv(c, start, early);
    RunKeepsInv(c, Run(c, start, early), late);
    var t := Run(c, start, early).jobs;
    assert LineageOk(t, i);
    if t[i].parent.Some? {
      LineageIsStable(c, start, early, late, t[i].parent.value);
    }
  }

  // ---- triage ----

  ghost predicate HasChild(t: Table, id: nat, statuses: set<Status>) {
    exists k :: 0 <= k < |t| && t[k].parent == Some(id) && t[k].status in statuses
  }

  datatype Triage = Resolved | InProgress | RetryExhausted | ReplayCandidate

  /** The observability view of a failed job. */
  ghost function TriageOf(t: Table, id: nat, cfg: Settings): Triage
    requires id < |t|
  {
    if HasChild(t, id, {Completed}) then Resolved
    else if HasChild(t, id, {Queued, Running, AwaitingApproval, Validating, Repairing, CancelRequested}) then InProgress
    else if t[id].attempts >= MaxAttempts(cfg) then RetryExhausted
    else ReplayCandidate
  }

  datatype Health = Healthy | HealthResolved | TriageNeeded | HealthExhausted
  datatype Severity = Info | Warning | Critical

  /** The operational-policy view of a terminal job. */
  ghost function TerminalHealth(t: Table, id: nat, cfg: Settings): (Health, Severity)
    requires id < |t|
  {
    if t[id].status in {Completed, Canceled} then (Healthy, Info)
    else if HasChild(t, id, {Completed}) then (HealthResolved, Info)
    else if HasChild(t, id, {Queued, CancelRequested, Running, Validating, Repairing, AwaitingApproval}) then (TriageNeeded, Info)
    else if t[id].attempts >= MaxAttempts(cfg) then (HealthExhausted, Critical)
    else (TriageNeeded, Warning)
  }

  /** What the policy layer must say for each observability verdict. */
  function Expected(v: Triage): (Health, Severity) {
    match v
    case Resolved => (HealthResolved, Info)
    case InProgress => (TriageNeeded, Info)
    case RetryExhausted => (HealthExhausted, Critical)
    case ReplayCandidate => (TriageNeeded, Warning)
  }

  /** On every reachable failed job a verdict tells the cause: a replay candidate failed only
    * for want of a handler, and a job whose handler failed spent its whole budget. The two
    * classifiers agree. */
  lemma {:induction false} TriageTellsTheCause(c: Config, start: State, steps: seq<Step>, id: nat)
    requires Initial(start)
    requires id < |Run(c, start, steps).jobs| && Run(c, start, steps).jobs[id].status == Failed
    ensures var t := Run(c, start, steps).jobs;
      && (TriageOf(t, id, c.cfg) == ReplayCandidate ==> t[id].result == NoHandler(t[id].kind))
      && (t[id].result.HandlerError? ==> t[id].attempts == MaxAttempts(c.cfg))
      && TerminalHealth(t, id, c.cfg) == Expected(TriageOf(t, id, c.cfg))
  {
    RunKeepsInv(c, start, steps);
    var t := Run(c, start, steps).jobs;
    assert RowOk(t[id], MaxAttempts(c.cfg));
    assert {Queued, Running, AwaitingApproval, Validating, Repairing, CancelRequested}
        == {Queued, CancelRequested, Running, Validating, Repairing, AwaitingApproval};
  }

  predicate FollowUp(t: Table, id: nat, k: nat) {
    k < |t| && t[k].parent == Some(id)
  }

  /** A failed job reads resolved when a follow-up of it completed, in progress when none did but
    * one is still active, and otherwise exhausted or a candidate by the retry budget. */
  lemma {:induction false} TriageIff(t: Table, id: nat, cfg: Settings)
    requires id < |t|
    ensures var done := exists k :: 0 <= k < |t| && FollowUp(t, id, k) && t[k].status == Completed;
      var active := exists k :: 0 <= k < |t| && FollowUp(t, id, k) && Active(t[k].status);
      && (TriageOf(t, id, cfg) == Resolved <==> done)
      && (TriageOf(t, id, cfg) == InProgress <==> !done && active)
      && (TriageOf(t, id, cfg) == RetryExhausted <==> !done && !active && t[id].attempts >= MaxAttempts(cfg))
  {
    if k :| 0 <= k < |t| && FollowUp(t, id, k) && t[k].status == Completed {
      assert t[k].parent == Some(id) && t[k].status in {Completed};
    }
    if k :| 0 <= k < |t| && FollowUp(t, id, k) && Active(t[k].status) {
      assert t[k].parent == Some(id);
    }
    if HasChild(t, id, {Completed}) {
      var k :| 0 <= k < |t| && t[k].parent == Some(id) && t[k].status in {Completed};
      assert FollowUp(t, id, k);
    }
    if HasChild(t, id, {Queued, Running, AwaitingApproval, Validating, Repairing, CancelRequested}) {
      var k :| 0 <= k < |t| && t[k].parent == Some(id) &&
        t[k].status in {Queued, Running, AwaitingApproval, Validating, Repairing, CancelRequested};
      assert FollowUp(t, id, k) && Active(t[k].status);
    }
  }

  lemma {:induction false} ResolutionSurvives(t: Table, t': Table, id: nat)
    requires Evolves(t, t') && id < |t| && t[id].status == Failed && HasChild(t, id, {Completed})
    ensures t'[id].status == Failed && HasChild(t', id, {Completed})
  {
    var k :| 0 <= k < |t| && t[k].parent == Some(id) && t[k].status in {Completed};
    assert RowEvolves(t[k], t'[k]) && RowEvolves(t[id], t'[id]);
  }

  /** Once a failed job reads resolved it reads resolved forever. */
  lemma {:induction false} ResolvedIsPermanent(c: Config, start: State, early: seq<Step>, late: seq<Step>, id: nat)
    requires Initial(start)
    requires var t := Run(c, start, early).jobs;
      id < |t| && t[id].status == Failed && TriageOf(t, id, c.cfg) == Resolved
    ensures var t := Run(c, Run(c, start, early), late).jobs;
      id < |t| && t[id].status == Failed && TriageOf(t, id, c.cfg) == Resolved
  {
    RunKeepsInv(c, start, early);
    RunKeepsInv(c, Run(c, start, early), late);
    ResolutionSurvives(Run(c, start, early).jobs, Run(c, Run(c, start, early), late).jobs, id);
  }
}
