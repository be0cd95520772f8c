/** The queue service itself: its methods update the job table in place, and a lone worker
  * drains it. Each method is tied to the session function of `JobTable`. */
module ExecutionQueue {
  import opened Wrappers
  import opened JobPolicy
  import opened JobTable
  import opened QueueProtocol
  import opened QueueAtomic
  import opened QueueReplies

  /** One execution as the worker meets it: whether the owner cancels before checkpoint 1,
    * the progress marks the handler writes, before which of them the owner cancels, if so
    * (after the last one, when the position is past them), and how the handler ends. */
  datatype HandlerRun = HandlerRun(cancelEarly: bool, marks: seq<Status>, cancelAt: Option<nat>, end: HandlerEnd)

  /** The cancel has landed before mark `n`, and no mark has written over it since. */
  predicate CancelSeen(run: HandlerRun, n: nat) {
    && run.cancelAt.Some? && run.cancelAt.value < n
    && forall k | run.cancelAt.value <= k < n && k < |run.marks| :: !Interruptible(run.marks[k])
  }

  /** Whether checkpoint 2 still finds the cancel. */
  predicate CancelFound(run: HandlerRun) {
    run.cancelAt.Some? && CancelSeen(run, Max(run.cancelAt.value, |run.marks|) + 1)
  }

  /** How a lone execution ends. */
  function AloneVerdict(c: Config, view: View, run: HandlerRun): (Status, Result) {
    if run.cancelEarly then (Canceled, CanceledMarker)
    else if view.kind !in c.handlers then (Failed, NoHandler(view.kind))
    else Verdict(c, view, run.end, CancelFound(run))
  }

  /** One `run_once` with no other worker at work. */
  function RunAlone(c: Config, t: Table, run: HandlerRun): (Table, Option<nat>) {
    var choice := Choose(t, c.cfg);
    if choice.None? || choice.value >= |t| then (t, None)
    else
      var id := choice.value;
      var attempts := t[id].attempts + 1;
      var verdict := AloneVerdict(c, View(id, t[id].kind, attempts), run);
      (t[id := t[id].(status := verdict.0, attempts := attempts, result := verdict.1)], Some(id))
  }

  function DrainAlone(c: Config, t: Table, script: nat -> HandlerRun, ran: nat, maxJobs: nat): (Table, nat)
    decreases maxJobs - ran
  {
    if ran >= maxJobs then (t, ran)
    else
      var (t', id) := RunAlone(c, t, script(ran));
      if id.None? then (t', ran) else DrainAlone(c, t', script, ran + 1, maxJobs)
  }

  class ExecutionQueueService {
    var jobs: Table
    const c: Config

    constructor (c: Config)
      ensures jobs == [] && this.c == c
    {
      jobs := [];
      this.c := c;
    }

    method Enqueue(owner: string, kind: string, payload: string, dedup: string, now: int) returns (id: Option<nat>)
      modifies this
      ensures (jobs, id) == EnqueueSession(old(jobs), owner, kind, payload, dedup, now)
      ensures EnqueueTells(old(jobs), jobs, owner, kind, payload, dedup, now, id)
    {
      EnqueueAnswer(jobs, owner, kind, payload, dedup, now);
      if owner == "" || kind == "" {
        return None;
      }
      if dedup != "" {
        var existing := FindActive(jobs, owner, dedup);
        if existing.Some? {
          return existing;
        }
      }
      var row := NewJob(owner, kind, payload, dedup, None, Original, now);
      jobs := jobs + [row];
      id := Some(|jobs| - 1);
    }

    /** How many rows currently occupy a worker, by class and by owner. */
    method CountInFlight() returns (classCounts: map<Option<ExecClass>, nat>, ownerCounts: map<string, nat>)
      ensures forall x :: CountOf(classCounts, Some(x)) == InFlight(jobs, ClassSlot(x))
      ensures forall o :: CountOf(ownerCounts, o) == InFlight(jobs, OwnerSlot(o))
    {
      classCounts, ownerCounts := map[], map[];
      for i := 0 to |jobs|
        invariant forall x :: CountOf(classCounts, Some(x)) == InFlight(jobs[..i], ClassSlot(x))
        invariant forall o :: CountOf(ownerCounts, o) == InFlight(jobs[..i], OwnerSlot(o))
      {
        assert jobs[..i + 1][..i] == jobs[..i];
        var j := jobs[i];
        if Interruptible(j.status) {
          classCounts := classCounts[j.execClass := CountOf(classCounts, j.execClass) + 1];
          ownerCounts := ownerCounts[j.owner := CountOf(ownerCounts, j.owner) + 1];
        }
      }
      assert jobs[..|jobs|] == jobs;
    }

    /** Bars the full classes and owners, and claims the best remaining row with the guarded
      * update. */
    method Claim() returns (view: Option<View>)
      modifies this
      ensures Choose(old(jobs), c.cfg).None? ==> view == None && jobs == old(jobs)
      ensures Choose(old(jobs), c.cfg).Some? ==>
        var id := Choose(old(jobs), c.cfg).value;
        && Claimable(old(jobs), id, c.cfg)
        && jobs == MarkRunning(old(jobs), id).0
        && view == Some(View(id, old(jobs)[id].kind, old(jobs)[id].attempts + 1))
    {
      ChooseIsBestClaimable(jobs, c.cfg);
      var fullClasses, fullOwners := {}, {};
      if c.cfg.schedulingEnabled {
        var classCounts, ownerCounts := CountInFlight();
        fullClasses := BlockedClasses(classCounts, c.cfg);
        fullOwners := BlockedOwners(ownerCounts, c.cfg);
        assert fullClasses == FullClasses(jobs, c.cfg);
        OwnersCounted(jobs, ownerCounts, c.cfg);
      }
      var row := PickQueued(jobs, fullClasses, fullOwners, c.cfg.schedulingEnabled);
      if row.None? {
        return None;
      }
      var (marked, won) := MarkRunning(jobs, row.value);
      jobs := marked;
      if !won {
        return None;
      }
      view := Some(View(row.value, jobs[row.value].kind, jobs[row.value].attempts));
    }

    method SetStatus(id: nat, status: Status, result: Option<Result>)
      modifies this
      ensures jobs == Transition(old(jobs), id, status, result)
    {
      if id >= |jobs| {
        return;
      }
      var row := jobs[id];
      if Terminal(row.status) && status != row.status {
        return;
      }
      row := row.(status := status);
      if result.Some? {
        row := row.(result := result.value);
      }
      jobs := jobs[id := row];
    }

    method RequestCancel(owner: string, id: nat) returns (reply: CancelReply)
      modifies this
      ensures (jobs, reply) == CancelSession(old(jobs), owner, id)
      ensures CancelTells(old(jobs), owner, id, jobs, reply)
    {
      CancelAnswer(jobs, owner, id);
      if id >= |jobs| || jobs[id].owner != owner {
        return CancelNotFound;
      }
      var status := jobs[id].status;
      if Terminal(status) {
        return AlreadyFinished(status);
      }
      if status == CancelRequested {
        return CancelOk(CancelRequested);
      }
      if status == Queued {
        jobs := jobs[id := jobs[id].(status := Canceled)];
        return CancelOk(Canceled);
      }
      jobs := jobs[id := jobs[id].(status := CancelRequested)];
      return CancelOk(CancelRequested);
    }

    method EnqueueClone(owner: string, kind: string, payload: string, parent: nat, origin: Origin,
                        dedup: string, now: int) returns (id: nat)
      modifies this
      ensures (jobs, id) == CloneSession(old(jobs), owner, kind, payload, parent, origin, dedup, now)
      ensures Answers(old(jobs), jobs, id, owner, kind, payload, dedup, Some(parent), origin, now,
                      !KeyTaken(old(jobs), owner, dedup))
    {
      CloneAnswer(jobs, owner, kind, payload, parent, origin, dedup, now);
      var existing := FindActive(jobs, owner, dedup);
      if existing.Some? {
        return existing.value;
      }
      var row := NewJob(owner, kind, payload, dedup, Some(parent), origin, now);
      jobs := jobs + [row];
      id := |jobs| - 1;
    }

    method RetryFailed(owner: string, id: nat, now: int) returns (reply: RetryReply)
      modifies this
      ensures (jobs, reply) == RetryOp(old(jobs), owner, id, now)
      ensures RetryTells(old(jobs), jobs, owner, id, now, reply)
    {
      RetryAnswer(jobs, owner, id, now);
      if id >= |jobs| || jobs[id].owner != owner {
        return NotFound;
      }
      if jobs[id].status != Failed {
        return NotRetryable(jobs[id].status);
      }
      var child := EnqueueClone(owner, jobs[id].kind, jobs[id].payload, id, Retry, RetryKey(id), now);
      reply := Scheduled(child);
    }

    method ReplayAny(id: nat, requester: string, now: int) returns (reply: Option<nat>)
      modifies this
      ensures (jobs, reply) == ReplayOp(old(jobs), id, requester, now)
      ensures ReplayTells(old(jobs), jobs, id, requester, now, reply)
    {
      ReplayAnswer(jobs, id, requester, now);
      if id >= |jobs| {
        return None;
      }
      var j := jobs[id];
      var child := EnqueueClone(j.owner, j.kind, j.payload, id, Replay, ReplayKey(id, requester), now);
      reply := Some(child);
    }

    method RunOnce(run: HandlerRun) returns (id: Option<nat>)
      requires TableOk(jobs, MaxAttempts(c.cfg))
      modifies this
      ensures (jobs, id) == RunAlone(c, old(jobs), run)
    {
      var claimed := Claim();
      if claimed.None? {
        return None;
      }
      var view := claimed.value;
      id := Some(view.id);
      ghost var before := old(jobs);
      ghost var row := jobs[view.id];
      assert RowOk(before[view.id], MaxAttempts(c.cfg));
      if run.cancelEarly {
        var _ := RequestCancel(jobs[view.id].owner, view.id);
      }
      if IsCancelled(jobs, view.id) {
        SetStatus(view.id, Canceled, Some(CanceledMarker));
        assert jobs == before[view.id := row.(status := Canceled, result := CanceledMarker)];
      } else if view.kind !in c.handlers {
        SetStatus(view.id, Failed, Some(NoHandler(view.kind)));
        assert jobs == before[view.id := row.(status := Failed, result := NoHandler(view.kind))];
      } else {
        Work(view, run);
        ghost var verdict := Verdict(c, view, run.end, CancelFound(run));
        assert jobs == before[view.id := row.(status := verdict.0, result := verdict.1)];
      }
    }

    /** The handler's marks, a cancel that may land among them, and the close. */
    method Work(view: View, run: HandlerRun)
      requires view.id < |jobs| && jobs[view.id].status == Running && jobs[view.id].result == NoResult
      modifies this
      ensures var verdict := Verdict(c, view, run.end, CancelFound(run));
        jobs == old(jobs)[view.id := old(jobs)[view.id].(status := verdict.0, result := verdict.1)]
    {
      ghost var before := jobs;
      ghost var status := Running;
      for k := 0 to |run.marks|
        invariant InHand(status) && (status == CancelRequested <==> CancelSeen(run, k))
        invariant view.id < |before| && jobs == before[view.id := before[view.id].(status := status)]
      {
        if run.cancelAt == Some(k) {
          var _ := RequestCancel(jobs[view.id].owner, view.id);
          status := CancelRequested;
        }
        if Interruptible(run.marks[k]) {
          SetStatus(view.id, run.marks[k], None);
          status := run.marks[k];
        }
      }
      if run.cancelAt.Some? && run.cancelAt.value >= |run.marks| {
        var _ := RequestCancel(jobs[view.id].owner, view.id);
        status := CancelRequested;
      }
      Close(view, run.end);
    }

    /** What follows the handler: a cancel seen now wins, an error re-queues while budget
      * remains, and only then is the outcome stored. */
    method Close(view: View, end: HandlerEnd)
      requires view.id < |jobs| && InHand(jobs[view.id].status) && jobs[view.id].result == NoResult
      modifies this
      ensures var verdict := Verdict(c, view, end, IsCancelled(old(jobs), view.id));
        jobs == old(jobs)[view.id := old(jobs)[view.id].(status := verdict.0, result := verdict.1)]
    {
      match end
      case Bails =>
        SetStatus(view.id, Canceled, Some(CanceledMarker));
      case Raises(error) =>
        if view.attempts < MaxAttempts(c.cfg) && !IsCancelled(jobs, view.id) {
          SetStatus(view.id, Queued, None);
        } else if IsCancelled(jobs, view.id) {
          SetStatus(view.id, Canceled, Some(CanceledMarker));
        } else {
          SetStatus(view.id, Failed, Some(HandlerError(error)));
        }
      case Returns(value) =>
        if IsCancelled(jobs, view.id) {
          SetStatus(view.id, Canceled, Some(CanceledMarker));
        } else {
          SetStatus(view.id, Completed, Some(Value(value)));
        }
    }

    method Drain(script: nat -> HandlerRun, maxJobs: nat) returns (ran: nat)
      requires TableOk(jobs, MaxAttempts(c.cfg)) && Quiet(jobs)
      modifies this
      ensures (jobs, ran) == DrainAlone(c, old(jobs), script, 0, maxJobs)
    {
      ran := 0;
      var more := true;
      while more && ran < maxJobs
        invariant ran <= maxJobs
        invariant TableOk(jobs, MaxAttempts(c.cfg)) && Quiet(jobs)
        invariant (if more then DrainAlone(c, jobs, script, ran, maxJobs) else (jobs, ran))
          == DrainAlone(c, old(jobs), script, 0, maxJobs)
        decreases more, maxJobs - ran
      {
        RunAloneProgress(c, jobs, script(ran));
        var id := RunOnce(script(ran));
        if id.None? {
          more := false;
        } else {
          ran := ran + 1;
        }
      }
    }
  }

  lemma {:induction false} InFlightHasOwner(t: Table, owner: string)
    requires InFlight(t, OwnerSlot(owner)) > 0
    ensures exists j :: j in t && j.owner == owner
  {
    var n := |t| - 1;
    if Occupies(t[n], OwnerSlot(owner)) {
      assert t[n] in t;
    } else {
      InFlightHasOwner(t[..n], owner);
      var j :| j in t[..n] && j.owner == owner;
      assert j in t;
    }
  }

  lemma {:induction false} OwnersCounted(t: Table, counts: map<string, nat>, cfg: Settings)
    requires forall o :: CountOf(counts, o) == InFlight(t, OwnerSlot(o))
    ensures BlockedOwners(counts, cfg) == FullOwners(t, cfg)
  {
    forall o ensures o in BlockedOwners(counts, cfg) <==> o in FullOwners(t, cfg) {
      assert CountOf(counts, o) == InFlight(t, OwnerSlot(o));
      if o in BlockedOwners(counts, cfg) {
        InFlightHasOwner(t, o);
        var j :| j in t && j.owner == o;
        assert Full(t, OwnerSlot(j.owner), cfg);
      }
    }
  }

  // ---- draining ----

  /** Nothing is in hand: every row is queued or terminal. */
  predicate Quiet(t: Table) {
    forall i | 0 <= i < |t| :: !InHand(t[i].status)
  }

  /** The executions the queued rows can still consume. */
  function Potential(t: Table, budget: nat): nat {
    if t == [] then 0 else Potential(t[..|t| - 1], budget) + Remaining(t[|t| - 1], budget)
  }

  function Remaining(j: Job, budget: nat): nat {
    if j.status == Queued && j.attempts < budget then budget - j.attempts else 0
  }

  lemma {:induction false} PotentialOfChange(t: Table, i: nat, j: Job, budget: nat)
    requires i < |t|
    ensures Potential(t[i := j], budget) + Remaining(t[i], budget) == Potential(t, budget) + Remaining(j, budget)
  {
    var n := |t| - 1;
    if i == n {
      assert t[i := j][..n] == t[..n];
    } else {
      assert t[i := j][..n] == t[..n][i := j];
      PotentialOfChange(t[..n], i, j, budget);
    }
  }

  lemma {:induction false} NoPotentialIsDone(t: Table, budget: nat)
    requires TableOk(t, budget) && Quiet(t) && Potential(t, budget) == 0
    ensures AllDone(t)
  {
    forall i | 0 <= i < |t| ensures Terminal(t[i].status) {
      PotentialCovers(t, i, budget);
      assert RowOk(t[i], budget);
    }
  }

  lemma {:induction false} PotentialCovers(t: Table, i: nat, budget: nat)
    requires i < |t|
    ensures Remaining(t[i], budget) <= Potential(t, budget)
  {
    if i < |t| - 1 {
      PotentialCovers(t[..|t| - 1], i, budget);
    }
  }

  lemma {:induction false} QuietIsOpen(t: Table, slot: Slot)
    requires Quiet(t)
    ensures InFlight(t, slot) == 0
  {
    if t != [] {
      QuietIsOpen(t[..|t| - 1], slot);
    }
  }

  lemma {:induction false} QuietIsClaimable(t: Table, cfg: Settings)
    requires Quiet(t)
    ensures forall i | 0 <= i < |t| :: Claimable(t, i, cfg) <==> t[i].status == Queued
  {
    forall i | 0 <= i < |t| ensures Claimable(t, i, cfg) <==> t[i].status == Queued {
      QuietIsOpen(t, OwnerSlot(t[i].owner));
      if t[i].execClass.Some? {
        QuietIsOpen(t, ClassSlot(t[i].execClass.value));
      }
    }
  }

  /** What a lone run makes of a queued row. */
  lemma {:induction false} RunAloneRow(c: Config, t: Table, run: HandlerRun, id: nat)
    requires RunAlone(c, t, run).1 == Some(id) && id < |t|
    requires t[id].status == Queued && RowOk(t[id], MaxAttempts(c.cfg))
    ensures var j := RunAlone(c, t, run).0[id];
      && RunAlone(c, t, run).0 == t[id := j]
      && !InHand(j.status) && RowOk(j, MaxAttempts(c.cfg)) && RowEvolves(t[id], j)
      && Remaining(j, MaxAttempts(c.cfg)) < Remaining(t[id], MaxAttempts(c.cfg))
  {
  }

  lemma {:induction false} ProgressOfRow(t: Table, id: nat, j: Job, budget: nat)
    requires TableOk(t, budget) && Quiet(t) && id < |t| && t[id].status == Queued
    requires !InHand(j.status) && RowOk(j, budget) && RowEvolves(t[id], j)
    requires Remaining(j, budget) < Remaining(t[id], budget)
    ensures TableOk(t[id := j], budget) && Quiet(t[id := j]) && Evolves(t, t[id := j])
    ensures Potential(t[id := j], budget) < Potential(t, budget)
  {
    ChangeRowKeepsTable(t, id, j, budget);
    PotentialOfChange(t, id, j, budget);
  }

  lemma {:induction false} RunAloneFindsWork(c: Config, t: Table, run: HandlerRun)
    requires Quiet(t)
    ensures var (t', id) := RunAlone(c, t, run);
      && (id.None? <==> forall i | 0 <= i < |t| :: t[i].status != Queued)
      && (id.None? ==> t' == t)
      && (id.Some? ==> id.value < |t| && t[id.value].status == Queued)
  {
    ChooseIsBestClaimable(t, c.cfg);
    QuietIsClaimable(t, c.cfg);
  }

  /** A lone run finds work iff a row is queued, and uses up at least one unit of it. */
  lemma {:induction false} RunAloneProgress(c: Config, t: Table, run: HandlerRun)
    requires TableOk(t, MaxAttempts(c.cfg)) && Quiet(t)
    ensures var (t', id) := RunAlone(c, t, run);
      && TableOk(t', MaxAttempts(c.cfg)) && Quiet(t') && Evolves(t, t')
      && (id.None? <==> forall i | 0 <= i < |t| :: t[i].status != Queued)
      && (id.None? ==> t' == t)
      && (id.Some? ==> Potential(t', MaxAttempts(c.cfg)) < Potential(t, MaxAttempts(c.cfg)))
  {
    RunAloneFindsWork(c, t, run);
    var (t', id) := RunAlone(c, t, run);
    if id.Some? {
      assert RowOk(t[id.value], MaxAttempts(c.cfg));
      RunAloneRow(c, t, run, id.value);
      ProgressOfRow(t, id.value, t'[id.value], MaxAttempts(c.cfg));
    }
  }

  predicate AllDone(t: Table) {
    forall i | 0 <= i < |t| :: Terminal(t[i].status)
  }

  lemma {:induction false} NothingQueuedIsDone(t: Table)
    requires Quiet(t) && forall i | 0 <= i < |t| :: t[i].status != Queued
    ensures AllDone(t)
  {
  }

  /** A drain that starts with this much potential and stops after `total - ran` executions:
    * it used no more than the potential, and unless the limit cut it short nothing is left. */
  predicate DrainResult(t: Table, total: nat, ran: nat, maxJobs: nat, potential: nat) {
    && ran <= total <= maxJobs
    && total - ran <= potential
    && (total < maxJobs || potential <= maxJobs - ran ==> AllDone(t))
  }

  lemma {:induction false} DrainStep(c: Config, t: Table, script: nat -> HandlerRun, ran: nat, maxJobs: nat)
    requires ran < maxJobs
    ensures var (t', id) := RunAlone(c, t, script(ran));
      DrainAlone(c, t, script, ran, maxJobs) ==
        if id.None? then (t', ran) else DrainAlone(c, t', script, ran + 1, maxJobs)
  {
  }

  /** Draining a closed queue never needs more executions than the queued rows have budget
    * left, and once that many are allowed every job ends terminal, whatever the handlers do. */
  lemma {:induction false} DrainEmptiesQueue(c: Config, t: Table, script: nat -> HandlerRun, ran: nat, maxJobs: nat)
    requires TableOk(t, MaxAttempts(c.cfg)) && Quiet(t) && ran <= maxJobs
    ensures var (t', total) := DrainAlone(c, t, script, ran, maxJobs);
      DrainResult(t', total, ran, maxJobs, Potential(t, MaxAttempts(c.cfg)))
    decreases maxJobs - ran
  {
    var potential := Potential(t, MaxAttempts(c.cfg));
    var run := script(ran);
    if ran >= maxJobs {
      if potential == 0 {
        NoPotentialIsDone(t, MaxAttempts(c.cfg));
      }
    } else {
      var (t', id) := RunAlone(c, t, run);
      RunAloneProgress(c, t, run);
      DrainStep(c, t, script, ran, maxJobs);
      if id.Some? {
        DrainEmptiesQueue(c, t', script, ran + 1, maxJobs);
        var (last, total) := DrainAlone(c, t', script, ran + 1, maxJobs);
        assert DrainResult(last, total, ran, maxJobs, potential);
      } else {
        NothingQueuedIsDone(t);
        assert DrainResult(t, ran, ran, maxJobs, potential);
      }
    }
  }

  // ---- a lone run is a run of sessions ----

  /** The cancel and the marks, in the order in which they land, up to mark `n`. */
  function MarkSteps(w: nat, owner: string, id: nat, run: HandlerRun, n: nat): seq<Step>
    requires n <= |run.marks|
  {
    if n == 0 then []
    else
      MarkSteps(w, owner, id, run, n - 1) +
      (if run.cancelAt == Some(n - 1) then [Cancel(owner, id)] else []) + [HandlerMark(w, run.marks[n - 1])]
  }

  function Early(owner: string, id: nat, run: HandlerRun): seq<Step> {
    if run.cancelEarly then [Cancel(owner, id)] else []
  }

  function Rest(w: nat, owner: string, id: nat, run: HandlerRun): seq<Step> {
    MarkSteps(w, owner, id, run, |run.marks|) +
    (if run.cancelAt.Some? && run.cancelAt.value >= |run.marks| then [Cancel(owner, id)] else []) +
    ([HandlerStops(w, run.end), Look(w)] + [Look(w), Finish(w)])
  }

  /** The worker stands at `pc` and the row it holds is `j`. */
  function With(s: State, w: nat, id: nat, j: Job, pc: Pc): State
    requires w < |s.workers| && id < |s.jobs|
  {
    State(s.jobs[id := j], s.workers[w := pc])
  }

  lemma {:induction false} StepWith(c: Config, s: State, w: nat, id: nat, j: Job, pc: Pc, step: Step, j': Job, pc': Pc)
    requires w < |s.workers| && id < |s.jobs| && Apply(c, With(s, w, id, j, pc), step) == With(With(s, w, id, j, pc), w, id, j', pc')
    ensures Apply(c, With(s, w, id, j, pc), step) == With(s, w, id, j', pc')
  {
    assert s.jobs[id := j][id := j'] == s.jobs[id := j'];
    assert s.workers[w := pc][w := pc'] == s.workers[w := pc'];
  }

  lemma {:induction false} CancelWith(c: Config, s: State, w: nat, id: nat, j: Job, pc: Pc)
    requires w < |s.workers| && id < |s.jobs| && InHand(j.status)
    ensures Apply(c, With(s, w, id, j, pc), Cancel(j.owner, id)) == With(s, w, id, j.(status := CancelRequested), pc)
  {
    var now := With(s, w, id, j, pc);
    assert now.workers[w := pc] == now.workers;
    assert now.jobs[id := now.jobs[id]] == now.jobs;
    StepWith(c, s, w, id, j, pc, Cancel(j.owner, id), j.(status := CancelRequested), pc);
  }

  /** A worker's mark counts only while it works. */
  function Marked(j: Job, pc: Pc, status: Status): Job {
    if pc.Working? && Interruptible(status) then j.(status := status) else j
  }

  lemma {:induction false} MarkWith(c: Config, s: State, w: nat, id: nat, j: Job, pc: Pc, status: Status)
    requires w < |s.workers| && id < |s.jobs| && InHand(j.status) && Holding(pc) && pc.view.id == id
    ensures Apply(c, With(s, w, id, j, pc), HandlerMark(w, status)) == With(s, w, id, Marked(j, pc, status), pc)
  {
    var now := With(s, w, id, j, pc);
    assert now.workers[w := pc] == now.workers;
    assert now.jobs[id := now.jobs[id]] == now.jobs;
    StepWith(c, s, w, id, j, pc, HandlerMark(w, status), Marked(j, pc, status), pc);
  }

  /** The row after the first `n` marks, and the cancel if it lands among them. */
  function MarksLeft(j: Job, pc: Pc, run: HandlerRun, n: nat): Job
    requires n <= |run.marks|
  {
    if n == 0 then j
    else
      var prior := MarksLeft(j, pc, run, n - 1);
      Marked(if run.cancelAt == Some(n - 1) then prior.(status := CancelRequested) else prior, pc, run.marks[n - 1])
  }

  /** The row stays in hand, and a worker that works sees the cancel as long as no mark has
    * written over it. */
  predicate MarksLeave(j: Job, j': Job, pc: Pc, run: HandlerRun, n: nat) {
    && j' == j.(status := j'.status) && InHand(j'.status)
    && (pc.Working? ==> (j'.status == CancelRequested <==> CancelSeen(run, n)))
  }

  lemma {:induction false} MarksLeftTell(j: Job, pc: Pc, run: HandlerRun, n: nat)
    requires n <= |run.marks| && InHand(j.status) && (pc.Working? ==> j.status == Running)
    ensures MarksLeave(j, MarksLeft(j, pc, run, n), pc, run, n)
  {
    if n > 0 {
      MarksLeftTell(j, pc, run, n - 1);
      assert CancelSeen(run, n) <==>
        (CancelSeen(run, n - 1) || run.cancelAt == Some(n - 1)) && !Interruptible(run.marks[n - 1]);
    }
  }

  lemma {:induction false} MarksWith(c: Config, s: State, w: nat, id: nat, j: Job, pc: Pc, run: HandlerRun, n: nat)
    requires w < |s.workers| && id < |s.jobs| && InHand(j.status) && Holding(pc) && pc.view.id == id
    requires n <= |run.marks| && (pc.Working? ==> j.status == Running)
    ensures Run(c, With(s, w, id, j, pc), MarkSteps(w, j.owner, id, run, n)) == With(s, w, id, MarksLeft(j, pc, run, n), pc)
  {
    if n > 0 {
      var start, prior, row := With(s, w, id, j, pc), MarkSteps(w, j.owner, id, run, n - 1), MarksLeft(j, pc, run, n - 1);
      MarksWith(c, s, w, id, j, pc, run, n - 1);
      MarksLeftTell(j, pc, run, n - 1);
      if run.cancelAt == Some(n - 1) {
        CancelWith(c, s, w, id, row, pc);
        RunSnoc(c, start, prior, Cancel(j.owner, id));
        prior, row := prior + [Cancel(j.owner, id)], row.(status := CancelRequested);
      } else {
        assert prior + [] == prior;
      }
      MarkWith(c, s, w, id, row, pc, run.marks[n - 1]);
      RunSnoc(c, start, prior, HandlerMark(w, run.marks[n - 1]));
    }
  }

  /** The cancel that lands after the last mark. */
  lemma {:induction false} LastCancelWith(c: Config, s: State, w: nat, id: nat, j: Job, pc: Pc, run: HandlerRun, j1: Job)
    returns (j': Job)
    requires w < |s.workers| && id < |s.jobs| && MarksLeave(j, j1, pc, run, |run.marks|)
    ensures j' == j.(status := j'.status) && InHand(j'.status)
    ensures pc.Working? ==> (j'.status == CancelRequested <==> CancelFound(run))
    ensures var last := if run.cancelAt.Some? && run.cancelAt.value >= |run.marks| then [Cancel(j.owner, id)] else [];
      Run(c, With(s, w, id, j1, pc), last) == With(s, w, id, j', pc)
  {
    j' := j1;
    if run.cancelAt.Some? && run.cancelAt.value >= |run.marks| {
      CancelWith(c, s, w, id, j1, pc);
      Run2(c, With(s, w, id, j1, pc), Cancel(j.owner, id), Cancel(j.owner, id));
      j' := j1.(status := CancelRequested);
    }
  }

  /** A worker that works ends with the verdict on what it sees. */
  lemma {:induction false} WorkerEnds(c: Config, s: State, w: nat, id: nat, j: Job, view: View, end: HandlerEnd)
    requires w < |s.workers| && id < |s.jobs| && InHand(j.status) && j.result == NoResult && view.id == id
    requires j.attempts == view.attempts <= MaxAttempts(c.cfg) && j.kind == view.kind
    ensures var verdict := Verdict(c, view, end, j.status == CancelRequested);
      Run(c, With(s, w, id, j, Working(view)), [HandlerStops(w, end), Look(w)] + [Look(w), Finish(w)]).jobs ==
        s.jobs[id := j.(status := verdict.0, result := verdict.1)]
  {
    var now := With(s, w, id, j, Working(view));
    ConcludeIsRun(c, now, w, end);
    assert now.jobs[id] == j;
    var verdict := Verdict(c, view, end, j.status == CancelRequested);
    assert s.jobs[id := j][id := j.(status := verdict.0, result := verdict.1)] ==
      s.jobs[id := j.(status := verdict.0, result := verdict.1)];
  }

  /** A worker that has decided ends as it decided. */
  lemma {:induction false} DecidedEnds(c: Config, s: State, w: nat, id: nat, j: Job, pc: Pc, end: HandlerEnd)
    requires w < |s.workers| && id < |s.jobs| && InHand(j.status) && pc.Finishing? && pc.view.id == id && pc.result.Some?
    ensures Run(c, With(s, w, id, j, pc), [HandlerStops(w, end), Look(w)] + [Look(w), Finish(w)]).jobs ==
      s.jobs[id := j.(status := pc.status, result := pc.result.value)]
  {
    var now := With(s, w, id, j, pc);
    RunAppend(c, now, [HandlerStops(w, end), Look(w)], [Look(w), Finish(w)]);
    Run2(c, now, HandlerStops(w, end), Look(w));
    Run2(c, now, Look(w), Finish(w));
    assert s.jobs[id := j][id := j.(status := pc.status, result := pc.result.value)] ==
      s.jobs[id := j.(status := pc.status, result := pc.result.value)];
  }

  /** The claim, an early cancel, and the checkpoint. */
  function Checked(c: Config, view: View, cancelled: bool): Pc {
    if cancelled then Stopped(view)
    else if view.kind !in c.handlers then Finishing(view, Failed, Some(NoHandler(view.kind)))
    else Working(view)
  }

  lemma {:induction false} ClaimWith(c: Config, s: State, w: nat, id: nat)
    requires w < |s.workers| && s.workers[w].Idle? && Choose(s.jobs, c.cfg) == Some(id) && id < |s.jobs|
    ensures var j := s.jobs[id].(status := Running, attempts := s.jobs[id].attempts + 1);
      Run(c, s, [Select(w), Update(w)]) == With(s, w, id, j, Claimed(View(id, j.kind, j.attempts)))
  {
    ChooseIsBestClaimable(s.jobs, c.cfg);
    var j := s.jobs[id].(status := Running, attempts := s.jobs[id].attempts + 1);
    Run2(c, s, Select(w), Update(w));
    var pc := Claimed(View(id, j.kind, j.attempts));
    assert s.workers[w := Selected(id)][w := pc] == s.workers[w := pc];
  }

  lemma {:induction false} CheckWith(c: Config, s: State, w: nat, id: nat, j: Job, run: HandlerRun, view: View) returns (j': Job)
    requires w < |s.workers| && id < |s.jobs| && j.status == Running && view == View(id, j.kind, j.attempts)
    ensures j' == j.(status := if run.cancelEarly then CancelRequested else Running)
    ensures Run(c, With(s, w, id, j, Claimed(view)), Early(j.owner, id, run) + [Check1(w)]) ==
      With(s, w, id, j', Checked(c, view, run.cancelEarly))
  {
    var start := With(s, w, id, j, Claimed(view));
    j' := j.(status := if run.cancelEarly then CancelRequested else Running);
    var early := Early(j.owner, id, run);
    if run.cancelEarly {
      CancelWith(c, s, w, id, j, Claimed(view));
      Run2(c, start, Cancel(j.owner, id), Cancel(j.owner, id));
    }
    assert Run(c, start, early) == With(s, w, id, j', Claimed(view));
    RunSnoc(c, start, early, Check1(w));
    var now, pc := With(s, w, id, j', Claimed(view)), Checked(c, view, run.cancelEarly);
    assert now.jobs[id := j'] == now.jobs;
    StepWith(c, s, w, id, j', Claimed(view), Check1(w), j', pc);
  }

  /** From the checkpoint on. */
  lemma {:induction false} RestWith(c: Config, s: State, w: nat, id: nat, j: Job, run: HandlerRun, view: View)
    requires w < |s.workers| && id < |s.jobs| && j.result == NoResult && view == View(id, j.kind, j.attempts)
    requires j.attempts <= MaxAttempts(c.cfg) && j.status == if run.cancelEarly then CancelRequested else Running
    ensures var verdict := AloneVerdict(c, view, run);
      Run(c, With(s, w, id, j, Checked(c, view, run.cancelEarly)), Rest(w, j.owner, id, run)).jobs ==
        s.jobs[id := j.(status := verdict.0, result := verdict.1)]
  {
    var pc := Checked(c, view, run.cancelEarly);
    var start, marks := With(s, w, id, j, pc), MarkSteps(w, j.owner, id, run, |run.marks|);
    var last := if run.cancelAt.Some? && run.cancelAt.value >= |run.marks| then [Cancel(j.owner, id)] else [];
    var j1 := MarksLeft(j, pc, run, |run.marks|);
    MarksWith(c, s, w, id, j, pc, run, |run.marks|);
    MarksLeftTell(j, pc, run, |run.marks|);
    var j2 := LastCancelWith(c, s, w, id, j, pc, run, j1);
    ThreeRuns(c, start, marks, last, [HandlerStops(w, run.end), Look(w)] + [Look(w), Finish(w)]);
    if pc.Working? {
      WorkerEnds(c, s, w, id, j2, view, run.end);
    } else {
      DecidedEnds(c, s, w, id, j2, pc, run.end);
    }
  }

  /** The sessions of one execution with no other worker at work. */
  function AloneSteps(w: nat, owner: string, id: nat, run: HandlerRun): seq<Step> {
    [Select(w), Update(w)] + (Early(owner, id, run) + [Check1(w)]) + Rest(w, owner, id, run)
  }

  lemma {:induction false} ThreeRuns(c: Config, s: State, x: seq<Step>, y: seq<Step>, z: seq<Step>)
    ensures Run(c, s, x + y + z) == Run(c, Run(c, Run(c, s, x), y), z)
  {
    RunAppend(c, s, x, y);
    RunAppend(c, s, x + y, z);
  }

  lemma {:induction false} AloneRuns(c: Config, s: State, w: nat, run: HandlerRun, id: nat, j: Job)
    requires w < |s.workers| && s.workers[w].Idle? && Choose(s.jobs, c.cfg) == Some(id) && id < |s.jobs|
    requires j == s.jobs[id].(status := Running, attempts := s.jobs[id].attempts + 1)
    requires j.result == NoResult && j.attempts <= MaxAttempts(c.cfg)
    ensures var verdict := AloneVerdict(c, View(id, j.kind, j.attempts), run);
      Run(c, s, AloneSteps(w, j.owner, id, run)).jobs == s.jobs[id := j.(status := verdict.0, result := verdict.1)]
  {
    var view := View(id, j.kind, j.attempts);
    ClaimWith(c, s, w, id);
    var j1 := CheckWith(c, s, w, id, j, run, view);
    RestWith(c, s, w, id, j1, run, view);
    ThreeRuns(c, s, [Select(w), Update(w)], Early(j.owner, id, run) + [Check1(w)], Rest(w, j.owner, id, run));
  }

  /** What a lone run leaves, when there is a job to run. */
  lemma {:induction false} AloneLeaves(c: Config, t: Table, run: HandlerRun, id: nat, j: Job)
    requires Choose(t, c.cfg) == Some(id) && id < |t|
    requires j == t[id].(status := Running, attempts := t[id].attempts + 1)
    ensures var verdict := AloneVerdict(c, View(id, j.kind, j.attempts), run);
      RunAlone(c, t, run) == (t[id := j.(status := verdict.0, result := verdict.1)], Some(id))
  {
  }

  /** A lone run, with its marks and its cancels, is the interleaved protocol with nobody else
    * in between. */
  lemma {:induction false} AloneIsProtocol(c: Config, s: State, w: nat, run: HandlerRun, id: nat)
    requires TableOk(s.jobs, MaxAttempts(c.cfg)) && w < |s.workers| && s.workers[w].Idle?
    requires Choose(s.jobs, c.cfg) == Some(id)
    ensures id < |s.jobs| && RunAlone(c, s.jobs, run).1 == Some(id)
    ensures Run(c, s, AloneSteps(w, s.jobs[id].owner, id, run)).jobs == RunAlone(c, s.jobs, run).0
  {
    ChooseIsBestClaimable(s.jobs, c.cfg);
    assert RowOk(s.jobs[id], MaxAttempts(c.cfg));
    var j := s.jobs[id].(status := Running, attempts := s.jobs[id].attempts + 1);
    AloneLeaves(c, s.jobs, run, id, j);
    AloneRuns(c, s, w, run, id, j);
  }
}
