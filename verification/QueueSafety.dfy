/** What the queue guarantees over every run at session granularity. */
module QueueSafety {
  import opened Wrappers
  import opened JobPolicy
  import opened JobTable
  import opened QueueProtocol

  // ---- single execution ----

  /** Only the holder's own final transition takes a job out of its hands. */
  lemma {:induction false} HolderKeeps(c: Config, s: State, step: Step, w: nat, id: nat)
    requires Holds(s, w, id) && step != Finish(w)
    ensures Holds(Apply(c, s, step), w, id)
  {
  }

  lemma {:induction false} HeldAlone(c: Config, s: State, w: nat, id: nat)
    requires Inv(c, s) && Holds(s, w, id)
    ensures id < |s.jobs| && InHand(s.jobs[id].status)
    ensures forall v :: Holds(s, v, id) ==> v == w
  {
    assert WorkerOk(s.jobs, s.workers[w], MaxAttempts(c.cfg));
  }

  /** In every reachable state a job has at most one holder, and a held job is in hand:
    * neither queued nor terminal. Whatever happens next, short of the holder's own final
    * transition, that stays so. */
  lemma {:induction false} SingleExecution(c: Config, start: State, steps: seq<Step>, w: nat, id: nat)
    requires Initial(start)
    requires Holds(Run(c, start, steps), w, id)
    ensures var s := Run(c, start, steps);
      && id < |s.jobs| && InHand(s.jobs[id].status)
      && (forall v :: Holds(s, v, id) ==> v == w)
    ensures forall next: Step | next != Finish(w) ::
      var s' := Apply(c, Run(c, start, steps), next);
      Holds(s', w, id) && id < |s'.jobs| && InHand(s'.jobs[id].status)
  {
    var s := Run(c, start, steps);
    RunKeepsInv(c, start, steps);
    HeldAlone(c, s, w, id);
    forall next: Step | next != Finish(w)
      ensures var s' := Apply(c, s, next);
        Holds(s', w, id) && id < |s'.jobs| && InHand(s'.jobs[id].status)
    {
      StepKeepsInv(c, s, next);
      HolderKeeps(c, s, next, w, id);
      HeldAlone(c, Apply(c, s, next), w, id);
    }
  }

  /** The converse: a job that reads as in hand has a holder, so no row is stranded. */
  lemma {:induction false} InHandHasHolder(c: Config, start: State, steps: seq<Step>, id: nat)
    requires Initial(start)
    requires id < |Run(c, start, steps).jobs| && InHand(Run(c, start, steps).jobs[id].status)
    ensures exists w :: Holds(Run(c, start, steps), w, id)
  {
    RunKeepsInv(c, start, steps);
  }

  predicate WinsClaim(s: State, step: Step, id: nat) {
    step.Update? && step.w < |s.workers| && s.workers[step.w] == Selected(id) && MarkRunning(s.jobs, id).1
  }

  /** How many times the run handed the job to a worker. */
  function Executions(c: Config, s: State, steps: seq<Step>, id: nat): nat {
    if steps == [] then 0
    else
      var before := steps[..|steps| - 1];
      Executions(c, s, before, id) + if WinsClaim(Run(c, s, before), steps[|steps| - 1], id) then 1 else 0
  }

  function AttemptsOf(t: Table, id: nat): nat {
    if id < |t| then t[id].attempts else 0
  }

  lemma {:induction false} StepCountsExecution(c: Config, s: State, step: Step, id: nat)
    requires TableOk(s.jobs, MaxAttempts(c.cfg))
    ensures AttemptsOf(Apply(c, s, step).jobs, id) ==
      AttemptsOf(s.jobs, id) + if WinsClaim(s, step, id) then 1 else 0
  {
    if ByClient(step) {
      ClientStepIsCalm(c, s, step);
      ClientStepStartsNothing(c, s, step, id);
    }
  }

  lemma {:induction false} ClientStepStartsNothing(c: Config, s: State, step: Step, id: nat)
    requires ByClient(step) && TableOk(s.jobs, MaxAttempts(c.cfg))
    ensures AttemptsOf(Apply(c, s, step).jobs, id) == AttemptsOf(s.jobs, id)
  {
  }

  /** The stored attempt count is the number of executions, and it stays within the
    * retry budget over every run, whatever handlers and clients do. */
  lemma {:induction false} AttemptsCountExecutions(c: Config, start: State, steps: seq<Step>, id: nat)
    requires Initial(start)
    ensures Executions(c, start, steps, id) == AttemptsOf(Run(c, start, steps).jobs, id) <= MaxAttempts(c.cfg)
  {
    RunKeepsInv(c, start, steps);
    if steps == [] {
    } else {
      var init, step := steps[..|steps| - 1], steps[|steps| - 1];
      AttemptsCountExecutions(c, start, init, id);
      RunKeepsInv(c, start, init);
      StepCountsExecution(c, Run(c, start, init), step, id);
    }
  }

  // ---- terminal rows ----

  /** A completed, failed or canceled row is never modified again. */
  lemma {:induction false} TerminalFrozen(c: Config, start: State, early: seq<Step>, late: seq<Step>, id: nat)
    requires Initial(start)
    requires id < |Run(c, start, early).jobs| && Terminal(Run(c, start, early).jobs[id].status)
    ensures id < |Run(c, Run(c, start, early), late).jobs|
    ensures Run(c, Run(c, start, early), late).jobs[id] == Run(c, start, early).jobs[id]
  {
    RunKeepsInv(c, start, early);
    RunKeepsInv(c, Run(c, start, early), late);
  }

  /** Retry reads the failed row in one session and clones it in another. Whatever happens
    * in between, the clone is the one an atomic retry would make at the later moment. */
  lemma {:induction false} RetryReadStaysValid(c: Config, s: State, steps: seq<Step>, owner: string, id: nat, now: int)
    requires Inv(c, s) && id < |s.jobs|
    requires s.jobs[id].owner == owner && s.jobs[id].status == Failed
    ensures var later := Run(c, s, steps).jobs;
      var (jobs, child) := CloneSession(later, owner, s.jobs[id].kind, s.jobs[id].payload, id, Retry, RetryKey(id), now);
      RetryOp(later, owner, id, now) == (jobs, Scheduled(child))
  {
    RunKeepsInv(c, s, steps);
    assert RowEvolves(s.jobs[id], Run(c, s, steps).jobs[id]);
  }

  lemma {:induction false} ReplayReadStaysValid(c: Config, s: State, steps: seq<Step>, id: nat, requester: string,
                                                now: int)
    requires Inv(c, s) && id < |s.jobs|
    ensures var later := Run(c, s, steps).jobs; var j := s.jobs[id];
      var (jobs, child) := CloneSession(later, j.owner, j.kind, j.payload, id, Replay, ReplayKey(id, requester), now);
      ReplayOp(later, id, requester, now) == (jobs, Some(child))
  {
    RunKeepsInv(c, s, steps);
    assert RowEvolves(s.jobs[id], Run(c, s, steps).jobs[id]);
  }

  // ---- cancellation ----

  /** The holder writes its own status over a cancel that it has not looked for. */
  predicate Erases(s: State, step: Step, w: nat) {
    step.HandlerMark? && step.w == w && w < |s.workers| && s.workers[w].Working? && Interruptible(step.status)
  }

  /** The owner asks for the cancel again. */
  predicate Repeats(s: State, step: Step, id: nat) {
    step.Cancel? && step.id == id && id < |s.jobs| && step.owner == s.jobs[id].owner
  }

  /** The handler stops by itself at one of its own checkpoints. */
  predicate BailsOut(s: State, step: Step, w: nat) {
    step == HandlerStops(w, Bails) && w < |s.workers| && s.workers[w].Working?
  }

  predicate Honored(before: Pc) {
    !(before.Finishing? && before.status != Canceled)
  }

  /** Whether a cancel that is pending in `s` still stands after these steps: a decision that
    * the holder has taken stays; until then, the holder's own mark erases the cancel, and a
    * repeated request or a bail brings it back. */
  predicate Stands(c: Config, s: State, steps: seq<Step>, w: nat, id: nat)
    requires w < |s.workers|
  {
    if steps == [] then Honored(s.workers[w])
    else
      var m := |steps| - 1;
      var before, step := Run(c, s, steps[..m]), steps[m];
      if w < |before.workers| && before.workers[w].Finishing? then Stands(c, s, steps[..m], w, id)
      else if Erases(before, step, w) then false
      else Repeats(before, step, id) || BailsOut(before, step, w) || Stands(c, s, steps[..m], w, id)
  }

  /** The holder has decided to cancel, or has not decided and the row asks it to. */
  predicate Tracks(s: State, w: nat, id: nat, stands: bool) {
    && Holds(s, w, id) && id < |s.jobs|
    && (if s.workers[w].Finishing? then s.workers[w].status == Canceled <==> stands
        else s.jobs[id].status == CancelRequested <==> stands)
  }

  /** What one step makes of a cancel that stands or does not. */
  predicate StandsAfter(s: State, step: Step, w: nat, id: nat, stands: bool)
    requires w < |s.workers|
  {
    if s.workers[w].Finishing? then stands
    else if Erases(s, step, w) then false
    else Repeats(s, step, id) || BailsOut(s, step, w) || stands
  }

  lemma {:induction false} ClientTracks(c: Config, s: State, step: Step, w: nat, id: nat, stands: bool)
    requires ByClient(step) && TableOk(s.jobs, MaxAttempts(c.cfg)) && Tracks(s, w, id, stands)
    requires InHand(s.jobs[id].status)
    ensures Tracks(Apply(c, s, step), w, id, StandsAfter(s, step, w, id, stands))
  {
    ClientStepIsCalm(c, s, step);
    if Repeats(s, step, id) {
      assert Apply(c, s, step).jobs[id].status == CancelRequested;
    } else {
      ClientLeavesRow(c, s, step, id);
    }
  }

  lemma {:induction false} ClientLeavesRow(c: Config, s: State, step: Step, id: nat)
    requires ByClient(step) && id < |s.jobs| && !Repeats(s, step, id)
    ensures id < |Apply(c, s, step).jobs| && Apply(c, s, step).jobs[id] == s.jobs[id]
  {
  }

  lemma {:induction false} HolderTracks(c: Config, s: State, step: Step, w: nat, id: nat, stands: bool)
    requires !ByClient(step) && step != Finish(w) && step.w == w && Tracks(s, w, id, stands)
    requires InHand(s.jobs[id].status)
    requires s.workers[w].Rechecking? ==> s.jobs[id].status == CancelRequested
    ensures Tracks(Apply(c, s, step), w, id, StandsAfter(s, step, w, id, stands))
  {
  }

  lemma {:induction false} OthersLeaveRow(c: Config, s: State, step: Step, w: nat, id: nat)
    requires WorkersOk(s.jobs, s.workers, MaxAttempts(c.cfg)) && Holds(s, w, id) && id < |s.jobs|
    requires InHand(s.jobs[id].status) && !ByClient(step) && step.w != w && step.w < |s.workers|
    ensures var s' := Apply(c, s, step);
      && |s'.workers| == |s.workers| && s'.workers[w] == s.workers[w]
      && id < |s'.jobs| && s'.jobs[id] == s.jobs[id]
  {
    var pc := s.workers[step.w];
    assert WorkerOk(s.jobs, pc, MaxAttempts(c.cfg));
    assert Holding(pc) ==> pc.view.id != id;
  }

  lemma {:induction false} StepTracks(c: Config, s: State, step: Step, w: nat, id: nat, stands: bool)
    requires Inv(c, s) && Tracks(s, w, id, stands) && step != Finish(w)
    ensures Tracks(Apply(c, s, step), w, id, StandsAfter(s, step, w, id, stands))
  {
    assert WorkerOk(s.jobs, s.workers[w], MaxAttempts(c.cfg));
    if ByClient(step) {
      ClientTracks(c, s, step, w, id, stands);
    } else if step.w == w {
      HolderTracks(c, s, step, w, id, stands);
    } else if step.w < |s.workers| {
      OthersLeaveRow(c, s, step, w, id);
    }
  }

  /** A pending cancel: the row asks for it and its holder has not decided otherwise. */
  predicate CancelPending(s: State, w: nat, id: nat) {
    Tracks(s, w, id, true)
  }

  /** A step keeps a cancel pending if and only if it is not the holder's own mark. */
  lemma {:induction false} CancelStaysPendingIff(c: Config, s: State, step: Step, w: nat, id: nat)
    requires Inv(c, s) && CancelPending(s, w, id) && step != Finish(w)
    ensures CancelPending(Apply(c, s, step), w, id) <==> !Erases(s, step, w)
  {
    StepTracks(c, s, step, w, id, true);
  }

  lemma {:induction false} TracksThroughout(c: Config, s: State, steps: seq<Step>, w: nat, id: nat)
    requires Inv(c, s) && Holds(s, w, id) && id < |s.jobs| && s.jobs[id].status == CancelRequested
    requires Finish(w) !in steps
    ensures Tracks(Run(c, s, steps), w, id, Stands(c, s, steps, w, id))
  {
    if steps != [] {
      var m := |steps| - 1;
      assert steps[m] in steps && forall k | 0 <= k < m :: steps[..m][k] in steps;
      TracksThroughout(c, s, steps[..m], w, id);
      RunKeepsInv(c, s, steps[..m]);
      StepTracks(c, Run(c, s, steps[..m]), steps[m], w, id, Stands(c, s, steps[..m], w, id));
    }
  }

  /** The exact fate of an acknowledged cancel, at session granularity. Whatever workers and
    * clients do until the holder finishes, the job ends canceled if and only if the cancel
    * stands: the holder had not decided on another outcome when it landed, and no mark of its
    * own came between the last request and its next look, unless its handler bailed out. A
    * canceled job carries the marker; any other ends as its holder decided. */
  lemma {:induction false} CancelOutcome(c: Config, s: State, steps: seq<Step>, w: nat, id: nat)
    requires Inv(c, s) && Holds(s, w, id) && id < |s.jobs| && s.jobs[id].status == CancelRequested
    requires Finish(w) !in steps && Holds(Run(c, s, steps), w, id) && Run(c, s, steps).workers[w].Finishing?
    ensures var decided, last := Run(c, s, steps).workers[w], Run(c, s, steps + [Finish(w)]).jobs;
      && id < |last| && last[id].status == decided.status
      && (last[id].status == Canceled <==> Stands(c, s, steps, w, id))
      && (last[id].status == Canceled ==> last[id].result == CanceledMarker)
  {
    TracksThroughout(c, s, steps, w, id);
    RunKeepsInv(c, s, steps);
    RunSnoc(c, s, steps, Finish(w));
    assert WorkerOk(Run(c, s, steps).jobs, Run(c, s, steps).workers[w], MaxAttempts(c.cfg));
  }

  /** The holder marks the job at no step. */
  predicate NeverErased(c: Config, s: State, steps: seq<Step>, w: nat) {
    steps != [] ==>
      var m := |steps| - 1;
      !Erases(Run(c, s, steps[..m]), steps[m], w) && NeverErased(c, s, steps[..m], w)
  }

  /** Nobody asks again and the handler does not bail out. */
  predicate AskedOnce(c: Config, s: State, steps: seq<Step>, w: nat, id: nat) {
    steps != [] ==>
      var m := |steps| - 1;
      && !Repeats(Run(c, s, steps[..m]), steps[m], id) && !BailsOut(Run(c, s, steps[..m]), steps[m], w)
      && AskedOnce(c, s, steps[..m], w, id)
  }

  lemma {:induction false} StandsOnceIff(c: Config, s: State, steps: seq<Step>, w: nat, id: nat)
    requires w < |s.workers| && AskedOnce(c, s, steps, w, id)
    ensures Stands(c, s, steps, w, id) <==> Honored(s.workers[w]) && NeverErased(c, s, steps, w)
  {
    if steps != [] {
      StandsOnceIff(c, s, steps[..|steps| - 1], w, id);
    }
  }

  /** A cancel that is asked for once, of a handler that does not bail out, is honored if and
    * only if the holder had not decided on another outcome when it landed and does not mark
    * the job again before it finishes. */
  lemma {:induction false} SingleCancelIff(c: Config, s: State, steps: seq<Step>, w: nat, id: nat)
    requires Inv(c, s) && Holds(s, w, id) && id < |s.jobs| && s.jobs[id].status == CancelRequested
    requires Finish(w) !in steps && Holds(Run(c, s, steps), w, id) && Run(c, s, steps).workers[w].Finishing?
    requires AskedOnce(c, s, steps, w, id)
    ensures id < |Run(c, s, steps + [Finish(w)]).jobs|
    ensures Run(c, s, steps + [Finish(w)]).jobs[id].status == Canceled <==>
      Honored(s.workers[w]) && NeverErased(c, s, steps, w)
  {
    CancelOutcome(c, s, steps, w, id);
    StandsOnceIff(c, s, steps, w, id);
  }

  // ---- two ways to lose a cancel ----

  const ONE_KIND := Config(Settings(2, false, map[], 3), {"k"})
  const WORK := [Enqueue("o", "k", "p", "", 0), Select(0), Update(0), Check1(0)]

  function OnlyJob(status: Status): Job {
    NewJob("o", "k", "p", "", None, Original, 0).(status := status, attempts := 1)
  }

  lemma {:induction false} HandlerAtWork()
    ensures Run(ONE_KIND, State([], [Idle]), WORK) == State([OnlyJob(Running)], [Working(View(0, "k", 1))])
  {
    var start, queued := State([], [Idle]), [NewJob("o", "k", "p", "", None, Original, 0)];
    StepsTo(ONE_KIND, start, WORK, 0);
    assert Run(ONE_KIND, start, WORK[..1]) == State(queued, [Idle]);
    StepsTo(ONE_KIND, start, WORK, 1);
    ChooseIsBestClaimable(queued, ONE_KIND.cfg);
    assert Claimable(queued, 0, ONE_KIND.cfg);
    assert Run(ONE_KIND, start, WORK[..2]) == State(queued, [Selected(0)]);
    StepsTo(ONE_KIND, start, WORK, 2);
    assert Run(ONE_KIND, start, WORK[..3]) == State([OnlyJob(Running)], [Claimed(View(0, "k", 1))]);
    StepsTo(ONE_KIND, start, WORK, 3);
    assert WORK[..4] == WORK;
  }

  /** The run acknowledges a cancel of job 0 and completes the job all the same. */
  predicate LosesCancel(c: Config, start: State, steps: seq<Step>, end: seq<Step>) {
    && Initial(start)
    && CancelSession(Run(c, start, steps).jobs, "o", 0).1 == CancelOk(CancelRequested)
    && var after := Run(c, start, steps + [Cancel("o", 0)] + end);
    && |after.jobs| > 0 && after.jobs[0].status == Completed && after.jobs[0].result == Value("v")
  }

  const DECIDED := WORK + [HandlerStops(0, Returns("v"))] + [Look(0)]

  lemma {:induction false} WorkerDecides()
    ensures Run(ONE_KIND, State([], [Idle]), DECIDED)
      == State([OnlyJob(Running)], [Finishing(View(0, "k", 1), Completed, Some(Value("v")))])
  {
    HandlerAtWork();
    RunSnoc(ONE_KIND, State([], [Idle]), WORK, HandlerStops(0, Returns("v")));
    RunSnoc(ONE_KIND, State([], [Idle]), WORK + [HandlerStops(0, Returns("v"))], Look(0));
  }

  /** A cancel that is acknowledged between checkpoint 2 and the last transition is lost: the
    * job ends completed with its value delivered. */
  lemma {:induction false} AcknowledgedCancelCanBeLost()
    ensures LosesCancel(ONE_KIND, State([], [Idle]), DECIDED, [Finish(0)])
  {
    WorkerDecides();
    RunSnoc(ONE_KIND, State([], [Idle]), DECIDED, Cancel("o", 0));
    RunSnoc(ONE_KIND, State([], [Idle]), DECIDED + [Cancel("o", 0)], Finish(0));
  }

  const MARKED_END := [HandlerMark(0, Validating), HandlerStops(0, Returns("v")), Look(0), Finish(0)]

  lemma {:induction false} MarkedEnd(s: State)
    requires s == State([OnlyJob(CancelRequested)], [Working(View(0, "k", 1))])
    ensures Run(ONE_KIND, s, MARKED_END).jobs == [OnlyJob(Completed).(result := Value("v"))]
  {
    var view := View(0, "k", 1);
    StepsTo(ONE_KIND, s, MARKED_END, 0);
    assert Run(ONE_KIND, s, MARKED_END[..1]) == State([OnlyJob(Validating)], [Working(view)]);
    StepsTo(ONE_KIND, s, MARKED_END, 1);
    StepsTo(ONE_KIND, s, MARKED_END, 2);
    assert Run(ONE_KIND, s, MARKED_END[..3]) == State([OnlyJob(Validating)], [Finishing(view, Completed, Some(Value("v")))]);
    StepsTo(ONE_KIND, s, MARKED_END, 3);
    assert MARKED_END[..4] == MARKED_END;
  }

  /** The handler's own mark loses a cancel too: it lands after the handler's checkpoint, and
    * the mark that follows writes over it. */
  lemma {:induction false} MarkLosesCancel()
    ensures Run(ONE_KIND, State([], [Idle]), WORK).workers == [Working(View(0, "k", 1))]
    ensures LosesCancel(ONE_KIND, State([], [Idle]), WORK, MARKED_END)
  {
    var start := State([], [Idle]);
    HandlerAtWork();
    RunSnoc(ONE_KIND, start, WORK, Cancel("o", 0));
    var cancelled := State([OnlyJob(CancelRequested)], [Working(View(0, "k", 1))]);
    assert Run(ONE_KIND, start, WORK + [Cancel("o", 0)]) == cancelled;
    MarkedEnd(cancelled);
    RunAppend(ONE_KIND, start, WORK + [Cancel("o", 0)], MARKED_END);
  }
}
