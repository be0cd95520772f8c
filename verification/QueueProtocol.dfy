/** The queue at session granularity. Every step is one database session or one local move
  * of a worker; any number of workers, clients and operators interleave in any order.
  * A step that is not enabled changes nothing, so every sequence of steps is a run. */
module QueueProtocol {
  import opened Wrappers
  import opened JobPolicy
  import opened JobTable

  datatype Config = Config(cfg: Settings, handlers: set<string>)

  /** The snapshot of the claimed row that a worker carries through one execution. */
  datatype View = View(id: nat, kind: string, attempts: nat)

  datatype HandlerEnd = Returns(value: string) | Raises(error: string) | Bails

  /** Where a worker stands inside one execution. */
  datatype Pc =
    | Idle
    | Selected(id: nat)                          // row chosen, guarded update to come
    | Claimed(view: View)                        // checkpoint 1 to come
    | Working(view: View)                        // inside the handler
    | Returned(view: View, value: string)        // checkpoint 2 to come
    | Raised(view: View, error: string)          // first look at the cancel flag to come
    | Rechecking(view: View, error: string)      // second look at the cancel flag to come
    | Finishing(view: View, status: Status, result: Option<Result>)  // last transition to come

  datatype State = State(jobs: Table, workers: seq<Pc>)

  datatype Step =
    | Enqueue(owner: string, kind: string, payload: string, dedup: string, now: int)
    | Select(w: nat)
    | Update(w: nat)
    | Check1(w: nat)
    | HandlerMark(w: nat, status: Status)
    | HandlerStops(w: nat, end: HandlerEnd)
    | Look(w: nat)
    | Finish(w: nat)
    | Cancel(owner: string, id: nat)
    | RetryJob(owner: string, id: nat, now: int)
    | ReplayJob(id: nat, requester: string, now: int)

  function WithPc(s: State, w: nat, pc: Pc): State
    requires w < |s.workers|
  {
    s.(workers := s.workers[w := pc])
  }

  function Stopped(view: View): Pc {
    Finishing(view, Canceled, Some(CanceledMarker))
  }

  function AfterEnd(view: View, end: HandlerEnd): Pc {
    match end
    case Returns(value) => Returned(view, value)
    case Raises(error) => Raised(view, error)
    case Bails => Stopped(view)
  }

  /** What a worker decides after the handler, given whether it sees a cancel. */
  function AfterLook(c: Config, pc: Pc, cancelled: bool): Pc {
    match pc
    case Returned(view, value) =>
      if cancelled then Stopped(view) else Finishing(view, Completed, Some(Value(value)))
    case Raised(view, error) =>
      if view.attempts < MaxAttempts(c.cfg) then
        if cancelled then Rechecking(view, error) else Finishing(view, Queued, None)
      else
        if cancelled then Stopped(view) else Finishing(view, Failed, Some(HandlerError(error)))
    case Rechecking(view, error) =>
      if cancelled then Stopped(view) else Finishing(view, Failed, Some(HandlerError(error)))
    case _ => pc
  }

  function WorkerStep(c: Config, s: State, w: nat, step: Step): State
    requires w < |s.workers|
  {
    var pc := s.workers[w];
    match step
    case Select(_) =>
      if pc.Idle? then
        var choice := Choose(s.jobs, c.cfg);
        if choice.Some? then WithPc(s, w, Selected(choice.value)) else s
      else s
    case Update(_) =>
      if pc.Selected? then
        var (jobs, won) := MarkRunning(s.jobs, pc.id);
        if won then State(jobs, s.workers[w := Claimed(View(pc.id, jobs[pc.id].kind, jobs[pc.id].attempts))])
        else WithPc(s, w, Idle)
      else s
    case Check1(_) =>
      if pc.Claimed? then
        if IsCancelled(s.jobs, pc.view.id) then WithPc(s, w, Stopped(pc.view))
        else if pc.view.kind !in c.handlers then
          WithPc(s, w, Finishing(pc.view, Failed, Some(NoHandler(pc.view.kind))))
        else WithPc(s, w, Working(pc.view))
      else s
    case HandlerMark(_, status) =>
      if pc.Working? && Interruptible(status) then s.(jobs := Transition(s.jobs, pc.view.id, status, None)) else s
    case HandlerStops(_, end) =>
      if pc.Working? then WithPc(s, w, AfterEnd(pc.view, end)) else s
    case Look(_) =>
      if pc.Returned? || pc.Raised? || pc.Rechecking?
      then WithPc(s, w, AfterLook(c, pc, IsCancelled(s.jobs, pc.view.id)))
      else s
    case Finish(_) =>
      if pc.Finishing?
      then State(Transition(s.jobs, pc.view.id, pc.status, pc.result), s.workers[w := Idle])
      else s
    case _ => s
  }

  function Apply(c: Config, s: State, step: Step): State {
    match step
    case Enqueue(owner, kind, payload, dedup, now) =>
      s.(jobs := EnqueueSession(s.jobs, owner, kind, payload, dedup, now).0)
    case Cancel(owner, id) => s.(jobs := CancelSession(s.jobs, owner, id).0)
    case RetryJob(owner, id, now) => s.(jobs := RetryOp(s.jobs, owner, id, now).0)
    case ReplayJob(id, requester, now) => s.(jobs := ReplayOp(s.jobs, id, requester, now).0)
    case _ => if step.w < |s.workers| then WorkerStep(c, s, step.w, step) else s
  }

  function Run(c: Config, s: State, steps: seq<Step>): State {
    if steps == [] then s else Apply(c, Run(c, s, steps[..|steps| - 1]), steps[|steps| - 1])
  }

  predicate Initial(s: State) {
    s.jobs == [] && forall w | 0 <= w < |s.workers| :: s.workers[w] == Idle
  }

  // ---- what every step keeps: the table ----

  /** A worker owns the row: it is neither queued nor terminal. */
  predicate InHand(status: Status) {
    Interruptible(status) || status == CancelRequested
  }

  predicate SameIdentity(a: Job, b: Job) {
    a.owner == b.owner && a.kind == b.kind && a.payload == b.payload && a.execClass == b.execClass &&
    a.priority == b.priority && a.dedup == b.dedup && a.parent == b.parent && a.origin == b.origin &&
    a.createdAt == b.createdAt
  }

  /** How one row may change: identity never, a terminal row never at all. */
  predicate RowEvolves(a: Job, b: Job) {
    SameIdentity(a, b) && a.attempts <= b.attempts && (Terminal(a.status) ==> b == a)
  }

  predicate Evolves(t: Table, t': Table) {
    |t| <= |t'| && forall i | 0 <= i < |t| :: RowEvolves(t[i], t'[i])
  }

  /** The stored result always explains the status. */
  predicate ResultExplains(j: Job, budget: nat) {
    match j.status
    case Completed => j.result.Value?
    case Failed => j.result == NoHandler(j.kind) || (j.result.HandlerError? && j.attempts == budget)
    case Canceled => j.result == NoResult || j.result == CanceledMarker
    case _ => j.result == NoResult
  }

  predicate RowOk(j: Job, budget: nat) {
    && j.attempts <= budget
    && (j.status == Queued ==> j.attempts < budget)
    && (InHand(j.status) ==> 1 <= j.attempts)
    && ResultExplains(j, budget)
    && j.execClass == Some(ClassFor(j.kind, j.origin))
    && j.priority == Priority(ClassFor(j.kind, j.origin))
  }

  predicate LineageOk(t: Table, i: nat)
    requires i < |t|
  {
    if t[i].parent.None? then t[i].origin == Original
    else
      var p := t[i].parent.value;
      && p < i
      && t[i].origin != Original
      && t[i].owner == t[p].owner && t[i].kind == t[p].kind && t[i].payload == t[p].payload
      && (t[i].origin == Retry ==> t[p].status == Failed)
  }

  predicate DedupOk(t: Table) {
    forall i, j | 0 <= i < j < |t| && t[i].owner == t[j].owner && t[i].dedup == t[j].dedup != "" ::
      !(Active(t[i].status) && Active(t[j].status))
  }

  predicate TableOk(t: Table, budget: nat) {
    && (forall i | 0 <= i < |t| :: RowOk(t[i], budget) && LineageOk(t, i))
    && DedupOk(t)
  }

  // ---- what every step keeps: the workers ----

  predicate Holding(pc: Pc) {
    !pc.Idle? && !pc.Selected?
  }

  predicate Holds(s: State, w: nat, id: nat) {
    w < |s.workers| && Holding(s.workers[w]) && s.workers[w].view.id == id
  }

  predicate FinishOk(pc: Pc, budget: nat)
    requires pc.Finishing?
  {
    match pc.status
    case Queued => pc.result.None? && pc.view.attempts < budget
    case Completed => pc.result.Some? && pc.result.value.Value?
    case Failed => pc.result == Some(NoHandler(pc.view.kind)) ||
      (pc.result.Some? && pc.result.value.HandlerError? && pc.view.attempts == budget)
    case Canceled => pc.result == Some(CanceledMarker)
    case _ => false
  }

  predicate WorkerOk(t: Table, pc: Pc, budget: nat) {
    Holding(pc) ==>
      var view := pc.view;
      && view.id < |t|
      && InHand(t[view.id].status)
      && view.attempts == t[view.id].attempts
      && view.kind == t[view.id].kind
      && (pc.Rechecking? ==> t[view.id].status == CancelRequested)
      && (pc.Finishing? ==> FinishOk(pc, budget))
  }

  predicate WorkersOk(t: Table, workers: seq<Pc>, budget: nat) {
    && (forall w | 0 <= w < |workers| :: WorkerOk(t, workers[w], budget))
    && (forall w, v | 0 <= w < v < |workers| && Holding(workers[w]) && Holding(workers[v]) ::
      workers[w].view.id != workers[v].view.id)
  }

  ghost predicate Attended(s: State) {
    forall i | 0 <= i < |s.jobs| && InHand(s.jobs[i].status) :: exists w :: Holds(s, w, i)
  }

  ghost predicate Inv(c: Config, s: State) {
    var budget := MaxAttempts(c.cfg);
    TableOk(s.jobs, budget) && WorkersOk(s.jobs, s.workers, budget) && Attended(s)
  }

  // ---- the shapes of table change ----

  lemma {:induction false} ChangeRowKeepsTable(t: Table, i: nat, j: Job, budget: nat)
    requires TableOk(t, budget) && i < |t|
    requires !Terminal(t[i].status) && RowEvolves(t[i], j) && RowOk(j, budget)
    ensures TableOk(t[i := j], budget) && Evolves(t, t[i := j])
  {
    var t' := t[i := j];
    forall k | 0 <= k < |t'| ensures LineageOk(t', k) {
      assert LineageOk(t, k);
    }
  }

  lemma {:induction false} AppendKeepsTable(t: Table, j: Job, budget: nat)
    requires TableOk(t, budget)
    requires j.status == Queued && RowOk(j, budget) && LineageOk(t + [j], |t|)
    requires j.dedup != "" ==> forall i | 0 <= i < |t| :: !SameWork(t[i], j.owner, j.dedup)
    ensures TableOk(t + [j], budget) && Evolves(t, t + [j])
  {
    forall k | 0 <= k < |t| ensures LineageOk(t + [j], k) {
      assert LineageOk(t, k);
    }
  }

  /** What a client may do to the table: no row enters or leaves a worker's hands, and a
    * cancel request is never withdrawn. */
  predicate Calm(t: Table, t': Table) {
    && Evolves(t, t')
    && (forall i | 0 <= i < |t| && InHand(t[i].status) ::
      && InHand(t'[i].status) && t'[i].attempts == t[i].attempts
      && (t[i].status == CancelRequested ==> t'[i].status == CancelRequested))
    && (forall i | 0 <= i < |t| && !InHand(t[i].status) :: !InHand(t'[i].status))
    && (forall i | |t| <= i < |t'| :: t'[i].status == Queued && t'[i].attempts == 0)
  }

  lemma {:induction false} EnqueueIsCalm(t: Table, owner: string, kind: string, payload: string, dedup: string,
                                         now: int, budget: nat)
    requires TableOk(t, budget) && budget > 0
    ensures var t' := EnqueueSession(t, owner, kind, payload, dedup, now).0;
      TableOk(t', budget) && Calm(t, t')
  {
    var t' := EnqueueSession(t, owner, kind, payload, dedup, now).0;
    if t' != t {
      AppendKeepsTable(t, t'[|t|], budget);
    }
  }

  lemma {:induction false} CloneIsCalm(t: Table, parent: nat, origin: Origin, dedup: string, now: int, budget: nat)
    requires TableOk(t, budget) && budget > 0 && parent < |t| && origin != Original
    requires origin == Retry ==> t[parent].status == Failed
    ensures var t' := CloneSession(t, t[parent].owner, t[parent].kind, t[parent].payload, parent, origin, dedup, now).0;
      TableOk(t', budget) && Calm(t, t')
  {
    var j := t[parent];
    var t' := CloneSession(t, j.owner, j.kind, j.payload, parent, origin, dedup, now).0;
    if t' != t {
      AppendKeepsTable(t, t'[|t|], budget);
    }
  }

  lemma {:induction false} CancelIsCalm(t: Table, owner: string, id: nat, budget: nat)
    requires TableOk(t, budget)
    ensures var t' := CancelSession(t, owner, id).0;
      TableOk(t', budget) && Calm(t, t')
  {
    var t' := CancelSession(t, owner, id).0;
    if t' != t {
      assert RowOk(t[id], budget);
      ChangeRowKeepsTable(t, id, t'[id], budget);
    }
  }

  // ---- the shapes of worker change ----

  lemma {:induction false} CalmKeepsInv(c: Config, s: State, t: Table)
    requires Inv(c, s) && Calm(s.jobs, t) && TableOk(t, MaxAttempts(c.cfg))
    ensures Inv(c, s.(jobs := t))
  {
    var s' := s.(jobs := t);
    forall i | 0 <= i < |t| && InHand(t[i].status) ensures exists w :: Holds(s', w, i) {
      var w :| Holds(s, w, i);
      assert Holds(s', w, i);
    }
  }

  /** A worker moves on without touching the table, keeping what it holds. */
  lemma {:induction false} MoveKeepsInv(c: Config, s: State, w: nat, pc: Pc)
    requires Inv(c, s) && w < |s.workers|
    requires WorkerOk(s.jobs, pc, MaxAttempts(c.cfg))
    requires Holding(pc) == Holding(s.workers[w])
    requires Holding(pc) ==> pc.view.id == s.workers[w].view.id
    ensures Inv(c, WithPc(s, w, pc))
  {
    var s' := WithPc(s, w, pc);
    forall i | 0 <= i < |s.jobs| && InHand(s.jobs[i].status) ensures exists v :: Holds(s', v, i) {
      var v :| Holds(s, v, i);
      assert Holds(s', v, i);
    }
  }

  /** A worker with empty hands takes a queued row. */
  lemma {:induction false} TakeKeepsInv(c: Config, s: State, w: nat, id: nat, pc: Pc)
    requires Inv(c, s) && w < |s.workers| && !Holding(s.workers[w])
    requires id < |s.jobs| && s.jobs[id].status == Queued
    requires var j := s.jobs[id].(status := Running, attempts := s.jobs[id].attempts + 1);
      pc == Claimed(View(id, j.kind, j.attempts))
    ensures var t := MarkRunning(s.jobs, id).0;
      Inv(c, State(t, s.workers[w := pc])) && Evolves(s.jobs, t)
  {
    assert RowOk(s.jobs[id], MaxAttempts(c.cfg));
    var t := MarkRunning(s.jobs, id).0;
    ChangeRowKeepsTable(s.jobs, id, t[id], MaxAttempts(c.cfg));
    var s' := State(t, s.workers[w := pc]);
    assert Holds(s', w, id);
    forall i | 0 <= i < |t| && InHand(t[i].status) ensures exists v :: Holds(s', v, i) {
      if i != id {
        var v :| Holds(s, v, i);
        assert Holds(s', v, i);
      }
    }
  }

  /** A worker changes the row it holds, and either keeps it in hand or lets it go. */
  lemma {:induction false} HolderKeepsInv(c: Config, s: State, w: nat, id: nat, j: Job, pc: Pc)
    requires Inv(c, s) && Holds(s, w, id) && id < |s.jobs|
    requires RowEvolves(s.jobs[id], j) && RowOk(j, MaxAttempts(c.cfg))
    requires if InHand(j.status) then Holding(pc) && pc.view.id == id else !Holding(pc)
    requires WorkerOk(s.jobs[id := j], pc, MaxAttempts(c.cfg))
    ensures Inv(c, State(s.jobs[id := j], s.workers[w := pc])) && Evolves(s.jobs, s.jobs[id := j])
  {
    assert WorkerOk(s.jobs, s.workers[w], MaxAttempts(c.cfg));
    ChangeRowKeepsTable(s.jobs, id, j, MaxAttempts(c.cfg));
    var s' := State(s.jobs[id := j], s.workers[w := pc]);
    forall v | 0 <= v < |s'.workers| ensures WorkerOk(s'.jobs, s'.workers[v], MaxAttempts(c.cfg)) {
      assert WorkerOk(s.jobs, s.workers[v], MaxAttempts(c.cfg));
    }
    forall i | 0 <= i < |s'.jobs| && InHand(s'.jobs[i].status) ensures exists v :: Holds(s', v, i) {
      var v :| Holds(s, v, i);
      assert Holds(s', v, i);
    }
  }

  // ---- every step keeps the invariant ----

  predicate ByClient(step: Step) {
    step.Enqueue? || step.Cancel? || step.RetryJob? || step.ReplayJob?
  }

  lemma {:induction false} ClientStepIsCalm(c: Config, s: State, step: Step)
    requires TableOk(s.jobs, MaxAttempts(c.cfg)) && ByClient(step)
    ensures var s' := Apply(c, s, step);
      s' == s.(jobs := s'.jobs) && TableOk(s'.jobs, MaxAttempts(c.cfg)) && Calm(s.jobs, s'.jobs)
  {
    var t, budget := s.jobs, MaxAttempts(c.cfg);
    match step
    case Enqueue(owner, kind, payload, dedup, now) => EnqueueIsCalm(t, owner, kind, payload, dedup, now, budget);
    case Cancel(owner, id) => CancelIsCalm(t, owner, id, budget);
    case RetryJob(owner, id, now) =>
      if id < |t| && t[id].owner == owner && t[id].status == Failed {
        CloneIsCalm(t, id, Retry, RetryKey(id), now, budget);
      }
    case ReplayJob(id, requester, now) =>
      if id < |t| {
        CloneIsCalm(t, id, Replay, ReplayKey(id, requester), now, budget);
      }
  }

  lemma {:induction false} UpdateKeepsInv(c: Config, s: State, w: nat)
    requires Inv(c, s) && w < |s.workers|
    ensures Inv(c, Apply(c, s, Update(w))) && Evolves(s.jobs, Apply(c, s, Update(w)).jobs)
  {
    var pc := s.workers[w];
    if pc.Selected? {
      var (t, won) := MarkRunning(s.jobs, pc.id);
      if won {
        TakeKeepsInv(c, s, w, pc.id, Claimed(View(pc.id, t[pc.id].kind, t[pc.id].attempts)));
      } else {
        MoveKeepsInv(c, s, w, Idle);
      }
    }
  }

  lemma {:induction false} MarkKeepsInv(c: Config, s: State, w: nat, status: Status)
    requires Inv(c, s) && w < |s.workers|
    ensures Inv(c, Apply(c, s, HandlerMark(w, status)))
    ensures Evolves(s.jobs, Apply(c, s, HandlerMark(w, status)).jobs)
  {
    var pc := s.workers[w];
    if pc.Working? && Interruptible(status) {
      var id := pc.view.id;
      assert WorkerOk(s.jobs, pc, MaxAttempts(c.cfg)) && RowOk(s.jobs[id], MaxAttempts(c.cfg));
      HolderKeepsInv(c, s, w, id, s.jobs[id].(status := status), pc);
      assert s.workers[w := pc] == s.workers;
    }
  }

  lemma {:induction false} FinishKeepsInv(c: Config, s: State, w: nat)
    requires Inv(c, s) && w < |s.workers|
    ensures Inv(c, Apply(c, s, Finish(w))) && Evolves(s.jobs, Apply(c, s, Finish(w)).jobs)
  {
    var pc := s.workers[w];
    if pc.Finishing? {
      var id := pc.view.id;
      assert WorkerOk(s.jobs, pc, MaxAttempts(c.cfg)) && RowOk(s.jobs[id], MaxAttempts(c.cfg));
      HolderKeepsInv(c, s, w, id, Transition(s.jobs, id, pc.status, pc.result)[id], Idle);
    }
  }

  /** The remaining worker steps move only the worker. */
  lemma {:induction false} LocalStepMoves(c: Config, s: State, step: Step)
    requires !ByClient(step) && !step.Update? && !step.HandlerMark? && !step.Finish?
    requires step.w < |s.workers|
    requires WorkerOk(s.jobs, s.workers[step.w], MaxAttempts(c.cfg))
    requires Holding(s.workers[step.w]) ==> s.workers[step.w].view.attempts <= MaxAttempts(c.cfg)
    ensures var pc := Apply(c, s, step).workers[step.w];
      && Apply(c, s, step) == WithPc(s, step.w, pc)
      && WorkerOk(s.jobs, pc, MaxAttempts(c.cfg))
      && Holding(pc) == Holding(s.workers[step.w])
      && (Holding(pc) ==> pc.view == s.workers[step.w].view)
  {
    assert s.workers[step.w := s.workers[step.w]] == s.workers;
  }

  lemma {:induction false} StepKeepsInv(c: Config, s: State, step: Step)
    requires Inv(c, s)
    ensures Inv(c, Apply(c, s, step)) && Evolves(s.jobs, Apply(c, s, step).jobs)
  {
    if ByClient(step) {
      ClientStepIsCalm(c, s, step);
      CalmKeepsInv(c, s, Apply(c, s, step).jobs);
    } else if step.w < |s.workers| {
      if step.Update? {
        UpdateKeepsInv(c, s, step.w);
      } else if step.HandlerMark? {
        MarkKeepsInv(c, s, step.w, step.status);
      } else if step.Finish? {
        FinishKeepsInv(c, s, step.w);
      } else {
        var pc := s.workers[step.w];
        assert Holding(pc) ==> RowOk(s.jobs[pc.view.id], MaxAttempts(c.cfg));
        LocalStepMoves(c, s, step);
        MoveKeepsInv(c, s, step.w, Apply(c, s, step).workers[step.w]);
      }
    }
  }

  lemma {:induction false} RunKeepsInv(c: Config, s: State, steps: seq<Step>)
    requires Inv(c, s)
    ensures Inv(c, Run(c, s, steps)) && Evolves(s.jobs, Run(c, s, steps).jobs)
  {
    if steps == [] {
    } else {
      var before := Run(c, s, steps[..|steps| - 1]);
      RunKeepsInv(c, s, steps[..|steps| - 1]);
      StepKeepsInv(c, before, steps[|steps| - 1]);
      EvolvesTransitive(s.jobs, before.jobs, Run(c, s, steps).jobs);
    }
  }

  lemma {:induction false} EvolvesTransitive(a: Table, b: Table, d: Table)
    requires Evolves(a, b) && Evolves(b, d)
    ensures Evolves(a, d)
  {
    forall i | 0 <= i < |a| ensures RowEvolves(a[i], d[i]) {
      assert RowEvolves(a[i], b[i]) && RowEvolves(b[i], d[i]);
    }
  }

  lemma {:induction false} RunAppend(c: Config, s: State, a: seq<Step>, b: seq<Step>)
    ensures Run(c, s, a + b) == Run(c, Run(c, s, a), b)
  {
    if b == [] {
      assert a + b == a;
    } else {
      var n := |b| - 1;
      RunAppend(c, s, a, b[..n]);
      assert (a + b)[..|a + b| - 1] == a + b[..n];
    }
  }

  lemma {:induction false} RunSnoc(c: Config, s: State, steps: seq<Step>, last: Step)
    ensures Run(c, s, steps + [last]) == Apply(c, Run(c, s, steps), last)
  {
    assert (steps + [last])[..|steps|] == steps;
  }

  lemma {:induction false} StepsTo(c: Config, s: State, steps: seq<Step>, k: nat)
    requires k < |steps|
    ensures Run(c, s, steps[..k + 1]) == Apply(c, Run(c, s, steps[..k]), steps[k])
  {
    assert steps[..k + 1][..k] == steps[..k];
  }
}
