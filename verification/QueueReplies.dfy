/** What the clients of the queue are answered, and what the table then holds: each reply is
  * read off the rows, without naming the session that gave it. */
module QueueReplies {
  import opened Wrappers
  import opened JobPolicy
  import opened JobTable
  import opened QueueProtocol
  import opened QueueSafety
  import opened QueueLineage

  // ---- cancel ----

  predicate Owned(t: Table, owner: string, id: nat) {
    id < |t| && t[id].owner == owner
  }

  /** Only the status of one row may differ. */
  predicate OnlyStatus(t: Table, t': Table, id: nat) {
    && |t'| == |t|
    && (forall i | 0 <= i < |t| && i != id :: t'[i] == t[i])
    && (id < |t| ==> t'[id] == t[id].(status := t'[id].status))
  }

  /** A foreign or missing job is not found; a finished one keeps its status and reports it; a
    * queued one is canceled at once, any other is asked to stop, and the reply is the status
    * that the row then has. */
  predicate CancelTells(t: Table, owner: string, id: nat, t': Table, reply: CancelReply) {
    && OnlyStatus(t, t', id)
    && (reply == CancelNotFound <==> !Owned(t, owner, id))
    && (reply.AlreadyFinished? <==> Owned(t, owner, id) && t[id].status in {Completed, Failed, Canceled})
    && (!reply.CancelOk? ==> t' == t)
    && (!reply.CancelNotFound? ==> id < |t'| && t'[id].status == reply.status)
    && (reply.CancelOk? ==> reply.status == if t[id].status == Queued then Canceled else CancelRequested)
  }

  lemma {:induction false} CancelAnswer(t: Table, owner: string, id: nat)
    ensures CancelTells(t, owner, id, CancelSession(t, owner, id).0, CancelSession(t, owner, id).1)
  {
  }

  lemma {:induction false} TerminalNeverExecutes(c: Config, s: State, steps: seq<Step>, id: nat)
    requires Inv(c, s) && id < |s.jobs| && Terminal(s.jobs[id].status)
    ensures id < |Run(c, s, steps).jobs| && Run(c, s, steps).jobs[id] == s.jobs[id]
    ensures Executions(c, s, steps, id) == 0
  {
    RunKeepsInv(c, s, steps);
    if steps != [] {
      TerminalNeverExecutes(c, s, steps[..|steps| - 1], id);
    }
  }

  /** A queued job that its owner cancels is canceled at once: nothing else changes, the row
    * stays as it is over every later run, and no worker ever executes it. */
  lemma {:induction false} QueuedCancelIsFinal(c: Config, s: State, owner: string, id: nat, later: seq<Step>)
    requires Inv(c, s) && Owned(s.jobs, owner, id) && s.jobs[id].status == Queued
    ensures var after := Apply(c, s, Cancel(owner, id));
      && after == s.(jobs := s.jobs[id := s.jobs[id].(status := Canceled)])
      && id < |Run(c, after, later).jobs| && Run(c, after, later).jobs[id] == after.jobs[id]
      && Executions(c, after, later, id) == 0
  {
    var after := Apply(c, s, Cancel(owner, id));
    CancelAnswer(s.jobs, owner, id);
    assert after.jobs == s.jobs[id := s.jobs[id].(status := Canceled)];
    StepKeepsInv(c, s, Cancel(owner, id));
    TerminalNeverExecutes(c, after, later, id);
  }

  // ---- enqueue, retry, replay ----

  predicate KeyTaken(t: Table, owner: string, key: string) {
    exists i :: 0 <= i < |t| && t[i].owner == owner && t[i].dedup == key && Active(t[i].status)
  }

  /** What a new job must look like: queued, never attempted, and stamped with the moment. */
  predicate Fresh(j: Job, owner: string, kind: string, payload: string, key: string, parent: Option<nat>,
                  origin: Origin, now: int) {
    && j.status == Queued && j.attempts == 0 && j.result == NoResult && j.createdAt == now
    && j.owner == owner && j.kind == kind && j.payload == payload && j.dedup == key
    && j.parent == parent && j.origin == origin
  }

  /** The answer names an active row of that owner and key. It is a new row, the one row that
    * was added, when the key was free, and otherwise the table is as it was. */
  predicate Answers(t: Table, t': Table, k: nat, owner: string, kind: string, payload: string, key: string,
                    parent: Option<nat>, origin: Origin, now: int, free: bool) {
    && k < |t'| && t'[k].owner == owner && t'[k].dedup == key && Active(t'[k].status)
    && (if free then k == |t| && |t'| == |t| + 1 && t <= t' && Fresh(t'[k], owner, kind, payload, key, parent, origin, now)
        else t' == t)
  }

  lemma {:induction false} FindActiveIff(t: Table, owner: string, key: string)
    ensures FindActive(t, owner, key).Some? <==> KeyTaken(t, owner, key)
  {
    if FindActive(t, owner, key).Some? {
      var i := FindActive(t, owner, key).value;
      assert t[i].owner == owner && t[i].dedup == key && Active(t[i].status);
    }
  }

  /** An enqueue is refused without an owner or a kind. Otherwise it adds one queued job, unless
    * it has a key that an active job of the owner carries. */
  predicate EnqueueTells(t: Table, t': Table, owner: string, kind: string, payload: string, key: string, now: int,
                         reply: Option<nat>) {
    && (reply.None? <==> |owner| == 0 || |kind| == 0)
    && (reply.None? ==> t' == t)
    && (reply.Some? ==> Answers(t, t', reply.value, owner, kind, payload, key, None, Original, now,
                                key == "" || !KeyTaken(t, owner, key)))
  }

  /** A retry is refused unless the job is the owner's and has failed. Otherwise the answer is
    * an active job under that job's retry key, and one is added exactly when there was none. */
  predicate RetryTells(t: Table, t': Table, owner: string, id: nat, now: int, reply: RetryReply) {
    && (reply.NotFound? <==> !Owned(t, owner, id))
    && (reply.Scheduled? <==> Owned(t, owner, id) && t[id].status == Failed)
    && (reply.NotRetryable? ==> reply.status == t[id].status)
    && (!reply.Scheduled? ==> t' == t)
    && (reply.Scheduled? ==> Answers(t, t', reply.id, owner, t[id].kind, t[id].payload, RetryKey(id), Some(id), Retry,
                                     now, !KeyTaken(t, owner, RetryKey(id))))
  }

  /** The same for a replay of any job, for its own owner and under the key of requester and job. */
  predicate ReplayTells(t: Table, t': Table, id: nat, requester: string, now: int, reply: Option<nat>) {
    && (reply.None? <==> id >= |t|)
    && (reply.None? ==> t' == t)
    && (reply.Some? ==>
      Answers(t, t', reply.value, t[id].owner, t[id].kind, t[id].payload, ReplayKey(id, requester), Some(id), Replay, now,
              !KeyTaken(t, t[id].owner, ReplayKey(id, requester))))
  }

  lemma {:induction false} CloneAnswer(t: Table, owner: string, kind: string, payload: string, parent: nat,
                                       origin: Origin, key: string, now: int)
    ensures var (t', k) := CloneSession(t, owner, kind, payload, parent, origin, key, now);
      Answers(t, t', k, owner, kind, payload, key, Some(parent), origin, now, !KeyTaken(t, owner, key))
  {
    FindActiveIff(t, owner, key);
  }

  lemma {:induction false} EnqueueAnswer(t: Table, owner: string, kind: string, payload: string, key: string, now: int)
    ensures var (t', reply) := EnqueueSession(t, owner, kind, payload, key, now);
      EnqueueTells(t, t', owner, kind, payload, key, now, reply)
  {
    FindActiveIff(t, owner, key);
  }

  lemma {:induction false} RetryAnswer(t: Table, owner: string, id: nat, now: int)
    ensures var (t', reply) := RetryOp(t, owner, id, now);
      RetryTells(t, t', owner, id, now, reply)
  {
    if Owned(t, owner, id) {
      CloneAnswer(t, owner, t[id].kind, t[id].payload, id, Retry, RetryKey(id), now);
    }
  }

  lemma {:induction false} ReplayAnswer(t: Table, id: nat, requester: string, now: int)
    ensures var (t', reply) := ReplayOp(t, id, requester, now);
      ReplayTells(t, t', id, requester, now, reply)
  {
    if id < |t| {
      CloneAnswer(t, t[id].owner, t[id].kind, t[id].payload, id, Replay, ReplayKey(id, requester), now);
    }
  }

  /** What a client is told of the table before and after its step. */
  predicate StepTells(t: Table, t': Table, step: Step) {
    match step
    case Enqueue(owner, kind, payload, key, now) =>
      EnqueueTells(t, t', owner, kind, payload, key, now, EnqueueSession(t, owner, kind, payload, key, now).1)
    case Cancel(owner, id) => CancelTells(t, owner, id, t', CancelSession(t, owner, id).1)
    case RetryJob(owner, id, now) => RetryTells(t, t', owner, id, now, RetryOp(t, owner, id, now).1)
    case ReplayJob(id, requester, now) => ReplayTells(t, t', id, requester, now, ReplayOp(t, id, requester, now).1)
    case _ => true
  }

  /** Each client step does to the table what its answer tells, and moves no worker. */
  lemma {:induction false} ClientStepTells(c: Config, s: State, step: Step)
    requires ByClient(step)
    ensures StepTells(s.jobs, Apply(c, s, step).jobs, step) && Apply(c, s, step).workers == s.workers
  {
    match step
    case Enqueue(owner, kind, payload, key, now) => EnqueueAnswer(s.jobs, owner, kind, payload, key, now);
    case Cancel(owner, id) => CancelAnswer(s.jobs, owner, id);
    case RetryJob(owner, id, now) => RetryAnswer(s.jobs, owner, id, now);
    case ReplayJob(id, requester, now) => ReplayAnswer(s.jobs, id, requester, now);
  }

  // ---- whose retry the answer is ----

  lemma {:induction false} DigitsAreDigits(n: nat)
    ensures |Digits(n)| >= 1 && forall i | 0 <= i < |Digits(n)| :: Digits(n)[i] in "0123456789"
  {
    if n >= 10 {
      DigitsAreDigits(n / 10);
    }
  }

  lemma {:induction false} DigitsTell(m: nat, n: nat)
    requires Digits(m) == Digits(n)
    ensures m == n
  {
    if m >= 10 {
      DigitsAreDigits(m / 10);
    }
    if n >= 10 {
      DigitsAreDigits(n / 10);
    }
    var ten := "0123456789";
    assert forall i, j | 0 <= i < 10 && 0 <= j < 10 && ten[i] == ten[j] :: i == j;
    if m >= 10 && n >= 10 {
      var dm, dn := Digits(m), Digits(n);
      assert dm[..|dm| - 1] == Digits(m / 10) && dn[..|dn| - 1] == Digits(n / 10);
      assert dm[|dm| - 1] == ten[m % 10] && dn[|dn| - 1] == ten[n % 10];
      DigitsTell(m / 10, n / 10);
    }
  }

  /** What every replay key of a job starts with. */
  function ReplayStem(id: nat): string { "replay:" + Digits(id) + ":" }

  lemma {:induction false} RetryKeyTells(m: nat, n: nat)
    requires RetryKey(m) == RetryKey(n)
    ensures m == n
  {
    assert RetryKey(m)[6..] == Digits(m) && RetryKey(n)[6..] == Digits(n);
    DigitsTell(m, n);
  }

  /** The digits of a replay key end at its second colon. */
  lemma {:induction false} DigitsEnd(n: nat, key: string)
    requires ReplayStem(n) <= key
    ensures var end := 7 + |Digits(n)|;
      && end < |key| && key[end] == ':' && key[7..end] == Digits(n)
      && forall i | 7 <= i < end :: key[i] != ':'
  {
    var d := Digits(n);
    DigitsAreDigits(n);
    assert ReplayStem(n)[7..7 + |d|] == d;
    assert forall i | 7 <= i < 7 + |d| :: key[i] == d[i - 7];
  }

  lemma {:induction false} ReplayStemTells(m: nat, n: nat, key: string)
    requires ReplayStem(m) <= key && ReplayStem(n) <= key
    ensures m == n
  {
    DigitsEnd(m, key);
    DigitsEnd(n, key);
    DigitsTell(m, n);
  }

  lemma {:induction false} RetryKeyIsNoReplayKey(m: nat, n: nat)
    ensures !(ReplayStem(n) <= RetryKey(m))
  {
    assert RetryKey(m)[2] == 't' && ReplayStem(n)[2] == 'p';
  }

  /** The key of a re-run names its parent. */
  predicate OriginKeyed(j: Job) {
    match j.origin
    case Original => j.parent.None?
    case Retry => j.parent.Some? && j.dedup == RetryKey(j.parent.value)
    case Replay => j.parent.Some? && ReplayStem(j.parent.value) <= j.dedup
  }

  /** A row that a step adds is the one its client asked for. */
  predicate Asked(step: Step, j: Job) {
    match step
    case Enqueue(_, _, _, key, _) => j.origin == Original && j.parent.None? && j.dedup == key
    case RetryJob(_, id, _) => j.origin == Retry && j.parent == Some(id) && j.dedup == RetryKey(id)
    case ReplayJob(id, requester, _) => j.origin == Replay && j.parent == Some(id) && j.dedup == ReplayKey(id, requester)
    case _ => false
  }

  lemma {:induction false} NewRowsAreAsked(c: Config, s: State, step: Step, i: nat)
    requires |s.jobs| <= i < |Apply(c, s, step).jobs|
    ensures Asked(step, Apply(c, s, step).jobs[i])
  {
    match step
    case Enqueue(owner, kind, payload, key, now) => EnqueueAnswer(s.jobs, owner, kind, payload, key, now);
    case RetryJob(owner, id, now) => RetryAnswer(s.jobs, owner, id, now);
    case ReplayJob(id, requester, now) => ReplayAnswer(s.jobs, id, requester, now);
    case Cancel(owner, id) => CancelAnswer(s.jobs, owner, id);
    case _ => WorkersAddNothing(c, s, step);
  }

  lemma {:induction false} AskedIsKeyed(step: Step, j: Job)
    requires Asked(step, j)
    ensures OriginKeyed(j)
  {
    if step.ReplayJob? {
      assert ReplayKey(step.id, step.requester) == ReplayStem(step.id) + step.requester;
    }
  }

  /** Every row was there before, and is the same job, or is one that the step was asked for. */
  lemma {:induction false} RowComesFrom(c: Config, s: State, step: Step, i: nat)
    requires Inv(c, s) && i < |Apply(c, s, step).jobs|
    ensures var j := Apply(c, s, step).jobs[i];
      if i < |s.jobs| then SameIdentity(s.jobs[i], j) else Asked(step, j)
  {
    if i < |s.jobs| {
      StepKeepsInv(c, s, step);
      assert RowEvolves(s.jobs[i], Apply(c, s, step).jobs[i]);
    } else {
      NewRowsAreAsked(c, s, step, i);
    }
  }

  lemma {:induction false} OriginsAreKeyed(c: Config, start: State, steps: seq<Step>, i: nat)
    requires Initial(start) && i < |Run(c, start, steps).jobs|
    ensures OriginKeyed(Run(c, start, steps).jobs[i])
  {
    if steps == [] {
      assert false;
    } else {
      var init, step := steps[..|steps| - 1], steps[|steps| - 1];
      RunKeepsInv(c, start, init);
      RowComesFrom(c, Run(c, start, init), step, i);
      if i < |Run(c, start, init).jobs| {
        OriginsAreKeyed(c, start, init, i);
      } else {
        AskedIsKeyed(step, Run(c, start, steps).jobs[i]);
      }
    }
  }

  /** Row `k` is a re-run of the same work of the same owner. */
  predicate ReRuns(t: Table, k: nat, id: nat, origin: Origin) {
    && k < |t| && id < |t| && t[k].origin == origin && t[k].parent == Some(id)
    && t[k].owner == t[id].owner && t[k].kind == t[id].kind && t[k].payload == t[id].payload
  }

  lemma {:induction false} RetryRowTells(c: Config, start: State, steps: seq<Step>, k: nat, id: nat)
    requires Initial(start) && k < |Run(c, start, steps).jobs| && Run(c, start, steps).jobs[k].dedup == RetryKey(id)
    ensures var t := Run(c, start, steps).jobs;
      t[k].origin != Original ==> ReRuns(t, k, id, Retry)
  {
    var t := Run(c, start, steps).jobs;
    OriginsAreKeyed(c, start, steps, k);
    RunKeepsInv(c, start, steps);
    assert OriginKeyed(t[k]) && LineageOk(t, k);
    if t[k].origin == Retry {
      RetryKeyTells(t[k].parent.value, id);
    } else if t[k].origin == Replay {
      RetryKeyIsNoReplayKey(id, t[k].parent.value);
    }
  }

  lemma {:induction false} ReplayRowTells(c: Config, start: State, steps: seq<Step>, k: nat, id: nat, requester: string)
    requires Initial(start) && k < |Run(c, start, steps).jobs|
    requires Run(c, start, steps).jobs[k].dedup == ReplayKey(id, requester)
    ensures var t := Run(c, start, steps).jobs;
      t[k].origin != Original ==> ReRuns(t, k, id, Replay)
  {
    var t := Run(c, start, steps).jobs;
    OriginsAreKeyed(c, start, steps, k);
    RunKeepsInv(c, start, steps);
    assert OriginKeyed(t[k]) && LineageOk(t, k);
    assert ReplayKey(id, requester) == ReplayStem(id) + requester;
    if t[k].origin == Replay {
      ReplayStemTells(t[k].parent.value, id, t[k].dedup);
    } else if t[k].origin == Retry {
      RetryKeyIsNoReplayKey(t[k].parent.value, id);
    }
  }

  /** In every run, the answer to a retry of the owner's failed job is an active retry of that
    * very job, with its work, if and only if it is not a job that was enqueued under the key
    * of a retry. */
  lemma {:induction false} RetryIsOfTheJobIff(c: Config, start: State, steps: seq<Step>, owner: string, id: nat, now: int)
    requires Initial(start)
    requires Owned(Run(c, start, steps).jobs, owner, id) && Run(c, start, steps).jobs[id].status == Failed
    ensures var t' := Run(c, start, steps + [RetryJob(owner, id, now)]).jobs;
      var reply := RetryOp(Run(c, start, steps).jobs, owner, id, now).1;
      && reply.Scheduled? && reply.id < |t'| && Active(t'[reply.id].status)
      && (ReRuns(t', reply.id, id, Retry) <==> t'[reply.id].origin != Original)
  {
    RunSnoc(c, start, steps, RetryJob(owner, id, now));
    RetryAnswer(Run(c, start, steps).jobs, owner, id, now);
    RetryRowTells(c, start, steps + [RetryJob(owner, id, now)], RetryOp(Run(c, start, steps).jobs, owner, id, now).1.id, id);
  }

  lemma {:induction false} ReplayIsOfTheJobIff(c: Config, start: State, steps: seq<Step>, id: nat, requester: string,
                                               now: int)
    requires Initial(start) && id < |Run(c, start, steps).jobs|
    ensures var t' := Run(c, start, steps + [ReplayJob(id, requester, now)]).jobs;
      var reply := ReplayOp(Run(c, start, steps).jobs, id, requester, now).1;
      && reply.Some? && reply.value < |t'| && Active(t'[reply.value].status)
      && (ReRuns(t', reply.value, id, Replay) <==> t'[reply.value].origin != Original)
  {
    RunSnoc(c, start, steps, ReplayJob(id, requester, now));
    ReplayAnswer(Run(c, start, steps).jobs, id, requester, now);
    ReplayRowTells(c, start, steps + [ReplayJob(id, requester, now)],
                   ReplayOp(Run(c, start, steps).jobs, id, requester, now).1.value, id, requester);
  }

  /** The step enqueues a job under a key of the form that re-runs have. */
  predicate Forges(step: Step) {
    step.Enqueue? && ("retry:" <= step.dedup || "replay:" <= step.dedup)
  }

  lemma {:induction false} OriginalsAreUnforged(c: Config, start: State, steps: seq<Step>, i: nat)
    requires Initial(start) && forall n | 0 <= n < |steps| :: !Forges(steps[n])
    requires i < |Run(c, start, steps).jobs| && Run(c, start, steps).jobs[i].origin == Original
    ensures var key := Run(c, start, steps).jobs[i].dedup;
      !("retry:" <= key) && !("replay:" <= key)
  {
    if steps == [] {
      assert false;
    } else {
      var init, step := steps[..|steps| - 1], steps[|steps| - 1];
      RunKeepsInv(c, start, init);
      RowComesFrom(c, Run(c, start, init), step, i);
      if i < |Run(c, start, init).jobs| {
        OriginalsAreUnforged(c, start, init, i);
      }
    }
  }

  /** When nobody enqueues under such a key, a retry always answers with a retry of the job. */
  lemma {:induction false} RetryMakesARetry(c: Config, start: State, steps: seq<Step>, owner: string, id: nat, now: int)
    requires Initial(start) && forall n | 0 <= n < |steps| :: !Forges(steps[n])
    requires Owned(Run(c, start, steps).jobs, owner, id) && Run(c, start, steps).jobs[id].status == Failed
    ensures var t' := Run(c, start, steps + [RetryJob(owner, id, now)]).jobs;
      var reply := RetryOp(Run(c, start, steps).jobs, owner, id, now).1;
      reply.Scheduled? && ReRuns(t', reply.id, id, Retry)
  {
    var more := steps + [RetryJob(owner, id, now)];
    RetryIsOfTheJobIff(c, start, steps, owner, id, now);
    RunSnoc(c, start, steps, RetryJob(owner, id, now));
    RetryAnswer(Run(c, start, steps).jobs, owner, id, now);
    var k := RetryOp(Run(c, start, steps).jobs, owner, id, now).1.id;
    assert RetryKey(id)[..6] == "retry:";
    if Run(c, start, more).jobs[k].origin == Original {
      OriginalsAreUnforged(c, start, more, k);
    }
  }

  lemma {:induction false} ReplayMakesAReplay(c: Config, start: State, steps: seq<Step>, id: nat, requester: string,
                                              now: int)
    requires Initial(start) && forall n | 0 <= n < |steps| :: !Forges(steps[n])
    requires id < |Run(c, start, steps).jobs|
    ensures var t' := Run(c, start, steps + [ReplayJob(id, requester, now)]).jobs;
      var reply := ReplayOp(Run(c, start, steps).jobs, id, requester, now).1;
      reply.Some? && ReRuns(t', reply.value, id, Replay)
  {
    var more := steps + [ReplayJob(id, requester, now)];
    ReplayIsOfTheJobIff(c, start, steps, id, requester, now);
    RunSnoc(c, start, steps, ReplayJob(id, requester, now));
    ReplayAnswer(Run(c, start, steps).jobs, id, requester, now);
    var k := ReplayOp(Run(c, start, steps).jobs, id, requester, now).1.value;
    assert ReplayKey(id, requester)[..7] == "replay:";
    if Run(c, start, more).jobs[k].origin == Original {
      OriginalsAreUnforged(c, start, more, k);
    }
  }

  // ---- a forged key ----

  const NO_HANDLERS := Config(Settings(1, false, map[], 1), {})

  /** A job fails for want of a handler, another is enqueued under the first one's retry key,
    * and the first is retried. */
  const FORGED := [
    Enqueue("o", "k", "", "", 0), Select(0), Update(0), Check1(0), Finish(0), Enqueue("o", "x", "", "retry:0", 1)]

  lemma {:induction false} FirstIsClaimed()
    ensures var j := NewJob("o", "k", "", "", None, Original, 0);
      Run(NO_HANDLERS, State([], [Idle]), FORGED[..3])
        == State([j.(status := Running, attempts := 1)], [Claimed(View(0, "k", 1))])
  {
    var start, t := State([], [Idle]), [NewJob("o", "k", "", "", None, Original, 0)];
    StepsTo(NO_HANDLERS, start, FORGED, 0);
    assert Run(NO_HANDLERS, start, FORGED[..1]) == State(t, [Idle]);
    StepsTo(NO_HANDLERS, start, FORGED, 1);
    ChooseIsBestClaimable(t, NO_HANDLERS.cfg);
    assert Claimable(t, 0, NO_HANDLERS.cfg);
    assert Run(NO_HANDLERS, start, FORGED[..2]) == State(t, [Selected(0)]);
    StepsTo(NO_HANDLERS, start, FORGED, 2);
  }

  lemma {:induction false} NobodyHandles(s: State, view: View)
    requires s.workers == [Claimed(view)] && view.id < |s.jobs| && s.jobs[view.id].status == Running
    ensures var s' := Apply(NO_HANDLERS, Apply(NO_HANDLERS, s, Check1(0)), Finish(0));
      s'.jobs == s.jobs[view.id := s.jobs[view.id].(status := Failed, result := NoHandler(view.kind))]
  {
  }

  lemma {:induction false} FirstHasFailed()
    ensures var t := Run(NO_HANDLERS, State([], [Idle]), FORGED[..5]).jobs;
      |t| == 1 && t[0].owner == "o" && t[0].status == Failed && t[0].dedup == ""
  {
    FirstIsClaimed();
    StepsTo(NO_HANDLERS, State([], [Idle]), FORGED, 3);
    StepsTo(NO_HANDLERS, State([], [Idle]), FORGED, 4);
    NobodyHandles(Run(NO_HANDLERS, State([], [Idle]), FORGED[..3]), View(0, "k", 1));
  }

  lemma {:induction false} SecondIsForged()
    ensures var t := Run(NO_HANDLERS, State([], [Idle]), FORGED).jobs;
      && |t| == 2 && t[0].owner == "o" && t[0].status == Failed
      && t[1] == NewJob("o", "x", "", "retry:0", None, Original, 1)
  {
    FirstHasFailed();
    StepsTo(NO_HANDLERS, State([], [Idle]), FORGED, 5);
    assert FORGED[..6] == FORGED;
    EnqueueAnswer(Run(NO_HANDLERS, State([], [Idle]), FORGED[..5]).jobs, "o", "x", "", "retry:0", 1);
  }

  lemma {:induction false} RetryFindsForged(t: seq<Job>)
    requires |t| == 2 && t[0].owner == "o" && t[0].status == Failed
    requires t[1] == NewJob("o", "x", "", "retry:0", None, Original, 1)
    ensures RetryOp(t, "o", 0, 2) == (t, Scheduled(1))
  {
    assert RetryKey(0) == "retry:0";
    RetryAnswer(t, "o", 0, 2);
  }

  /** The retry of job 0 answers with job 1, which is no retry. */
  lemma {:induction false} ForgedKeyStopsRetry()
    ensures var t := Run(NO_HANDLERS, State([], [Idle]), FORGED).jobs;
      && |t| == 2 && t[0].owner == "o" && t[0].status == Failed
      && RetryOp(t, "o", 0, 2) == (t, Scheduled(1)) && t[1].origin == Original
  {
    SecondIsForged();
    RetryFindsForged(Run(NO_HANDLERS, State([], [Idle]), FORGED).jobs);
  }
}
