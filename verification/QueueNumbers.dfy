/** The queue's order and limits in plain terms: which job a claim takes, how many run at
  * once, and how often one is executed. */
module QueueNumbers {
  import opened Wrappers
  import opened JobPolicy
  import opened JobTable
  import opened QueueProtocol
  import opened QueueSafety
  import opened QueueAtomic

  // ---- the claim order ----

  datatype Rank = Light | Generation | Checking | Operator

  /** Users' light work, then file generation, then validation, then operators' replays. */
  function RankOf(kind: string, origin: Origin): Rank {
    if origin == Replay then Operator
    else if kind in {"startup_validation", "runtime_validation"} then Checking
    else if kind == "artifact" then Generation
    else Light
  }

  predicate GoesBefore(a: Rank, b: Rank) {
    match a
    case Light => !b.Light?
    case Generation => b.Checking? || b.Operator?
    case Checking => b.Operator?
    case Operator => false
  }

  predicate Ranked(j: Job) {
    j.priority == Priority(ClassFor(j.kind, j.origin))
  }

  lemma {:induction false} PriorityIsRank(a: Job, b: Job)
    requires Ranked(a) && Ranked(b)
    ensures a.priority > b.priority <==> GoesBefore(RankOf(a.kind, a.origin), RankOf(b.kind, b.origin))
    ensures a.priority == b.priority <==> RankOf(a.kind, a.origin) == RankOf(b.kind, b.origin)
  {
  }

  lemma {:induction false} JobsAreRanked(c: Config, start: State, steps: seq<Step>, i: nat)
    requires Initial(start) && i < |Run(c, start, steps).jobs|
    ensures Ranked(Run(c, start, steps).jobs[i])
  {
    RunKeepsInv(c, start, steps);
    assert RowOk(Run(c, start, steps).jobs[i], MaxAttempts(c.cfg));
  }

  /** In every reachable state with scheduling on, a claim takes a job that no claimable one
    * goes before by its kind of work, and of those of the same rank the oldest; without
    * scheduling it takes the oldest of all. */
  lemma {:induction false} ClaimOrder(c: Config, start: State, steps: seq<Step>, i: nat)
    requires Initial(start)
    requires var t := Run(c, start, steps).jobs;
      Choose(t, c.cfg).Some? && Claimable(t, i, c.cfg) && Choose(t, c.cfg) != Some(i)
    ensures var t := Run(c, start, steps).jobs; var id := Choose(t, c.cfg).value;
      && Claimable(t, id, c.cfg)
      && var (mine, other) := (RankOf(t[id].kind, t[id].origin), RankOf(t[i].kind, t[i].origin));
      && (c.cfg.schedulingEnabled ==> !GoesBefore(other, mine))
      && (!c.cfg.schedulingEnabled || mine == other ==>
        t[id].createdAt < t[i].createdAt || (t[id].createdAt == t[i].createdAt && id < i))
  {
    var t := Run(c, start, steps).jobs;
    ChooseIsBestClaimable(t, c.cfg);
    var id := Choose(t, c.cfg).value;
    assert Ahead(t, id, i, c.cfg.schedulingEnabled);
    JobsAreRanked(c, start, steps, id);
    JobsAreRanked(c, start, steps, i);
    PriorityIsRank(t[id], t[i]);
    PriorityIsRank(t[i], t[id]);
  }

  // ---- the caps in numbers ----

  /** How many jobs of a class may run at once; nothing says that any number may. */
  function ClassLimit(x: ExecClass, cfg: Settings): Option<nat> {
    if x in cfg.overrides then if cfg.overrides[x] > 0 then Some(cfg.overrides[x]) else None
    else if x == Artifact then Some(2)
    else if x == Interactive then None
    else Some(1)
  }

  function AtLeastOne(n: int): nat { if n < 1 then 1 else n }

  /** A queued job may be claimed exactly when its owner runs fewer jobs than the owner's limit
    * and its class, if it has a limit, runs fewer than that. */
  lemma {:induction false} ClaimableInNumbers(t: Table, i: nat, cfg: Settings)
    requires i < |t| && t[i].execClass.Some? && cfg.schedulingEnabled
    ensures var x := t[i].execClass.value;
      Claimable(t, i, cfg) <==>
        && t[i].status == Queued
        && InFlight(t, OwnerSlot(t[i].owner)) < AtLeastOne(cfg.ownerCap)
        && (ClassLimit(x, cfg).Some? ==> InFlight(t, ClassSlot(x)) < ClassLimit(x, cfg).value)
  {
  }

  /** With claims as one step, no owner and no limited class ever runs more than its number. */
  lemma {:induction false} CapsInNumbers(c: Config, start: State, moves: seq<Move>, owner: string, x: ExecClass)
    requires Initial(start) && c.cfg.schedulingEnabled
    ensures var t := Play(c, start, moves).jobs;
      && InFlight(t, OwnerSlot(owner)) <= AtLeastOne(c.cfg.ownerCap)
      && (ClassLimit(x, c.cfg).Some? ==> InFlight(t, ClassSlot(x)) <= ClassLimit(x, c.cfg).value)
  {
    CapsHold(c, start, moves);
    var t := Play(c, start, moves).jobs;
    assert SlotCap(OwnerSlot(owner), c.cfg) > 0 ==> InFlight(t, OwnerSlot(owner)) <= SlotCap(OwnerSlot(owner), c.cfg);
    assert SlotCap(ClassSlot(x), c.cfg) > 0 ==> InFlight(t, ClassSlot(x)) <= SlotCap(ClassSlot(x), c.cfg);
  }

  // ---- the retry budget in numbers ----

  /** Over every run a job is executed at most as often as configured, and at least one
    * execution is allowed; a job that failed by its handler's error was executed exactly
    * that often. */
  lemma {:induction false} ExecutionsInNumbers(c: Config, start: State, steps: seq<Step>, id: nat)
    requires Initial(start)
    ensures Executions(c, start, steps, id) <= AtLeastOne(c.cfg.maxAttempts)
    ensures var t := Run(c, start, steps).jobs;
      id < |t| && t[id].status == Failed && t[id].result.HandlerError? ==>
        Executions(c, start, steps, id) == AtLeastOne(c.cfg.maxAttempts)
  {
    AttemptsCountExecutions(c, start, steps, id);
    RunKeepsInv(c, start, steps);
    var t := Run(c, start, steps).jobs;
    assert id < |t| ==> RowOk(t[id], MaxAttempts(c.cfg));
  }
}
