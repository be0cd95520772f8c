/** The job table and what one database session of the queue does to it. Rows are never
  * deleted, so a job's id is its position and parent links point backwards. */
module JobTable {
  import opened Wrappers
  import opened JobPolicy

  datatype Status =
    | Queued | Running | AwaitingApproval | Validating | Repairing
    | Completed | Failed | CancelRequested | Canceled

  /** The stored outcome: a handler's value, a handler's error, or one of the two
    * markers the queue writes itself. */
  datatype Result =
    | NoResult
    | Value(value: string)
    | HandlerError(error: string)
    | NoHandler(kind: string)
    | CanceledMarker

  datatype Job = Job(
    owner: string, kind: string, payload: string, status: Status,
    execClass: Option<ExecClass>, priority: int, attempts: nat,
    dedup: string, parent: Option<nat>, origin: Origin, createdAt: int, result: Result)

  type Table = seq<Job>

  predicate Interruptible(s: Status) {
    s in {Running, Validating, Repairing, AwaitingApproval}
  }

  predicate Active(s: Status) {
    s in {Queued, Running, AwaitingApproval, Validating, Repairing, CancelRequested}
  }

  predicate Terminal(s: Status) {
    s in {Completed, Failed, Canceled}
  }

  // ---- enqueue ----

  /** The first active row an idempotent enqueue would collapse into. */
  function FindActive(t: Table, owner: string, dedup: string): (r: Option<nat>)
    ensures r.Some? ==> r.value < |t| && SameWork(t[r.value], owner, dedup)
    ensures r.None? ==> forall i :: 0 <= i < |t| ==> !SameWork(t[i], owner, dedup)
  {
    if t == [] then None
    else
      var rest := FindActive(t[..|t| - 1], owner, dedup);
      if rest.Some? then rest
      else if SameWork(t[|t| - 1], owner, dedup) then Some(|t| - 1)
      else None
  }

  predicate SameWork(j: Job, owner: string, dedup: string) {
    j.owner == owner && j.dedup == dedup && Active(j.status)
  }

  function NewJob(owner: string, kind: string, payload: string, dedup: string,
                  parent: Option<nat>, origin: Origin, now: int): Job {
    var c := ClassFor(kind, origin);
    Job(owner, kind, payload, Queued, Some(c), Priority(c), 0, dedup, parent, origin, now, NoResult)
  }

  /** Refuses an empty owner or kind; an empty dedup key opts out of collapsing. */
  function EnqueueSession(t: Table, owner: string, kind: string, payload: string, dedup: string, now: int)
    : (Table, Option<nat>)
  {
    if owner == "" || kind == "" then (t, None)
    else
      var existing := if dedup == "" then None else FindActive(t, owner, dedup);
      if existing.Some? then (t, existing)
      else (t + [NewJob(owner, kind, payload, dedup, None, Original, now)], Some(|t|))
  }

  function CloneSession(t: Table, owner: string, kind: string, payload: string,
                        parent: nat, origin: Origin, dedup: string, now: int): (Table, nat)
  {
    var existing := FindActive(t, owner, dedup);
    if existing.Some? then (t, existing.value)
    else (t + [NewJob(owner, kind, payload, dedup, Some(parent), origin, now)], |t|)
  }

  function Digits(n: nat): string {
    if n < 10 then ["0123456789"[n]] else Digits(n / 10) + ["0123456789"[n % 10]]
  }

  function RetryKey(id: nat): string { "retry:" + Digits(id) }

  function ReplayKey(id: nat, requester: string): string { "replay:" + Digits(id) + ":" + requester }

  datatype RetryReply = NotFound | NotRetryable(status: Status) | Scheduled(id: nat)

  function RetryOp(t: Table, owner: string, id: nat, now: int): (Table, RetryReply) {
    if id >= |t| || t[id].owner != owner then (t, NotFound)
    else if t[id].status != Failed then (t, NotRetryable(t[id].status))
    else
      var (t', child) := CloneSession(t, owner, t[id].kind, t[id].payload, id, Retry, RetryKey(id), now);
      (t', Scheduled(child))
  }

  function ReplayOp(t: Table, id: nat, requester: string, now: int): (Table, Option<nat>) {
    if id >= |t| then (t, None)
    else
      var j := t[id];
      var (t', child) := CloneSession(t, j.owner, j.kind, j.payload, id, Replay, ReplayKey(id, requester), now);
      (t', Some(child))
  }

  // ---- claim ----

  /** What a cap bounds: the rows of one class, or the rows of one owner. */
  datatype Slot = ClassSlot(c: ExecClass) | OwnerSlot(owner: string)

  predicate InSlot(j: Job, slot: Slot) {
    match slot
    case ClassSlot(c) => j.execClass == Some(c)
    case OwnerSlot(owner) => j.owner == owner
  }

  /** A row counts against a cap only while interruptible; `CancelRequested` does not. */
  predicate Occupies(j: Job, slot: Slot) {
    Interruptible(j.status) && InSlot(j, slot)
  }

  function InFlight(t: Table, slot: Slot): nat {
    if t == [] then 0
    else InFlight(t[..|t| - 1], slot) + if Occupies(t[|t| - 1], slot) then 1 else 0
  }

  /** Zero means unbounded. */
  function SlotCap(slot: Slot, cfg: Settings): nat {
    match slot
    case ClassSlot(c) => ConcurrencyCap(c, cfg)
    case OwnerSlot(_) => PerOwnerCap(cfg)
  }

  predicate Full(t: Table, slot: Slot, cfg: Settings) {
    SlotCap(slot, cfg) > 0 && InFlight(t, slot) >= SlotCap(slot, cfg)
  }

  /** The owner of the row, or its class, has no place left. */
  predicate HeldBack(t: Table, i: nat, cfg: Settings)
    requires i < |t|
  {
    || Full(t, OwnerSlot(t[i].owner), cfg)
    || (t[i].execClass.Some? && Full(t, ClassSlot(t[i].execClass.value), cfg))
  }

  /** A queued row that neither its class cap nor its owner's cap holds back. */
  predicate Claimable(t: Table, i: nat, cfg: Settings) {
    i < |t| && t[i].status == Queued && (cfg.schedulingEnabled ==> !HeldBack(t, i, cfg))
  }

  /** The claim order: priority first when scheduling is on, then age. */
  predicate Before(a: Job, b: Job, byPriority: bool) {
    if byPriority && a.priority != b.priority then a.priority > b.priority
    else a.createdAt < b.createdAt
  }

  predicate Ahead(t: Table, i: nat, j: nat, byPriority: bool)
    requires i < |t| && j < |t|
  {
    Before(t[i], t[j], byPriority) || (!Before(t[j], t[i], byPriority) && i < j)
  }

  predicate Admits(j: Job, blockedClasses: set<ExecClass>, blockedOwners: set<string>) {
    j.status == Queued && j.owner !in blockedOwners &&
    (j.execClass.None? || j.execClass.value !in blockedClasses)
  }

  /** The claim's ordered query: the first admitted row, the older row on a full tie. */
  function PickQueued(t: Table, blockedClasses: set<ExecClass>, blockedOwners: set<string>, byPriority: bool)
    : (r: Option<nat>)
    ensures r.Some? ==> r.value < |t| && Admits(t[r.value], blockedClasses, blockedOwners)
    ensures r.Some? ==>
      forall j | 0 <= j < |t| && j != r.value && Admits(t[j], blockedClasses, blockedOwners) ::
        Ahead(t, r.value, j, byPriority)
    ensures r.None? ==> forall j :: 0 <= j < |t| ==> !Admits(t[j], blockedClasses, blockedOwners)
  {
    if t == [] then None
    else
      var n := |t| - 1;
      var best := PickQueued(t[..n], blockedClasses, blockedOwners, byPriority);
      if Admits(t[n], blockedClasses, blockedOwners) && (best.None? || Before(t[n], t[best.value], byPriority))
      then Some(n)
      else best
  }

  function FullClasses(t: Table, cfg: Settings): set<ExecClass> {
    set c: ExecClass | Full(t, ClassSlot(c), cfg)
  }

  function FullOwners(t: Table, cfg: Settings): set<string> {
    set j | j in t && Full(t, OwnerSlot(j.owner), cfg) :: j.owner
  }

  function Choose(t: Table, cfg: Settings): Option<nat> {
    if cfg.schedulingEnabled then PickQueued(t, FullClasses(t, cfg), FullOwners(t, cfg), true)
    else PickQueued(t, {}, {}, false)
  }

  /** The guarded update: it takes effect only on a row that is still queued. */
  function MarkRunning(t: Table, id: nat): (Table, bool) {
    if id < |t| && t[id].status == Queued
    then (t[id := t[id].(status := Running, attempts := t[id].attempts + 1)], true)
    else (t, false)
  }

  /** The query the claim issues means exactly this: nothing when no queued row is
    * claimable, otherwise the claimable row that is ahead of every other. */
  lemma {:induction false} ChooseIsBestClaimable(t: Table, cfg: Settings)
    ensures Choose(t, cfg).None? <==> forall i :: 0 <= i < |t| ==> !Claimable(t, i, cfg)
    ensures Choose(t, cfg).Some? ==>
      var best := Choose(t, cfg).value;
      && Claimable(t, best, cfg)
      && forall i | 0 <= i < |t| && i != best && Claimable(t, i, cfg) ::
        Ahead(t, best, i, cfg.schedulingEnabled)
  {
    var classes := if cfg.schedulingEnabled then FullClasses(t, cfg) else {};
    var owners := if cfg.schedulingEnabled then FullOwners(t, cfg) else {};
    forall i | 0 <= i < |t|
      ensures Claimable(t, i, cfg) <==> Admits(t[i], classes, owners)
    {
      assert t[i] in t;
    }
  }

  // ---- transitions and cancellation ----

  function Transition(t: Table, id: nat, status: Status, result: Option<Result>): Table {
    if id >= |t| then t
    else if Terminal(t[id].status) && status != t[id].status then t
    else t[id := t[id].(status := status, result := if result.Some? then result.value else t[id].result)]
  }

  predicate IsCancelled(t: Table, id: nat) {
    id < |t| && t[id].status in {CancelRequested, Canceled}
  }

  datatype CancelReply = CancelNotFound | AlreadyFinished(status: Status) | CancelOk(status: Status)

  function CancelSession(t: Table, owner: string, id: nat): (Table, CancelReply) {
    if id >= |t| || t[id].owner != owner then (t, CancelNotFound)
    else
      var s := t[id].status;
      if Terminal(s) then (t, AlreadyFinished(s))
      else if s == CancelRequested then (t, CancelOk(CancelRequested))
      else if s == Queued then (t[id := t[id].(status := Canceled)], CancelOk(Canceled))
      else (t[id := t[id].(status := CancelRequested)], CancelOk(CancelRequested))
  }
}
