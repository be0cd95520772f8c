/** The queue with each claim, and each checkpoint plus the transition after it, taken as
  * one move. Every move is a short run of session steps, so what holds over session runs
  * holds here too; the caps and the promise of a cancel hold only here. */
module QueueAtomic {
  import opened Wrappers
  import opened JobPolicy
  import opened JobTable
  import opened QueueProtocol

  datatype Move =
    | Client(step: Step)
    | Claim(w: nat)
    | Checkpoint(w: nat)
    | Mark(w: nat, status: Status)
    | Conclude(w: nat, end: HandlerEnd)

  /** How an execution ends: a cancel seen at the end wins over everything; otherwise a
    * value completes, an error re-queues while budget remains and fails when it is spent. */
  function Verdict(c: Config, view: View, end: HandlerEnd, cancelled: bool): (Status, Result) {
    if cancelled || end.Bails? then (Canceled, CanceledMarker)
    else if end.Returns? then (Completed, Value(end.value))
    else if view.attempts < MaxAttempts(c.cfg) then (Queued, NoResult)
    else (Failed, HandlerError(end.error))
  }

  function Settle(s: State, w: nat, status: Status, result: Result, pc: Pc): State
    requires w < |s.workers| && Holding(s.workers[w])
  {
    var id := s.workers[w].view.id;
    if id >= |s.jobs| then s
    else State(s.jobs[id := s.jobs[id].(status := status, result := result)], s.workers[w := pc])
  }

  function Do(c: Config, s: State, m: Move): State {
    if m.Client? then if ByClient(m.step) then Apply(c, s, m.step) else s
    else if m.w >= |s.workers| then s
    else
      var pc := s.workers[m.w];
      match m
      case Claim(w) =>
        if !pc.Idle? || Choose(s.jobs, c.cfg).None? then s
        else
          var id := Choose(s.jobs, c.cfg).value;
          var t := MarkRunning(s.jobs, id).0;
          if id < |t| then State(t, s.workers[w := Claimed(View(id, t[id].kind, t[id].attempts))]) else s
      case Checkpoint(w) =>
        if !pc.Claimed? then s
        else if IsCancelled(s.jobs, pc.view.id) then Settle(s, w, Canceled, CanceledMarker, Idle)
        else if pc.view.kind !in c.handlers then Settle(s, w, Failed, NoHandler(pc.view.kind), Idle)
        else WithPc(s, w, Working(pc.view))
      case Mark(w, status) =>
        if !pc.Working? || !Interruptible(status) then s
        else if IsCancelled(s.jobs, pc.view.id) then Settle(s, w, Canceled, CanceledMarker, Idle)
        else Settle(s, w, status, NoResult, pc)
      case Conclude(w, end) =>
        if !pc.Working? then s
        else
          var verdict := Verdict(c, pc.view, end, IsCancelled(s.jobs, pc.view.id));
          Settle(s, w, verdict.0, verdict.1, Idle)
      case Client(_) => s
  }

  function Play(c: Config, s: State, moves: seq<Move>): State {
    if moves == [] then s else Do(c, Play(c, s, moves[..|moves| - 1]), moves[|moves| - 1])
  }

  // ---- every move is a run of session steps ----

  lemma {:induction false} Run2(c: Config, s: State, a: Step, b: Step)
    ensures Run(c, s, [a]) == Apply(c, s, a)
    ensures Run(c, s, [a, b]) == Apply(c, Apply(c, s, a), b)
  {
    assert [a, b][..1] == [a];
    assert Run(c, s, []) == s;
  }

  /** What a move needs to know: the worker's own bookkeeping and the row it holds. */
  predicate Ready(c: Config, s: State, w: nat) {
    w < |s.workers| ==>
      var pc := s.workers[w];
      && (pc.Idle? || pc.Claimed? || pc.Working?)
      && WorkerOk(s.jobs, pc, MaxAttempts(c.cfg))
      && (Holding(pc) ==> pc.view.attempts <= MaxAttempts(c.cfg) && s.jobs[pc.view.id].result == NoResult)
  }

  lemma {:induction false} ClaimIsRun(c: Config, s: State, w: nat)
    requires Ready(c, s, w)
    ensures Run(c, s, [Select(w), Update(w)]) == Do(c, s, Claim(w))
  {
    Run2(c, s, Select(w), Update(w));
    if w < |s.workers| && s.workers[w].Idle? && Choose(s.jobs, c.cfg).Some? {
      var id := Choose(s.jobs, c.cfg).value;
      ChooseIsBestClaimable(s.jobs, c.cfg);
      var pc := Claimed(View(id, s.jobs[id].kind, s.jobs[id].attempts + 1));
      assert s.workers[w := Selected(id)][w := pc] == s.workers[w := pc];
    }
  }

  lemma {:induction false} FinishDoes(c: Config, s: State, w: nat, pc: Pc)
    requires w < |s.workers| && pc.Finishing?
    ensures Apply(c, WithPc(s, w, pc), Finish(w)) ==
      State(Transition(s.jobs, pc.view.id, pc.status, pc.result), s.workers[w := Idle])
  {
    assert s.workers[w := pc][w := Idle] == s.workers[w := Idle];
  }

  lemma {:induction false} LookDoes(c: Config, s: State, w: nat, pc: Pc)
    requires w < |s.workers| && Holding(pc) && !pc.Claimed? && !pc.Working?
    ensures Apply(c, WithPc(s, w, pc), Look(w)) == WithPc(s, w, AfterLook(c, pc, IsCancelled(s.jobs, pc.view.id)))
  {
    var after := AfterLook(c, pc, IsCancelled(s.jobs, pc.view.id));
    assert s.workers[w := pc][w := after] == s.workers[w := after];
  }

  lemma {:induction false} CheckpointIsRun(c: Config, s: State, w: nat)
    requires Ready(c, s, w)
    ensures Run(c, s, [Check1(w), Finish(w)]) == Do(c, s, Checkpoint(w))
  {
    Run2(c, s, Check1(w), Finish(w));
    if w < |s.workers| && s.workers[w].Claimed? {
      var view := s.workers[w].view;
      if IsCancelled(s.jobs, view.id) {
        FinishDoes(c, s, w, Stopped(view));
      } else if view.kind !in c.handlers {
        FinishDoes(c, s, w, Finishing(view, Failed, Some(NoHandler(view.kind))));
      }
    }
  }

  /** A mark first asks whether it was cancelled, and bails out when it was. */
  function MarkSteps(s: State, w: nat, status: Status): seq<Step> {
    if w < |s.workers| && s.workers[w].Working? && Interruptible(status) && IsCancelled(s.jobs, s.workers[w].view.id)
    then [HandlerStops(w, Bails), Finish(w)]
    else [HandlerMark(w, status)]
  }

  lemma {:induction false} CancelledMarkIsRun(c: Config, s: State, w: nat, status: Status)
    requires Ready(c, s, w) && w < |s.workers| && s.workers[w].Working? && Interruptible(status)
    requires IsCancelled(s.jobs, s.workers[w].view.id)
    ensures Run(c, s, [HandlerStops(w, Bails), Finish(w)]) == Do(c, s, Mark(w, status))
  {
    Run2(c, s, HandlerStops(w, Bails), Finish(w));
    FinishDoes(c, s, w, Stopped(s.workers[w].view));
  }

  lemma {:induction false} MarkIsRun(c: Config, s: State, w: nat, status: Status)
    requires Ready(c, s, w)
    ensures Run(c, s, MarkSteps(s, w, status)) == Do(c, s, Mark(w, status))
  {
    if w < |s.workers| && s.workers[w].Working? && Interruptible(status) && IsCancelled(s.jobs, s.workers[w].view.id) {
      CancelledMarkIsRun(c, s, w, status);
    } else {
      Run2(c, s, HandlerMark(w, status), Finish(w));
      assert w < |s.workers| ==> s.workers[w := s.workers[w]] == s.workers;
    }
  }

  /** The pc a worker decides on when no one interferes after its handler stops. */
  function Decided(c: Config, s: State, view: View, end: HandlerEnd): Pc {
    var cancelled := IsCancelled(s.jobs, view.id);
    AfterLook(c, AfterLook(c, AfterEnd(view, end), cancelled), cancelled)
  }

  lemma {:induction false} DecidedIsVerdict(c: Config, s: State, w: nat, end: HandlerEnd)
    requires Ready(c, s, w) && w < |s.workers| && s.workers[w].Working?
    ensures var pc := Decided(c, s, s.workers[w].view, end);
      && pc.Finishing?
      && Do(c, s, Conclude(w, end)) ==
        State(Transition(s.jobs, pc.view.id, pc.status, pc.result), s.workers[w := Idle])
  {
  }

  lemma {:induction false} StopsAndLooks(c: Config, s: State, w: nat, end: HandlerEnd)
    requires w < |s.workers| && s.workers[w].Working?
    ensures var view := s.workers[w].view;
      Run(c, s, [HandlerStops(w, end), Look(w)]) ==
        WithPc(s, w, AfterLook(c, AfterEnd(view, end), IsCancelled(s.jobs, view.id)))
  {
    Run2(c, s, HandlerStops(w, end), Look(w));
    LookDoes(c, s, w, AfterEnd(s.workers[w].view, end));
  }

  lemma {:induction false} ConcludeIsRun(c: Config, s: State, w: nat, end: HandlerEnd)
    requires Ready(c, s, w)
    ensures Run(c, s, [HandlerStops(w, end), Look(w)] + [Look(w), Finish(w)]) == Do(c, s, Conclude(w, end))
  {
    RunAppend(c, s, [HandlerStops(w, end), Look(w)], [Look(w), Finish(w)]);
    if w < |s.workers| && s.workers[w].Working? {
      var view := s.workers[w].view;
      var pc := AfterLook(c, AfterEnd(view, end), IsCancelled(s.jobs, view.id));
      StopsAndLooks(c, s, w, end);
      Run2(c, WithPc(s, w, pc), Look(w), Finish(w));
      LookDoes(c, s, w, pc);
      DecidedIsVerdict(c, s, w, end);
      FinishDoes(c, s, w, Decided(c, s, view, end));
    } else {
      Run2(c, s, HandlerStops(w, end), Look(w));
      Run2(c, s, Look(w), Finish(w));
    }
  }

  function StepsOf(s: State, m: Move): seq<Step> {
    match m
    case Client(step) => if ByClient(step) then [step] else []
    case Claim(w) => [Select(w), Update(w)]
    case Checkpoint(w) => [Check1(w), Finish(w)]
    case Mark(w, status) => MarkSteps(s, w, status)
    case Conclude(w, end) => [HandlerStops(w, end), Look(w)] + [Look(w), Finish(w)]
  }

  lemma {:induction false} MoveIsRun(c: Config, s: State, m: Move)
    requires !m.Client? ==> Ready(c, s, m.w)
    ensures Run(c, s, StepsOf(s, m)) == Do(c, s, m)
  {
    match m
    case Client(step) => Run2(c, s, step, step);
    case Claim(w) => ClaimIsRun(c, s, w);
    case Checkpoint(w) => CheckpointIsRun(c, s, w);
    case Mark(w, status) => MarkIsRun(c, s, w, status);
    case Conclude(w, end) => ConcludeIsRun(c, s, w, end);
  }

  /** Between moves every worker is idle, about to check, or inside its handler. */
  predicate Settled(s: State) {
    forall w | 0 <= w < |s.workers| ::
      s.workers[w].Idle? || s.workers[w].Claimed? || s.workers[w].Working?
  }

  ghost predicate MoveInv(c: Config, s: State) {
    Inv(c, s) && Settled(s)
  }

  lemma {:induction false} ReadyHere(c: Config, s: State, w: nat)
    requires MoveInv(c, s)
    ensures Ready(c, s, w)
  {
    if w < |s.workers| && Holding(s.workers[w]) {
      assert WorkerOk(s.jobs, s.workers[w], MaxAttempts(c.cfg));
      assert RowOk(s.jobs[s.workers[w].view.id], MaxAttempts(c.cfg));
    }
  }

  lemma {:induction false} MoveStaysSettled(c: Config, s: State, m: Move)
    requires Settled(s) && (m.Client? ==> TableOk(s.jobs, MaxAttempts(c.cfg)))
    ensures Settled(Do(c, s, m))
  {
    if m.Client? && ByClient(m.step) {
      ClientStepIsCalm(c, s, m.step);
    }
  }

  lemma {:induction false} MoveKeepsInv(c: Config, s: State, m: Move)
    requires MoveInv(c, s)
    ensures MoveInv(c, Do(c, s, m)) && Evolves(s.jobs, Do(c, s, m).jobs)
  {
    if !m.Client? {
      ReadyHere(c, s, m.w);
    }
    MoveIsRun(c, s, m);
    RunKeepsInv(c, s, StepsOf(s, m));
    MoveStaysSettled(c, s, m);
  }

  /** Every sequence of moves is some run of session steps. */
  lemma {:induction false} PlayIsRun(c: Config, start: State, moves: seq<Move>)
    requires Initial(start)
    ensures MoveInv(c, Play(c, start, moves))
    ensures exists steps :: Run(c, start, steps) == Play(c, start, moves)
  {
    if moves == [] {
      assert Run(c, start, []) == start;
    } else {
      var init, m := moves[..|moves| - 1], moves[|moves| - 1];
      var s := Play(c, start, init);
      PlayIsRun(c, start, init);
      var steps :| Run(c, start, steps) == s;
      if !m.Client? {
        ReadyHere(c, s, m.w);
      }
      MoveIsRun(c, s, m);
      RunAppend(c, start, steps, StepsOf(s, m));
      MoveKeepsInv(c, s, m);
    }
  }

  // ---- cancellation is honest ----

  /** Once a cancel is acknowledged the row can only stay cancel-requested or become
    * canceled, and the handler's outcome is never stored. */
  predicate HonorsCancel(j: Job) {
    j.status == CancelRequested || (j.status == Canceled && j.result == CanceledMarker)
  }

  /** A worker's move either leaves a row alone, claims it from the queue, or settles the row
    * that worker holds. */
  lemma {:induction false} WorkerMoveShape(c: Config, s: State, m: Move, id: nat)
    requires !m.Client? && Ready(c, s, m.w) && id < |s.jobs|
    ensures |Do(c, s, m).jobs| == |s.jobs|
    ensures var j, j' := s.jobs[id], Do(c, s, m).jobs[id];
      || j' == j
      || (m.Claim? && j.status == Queued && Choose(s.jobs, c.cfg) == Some(id)
          && j' == j.(status := Running, attempts := j.attempts + 1))
      || (!m.Claim? && InHand(j.status) && j' == j.(status := j'.status, result := j'.result)
          && (Interruptible(j'.status) ==> Interruptible(j.status))
          && (j.status == CancelRequested ==> j'.status == Canceled && j'.result == CanceledMarker))
  {
  }

  lemma {:induction false} MoveHonorsCancel(c: Config, s: State, m: Move, id: nat)
    requires MoveInv(c, s) && id < |s.jobs| && HonorsCancel(s.jobs[id])
    ensures id < |Do(c, s, m).jobs| && HonorsCancel(Do(c, s, m).jobs[id])
  {
    MoveKeepsInv(c, s, m);
    if m.Client? {
      if ByClient(m.step) {
        ClientStepIsCalm(c, s, m.step);
      }
    } else {
      ReadyHere(c, s, m.w);
      WorkerMoveShape(c, s, m, id);
    }
  }

  lemma {:induction false} CancelIsHonest(c: Config, s: State, moves: seq<Move>, id: nat)
    requires MoveInv(c, s) && id < |s.jobs| && HonorsCancel(s.jobs[id])
    ensures MoveInv(c, Play(c, s, moves))
    ensures id < |Play(c, s, moves).jobs| && HonorsCancel(Play(c, s, moves).jobs[id])
  {
    if moves == [] {
    } else {
      var init := moves[..|moves| - 1];
      CancelIsHonest(c, s, init, id);
      MoveKeepsInv(c, Play(c, s, init), moves[|moves| - 1]);
      MoveHonorsCancel(c, Play(c, s, init), moves[|moves| - 1], id);
    }
  }

  // ---- the caps ----

  lemma {:induction false} CountNeverGrows(t: Table, t': Table, slot: Slot)
    requires |t| <= |t'|
    requires forall i | 0 <= i < |t| && Occupies(t'[i], slot) :: Occupies(t[i], slot)
    requires forall i | |t| <= i < |t'| :: !Occupies(t'[i], slot)
    ensures InFlight(t', slot) <= InFlight(t, slot)
    decreases |t'|
  {
    if t' == [] {
    } else {
      var n := |t'| - 1;
      if n >= |t| {
        CountNeverGrows(t, t'[..n], slot);
      } else {
        CountNeverGrows(t[..n], t'[..n], slot);
      }
    }
  }

  lemma {:induction false} CountOneMore(t: Table, i: nat, j: Job, slot: Slot)
    requires i < |t| && !Occupies(t[i], slot)
    ensures InFlight(t[i := j], slot) == InFlight(t, slot) + if Occupies(j, slot) then 1 else 0
  {
    var n := |t| - 1;
    if i == n {
      assert t[i := j][..n] == t[..n];
    } else {
      assert t[i := j][..n] == t[..n][i := j];
      CountOneMore(t[..n], i, j, slot);
    }
  }

  /** No bounded class and no owner has more counted rows than its cap. */
  ghost predicate WithinCaps(t: Table, cfg: Settings) {
    forall slot: Slot | SlotCap(slot, cfg) > 0 :: InFlight(t, slot) <= SlotCap(slot, cfg)
  }

  lemma {:induction false} ClaimKeepsCap(t: Table, cfg: Settings, slot: Slot)
    requires cfg.schedulingEnabled && Choose(t, cfg).Some?
    requires 0 < SlotCap(slot, cfg) && InFlight(t, slot) <= SlotCap(slot, cfg)
    ensures InFlight(MarkRunning(t, Choose(t, cfg).value).0, slot) <= SlotCap(slot, cfg)
  {
    ChooseIsBestClaimable(t, cfg);
    var id := Choose(t, cfg).value;
    assert Claimable(t, id, cfg);
    CountOneMore(t, id, MarkRunning(t, id).0[id], slot);
  }

  lemma {:induction false} OnlyClaimsStartWork(c: Config, s: State, m: Move, slot: Slot)
    requires MoveInv(c, s) && !m.Claim?
    ensures InFlight(Do(c, s, m).jobs, slot) <= InFlight(s.jobs, slot)
  {
    var t' := Do(c, s, m).jobs;
    if m.Client? {
      if ByClient(m.step) {
        ClientStepIsCalm(c, s, m.step);
        CalmStartsNothing(s.jobs, t', slot);
      }
    } else {
      ReadyHere(c, s, m.w);
      forall i | 0 <= i < |s.jobs|
        ensures |t'| == |s.jobs| && (Occupies(t'[i], slot) ==> Occupies(s.jobs[i], slot))
      {
        WorkerMoveShape(c, s, m, i);
      }
      if s.jobs != [] {
        CountNeverGrows(s.jobs, t', slot);
      }
    }
  }

  lemma {:induction false} CalmStartsNothing(t: Table, t': Table, slot: Slot)
    requires Calm(t, t')
    ensures InFlight(t', slot) <= InFlight(t, slot)
  {
    forall i | 0 <= i < |t| && Occupies(t'[i], slot) ensures Occupies(t[i], slot) {
      assert RowEvolves(t[i], t'[i]);
    }
    CountNeverGrows(t, t', slot);
  }

  lemma {:induction false} MoveKeepsCaps(c: Config, s: State, m: Move)
    requires MoveInv(c, s) && c.cfg.schedulingEnabled && WithinCaps(s.jobs, c.cfg)
    ensures WithinCaps(Do(c, s, m).jobs, c.cfg)
  {
    forall slot: Slot | SlotCap(slot, c.cfg) > 0
      ensures InFlight(Do(c, s, m).jobs, slot) <= SlotCap(slot, c.cfg)
    {
      if !m.Claim? {
        OnlyClaimsStartWork(c, s, m, slot);
      } else if Choose(s.jobs, c.cfg).Some? {
        ClaimKeepsCap(s.jobs, c.cfg, slot);
      }
    }
  }

  /** With scheduling on, the caps hold in every reachable state. */
  lemma {:induction false} CapsHold(c: Config, start: State, moves: seq<Move>)
    requires Initial(start) && c.cfg.schedulingEnabled
    ensures MoveInv(c, Play(c, start, moves)) && WithinCaps(Play(c, start, moves).jobs, c.cfg)
  {
    if moves == [] {
    } else {
      var init := moves[..|moves| - 1];
      CapsHold(c, start, init);
      MoveKeepsInv(c, Play(c, start, init), moves[|moves| - 1]);
      MoveKeepsCaps(c, Play(c, start, init), moves[|moves| - 1]);
    }
  }

  // ---- replays wait ----

  lemma {:induction false} BestBeatsReplay(t: Table, cfg: Settings, i: nat, budget: nat)
    requires TableOk(t, budget) && cfg.schedulingEnabled && Choose(t, cfg).Some? && Claimable(t, i, cfg)
    requires Choose(t, cfg).value < |t| && t[Choose(t, cfg).value].origin == Replay
    ensures t[i].execClass == Some(Maintenance)
  {
    ChooseIsBestClaimable(t, cfg);
    var best := Choose(t, cfg).value;
    assert RowOk(t[best], budget) && RowOk(t[i], budget);
    assert i != best ==> Ahead(t, best, i, true);
  }

  /** A claim hands a replay to a worker only when no claimable job of another class is
    * queued. */
  lemma {:induction false} ReplayYields(c: Config, start: State, steps: seq<Step>, best: nat, i: nat)
    requires Initial(start) && c.cfg.schedulingEnabled
    requires var t := Run(c, start, steps).jobs;
      && Choose(t, c.cfg) == Some(best) && best < |t| && t[best].origin == Replay
      && Claimable(t, i, c.cfg)
    ensures Run(c, start, steps).jobs[i].execClass == Some(Maintenance)
  {
    RunKeepsInv(c, start, steps);
    BestBeatsReplay(Run(c, start, steps).jobs, c.cfg, i, MaxAttempts(c.cfg));
  }
}
