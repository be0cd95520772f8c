/** The caps when every session is a step of its own. A claim's selection and update can be
  * apart, and a handler's mark can take back a cancel that freed a place. */
module QueueCaps {
  import opened Wrappers
  import opened JobPolicy
  import opened JobTable
  import opened QueueProtocol
  import opened QueueSafety
  import opened QueueAtomic

  // ---- which steps put one more row in flight ----

  /** The row that a step brings in flight: a queued row that a claim's update takes, or a
    * cancel-requested row that its holder marks again. */
  function Raised(s: State, step: Step): (r: Option<nat>)
    ensures r.Some? ==> r.value < |s.jobs|
  {
    if step.Update? && step.w < |s.workers| && s.workers[step.w].Selected? then
      var id := s.workers[step.w].id;
      if id < |s.jobs| && s.jobs[id].status == Queued then Some(id) else None
    else if step.HandlerMark? && Erases(s, step, step.w) then
      var id := s.workers[step.w].view.id;
      if id < |s.jobs| && s.jobs[id].status == CancelRequested then Some(id) else None
    else None
  }

  /** The step brings in flight a row whose owner or class has no place left. */
  predicate BreaksCap(s: State, step: Step, cfg: Settings) {
    Raised(s, step).Some? && HeldBack(s.jobs, Raised(s, step).value, cfg)
  }

  lemma {:induction false} RaisedCounts(c: Config, s: State, step: Step, slot: Slot)
    requires Raised(s, step).Some?
    ensures var id := Raised(s, step).value;
      InFlight(Apply(c, s, step).jobs, slot) == InFlight(s.jobs, slot) + if InSlot(s.jobs[id], slot) then 1 else 0
  {
    var id := Raised(s, step).value;
    CountOneMore(s.jobs, id, Apply(c, s, step).jobs[id], slot);
  }

  /** One row changes and does not start to count. */
  lemma {:induction false} ChangeStartsNothing(t: Table, id: nat, j: Job, slot: Slot)
    requires id < |t| && (Occupies(j, slot) ==> Occupies(t[id], slot))
    ensures InFlight(t[id := j], slot) <= InFlight(t, slot)
  {
    CountNeverGrows(t, t[id := j], slot);
  }

  lemma {:induction false} WorkerStartsNothing(c: Config, s: State, step: Step, slot: Slot)
    requires !ByClient(step) && step.w < |s.workers| && WorkerOk(s.jobs, s.workers[step.w], MaxAttempts(c.cfg))
    requires Raised(s, step).None?
    ensures InFlight(Apply(c, s, step).jobs, slot) <= InFlight(s.jobs, slot)
  {
    var pc := s.workers[step.w];
    if step.HandlerMark? && Erases(s, step, step.w) {
      ChangeStartsNothing(s.jobs, pc.view.id, Transition(s.jobs, pc.view.id, step.status, None)[pc.view.id], slot);
    } else if step.Finish? && pc.Finishing? {
      ChangeStartsNothing(s.jobs, pc.view.id, Transition(s.jobs, pc.view.id, pc.status, pc.result)[pc.view.id], slot);
    }
  }

  lemma {:induction false} OthersStartNothing(c: Config, s: State, step: Step, slot: Slot)
    requires Inv(c, s) && Raised(s, step).None?
    ensures InFlight(Apply(c, s, step).jobs, slot) <= InFlight(s.jobs, slot)
  {
    if ByClient(step) {
      ClientStepIsCalm(c, s, step);
      CalmStartsNothing(s.jobs, Apply(c, s, step).jobs, slot);
    } else if step.w < |s.workers| {
      WorkerStartsNothing(c, s, step, slot);
    }
  }

  /** Being held back is having no place left in some slot of the row. */
  lemma {:induction false} HeldBackIffFull(t: Table, i: nat, cfg: Settings)
    requires i < |t|
    ensures HeldBack(t, i, cfg) <==> exists slot: Slot :: InSlot(t[i], slot) && Full(t, slot, cfg)
  {
    if HeldBack(t, i, cfg) {
      if Full(t, OwnerSlot(t[i].owner), cfg) {
        assert InSlot(t[i], OwnerSlot(t[i].owner));
      } else {
        assert InSlot(t[i], ClassSlot(t[i].execClass.value));
      }
    }
  }

  /** From within the caps, a session stays within them if and only if it brings no row in
    * flight whose owner or class has no place left. */
  lemma {:induction false} StepKeepsCapsIff(c: Config, s: State, step: Step)
    requires Inv(c, s) && WithinCaps(s.jobs, c.cfg)
    ensures WithinCaps(Apply(c, s, step).jobs, c.cfg) <==> !BreaksCap(s, step, c.cfg)
  {
    var t' := Apply(c, s, step).jobs;
    if Raised(s, step).None? {
      forall slot: Slot | SlotCap(slot, c.cfg) > 0 ensures InFlight(t', slot) <= SlotCap(slot, c.cfg) {
        OthersStartNothing(c, s, step, slot);
      }
    } else {
      var id := Raised(s, step).value;
      HeldBackIffFull(s.jobs, id, c.cfg);
      forall slot: Slot
        ensures InFlight(t', slot) == InFlight(s.jobs, slot) + if InSlot(s.jobs[id], slot) then 1 else 0
      {
        RaisedCounts(c, s, step, slot);
      }
    }
  }

  // ---- whole runs ----

  /** At the start of a run and after every step of it. */
  ghost predicate AlwaysWithinCaps(c: Config, start: State, steps: seq<Step>) {
    && WithinCaps(Run(c, start, steps).jobs, c.cfg)
    && (steps != [] ==> AlwaysWithinCaps(c, start, steps[..|steps| - 1]))
  }

  predicate NeverBreaksCap(c: Config, start: State, steps: seq<Step>) {
    steps != [] ==>
      var m := |steps| - 1;
      !BreaksCap(Run(c, start, steps[..m]), steps[m], c.cfg) && NeverBreaksCap(c, start, steps[..m])
  }

  /** A run stays within the caps throughout, if and only if no update takes a row and no mark
    * takes back a cancel when the owner or the class has no place left. */
  lemma {:induction false} CapsHoldIff(c: Config, start: State, steps: seq<Step>)
    requires Initial(start)
    ensures AlwaysWithinCaps(c, start, steps) <==> NeverBreaksCap(c, start, steps)
  {
    if steps != [] {
      var m := |steps| - 1;
      CapsHoldIff(c, start, steps[..m]);
      RunKeepsInv(c, start, steps[..m]);
      if WithinCaps(Run(c, start, steps[..m]).jobs, c.cfg) {
        StepKeepsCapsIff(c, Run(c, start, steps[..m]), steps[m]);
      }
    }
  }

  // ---- two ways to break a cap ----

  /** One job allowed per owner, two workers. */
  const ONE_EACH := Config(Settings(1, true, map[], 1), {"artifact"})
  const TWO_IDLE := State([], [Idle, Idle])

  function Chat(): Job { NewJob("o", "chat", "", "", None, Original, 1) }

  function Build(): Job { NewJob("o", "artifact", "", "", None, Original, 0) }

  function Taken(j: Job): Job { j.(status := Running, attempts := 1) }

  /** A worker selects the artifact; before it updates, a chat job of the same owner arrives
    * and another worker selects that one. */
  const SPLIT_CLAIMS := [
    Enqueue("o", "artifact", "", "", 0), Select(0), Enqueue("o", "chat", "", "", 1), Select(1), Update(0), Update(1)]

  lemma {:induction false} OneSelected()
    ensures Run(ONE_EACH, TWO_IDLE, SPLIT_CLAIMS[..2]) == State([Build()], [Selected(0), Idle])
  {
    StepsTo(ONE_EACH, TWO_IDLE, SPLIT_CLAIMS, 0);
    assert Run(ONE_EACH, TWO_IDLE, SPLIT_CLAIMS[..1]) == State([Build()], [Idle, Idle]);
    StepsTo(ONE_EACH, TWO_IDLE, SPLIT_CLAIMS, 1);
    ChooseIsBestClaimable([Build()], ONE_EACH.cfg);
    assert Claimable([Build()], 0, ONE_EACH.cfg);
  }

  lemma {:induction false} ChatArrives()
    ensures Run(ONE_EACH, TWO_IDLE, SPLIT_CLAIMS[..3]) == State([Build(), Chat()], [Selected(0), Idle])
  {
    OneSelected();
    StepsTo(ONE_EACH, TWO_IDLE, SPLIT_CLAIMS, 2);
  }

  lemma {:induction false} BothSelected()
    ensures Run(ONE_EACH, TWO_IDLE, SPLIT_CLAIMS[..4]) == State([Build(), Chat()], [Selected(0), Selected(1)])
  {
    ChatArrives();
    ChatGoesFirst();
    StepsTo(ONE_EACH, TWO_IDLE, SPLIT_CLAIMS, 3);
  }

  lemma {:induction false} ChatGoesFirst()
    ensures Choose([Build(), Chat()], ONE_EACH.cfg) == Some(1)
  {
    var t := [Build(), Chat()];
    assert t[..1] == [Build()];
    forall slot: Slot ensures InFlight(t, slot) == 0 {
      assert InFlight(t[..1], slot) == 0;
    }
    ChooseIsBestClaimable(t, ONE_EACH.cfg);
    assert Claimable(t, 1, ONE_EACH.cfg) && Claimable(t, 0, ONE_EACH.cfg);
  }

  lemma {:induction false} BothUpdated()
    ensures Run(ONE_EACH, TWO_IDLE, SPLIT_CLAIMS).jobs == [Taken(Build()), Taken(Chat())]
  {
    BothSelected();
    StepsTo(ONE_EACH, TWO_IDLE, SPLIT_CLAIMS, 4);
    StepsTo(ONE_EACH, TWO_IDLE, SPLIT_CLAIMS, 5);
    assert SPLIT_CLAIMS[..6] == SPLIT_CLAIMS;
  }

  /** The caps need the claim to be one session: with the selection and the update apart, two
    * workers take two jobs of an owner that may have one. */
  lemma {:induction false} SplitClaimBreaksCaps()
    ensures Initial(TWO_IDLE) && ONE_EACH.cfg.schedulingEnabled
    ensures !WithinCaps(Run(ONE_EACH, TWO_IDLE, SPLIT_CLAIMS).jobs, ONE_EACH.cfg)
  {
    var t := [Taken(Build()), Taken(Chat())];
    BothUpdated();
    assert t[..1] == [Taken(Build())];
    assert InFlight(t[..1], OwnerSlot("o")) == 1;
    assert InFlight(t, OwnerSlot("o")) == 2 > SlotCap(OwnerSlot("o"), ONE_EACH.cfg) > 0;
  }

  /** A worker is at work on the artifact; the owner cancels it and asks for a chat. */
  const CANCELLED_AT_WORK := [
    Enqueue("o", "artifact", "", "", 0), Select(0), Update(0), Check1(0), Cancel("o", 0), Enqueue("o", "chat", "", "", 1)]

  /** Another worker takes the chat in one go, and the first handler then marks its job. */
  const TAKEN_AND_MARKED := [Select(1), Update(1), HandlerMark(0, Validating)]

  function AtWork(): Pc { Working(View(0, "artifact", 1)) }

  lemma {:induction false} ArtifactIsTaken()
    ensures Apply(ONE_EACH, State([Build()], [Selected(0), Idle]), Update(0))
      == State([Taken(Build())], [Claimed(View(0, "artifact", 1)), Idle])
  {
  }

  lemma {:induction false} ArtifactStarts()
    ensures Apply(ONE_EACH, State([Taken(Build())], [Claimed(View(0, "artifact", 1)), Idle]), Check1(0))
      == State([Taken(Build())], [AtWork(), Idle])
  {
  }

  lemma {:induction false} ArtifactAtWork()
    ensures Run(ONE_EACH, TWO_IDLE, CANCELLED_AT_WORK[..4]) == State([Taken(Build())], [AtWork(), Idle])
  {
    OneSelected();
    assert CANCELLED_AT_WORK[..2] == SPLIT_CLAIMS[..2];
    StepsTo(ONE_EACH, TWO_IDLE, CANCELLED_AT_WORK, 2);
    ArtifactIsTaken();
    StepsTo(ONE_EACH, TWO_IDLE, CANCELLED_AT_WORK, 3);
    ArtifactStarts();
  }

  function Freed(): Table { [Taken(Build()).(status := CancelRequested), Chat()] }

  lemma {:induction false} PlaceIsFreed()
    ensures Run(ONE_EACH, TWO_IDLE, CANCELLED_AT_WORK) == State(Freed(), [AtWork(), Idle])
  {
    ArtifactAtWork();
    StepsTo(ONE_EACH, TWO_IDLE, CANCELLED_AT_WORK, 4);
    assert Run(ONE_EACH, TWO_IDLE, CANCELLED_AT_WORK[..5]) == State([Freed()[0]], [AtWork(), Idle]);
    StepsTo(ONE_EACH, TWO_IDLE, CANCELLED_AT_WORK, 5);
    assert CANCELLED_AT_WORK[..6] == CANCELLED_AT_WORK;
  }

  lemma {:induction false} FreedPlaceIsTaken()
    ensures Choose(Freed(), ONE_EACH.cfg) == Some(1)
  {
    assert Freed()[..1] == [Freed()[0]];
    forall slot: Slot ensures InFlight(Freed(), slot) == 0 {
      assert InFlight(Freed()[..1], slot) == 0;
    }
    ChooseIsBestClaimable(Freed(), ONE_EACH.cfg);
    assert Claimable(Freed(), 1, ONE_EACH.cfg);
  }

  lemma {:induction false} MarkTakesItBack(s: State)
    requires s == State(Freed(), [AtWork(), Idle])
    ensures Run(ONE_EACH, s, TAKEN_AND_MARKED).jobs == [Taken(Build()).(status := Validating), Taken(Chat())]
  {
    var c := ONE_EACH;
    FreedPlaceIsTaken();
    StepsTo(c, s, TAKEN_AND_MARKED, 0);
    assert Run(c, s, TAKEN_AND_MARKED[..1]) == State(Freed(), [AtWork(), Selected(1)]);
    StepsTo(c, s, TAKEN_AND_MARKED, 1);
    assert Run(c, s, TAKEN_AND_MARKED[..2]).jobs == [Freed()[0], Taken(Chat())];
    StepsTo(c, s, TAKEN_AND_MARKED, 2);
    assert TAKEN_AND_MARKED[..3] == TAKEN_AND_MARKED;
  }

  /** A claim in one go is not enough: the mark of a handler whose cancel freed the place puts
    * two jobs in flight for an owner that may have one. */
  lemma {:induction false} MarkBreaksCaps()
    ensures !WithinCaps(Run(ONE_EACH, TWO_IDLE, CANCELLED_AT_WORK + TAKEN_AND_MARKED).jobs, ONE_EACH.cfg)
  {
    var t := [Taken(Build()).(status := Validating), Taken(Chat())];
    PlaceIsFreed();
    MarkTakesItBack(State(Freed(), [AtWork(), Idle]));
    RunAppend(ONE_EACH, TWO_IDLE, CANCELLED_AT_WORK, TAKEN_AND_MARKED);
    assert t[..1] == [Taken(Build()).(status := Validating)];
    assert InFlight(t[..1], OwnerSlot("o")) == 1;
    assert InFlight(t, OwnerSlot("o")) == 2 > SlotCap(OwnerSlot("o"), ONE_EACH.cfg) > 0;
  }
}
