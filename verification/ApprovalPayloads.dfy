/** What an approval runs, against what it claimed: the claim is made at the read, but an
  * artifact or an action runs what its turn had peeked before. */
module ApprovalPayloads {
  import opened Wrappers
  import opened UsageQuota
  import opened Approvals
  import Store = GuidedFlows

  // ---- what is pending ----

  predicate Offers(step: Step, key: string, kind: string) {
    step.Offer? && Key(step.owner) == key && step.kind == kind
  }

  /** The payload last offered for a key and kind. */
  function LastOffer(steps: seq<Step>, key: string, kind: string): Option<string> {
    if steps == [] then None
    else
      var last := steps[|steps| - 1];
      if Offers(last, key, kind) then Some(last.payload) else LastOffer(steps[..|steps| - 1], key, kind)
  }

  /** Every pending flow is the one last offered for its key and kind. */
  predicate PendingOk(flows: Store.Table, steps: seq<Step>) {
    forall f | f in flows && f.status == Store.Pending :: LastOffer(steps, f.key, f.kind) == Some(f.payload)
  }

  lemma {:induction false} OfferKeepsPending(cfg: Settings, s: State, steps: seq<Step>, step: Step)
    requires PendingOk(s.flows, steps) && step.Offer?
    ensures PendingOk(Apply(cfg, s, step).flows, steps + [step])
  {
    var keep := (f: Store.Flow) => !Store.Matches(f, Key(step.owner), step.kind);
    Store.FilterHas(s.flows, keep);
    assert (steps + [step])[..|steps|] == steps;
    forall f | f in Apply(cfg, s, step).flows && f.status == Store.Pending
      ensures LastOffer(steps + [step], f.key, f.kind) == Some(f.payload)
    {
      var added := Store.NewFlow(|s.born|, Key(step.owner), step.kind, step.payload, step.ttl, s.clock);
      assert f in Store.Filter(s.flows, keep) || f == added;
    }
  }

  lemma {:induction false} OtherKeepsPending(cfg: Settings, s: State, step: Step)
    requires !step.Offer?
    ensures forall f | f in Apply(cfg, s, step).flows && f.status == Store.Pending :: f in s.flows
  {
    if step.Drop? {
      Store.FilterHas(s.flows, (f: Store.Flow) => !(f.key == Key(step.owner) && f.kind == step.kind));
    } else if step.PurgeFlows? {
      Store.FilterHas(s.flows, (f: Store.Flow) => !Store.ExpiredAt(f, s.clock));
    }
  }

  lemma {:induction false} PendingIsLastOffer(cfg: Settings, start: State, steps: seq<Step>)
    requires Initial(start)
    ensures PendingOk(Run(cfg, start, steps).flows, steps)
  {
    if steps != [] {
      var init, step := steps[..|steps| - 1], steps[|steps| - 1];
      assert steps == init + [step];
      PendingIsLastOffer(cfg, start, init);
      if step.Offer? {
        OfferKeepsPending(cfg, Run(cfg, start, init), init, step);
      } else {
        OtherKeepsPending(cfg, Run(cfg, start, init), step);
      }
    }
  }

  // ---- the steps of one turn ----

  /** The last peek of a turn that found it idle. */
  function PeekStep(cfg: Settings, start: State, steps: seq<Step>, w: nat): nat {
    if steps == [] then 0
    else
      var init, last := steps[..|steps| - 1], steps[|steps| - 1];
      if last.Peek? && last.w == w && TurnOf(cfg, start, init, w).Idle? then |init| else PeekStep(cfg, start, init, w)
  }

  /** The last read of a turn that found it cleared by the quota. */
  function ReadStep(cfg: Settings, start: State, steps: seq<Step>, w: nat): nat {
    if steps == [] then 0
    else
      var init, last := steps[..|steps| - 1], steps[|steps| - 1];
      if last == Read(w) && TurnOf(cfg, start, init, w).Cleared? then |init| else ReadStep(cfg, start, init, w)
  }

  function TurnOf(cfg: Settings, start: State, steps: seq<Step>, w: nat): Turn {
    var turns := Run(cfg, start, steps).turns;
    if w < |turns| then turns[w] else Idle
  }

  /** The take that made a claim. */
  function ClaimStep(cfg: Settings, start: State, steps: seq<Step>, win: nat): nat {
    if steps == [] then 0
    else
      var init := steps[..|steps| - 1];
      if win < |Run(cfg, start, init).wins| then ClaimStep(cfg, start, init, win) else |init|
  }

  /** Position `p` is a peek by turn `w` of what was pending then. */
  predicate PeekedAt(steps: seq<Step>, p: nat, w: nat, owner: string, kind: Kind, payload: string) {
    && p < |steps| && steps[p].Peek? && steps[p].w == w && steps[p].owner == owner && steps[p].asked == kind
    && LastOffer(steps[..p], Key(owner), FlowKind(kind)) == Some(payload)
  }

  predicate ReadAt(steps: seq<Step>, r: nat, w: nat, owner: string, kind: Kind, payload: string) {
    && r < |steps| && steps[r] == Read(w)
    && LastOffer(steps[..r], Key(owner), FlowKind(kind)) == Some(payload)
  }

  predicate TurnTraced(cfg: Settings, start: State, steps: seq<Step>, w: nat) {
    var turn, p := TurnOf(cfg, start, steps, w), PeekStep(cfg, start, steps, w);
    && (!turn.Idle? ==> PeekedAt(steps, p, w, turn.reply.owner, turn.reply.kind, turn.reply.payload))
    && (turn.Reading? ==>
      var r := ReadStep(cfg, start, steps, w);
      p < r && ReadAt(steps, r, w, turn.reply.owner, turn.reply.kind, turn.flow.payload))
  }

  lemma {:induction false} PrefixTraced(steps: seq<Step>, more: seq<Step>, k: nat, w: nat, owner: string, kind: Kind,
                                        payload: string)
    requires steps <= more
    ensures PeekedAt(steps, k, w, owner, kind, payload) ==> PeekedAt(more, k, w, owner, kind, payload)
    ensures ReadAt(steps, k, w, owner, kind, payload) ==> ReadAt(more, k, w, owner, kind, payload)
  {
    if k < |steps| {
      assert more[..k] == steps[..k];
    }
  }

  /** How one step moves a turn: it starts at a peek, reads when it was cleared, and otherwise
    * keeps what it peeked and read. */
  lemma {:induction false} TurnMoves(cfg: Settings, s: State, step: Step, w: nat)
    requires w < |s.turns|
    ensures var turn, next := s.turns[w], Apply(cfg, s, step).turns[w];
      && |Apply(cfg, s, step).turns| == |s.turns|
      && (!next.Idle? && turn.Idle? ==>
        var row := Store.Newest(s.flows, Key(next.reply.owner), FlowKind(next.reply.kind));
        && step.Peek? && step.w == w && step.owner == next.reply.owner && step.asked == next.reply.kind
        && next.Peeked? && row.Some? && row.value.payload == next.reply.payload)
      && (!next.Idle? && !turn.Idle? ==> next.reply == turn.reply)
      && (next.Reading? && turn.Cleared? ==>
        step == Read(w)
        && Store.Newest(s.flows, Key(next.reply.owner), FlowKind(next.reply.kind)) == Some(next.flow))
      && (next.Reading? && !turn.Cleared? ==> next == turn)
  {
  }

  lemma {:induction false} StepKeepsTrace(cfg: Settings, start: State, steps: seq<Step>, step: Step, w: nat)
    requires w < |Run(cfg, start, steps).turns|
    requires TurnTraced(cfg, start, steps, w) && PendingOk(Run(cfg, start, steps).flows, steps)
    ensures TurnTraced(cfg, start, steps + [step], w)
  {
    var more := steps + [step];
    assert more[..|steps|] == steps;
    var s := Run(cfg, start, steps);
    var turn, next := s.turns[w], Run(cfg, start, more).turns[w];
    TurnMoves(cfg, s, step, w);
    if !next.Idle? {
      PrefixTraced(steps, more, PeekStep(cfg, start, steps, w), w, next.reply.owner, next.reply.kind, next.reply.payload);
      if next.Reading? && !turn.Cleared? {
        PrefixTraced(steps, more, ReadStep(cfg, start, steps, w), w, next.reply.owner, next.reply.kind, next.flow.payload);
      }
    }
  }

  lemma {:induction false} TurnsStayThroughout(cfg: Settings, start: State, steps: seq<Step>)
    ensures |Run(cfg, start, steps).turns| == |start.turns|
  {
    if steps != [] {
      TurnsStayThroughout(cfg, start, steps[..|steps| - 1]);
      TurnsStay(cfg, Run(cfg, start, steps[..|steps| - 1]), steps[|steps| - 1]);
    }
  }

  lemma {:induction false} TurnsAreTraced(cfg: Settings, start: State, steps: seq<Step>, w: nat)
    requires Initial(start) && w < |start.turns|
    ensures TurnTraced(cfg, start, steps, w)
  {
    if steps != [] {
      var init, step := steps[..|steps| - 1], steps[|steps| - 1];
      assert steps == init + [step];
      TurnsAreTraced(cfg, start, init, w);
      PendingIsLastOffer(cfg, start, init);
      TurnsStayThroughout(cfg, start, init);
      StepKeepsTrace(cfg, start, init, step, w);
    }
  }

  // ---- claims ----

  /** The turn peeked one payload and later read another: each was the offer last made then. */
  predicate TracedTo(cfg: Settings, start: State, steps: seq<Step>, w: nat, kind: Kind, peeked: string, read: string) {
    var p, r := PeekStep(cfg, start, steps, w), ReadStep(cfg, start, steps, w);
    && p < r < |steps| && steps[p].Peek?
    && PeekedAt(steps, p, w, steps[p].owner, kind, peeked)
    && ReadAt(steps, r, w, steps[p].owner, kind, read)
  }

  /** A claim goes back to a peek and a later read of one turn. */
  predicate WinTraced(cfg: Settings, start: State, steps: seq<Step>, i: nat) {
    var s, t := Run(cfg, start, steps), ClaimStep(cfg, start, steps, i);
    && i < |s.wins| && s.wins[i].flow < |s.born| && s.wins[i].peeked < |s.born|
    && t < |steps| && steps[t].Take?
    && TracedTo(cfg, start, steps[..t], steps[t].w, s.wins[i].kind, s.born[s.wins[i].peeked].payload,
                s.born[s.wins[i].flow].payload)
  }

  /** One step appends at most one claim, and no claim changes what it is of. */
  lemma {:induction false} WinsGrow(cfg: Settings, s: State, step: Step)
    ensures var s' := Apply(cfg, s, step);
      && s.born <= s'.born && |s.wins| <= |s'.wins| <= |s.wins| + 1
      && (forall i | 0 <= i < |s.wins| ::
        && s'.wins[i].flow == s.wins[i].flow && s'.wins[i].peeked == s.wins[i].peeked
        && s'.wins[i].kind == s.wins[i].kind)
      && (|s'.wins| > |s.wins| ==>
        && step.Take? && step.w < |s.turns| && s.turns[step.w].Reading?
        && var turn, win := s.turns[step.w], s'.wins[|s.wins|];
        win.flow == turn.flow.id && win.peeked == turn.reply.peeked && win.kind == turn.reply.kind)
  {
  }

  lemma {:induction false} OldWinsStayTraced(cfg: Settings, start: State, steps: seq<Step>, step: Step, i: nat)
    requires WinTraced(cfg, start, steps, i)
    ensures WinTraced(cfg, start, steps + [step], i)
  {
    var more := steps + [step];
    assert more[..|steps|] == steps;
    WinsGrow(cfg, Run(cfg, start, steps), step);
    var t := ClaimStep(cfg, start, steps, i);
    assert more[..t] == steps[..t];
  }

  lemma {:induction false} NewWinIsTraced(cfg: Settings, start: State, steps: seq<Step>, step: Step)
    requires Initial(start)
    requires |Run(cfg, start, steps + [step]).wins| > |Run(cfg, start, steps).wins|
    ensures WinTraced(cfg, start, steps + [step], |Run(cfg, start, steps).wins|)
  {
    var s := Run(cfg, start, steps);
    assert (steps + [step])[..|steps|] == steps;
    WinsGrow(cfg, s, step);
    TurnsStayThroughout(cfg, start, steps);
    TurnsAreTraced(cfg, start, steps, step.w);
    RunKeepsFlows(cfg, start, steps);
    assert TurnOk(s.turns[step.w], s.born, s.wins);
  }

  lemma {:induction false} StepKeepsWinsTraced(cfg: Settings, start: State, steps: seq<Step>, step: Step,
                                               more: seq<Step>, i: nat)
    requires Initial(start) && more == steps + [step] && i < |Run(cfg, start, more).wins|
    requires i < |Run(cfg, start, steps).wins| ==> WinTraced(cfg, start, steps, i)
    ensures WinTraced(cfg, start, more, i)
  {
    if i < |Run(cfg, start, steps).wins| {
      OldWinsStayTraced(cfg, start, steps, step, i);
    } else {
      assert more[..|steps|] == steps;
      OneWinAtATime(cfg, Run(cfg, start, steps), step);
      NewWinIsTraced(cfg, start, steps, step);
    }
  }

  lemma {:induction false} OneWinAtATime(cfg: Settings, s: State, step: Step)
    ensures |Apply(cfg, s, step).wins| <= |s.wins| + 1
  {
  }

  lemma {:induction false} NoWinsAtFirst(cfg: Settings, start: State)
    requires Initial(start)
    ensures Run(cfg, start, []).wins == []
  {
  }

  lemma {:induction false} WinsAreTraced(cfg: Settings, start: State, steps: seq<Step>, i: nat)
    requires Initial(start) && i < |Run(cfg, start, steps).wins|
    ensures WinTraced(cfg, start, steps, i)
  {
    NoWinsAtFirst(cfg, start);
    var n := |steps| - 1;
    if i < |Run(cfg, start, steps[..n]).wins| {
      WinsAreTraced(cfg, start, steps[..n], i);
    }
    StepKeepsWinsTraced(cfg, start, steps[..n], steps[n], steps, i);
  }

  /** An approval runs what it claimed exactly when it is of a plan, or when the offer its turn
    * peeked and the offer pending at its read carry the same payload. */
  lemma {:induction false} RunsItsClaimIff(cfg: Settings, start: State, steps: seq<Step>, i: nat)
    requires Initial(start) && i < |Run(cfg, start, steps).wins| && Run(cfg, start, steps).wins[i].ran.Some?
    ensures WinTraced(cfg, start, steps, i)
    ensures var s, t := Run(cfg, start, steps), ClaimStep(cfg, start, steps, i);
      var p, r := PeekStep(cfg, start, steps[..t], steps[t].w), ReadStep(cfg, start, steps[..t], steps[t].w);
      var key, kind := Key(steps[p].owner), steps[p].asked;
      s.wins[i].ran.value == s.born[s.wins[i].flow].payload <==>
        kind == ExecutionStart || LastOffer(steps[..r], key, FlowKind(kind)) == LastOffer(steps[..p], key, FlowKind(kind))
  {
    WinsAreTraced(cfg, start, steps, i);
    RunKeepsFlows(cfg, start, steps);
    var t := ClaimStep(cfg, start, steps, i);
    var p, r := PeekStep(cfg, start, steps[..t], steps[t].w), ReadStep(cfg, start, steps[..t], steps[t].w);
    assert steps[..t][..p] == steps[..p] && steps[..t][..r] == steps[..r];
  }

  // ---- a run that does not run its claim ----

  lemma {:induction false} RunSnoc(cfg: Settings, s: State, steps: seq<Step>, last: Step)
    ensures Run(cfg, s, steps + [last]) == Apply(cfg, Run(cfg, s, steps), last)
  {
    assert (steps + [last])[..|steps|] == steps;
  }

  predicate RunsSomethingElse(cfg: Settings, start: State, steps: seq<Step>) {
    && Initial(start)
    && var s := Run(cfg, start, steps);
    && |s.wins| > 0 && s.wins[0].flow < |s.born|
    && s.wins[0].ran.Some? && s.wins[0].ran.value != s.born[s.wins[0].flow].payload
  }

  /** The stages of one such run: artifact A is offered and peeked, B replaces it, and the
    * turn then claims B. */
  function Stage(k: nat): State {
    var a := Store.NewFlow(0, "o", "artifact", "A", 0, 0);
    var b := Store.NewFlow(1, "o", "artifact", "B", 0, 0);
    var reply := Reply("o", ArtifactGeneration, true, 0, "A");
    var win := Win(1, 0, ArtifactGeneration, 0, true, false, None);
    var s := State(0, [b], [a, b], [], History([], []), [Idle]);
    var t := s.(flows := [b.(status := Store.Consumed)]);
    if k == 0 then s.(flows := [], born := [])
    else if k == 1 then s.(flows := [a], born := [a])
    else if k == 2 then s.(flows := [a], born := [a], turns := [Peeked(reply)])
    else if k == 3 then s.(turns := [Peeked(reply)])
    else if k == 4 then s.(turns := [Cleared(reply, 0)])
    else if k == 5 then s.(turns := [Reading(reply, 0, b, 0)])
    else if k == 6 then t.(wins := [win], turns := [Holding(reply, 0, 0, "B")])
    else if k == 7 then t.(wins := [win.(recorded := true)], turns := [Charged(reply, 0, "B")])
    else t.(wins := [win.(recorded := true, ran := Some("A"))], turns := [Idle])
  }

  function StageStep(k: nat): Step {
    if k == 0 then Offer("o", "artifact", "A", 0)
    else if k == 1 then Peek(0, "o", ArtifactGeneration, true)
    else if k == 2 then Offer("o", "artifact", "B", 0)
    else if k == 3 then Check(0, true)
    else if k == 4 then Read(0)
    else if k == 5 then Take(0)
    else if k == 6 then Charge(0)
    else Execute(0)
  }

  const NO_QUOTAS := Settings(false, 0, Limits(0, 0, 0), Limits(0, 0, 0))

  lemma {:induction false} EarlyStage(k: nat)
    requires k < 3
    ensures Apply(NO_QUOTAS, Stage(k), StageStep(k)) == Stage(k + 1)
  {
  }

  lemma {:induction false} MiddleStage(k: nat)
    requires 3 <= k < 6
    ensures Apply(NO_QUOTAS, Stage(k), StageStep(k)) == Stage(k + 1)
  {
    if k == 5 {
      assert Stage(5).flows[0] in Stage(5).flows;
    }
  }

  lemma {:induction false} LateStage(k: nat)
    requires 6 <= k < 8
    ensures Apply(NO_QUOTAS, Stage(k), StageStep(k)) == Stage(k + 1)
  {
  }

  function StageSteps(k: nat): seq<Step> {
    if k == 0 then [] else StageSteps(k - 1) + [StageStep(k - 1)]
  }

  lemma {:induction false} StageReached(k: nat)
    requires k <= 8
    ensures Run(NO_QUOTAS, Stage(0), StageSteps(k)) == Stage(k)
  {
    if k > 0 {
      StageReached(k - 1);
      if k <= 3 { EarlyStage(k - 1); } else if k <= 6 { MiddleStage(k - 1); } else { LateStage(k - 1); }
      RunSnoc(NO_QUOTAS, Stage(0), StageSteps(k - 1), StageStep(k - 1));
    }
  }

  /** When the pending artifact is replaced between the peek and the read, what runs is not
    * what was claimed. */
  lemma {:induction false} PeekedMayNotBeClaimed()
    ensures exists cfg, start, steps :: RunsSomethingElse(cfg, start, steps)
  {
    StageReached(8);
    assert RunsSomethingElse(NO_QUOTAS, Stage(0), StageSteps(8));
  }
}
