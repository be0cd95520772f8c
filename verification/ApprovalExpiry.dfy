/** When an approval may still be claimed, read off the offers, checks and reads of a run: an
  * offer is good for its time to live, and a claim was let through by a check before it. */
module ApprovalExpiry {
  import opened Wrappers
  import opened UsageQuota
  import opened Approvals
  import opened ApprovalPayloads
  import Store = GuidedFlows

  /** The clock when step `k` of the run is taken. */
  function ClockAt(cfg: Settings, start: State, steps: seq<Step>, k: nat): int
    requires k <= |steps|
  {
    Run(cfg, start, steps[..k]).clock
  }

  /** The offer that made a flow. */
  function OfferStep(cfg: Settings, start: State, steps: seq<Step>, id: nat): nat {
    if steps == [] then 0
    else
      var init := steps[..|steps| - 1];
      if id < |Run(cfg, start, init).born| then OfferStep(cfg, start, init, id) else |init|
  }

  /** Step `o` offers the payload to the owner under the key and kind of the flow. */
  predicate OfferedAt(steps: seq<Step>, o: nat, f: Store.Flow) {
    && o < |steps| && steps[o].Offer?
    && f.key == Key(steps[o].owner) && f.kind == steps[o].kind && f.payload == steps[o].payload
  }

  /** The offer at step `o` is good at this time: it has no time to live, or not run out of it. */
  predicate InTime(cfg: Settings, start: State, steps: seq<Step>, o: nat, at: int) {
    o < |steps| && steps[o].Offer? && (steps[o].ttl == 0 || at <= ClockAt(cfg, start, steps, o) + steps[o].ttl)
  }

  lemma {:induction false} BornGrows(cfg: Settings, s: State, step: Step)
    ensures var s' := Apply(cfg, s, step);
      && s.born <= s'.born && |s'.born| == |s.born| + (if step.Offer? then 1 else 0)
  {
  }

  lemma {:induction false} NewbornTells(cfg: Settings, s: State, step: Step, at: int)
    requires step.Offer?
    ensures var f := Apply(cfg, s, step).born[|s.born|];
      && f.key == Key(step.owner) && f.kind == step.kind && f.payload == step.payload
      && (!Store.ExpiredAt(f, at) <==> step.ttl == 0 || at <= s.clock + step.ttl)
  {
  }

  /** Every flow ever set was offered at its step, and is expired exactly when that offer has
    * run out of its time. */
  lemma {:induction false} FlowTells(cfg: Settings, start: State, steps: seq<Step>, id: nat, at: int)
    requires Initial(start) && id < |Run(cfg, start, steps).born|
    ensures var f, o := Run(cfg, start, steps).born[id], OfferStep(cfg, start, steps, id);
      && OfferedAt(steps, o, f) && (!Store.ExpiredAt(f, at) <==> InTime(cfg, start, steps, o, at))
  {
    if steps == [] {
      assert false;
    } else {
      var init, step := steps[..|steps| - 1], steps[|steps| - 1];
      BornGrows(cfg, Run(cfg, start, init), step);
      if id < |Run(cfg, start, init).born| {
        FlowTells(cfg, start, init, id, at);
        assert steps[..OfferStep(cfg, start, init, id)] == init[..OfferStep(cfg, start, init, id)];
      } else {
        NewbornTells(cfg, Run(cfg, start, init), step, at);
      }
    }
  }

  /** A flow keeps its offer, however the run goes on. */
  lemma {:induction false} OfferStays(cfg: Settings, start: State, steps: seq<Step>, k: nat, id: nat)
    requires Initial(start) && k <= |steps| && id < |Run(cfg, start, steps[..k]).born|
    ensures id < |Run(cfg, start, steps).born|
    ensures OfferStep(cfg, start, steps, id) == OfferStep(cfg, start, steps[..k], id) < k
  {
    if k == |steps| {
      assert steps[..k] == steps;
      OfferIsInRun(cfg, start, steps, id);
    } else {
      var init := steps[..|steps| - 1];
      assert init[..k] == steps[..k];
      OfferStays(cfg, start, init, k, id);
      BornGrows(cfg, Run(cfg, start, init), steps[|steps| - 1]);
    }
  }

  lemma {:induction false} OfferIsInRun(cfg: Settings, start: State, steps: seq<Step>, id: nat)
    requires Initial(start) && id < |Run(cfg, start, steps).born|
    ensures OfferStep(cfg, start, steps, id) < |steps|
  {
    if steps == [] {
      assert false;
    } else if id < |Run(cfg, start, steps[..|steps| - 1]).born| {
      OfferIsInRun(cfg, start, steps[..|steps| - 1], id);
    }
  }

  // ---- the checks and reads behind a claim ----

  /** The last check of a turn that had peeked. */
  function CheckStep(cfg: Settings, start: State, steps: seq<Step>, w: nat): nat {
    if steps == [] then 0
    else
      var init, last := steps[..|steps| - 1], steps[|steps| - 1];
      if last.Check? && last.w == w && TurnOf(cfg, start, init, w).Peeked? then |init| else CheckStep(cfg, start, init, w)
  }

  /** A check lets a reply through: a refusal always, an approval when it is permitted and, with
    * quotas on, the owner's records of the last window are fewer than the limit. */
  predicate LetThrough(cfg: Settings, s: State, permitted: bool, approve: bool, owner: string, kind: Kind) {
    approve ==>
      permitted && (cfg.enabled ==> CountSince(s.usage.kept, owner, kind, s.clock - cfg.window) < LimitFor(cfg, owner, kind))
  }

  /** A check clears the turn exactly when it lets its reply through, and otherwise ends it. */
  lemma {:induction false} CheckClearsIff(cfg: Settings, s: State, w: nat, permitted: bool)
    requires w < |s.turns| && s.turns[w].Peeked?
    ensures var reply, next := s.turns[w].reply, Apply(cfg, s, Check(w, permitted)).turns[w];
      next == if LetThrough(cfg, s, permitted, reply.approve, reply.owner, reply.kind) then Cleared(reply, s.clock) else Idle
  {
  }

  predicate CheckedAt(cfg: Settings, start: State, steps: seq<Step>, q: nat, w: nat, reply: Reply) {
    && q < |steps| && steps[q].Check? && steps[q].w == w
    && LetThrough(cfg, Run(cfg, start, steps[..q]), steps[q].permitted, reply.approve, reply.owner, reply.kind)
  }

  /** The read of step `r` found the flow, at the clock of that step. */
  predicate FoundAt(cfg: Settings, start: State, steps: seq<Step>, r: nat, w: nat, flow: nat, readAt: int) {
    && r < |steps| && steps[r] == Read(w) && readAt == ClockAt(cfg, start, steps, r)
    && flow < |Run(cfg, start, steps[..r]).born|
  }

  /** The reply began with the peek of step `p`: it approves or refuses as that peek says. */
  predicate AskedAt(steps: seq<Step>, p: nat, w: nat, approve: bool) {
    p < |steps| && steps[p].Peek? && steps[p].w == w && steps[p].approve == approve
  }

  predicate TurnDated(cfg: Settings, start: State, steps: seq<Step>, w: nat) {
    var turn, q := TurnOf(cfg, start, steps, w), CheckStep(cfg, start, steps, w);
    && (!turn.Idle? ==> AskedAt(steps, PeekStep(cfg, start, steps, w), w, turn.reply.approve))
    && (turn.Cleared? || turn.Reading? ==> CheckedAt(cfg, start, steps, q, w, turn.reply))
    && (turn.Reading? ==>
      var r := ReadStep(cfg, start, steps, w);
      q < r && FoundAt(cfg, start, steps, r, w, turn.flow.id, turn.readAt))
  }

  lemma {:induction false} PrefixDated(cfg: Settings, start: State, steps: seq<Step>, more: seq<Step>, k: nat, w: nat,
                                       reply: Reply, flow: nat, readAt: int)
    requires steps <= more
    ensures CheckedAt(cfg, start, steps, k, w, reply) ==> CheckedAt(cfg, start, more, k, w, reply)
    ensures FoundAt(cfg, start, steps, k, w, flow, readAt) ==> FoundAt(cfg, start, more, k, w, flow, readAt)
  {
    if k < |steps| {
      assert more[..k] == steps[..k];
    }
  }

  /** How one step brings a turn past its check and its read. */
  lemma {:induction false} TurnAdvances(cfg: Settings, s: State, step: Step, w: nat)
    requires w < |s.turns|
    ensures var turn, next := s.turns[w], Apply(cfg, s, step).turns[w];
      && |Apply(cfg, s, step).turns| == |s.turns|
      && (!next.Idle? && turn.Idle? ==> step.Peek? && step.w == w && next.reply.approve == step.approve)
      && (!next.Idle? && !turn.Idle? ==> next.reply == turn.reply)
      && (next.Cleared? && next != turn ==>
        step.Check? && step.w == w && turn.Peeked? &&
        LetThrough(cfg, s, step.permitted, next.reply.approve, next.reply.owner, next.reply.kind))
      && (next.Reading? && next != turn ==>
        && step == Read(w) && turn.Cleared? && next.reply == turn.reply && next.readAt == s.clock
        && next.flow in s.flows)
  {
  }

  lemma {:induction false} StepKeepsDates(cfg: Settings, start: State, steps: seq<Step>, step: Step, more: seq<Step>,
                                          w: nat)
    requires more == steps + [step] && w < |Run(cfg, start, steps).turns| && TurnDated(cfg, start, steps, w)
    requires forall f | f in Run(cfg, start, steps).flows :: f.id < |Run(cfg, start, steps).born|
    ensures TurnDated(cfg, start, more, w)
  {
    assert more[..|steps|] == steps;
    var turn, next := TurnOf(cfg, start, steps, w), Run(cfg, start, more).turns[w];
    TurnAdvances(cfg, Run(cfg, start, steps), step, w);
    if turn.Cleared? {
      PrefixDated(cfg, start, steps, more, CheckStep(cfg, start, steps, w), w, turn.reply, 0, 0);
    } else if turn.Reading? {
      PrefixDated(cfg, start, steps, more, CheckStep(cfg, start, steps, w), w, turn.reply, 0, 0);
      PrefixDated(cfg, start, steps, more, ReadStep(cfg, start, steps, w), w, turn.reply, turn.flow.id, turn.readAt);
    }
  }

  lemma {:induction false} TurnsAreDated(cfg: Settings, start: State, steps: seq<Step>, w: nat)
    requires Initial(start) && w < |start.turns|
    ensures TurnDated(cfg, start, steps, w)
  {
    if steps != [] {
      var n := |steps| - 1;
      TurnsAreDated(cfg, start, steps[..n], w);
      TurnsStayThroughout(cfg, start, steps[..n]);
      RunKeepsFlows(cfg, start, steps[..n]);
      StepKeepsDates(cfg, start, steps[..n], steps[n], steps, w);
    }
  }

  /** What a claim keeps of the turn that made it. */
  lemma {:induction false} WinsKeepDates(cfg: Settings, s: State, step: Step)
    ensures var s' := Apply(cfg, s, step);
      && (forall i | 0 <= i < |s.wins| ::
        s'.wins[i].readAt == s.wins[i].readAt && s'.wins[i].approve == s.wins[i].approve)
      && (|s'.wins| > |s.wins| ==>
        && step.Take? && step.w < |s.turns| && s.turns[step.w].Reading?
        && var turn, win := s.turns[step.w], s'.wins[|s.wins|];
          win.flow == turn.flow.id && win.readAt == turn.readAt && win.approve == turn.reply.approve)
  {
  }

  /** The turn peeked for an owner, was let through by a check, and later found the flow. */
  predicate ClaimDated(cfg: Settings, start: State, steps: seq<Step>, w: nat, win: Win) {
    var p, q, r := PeekStep(cfg, start, steps, w), CheckStep(cfg, start, steps, w), ReadStep(cfg, start, steps, w);
    && AskedAt(steps, p, w, win.approve) && q < r < |steps| && steps[q].Check? && steps[q].w == w
    && LetThrough(cfg, Run(cfg, start, steps[..q]), steps[q].permitted, win.approve, steps[p].owner, win.kind)
    && FoundAt(cfg, start, steps, r, w, win.flow, win.readAt)
  }

  predicate WinDated(cfg: Settings, start: State, steps: seq<Step>, i: nat) {
    var s, t := Run(cfg, start, steps), ClaimStep(cfg, start, steps, i);
    && i < |s.wins| && t < |steps| && steps[t].Take?
    && ClaimDated(cfg, start, steps[..t], steps[t].w, s.wins[i])
  }

  /** A claim keeps all that this rests on. */
  predicate SameClaim(a: Win, b: Win) {
    a.flow == b.flow && a.readAt == b.readAt && a.approve == b.approve && a.kind == b.kind
  }

  lemma {:induction false} OldWinsStayDated(cfg: Settings, start: State, steps: seq<Step>, step: Step, more: seq<Step>,
                                            i: nat)
    requires more == steps + [step] && WinDated(cfg, start, steps, i)
    ensures WinDated(cfg, start, more, i)
  {
    assert more[..|steps|] == steps;
    WinsGrow(cfg, Run(cfg, start, steps), step);
    WinsKeepDates(cfg, Run(cfg, start, steps), step);
    assert SameClaim(Run(cfg, start, steps).wins[i], Run(cfg, start, more).wins[i]);
    var t := ClaimStep(cfg, start, steps, i);
    assert more[..t] == steps[..t];
  }

  lemma {:induction false} NewWinIsDated(cfg: Settings, start: State, steps: seq<Step>, step: Step, more: seq<Step>)
    requires Initial(start) && more == steps + [step]
    requires |Run(cfg, start, more).wins| > |Run(cfg, start, steps).wins|
    ensures WinDated(cfg, start, more, |Run(cfg, start, steps).wins|)
  {
    var s := Run(cfg, start, steps);
    assert more[..|steps|] == steps;
    WinsGrow(cfg, s, step);
    WinsKeepDates(cfg, s, step);
    TurnsStayThroughout(cfg, start, steps);
    TurnsAreTraced(cfg, start, steps, step.w);
    TurnsAreDated(cfg, start, steps, step.w);
  }

  lemma {:induction false} StepKeepsWinsDated(cfg: Settings, start: State, steps: seq<Step>, step: Step,
                                              more: seq<Step>, i: nat)
    requires Initial(start) && more == steps + [step] && i < |Run(cfg, start, more).wins|
    requires i < |Run(cfg, start, steps).wins| ==> WinDated(cfg, start, steps, i)
    ensures WinDated(cfg, start, more, i)
  {
    if i < |Run(cfg, start, steps).wins| {
      OldWinsStayDated(cfg, start, steps, step, more, i);
    } else {
      assert more[..|steps|] == steps;
      OneWinAtATime(cfg, Run(cfg, start, steps), step);
      NewWinIsDated(cfg, start, steps, step, more);
    }
  }

  lemma {:induction false} WinsAreDated(cfg: Settings, start: State, steps: seq<Step>, i: nat)
    requires Initial(start) && i < |Run(cfg, start, steps).wins|
    ensures WinDated(cfg, start, steps, i)
  {
    NoWinsAtFirst(cfg, start);
    var n := |steps| - 1;
    if i < |Run(cfg, start, steps[..n]).wins| {
      WinsAreDated(cfg, start, steps[..n], i);
    }
    StepKeepsWinsDated(cfg, start, steps[..n], steps[n], steps, i);
  }

  // ---- what a claim goes back to ----

  /** Every claim goes back to an offer, a check and a read, in any order of turns: the offer of
    * its flow, of the claim's own kind, came before the read and had not run out of its time to
    * live then; and an approval was permitted and below its quota at the check. */
  lemma {:induction false} ClaimsAreInTime(cfg: Settings, start: State, steps: seq<Step>, i: nat)
    requires Initial(start) && i < |Run(cfg, start, steps).wins|
    ensures WinDated(cfg, start, steps, i)
    ensures var win, t := Run(cfg, start, steps).wins[i], ClaimStep(cfg, start, steps, i);
      var o, r := OfferStep(cfg, start, steps, win.flow), ReadStep(cfg, start, steps[..t], steps[t].w);
      && o < r && win.readAt == ClockAt(cfg, start, steps, r)
      && InTime(cfg, start, steps, o, ClockAt(cfg, start, steps, r)) && steps[o].kind == FlowKind(win.kind)
  {
    WinsAreDated(cfg, start, steps, i);
    RunKeepsFlows(cfg, start, steps);
    var win, t := Run(cfg, start, steps).wins[i], ClaimStep(cfg, start, steps, i);
    var r := ReadStep(cfg, start, steps[..t], steps[t].w);
    assert steps[..t][..r] == steps[..r];
    OfferStays(cfg, start, steps, r, win.flow);
    FlowTells(cfg, start, steps, win.flow, win.readAt);
  }

  // ---- what each step of a turn does ----

  /** A peek by an idle turn takes up the reply when a flow is pending for its owner and kind, and
    * nothing else; the reply is to the flow that is pending. */
  lemma {:induction false} PeekTells(cfg: Settings, start: State, steps: seq<Step>, w: nat, owner: string, asked: Kind,
                                     approve: bool)
    requires Initial(start) && w < |Run(cfg, start, steps).turns| && Run(cfg, start, steps).turns[w].Idle?
    ensures var s := Run(cfg, start, steps); var s' := Apply(cfg, s, Peek(w, owner, asked, approve));
      && s' == s.(turns := s'.turns)
      && (s'.turns != s.turns <==> exists f :: PendingFor(s.flows, f, owner, FlowKind(asked)))
      && forall f | PendingFor(s.flows, f, owner, FlowKind(asked)) ::
        s'.turns == s.turns[w := Peeked(Reply(owner, asked, approve, f.id, f.payload))]
  {
    var s := Run(cfg, start, steps);
    RunKeepsFlows(cfg, start, steps);
    var row := Store.Newest(s.flows, Key(owner), FlowKind(asked));
    forall f | PendingFor(s.flows, f, owner, FlowKind(asked)) ensures row == Some(f) {
      assert Store.Matches(f, Key(owner), FlowKind(asked));
      PendingIsOne(s.flows, s.born, f, row.value);
    }
    if row.Some? {
      assert PendingFor(s.flows, row.value, owner, FlowKind(asked));
    }
  }

  /** A take wins exactly while the flow that was read is still pending. It spends that flow and
    * enters a claim; only an approval goes on to be charged. A take that does not win ends the
    * turn and changes nothing else. */
  lemma {:induction false} TakeTells(cfg: Settings, s: State, w: nat)
    requires w < |s.turns| && s.turns[w].Reading?
    ensures var turn, s' := s.turns[w], Apply(cfg, s, Take(w));
      var won := exists f :: f in s.flows && f.id == turn.flow.id && f.status == Store.Pending;
      && s'.usage == s.usage && s'.born == s.born && s'.clock == s.clock
      && |s'.wins| == |s.wins| + (if won then 1 else 0) && s.wins <= s'.wins
      && s'.turns == s.turns[w := if won && turn.reply.approve
                                  then Holding(turn.reply, turn.checkedAt, |s.wins|, turn.flow.payload) else Idle]
      && (won ==>
            s'.wins[|s.wins|] == Win(turn.flow.id, turn.reply.peeked, turn.reply.kind,
                                     turn.readAt, turn.reply.approve, false, None))
      && |s'.flows| == |s.flows|
      && forall k | 0 <= k < |s.flows| ::
        s'.flows[k] == if s.flows[k].id == turn.flow.id then s.flows[k].(status := Store.Consumed) else s.flows[k]
  {
  }

  // ---- what a read finds ----

  /** The flow is pending for the owner and kind. */
  predicate PendingFor(flows: Store.Table, f: Store.Flow, owner: string, kind: string) {
    f in flows && f.status == Store.Pending && f.key == Key(owner) && f.kind == kind
  }

  lemma {:induction false} PendingIsOne(t: Store.Table, born: seq<Store.Flow>, f: Store.Flow, g: Store.Flow)
    requires Store.TableOk(t, born) && f in t && g in t && f.status == g.status == Store.Pending
    requires f.key == g.key && f.kind == g.kind
    ensures f == g
  {
  }

  /** In every run, a cleared turn that reads finds the flow that is pending for its owner and
    * kind if and only if the offer that made it is still good; otherwise the turn ends. */
  lemma {:induction false} ReadFindsIff(cfg: Settings, start: State, steps: seq<Step>, w: nat, f: Store.Flow)
    requires Initial(start)
    requires var s := Run(cfg, start, steps);
      && w < |s.turns| && s.turns[w].Cleared?
      && PendingFor(s.flows, f, s.turns[w].reply.owner, FlowKind(s.turns[w].reply.kind))
    ensures var s := Run(cfg, start, steps);
      Apply(cfg, s, Read(w)).turns[w] ==
        if InTime(cfg, start, steps, OfferStep(cfg, start, steps, f.id), s.clock)
        then Reading(s.turns[w].reply, s.turns[w].checkedAt, f, s.clock) else Idle
  {
    var s := Run(cfg, start, steps);
    var reply := s.turns[w].reply;
    RunKeepsFlows(cfg, start, steps);
    var row := Store.Newest(s.flows, Key(reply.owner), FlowKind(reply.kind));
    assert Store.Matches(f, Key(reply.owner), FlowKind(reply.kind));
    PendingIsOne(s.flows, s.born, f, row.value);
    FlowTells(cfg, start, steps, f.id, s.clock);
  }

  /** With nothing pending for its owner and kind, a read ends the turn. */
  lemma {:induction false} ReadFindsNothing(cfg: Settings, s: State, w: nat)
    requires w < |s.turns| && s.turns[w].Cleared?
    requires forall f | f in s.flows ::
      !PendingFor(s.flows, f, s.turns[w].reply.owner, FlowKind(s.turns[w].reply.kind))
    ensures Apply(cfg, s, Read(w)) == WithTurn(s, w, Idle)
  {
  }

  // ---- what goes without a claim ----

  /** A purge takes exactly the flows whose offers have run out of their time, and a drop those
    * of one owner and kind. */
  lemma {:induction false} WhatGoes(cfg: Settings, start: State, steps: seq<Step>, f: Store.Flow, owner: string,
                                    kind: string)
    requires Initial(start) && f in Run(cfg, start, steps).flows
    ensures var s := Run(cfg, start, steps);
      && (f in Apply(cfg, s, PurgeFlows).flows <==>
            InTime(cfg, start, steps, OfferStep(cfg, start, steps, f.id), s.clock))
      && (f in Apply(cfg, s, Drop(owner, kind)).flows <==> f.key != Key(owner) || f.kind != kind)
  {
    var s := Run(cfg, start, steps);
    RunKeepsFlows(cfg, start, steps);
    FlowTells(cfg, start, steps, f.id, s.clock);
    Store.FilterHas(s.flows, (f: Store.Flow) => !Store.ExpiredAt(f, s.clock));
    Store.FilterHas(s.flows, (f: Store.Flow) => !(f.key == Key(owner) && f.kind == kind));
  }
}
