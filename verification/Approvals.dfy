/** The approval handlers over the flow store and the quota table. Any number of turns
  * interleave: each peeks a pending flow, checks permission and quota, reads and takes the
  * flow, charges the quota, and only then runs the work. */
module Approvals {
  import opened Wrappers
  import opened UsageQuota
  import Store = GuidedFlows

  /** The reply being handled: what the turn peeked before it did anything. */
  datatype Reply = Reply(owner: string, kind: Kind, approve: bool, peeked: nat, payload: string)

  datatype Turn =
    | Idle
    | Peeked(reply: Reply)
    | Cleared(reply: Reply, checkedAt: int)
    | Reading(reply: Reply, checkedAt: int, flow: Store.Flow, readAt: int)
    | Holding(reply: Reply, checkedAt: int, win: nat, claimed: string)
    | Charged(reply: Reply, win: nat, claimed: string)

  /** A successful claim: which flow, which flow the turn had peeked, when the claim was read,
    * and what became of it. */
  datatype Win = Win(
    flow: nat, peeked: nat, kind: Kind, readAt: int, approve: bool, recorded: bool, ran: Option<string>)

  /** `born` lists every flow ever set and `ever` every usage record ever made. */
  datatype State = State(
    clock: int, flows: Store.Table, born: seq<Store.Flow>, wins: seq<Win>,
    usage: History, turns: seq<Turn>)

  datatype Step =
    | Tick(seconds: nat)
    | Offer(owner: string, kind: string, payload: string, ttl: nat)
    | Drop(owner: string, kind: string)
    | PurgeFlows
    | PurgeUsage(age: nat)
    | Peek(w: nat, owner: string, asked: Kind, approve: bool)
    | Check(w: nat, permitted: bool)
    | Read(w: nat)
    | Take(w: nat)
    | Charge(w: nat)
    | Execute(w: nat)

  function FlowKind(kind: Kind): string {
    match kind
    case ExecutionStart => "plan"
    case ArtifactGeneration => "artifact"
    case StartupValidation => "action"
  }

  function Key(owner: string): string {
    Store.SessionKey(Some(owner))
  }

  /** A plan runs as claimed; an artifact and an action run as peeked. */
  function WhatRuns(reply: Reply, claimed: string): string {
    if reply.kind == ExecutionStart then claimed else reply.payload
  }

  /** One reply handled with no other turn in between: a blocked approval leaves the flow
    * pending, and only an approval that claimed its flow is charged and runs. */
  method HandleReply(store: Store.GuidedFlowStore, limiter: UsageLimiter, cfg: Settings, reply: Reply,
                     permitted: bool, now: int) returns (ran: Option<string>)
    modifies store`rows, limiter
    ensures var claimed := Store.ReadSession(old(store.rows), Key(reply.owner), FlowKind(reply.kind), now);
      if (reply.approve && !(permitted && Allows(cfg, old(limiter.rows), reply.owner, reply.kind, now))) || claimed.None?
      then ran == None && store.rows == old(store.rows) && limiter.rows == old(limiter.rows)
      else
        && store.rows == Store.TakeSession(old(store.rows), claimed.value.id).0
        && ran == (if reply.approve then Some(WhatRuns(reply, claimed.value.payload)) else None)
        && limiter.rows == (if reply.approve && cfg.enabled
                            then old(limiter.rows) + [UsageRecord(reply.owner, reply.kind, now)]
                            else old(limiter.rows))
  {
    if reply.approve {
      if !permitted {
        return None;
      }
      var allowed := limiter.Check(cfg, reply.owner, reply.kind, now);
      if !allowed {
        return None;
      }
    }
    var claimed := store.Consume(Some(reply.owner), FlowKind(reply.kind), now);
    if claimed.None? {
      return None;
    }
    if reply.approve {
      limiter.Record(cfg, reply.owner, reply.kind, now);
      ran := Some(WhatRuns(reply, claimed.value));
    } else {
      ran := None;
    }
  }

  function WithTurn(s: State, w: nat, turn: Turn): State
    requires w < |s.turns|
  {
    s.(turns := s.turns[w := turn])
  }

  function TurnStep(cfg: Settings, s: State, w: nat, step: Step): State
    requires w < |s.turns|
  {
    var turn := s.turns[w];
    match step
    case Peek(_, owner, kind, approve) =>
      var row := Store.Newest(s.flows, Key(owner), FlowKind(kind));
      if turn.Idle? && row.Some?
      then WithTurn(s, w, Peeked(Reply(owner, kind, approve, row.value.id, row.value.payload)))
      else s
    case Check(_, permitted) =>
      if !turn.Peeked? then s
      else if turn.reply.approve && !(permitted && Allows(cfg, s.usage.kept, turn.reply.owner, turn.reply.kind, s.clock))
      then WithTurn(s, w, Idle)
      else WithTurn(s, w, Cleared(turn.reply, s.clock))
    case Read(_) =>
      if !turn.Cleared? then s
      else
        var row := Store.ReadSession(s.flows, Key(turn.reply.owner), FlowKind(turn.reply.kind), s.clock);
        if row.None? then WithTurn(s, w, Idle)
        else WithTurn(s, w, Reading(turn.reply, turn.checkedAt, row.value, s.clock))
    case Take(_) =>
      if !turn.Reading? then s
      else
        var (flows, won) := Store.TakeSession(s.flows, turn.flow.id);
        var s' := s.(flows := flows);
        if !won then WithTurn(s', w, Idle)
        else
          var win := Win(turn.flow.id, turn.reply.peeked, turn.reply.kind, turn.readAt, turn.reply.approve, false, None);
          s'.(wins := s.wins + [win],
              turns := s.turns[w := if turn.reply.approve
                                    then Holding(turn.reply, turn.checkedAt, |s.wins|, turn.flow.payload)
                                    else Idle])
    case Charge(_) =>
      if !turn.Holding? || turn.win >= |s.wins| then s
      else
        var r := UsageRecord(turn.reply.owner, turn.reply.kind, s.clock);
        s.(usage := if cfg.enabled then History(s.usage.kept + [r], s.usage.ever + [r]) else s.usage,
           wins := s.wins[turn.win := s.wins[turn.win].(recorded := true)],
           turns := s.turns[w := Charged(turn.reply, turn.win, turn.claimed)])
    case Execute(_) =>
      if !turn.Charged? || turn.win >= |s.wins| then s
      else
        s.(wins := s.wins[turn.win := s.wins[turn.win].(ran := Some(WhatRuns(turn.reply, turn.claimed)))],
           turns := s.turns[w := Idle])
    case _ => s
  }

  function Apply(cfg: Settings, s: State, step: Step): State {
    match step
    case Tick(seconds) => s.(clock := s.clock + seconds)
    case Offer(owner, kind, payload, ttl) =>
      s.(flows := Store.SetSession(s.flows, |s.born|, Key(owner), kind, payload, ttl, s.clock),
         born := s.born + [Store.NewFlow(|s.born|, Key(owner), kind, payload, ttl, s.clock)])
    case Drop(owner, kind) => s.(flows := Store.ClearSession(s.flows, Key(owner), kind))
    case PurgeFlows => s.(flows := Store.PurgeSession(s.flows, s.clock))
    case PurgeUsage(age) =>
      if age < cfg.window then s else s.(usage := s.usage.(kept := KeepSince(s.usage.kept, s.clock - age)))
    case _ => if step.w < |s.turns| then TurnStep(cfg, s, step.w, step) else s
  }

  function Run(cfg: Settings, s: State, steps: seq<Step>): State {
    if steps == [] then s else Apply(cfg, Run(cfg, s, steps[..|steps| - 1]), steps[|steps| - 1])
  }

  predicate Initial(s: State) {
    && s.flows == [] && s.born == [] && s.wins == [] && s.usage == History([], [])
    && forall w | 0 <= w < |s.turns| :: s.turns[w] == Idle
  }

  // ---- claims ----

  predicate WinOk(win: Win, born: seq<Store.Flow>) {
    && win.flow < |born|
    && born[win.flow].kind == FlowKind(win.kind)
    && !Store.ExpiredAt(born[win.flow], win.readAt)
    && (win.ran.Some? ==> win.recorded)
    && (win.recorded ==> win.approve)
    && win.peeked < |born|
    && (win.ran.Some? ==>
      win.ran.value == born[if win.kind == ExecutionStart then win.flow else win.peeked].payload)
  }

  predicate TurnOk(turn: Turn, born: seq<Store.Flow>, wins: seq<Win>) {
    (turn.Idle? || ReplyOk(turn.reply, born)) &&
    match turn
    case Reading(reply, _, flow, readAt) =>
      && flow.id < |born| && flow == born[flow.id] && flow.kind == FlowKind(reply.kind)
      && !Store.ExpiredAt(flow, readAt)
    case Holding(reply, _, win, claimed) =>
      && win < |wins| && reply.approve && wins[win].approve && wins[win].kind == reply.kind
      && !wins[win].recorded && wins[win].ran.None? && wins[win].peeked == reply.peeked
      && wins[win].flow < |born| && claimed == born[wins[win].flow].payload
    case Charged(reply, win, claimed) =>
      && win < |wins| && wins[win].approve && wins[win].kind == reply.kind
      && wins[win].recorded && wins[win].ran.None? && wins[win].peeked == reply.peeked
      && wins[win].flow < |born| && claimed == born[wins[win].flow].payload
    case _ => true
  }

  predicate ReplyOk(reply: Reply, born: seq<Store.Flow>) {
    reply.peeked < |born| && reply.payload == born[reply.peeked].payload
  }

  predicate HasWin(turn: Turn) {
    turn.Holding? || turn.Charged?
  }

  /** Every claim is of a different flow, and a claimed flow is pending no more. */
  predicate ClaimsOk(s: State) {
    && (forall i | 0 <= i < |s.wins| :: WinOk(s.wins[i], s.born))
    && (forall i, j | 0 <= i < j < |s.wins| :: s.wins[i].flow != s.wins[j].flow)
    && (forall f, i | f in s.flows && 0 <= i < |s.wins| && s.wins[i].flow == f.id :: f.status == Store.Consumed)
  }

  predicate TurnsOk(s: State) {
    && (forall w | 0 <= w < |s.turns| :: TurnOk(s.turns[w], s.born, s.wins))
    && (forall w, v | 0 <= w < v < |s.turns| && HasWin(s.turns[w]) && HasWin(s.turns[v]) ::
      s.turns[w].win != s.turns[v].win)
  }

  function CountRecorded(wins: seq<Win>): nat {
    if wins == [] then 0 else CountRecorded(wins[..|wins| - 1]) + if wins[|wins| - 1].recorded then 1 else 0
  }

  predicate FlowInv(cfg: Settings, s: State) {
    && Store.TableOk(s.flows, s.born) && ClaimsOk(s) && TurnsOk(s)
    && (cfg.enabled ==> |s.usage.ever| == CountRecorded(s.wins))
  }

  lemma {:induction false} RecordedOfChange(wins: seq<Win>, i: nat, win: Win)
    requires i < |wins|
    ensures CountRecorded(wins[i := win]) + (if wins[i].recorded then 1 else 0)
      == CountRecorded(wins) + if win.recorded then 1 else 0
  {
    var n := |wins| - 1;
    if i == n {
      assert wins[i := win][..n] == wins[..n];
    } else {
      assert wins[i := win][..n] == wins[..n][i := win];
      RecordedOfChange(wins[..n], i, win);
    }
  }

  /** The store may lose rows and gain newly born ones; nothing claimed comes back. */
  lemma {:induction false} StoreStepKeepsFlows(cfg: Settings, s: State, flows: Store.Table, born: seq<Store.Flow>)
    requires FlowInv(cfg, s)
    requires s.born <= born && Store.TableOk(flows, born)
    requires forall f | f in flows :: f in s.flows || f.id >= |s.born|
    ensures FlowInv(cfg, s.(flows := flows, born := born))
  {
  }

  lemma {:induction false} OfferKeepsFlows(cfg: Settings, s: State, owner: string, kind: string, payload: string,
                                           ttl: nat)
    requires FlowInv(cfg, s)
    ensures FlowInv(cfg, Apply(cfg, s, Offer(owner, kind, payload, ttl)))
  {
    Store.SetKeeps(s.flows, s.born, Key(owner), kind, payload, ttl, s.clock);
    var flow := Store.NewFlow(|s.born|, Key(owner), kind, payload, ttl, s.clock);
    StoreStepKeepsFlows(cfg, s, Store.SetSession(s.flows, |s.born|, Key(owner), kind, payload, ttl, s.clock), s.born + [flow]);
  }

  lemma {:induction false} DeleteKeepsFlows(cfg: Settings, s: State, keep: Store.Flow -> bool)
    requires FlowInv(cfg, s)
    ensures FlowInv(cfg, s.(flows := Store.Filter(s.flows, keep)))
  {
    Store.FilterHas(s.flows, keep);
    Store.FilterKeeps(s.flows, keep, s.born);
    StoreStepKeepsFlows(cfg, s, Store.Filter(s.flows, keep), s.born);
  }

  lemma {:induction false} MoveKeepsFlows(cfg: Settings, s: State, w: nat, turn: Turn)
    requires FlowInv(cfg, s) && w < |s.turns| && !HasWin(turn) && TurnOk(turn, s.born, s.wins)
    ensures FlowInv(cfg, WithTurn(s, w, turn))
  {
  }

  lemma {:induction false} ReadKeepsFlows(cfg: Settings, s: State, w: nat)
    requires FlowInv(cfg, s) && w < |s.turns|
    ensures FlowInv(cfg, Apply(cfg, s, Read(w)))
  {
    var turn := s.turns[w];
    if turn.Cleared? {
      var row := Store.ReadSession(s.flows, Key(turn.reply.owner), FlowKind(turn.reply.kind), s.clock);
      if row.Some? {
        MoveKeepsFlows(cfg, s, w, Reading(turn.reply, turn.checkedAt, row.value, s.clock));
      } else {
        MoveKeepsFlows(cfg, s, w, Idle);
      }
    }
  }

  lemma {:induction false} TakeKeepsFlows(cfg: Settings, s: State, w: nat)
    requires FlowInv(cfg, s) && w < |s.turns|
    ensures FlowInv(cfg, Apply(cfg, s, Take(w)))
  {
    var turn := s.turns[w];
    if turn.Reading? {
      assert TurnOk(turn, s.born, s.wins);
      var (flows, won) := Store.TakeSession(s.flows, turn.flow.id);
      if won {
        var win := Win(turn.flow.id, turn.reply.peeked, turn.reply.kind, turn.readAt, turn.reply.approve, false, None);
        var next := if turn.reply.approve then Holding(turn.reply, turn.checkedAt, |s.wins|, turn.flow.payload) else Idle;
        Store.TakeKeeps(s.flows, turn.flow.id, s.born);
        TakenStaysOut(s.flows, turn.flow.id, s.wins);
        WinKeepsFlows(cfg, s, w, flows, win, next);
      } else {
        assert flows == s.flows by {
          forall k | 0 <= k < |flows| ensures flows[k] == s.flows[k] {
            assert s.flows[k] in s.flows;
          }
        }
        MoveKeepsFlows(cfg, s, w, Idle);
      }
    }
  }

  /** A new claim enters the ledger: its flow was pending until now. */
  lemma {:induction false} WinKeepsFlows(cfg: Settings, s: State, w: nat, flows: Store.Table, win: Win, turn: Turn)
    requires FlowInv(cfg, s) && w < |s.turns|
    requires Store.TableOk(flows, s.born) && Store.CanTake(s.flows, win.flow)
    requires forall f | f in flows && f.id == win.flow :: f.status == Store.Consumed
    requires forall f, i | f in flows && 0 <= i < |s.wins| && s.wins[i].flow == f.id :: f.status == Store.Consumed
    requires WinOk(win, s.born) && !win.recorded
    requires TurnOk(turn, s.born, s.wins + [win]) && (HasWin(turn) ==> turn.win == |s.wins|)
    ensures FlowInv(cfg, s.(flows := flows, wins := s.wins + [win], turns := s.turns[w := turn]))
  {
    var wins := s.wins + [win];
    assert wins[..|s.wins|] == s.wins;
    forall i | 0 <= i < |s.wins| ensures s.wins[i].flow != win.flow {
      var f :| f in s.flows && f.id == win.flow && f.status == Store.Pending;
    }
    forall v | 0 <= v < |s.turns| && v != w
      ensures TurnOk(s.turns[v], s.born, wins) && (HasWin(s.turns[v]) ==> s.turns[v].win < |s.wins|)
    {
      assert TurnOk(s.turns[v], s.born, s.wins);
    }
  }

  lemma {:induction false} TakenStaysOut(t: Store.Table, id: nat, wins: seq<Win>)
    requires forall f, i | f in t && 0 <= i < |wins| && wins[i].flow == f.id :: f.status == Store.Consumed
    ensures forall f, i | f in Store.FlipAt(t, id) && 0 <= i < |wins| && wins[i].flow == f.id :: f.status == Store.Consumed
  {
    forall f, i | f in Store.FlipAt(t, id) && 0 <= i < |wins| && wins[i].flow == f.id
      ensures f.status == Store.Consumed
    {
      var k :| 0 <= k < |t| && Store.FlipAt(t, id)[k] == f;
      assert t[k] in t;
    }
  }

  /** A usage record appears exactly when a claim becomes recorded. */
  predicate Grows(before: History, after: History, prior: Win, next: Win) {
    |after.ever| + (if prior.recorded then 1 else 0) == |before.ever| + if next.recorded then 1 else 0
  }

  /** The holder `w` of a claim enters `win` for it and moves on to `turn`. */
  function WithWin(s: State, w: nat, win: Win, turn: Turn, usage: History): State
    requires w < |s.turns| && HasWin(s.turns[w]) && s.turns[w].win < |s.wins|
  {
    s.(wins := s.wins[s.turns[w].win := win], turns := s.turns[w := turn], usage := usage)
  }

  lemma {:induction false} LedgerKeepsClaims(s: State, w: nat, win: Win, turn: Turn, usage: History)
    requires w < |s.turns| && HasWin(s.turns[w]) && s.turns[w].win < |s.wins|
    requires ClaimsOk(s) && win.flow == s.wins[s.turns[w].win].flow && WinOk(win, s.born)
    ensures ClaimsOk(WithWin(s, w, win, turn, usage))
  {
  }

  lemma {:induction false} LedgerKeepsTurns(s: State, w: nat, win: Win, turn: Turn, usage: History)
    requires w < |s.turns| && HasWin(s.turns[w]) && s.turns[w].win < |s.wins|
    requires TurnsOk(s) && (HasWin(turn) ==> turn.win == s.turns[w].win)
    requires TurnOk(turn, s.born, s.wins[s.turns[w].win := win])
    ensures TurnsOk(WithWin(s, w, win, turn, usage))
  {
    forall v | 0 <= v < |s.turns| && v != w ensures TurnOk(s.turns[v], s.born, s.wins[s.turns[w].win := win]) {
      assert TurnOk(s.turns[v], s.born, s.wins);
    }
  }

  lemma {:induction false} LedgerKeepsFlows(cfg: Settings, s: State, w: nat, win: Win, turn: Turn, usage: History)
    requires FlowInv(cfg, s) && w < |s.turns| && HasWin(s.turns[w])
    requires var k := s.turns[w].win;
      && k < |s.wins| && win.flow == s.wins[k].flow && WinOk(win, s.born)
      && (HasWin(turn) ==> turn.win == k) && TurnOk(turn, s.born, s.wins[k := win])
      && (cfg.enabled ==> Grows(s.usage, usage, s.wins[k], win))
    ensures FlowInv(cfg, WithWin(s, w, win, turn, usage))
  {
    RecordedOfChange(s.wins, s.turns[w].win, win);
    LedgerKeepsClaims(s, w, win, turn, usage);
    LedgerKeepsTurns(s, w, win, turn, usage);
  }

  lemma {:induction false} ChargeKeepsFlows(cfg: Settings, s: State, w: nat)
    requires FlowInv(cfg, s) && w < |s.turns|
    ensures FlowInv(cfg, Apply(cfg, s, Charge(w)))
  {
    var turn := s.turns[w];
    if turn.Holding? {
      assert TurnOk(turn, s.born, s.wins) && WinOk(s.wins[turn.win], s.born);
      LedgerKeepsFlows(cfg, s, w, s.wins[turn.win].(recorded := true), Charged(turn.reply, turn.win, turn.claimed),
                       Apply(cfg, s, Charge(w)).usage);
    }
  }

  lemma {:induction false} ExecuteKeepsFlows(cfg: Settings, s: State, w: nat)
    requires FlowInv(cfg, s) && w < |s.turns|
    ensures FlowInv(cfg, Apply(cfg, s, Execute(w)))
  {
    var turn := s.turns[w];
    if turn.Charged? {
      assert TurnOk(turn, s.born, s.wins) && WinOk(s.wins[turn.win], s.born);
      LedgerKeepsFlows(cfg, s, w, s.wins[turn.win].(ran := Some(WhatRuns(turn.reply, turn.claimed))), Idle, s.usage);
    }
  }

  lemma {:induction false} LookKeepsFlows(cfg: Settings, s: State, w: nat, step: Step)
    requires FlowInv(cfg, s) && w < |s.turns| && (step.Peek? || step.Check?) && step.w == w
    ensures FlowInv(cfg, Apply(cfg, s, step))
  {
    var s' := Apply(cfg, s, step);
    if s' != s {
      MoveKeepsFlows(cfg, s, w, s'.turns[w]);
    }
  }

  lemma {:induction false} StepKeepsFlows(cfg: Settings, s: State, step: Step)
    requires FlowInv(cfg, s)
    ensures FlowInv(cfg, Apply(cfg, s, step))
  {
    match step
    case Tick(_) =>
    case Offer(owner, kind, payload, ttl) => OfferKeepsFlows(cfg, s, owner, kind, payload, ttl);
    case Drop(owner, kind) =>
      DeleteKeepsFlows(cfg, s, (f: Store.Flow) => !(f.key == Key(owner) && f.kind == kind));
    case PurgeFlows => DeleteKeepsFlows(cfg, s, (f: Store.Flow) => !Store.ExpiredAt(f, s.clock));
    case PurgeUsage(_) =>
    case Peek(w, _, _, _) => if w < |s.turns| { LookKeepsFlows(cfg, s, w, step); }
    case Check(w, _) => if w < |s.turns| { LookKeepsFlows(cfg, s, w, step); }
    case Read(w) => if w < |s.turns| { ReadKeepsFlows(cfg, s, w); }
    case Take(w) => if w < |s.turns| { TakeKeepsFlows(cfg, s, w); }
    case Charge(w) => if w < |s.turns| { ChargeKeepsFlows(cfg, s, w); }
    case Execute(w) => if w < |s.turns| { ExecuteKeepsFlows(cfg, s, w); }
  }

  lemma {:induction false} RunKeepsFlows(cfg: Settings, s: State, steps: seq<Step>)
    requires FlowInv(cfg, s)
    ensures FlowInv(cfg, Run(cfg, s, steps))
  {
    if steps != [] {
      RunKeepsFlows(cfg, s, steps[..|steps| - 1]);
      StepKeepsFlows(cfg, Run(cfg, s, steps[..|steps| - 1]), steps[|steps| - 1]);
    }
  }

  /** Each flow is approved at most once: over every interleaving of turns, offers, drops and
    * purges, claims are of different flows, none had expired when it was read, and only an
    * approval that was charged ran anything: a plan runs the payload of the very flow it
    * claimed, an artifact or action the payload of the flow its turn had peeked. */
  lemma {:induction false} ExactlyOnceApproval(cfg: Settings, start: State, steps: seq<Step>, i: nat, j: nat)
    requires Initial(start) && i < |Run(cfg, start, steps).wins| && j < |Run(cfg, start, steps).wins|
    ensures var s := Run(cfg, start, steps);
      && (s.wins[i].flow == s.wins[j].flow ==> i == j)
      && WinOk(s.wins[i], s.born)
  {
    RunKeepsFlows(cfg, start, steps);
  }

  /** There is never more than one pending flow for a key and kind. */
  lemma {:induction false} OnePendingPerKey(cfg: Settings, start: State, steps: seq<Step>, i: nat, j: nat)
    requires Initial(start)
    requires var t := Run(cfg, start, steps).flows;
      && i < |t| && j < |t| && t[i].status == t[j].status == Store.Pending
      && t[i].key == t[j].key && t[i].kind == t[j].kind
    ensures i == j
  {
    RunKeepsFlows(cfg, start, steps);
  }

  /** With quotas on, the usage records ever made are exactly the charged claims. */
  lemma {:induction false} OneRecordPerCharge(cfg: Settings, start: State, steps: seq<Step>)
    requires Initial(start) && cfg.enabled
    ensures |Run(cfg, start, steps).usage.ever| == CountRecorded(Run(cfg, start, steps).wins)
  {
    RunKeepsFlows(cfg, start, steps);
  }

  /** A purge of the usage records forgets exactly those older than the age, and counts ever made. */
  lemma {:induction false} PurgeTells(cfg: Settings, s: State, age: nat, r: UsageRecord)
    requires age >= cfg.window
    ensures var s' := Apply(cfg, s, PurgeUsage(age));
      && s' == s.(usage := History(s'.usage.kept, s.usage.ever))
      && (r in s'.usage.kept <==> r in s.usage.kept && r.at >= s.clock - age)
  {
    KeepSinceKeeps(s.usage.kept, s.clock - age);
  }

  /** What a charge does, and what it leaves: one record for the reply's owner and kind, stamped
    * with the present, and the claim marked. */
  lemma {:induction false} ChargeTells(cfg: Settings, s: State, w: nat)
    requires FlowInv(cfg, s) && w < |s.turns| && s.turns[w].Holding?
    ensures var reply, win, s' := s.turns[w].reply, s.turns[w].win, Apply(cfg, s, Charge(w));
      && s'.usage.ever == s.usage.ever + (if cfg.enabled then [UsageRecord(reply.owner, reply.kind, s.clock)] else [])
      && s'.usage.kept == s.usage.kept + (if cfg.enabled then [UsageRecord(reply.owner, reply.kind, s.clock)] else [])
      && s'.wins == s.wins[win := s.wins[win].(recorded := true)]
      && s'.flows == s.flows && s'.turns[w] == Charged(reply, win, s.turns[w].claimed)
  {
    assert TurnOk(s.turns[w], s.born, s.wins);
  }

  // ---- the quota under races ----

  /** A turn that passed its check and has not been charged yet, if its check is no later
    * than `hi`. */
  predicate Owes(turn: Turn, owner: string, kind: Kind, hi: int) {
    && (turn.Cleared? || turn.Reading? || turn.Holding?)
    && turn.reply.approve && turn.reply.owner == owner && turn.reply.kind == kind && turn.checkedAt <= hi
  }

  function Owing(turns: seq<Turn>, owner: string, kind: Kind, hi: int): nat {
    if turns == [] then 0
    else
      var last := |turns| - 1;
      Owing(turns[..last], owner, kind, hi) + if Owes(turns[last], owner, kind, hi) then 1 else 0
  }

  lemma {:induction false} OwingOfChange(turns: seq<Turn>, w: nat, turn: Turn, owner: string, kind: Kind, hi: int)
    requires w < |turns|
    ensures Owing(turns[w := turn], owner, kind, hi) + (if Owes(turns[w], owner, kind, hi) then 1 else 0)
      == Owing(turns, owner, kind, hi) + if Owes(turn, owner, kind, hi) then 1 else 0
    ensures Owing(turns, owner, kind, hi) <= |turns|
    ensures Owing(turns[w := turn], owner, kind, hi) <= |turns|
  {
    var n := |turns| - 1;
    OwingAtMostAll(turns, owner, kind, hi);
    OwingAtMostAll(turns[w := turn], owner, kind, hi);
    if w == n {
      assert turns[w := turn][..n] == turns[..n];
    } else {
      assert turns[w := turn][..n] == turns[..n][w := turn];
      OwingOfChange(turns[..n], w, turn, owner, kind, hi);
    }
  }

  lemma {:induction false} OwingAtMostAll(turns: seq<Turn>, owner: string, kind: Kind, hi: int)
    ensures Owing(turns, owner, kind, hi) <= |turns|
  {
    if turns != [] {
      OwingAtMostAll(turns[..|turns| - 1], owner, kind, hi);
    }
  }

  /** What one window holds, plus what turns in flight may still add to it. */
  function Load(s: State, cfg: Settings, owner: string, kind: Kind, lo: int): nat {
    CountWithin(s.usage.ever, owner, kind, lo, lo + cfg.window) + Owing(s.turns, owner, kind, lo + cfg.window)
  }

  /** No window ever holds more than the limit and one less than the turns at work. */
  function Ceiling(s: State, cfg: Settings, owner: string, kind: Kind): int {
    LimitFor(cfg, owner, kind) + |s.turns| - 1
  }

  /** What was purged is too old to count. */
  ghost predicate KeptCounts(u: History, window: int, clock: int) {
    forall owner, kind, cutoff | cutoff >= clock - window ::
      CountSince(u.kept, owner, kind, cutoff) == CountSince(u.ever, owner, kind, cutoff)
  }

  predicate ChecksPast(turns: seq<Turn>, clock: int) {
    forall w | 0 <= w < |turns| && (turns[w].Cleared? || turns[w].Reading? || turns[w].Holding?) ::
      turns[w].checkedAt <= clock
  }

  ghost predicate UsageOk(cfg: Settings, s: State) {
    KeptCounts(s.usage, cfg.window, s.clock) && ChecksPast(s.turns, s.clock)
  }

  lemma {:induction false} PurgeKeepsCounts(u: History, window: int, clock: int, before: int)
    requires KeptCounts(u, window, clock) && before <= clock - window
    ensures KeptCounts(u.(kept := KeepSince(u.kept, before)), window, clock)
  {
    forall owner, kind, cutoff | cutoff >= clock - window
      ensures CountSince(KeepSince(u.kept, before), owner, kind, cutoff) == CountSince(u.ever, owner, kind, cutoff)
    {
      PurgeKeepsCount(u.kept, before, owner, kind, cutoff);
    }
  }

  lemma {:induction false} RecordKeepsCounts(u: History, window: int, clock: int, r: UsageRecord)
    requires KeptCounts(u, window, clock)
    ensures KeptCounts(u.(kept := u.kept + [r], ever := u.ever + [r]), window, clock)
  {
    forall owner, kind, cutoff | cutoff >= clock - window
      ensures CountSince(u.kept + [r], owner, kind, cutoff) == CountSince(u.ever + [r], owner, kind, cutoff)
    {
      CountSnoc(u.kept, r, owner, kind, cutoff);
      CountSnoc(u.ever, r, owner, kind, cutoff);
    }
  }

  lemma {:induction false} StepKeepsUsage(cfg: Settings, s: State, step: Step)
    requires UsageOk(cfg, s)
    ensures UsageOk(cfg, Apply(cfg, s, step))
  {
    if step.PurgeUsage? && step.age >= cfg.window {
      PurgeKeepsCounts(s.usage, cfg.window, s.clock, s.clock - step.age);
    } else if step.Charge? && step.w < |s.turns| && s.turns[step.w].Holding? {
      var reply := s.turns[step.w].reply;
      RecordKeepsCounts(s.usage, cfg.window, s.clock, UsageRecord(reply.owner, reply.kind, s.clock));
    }
  }

  /** A turn that passes its check fits every window its record could fall in. */
  lemma {:induction false} PassedCheckFits(ever: seq<UsageRecord>, turns: seq<Turn>, w: nat, turn: Turn,
                        owner: string, kind: Kind, lo: int, hi: int, cutoff: int, limit: nat)
    requires w < |turns|
    requires CountWithin(ever, owner, kind, lo, hi) + Owing(turns, owner, kind, hi) <= limit + |turns| - 1
    requires Owes(turn, owner, kind, hi) ==> cutoff <= lo && CountSince(ever, owner, kind, cutoff) < limit
    ensures CountWithin(ever, owner, kind, lo, hi) + Owing(turns[w := turn], owner, kind, hi) <= limit + |turns| - 1
  {
    OwingOfChange(turns, w, turn, owner, kind, hi);
    if Owes(turn, owner, kind, hi) {
      WithinAtMostSince(ever, owner, kind, lo, hi, cutoff);
    }
  }

  /** What a check does to its turn, and to nothing else. */
  lemma {:induction false} CheckMoves(cfg: Settings, s: State, w: nat, permitted: bool, owner: string, kind: Kind,
                                      hi: int)
    requires cfg.enabled && w < |s.turns| && s.turns[w].Peeked?
    ensures var s' := Apply(cfg, s, Check(w, permitted));
      && |s'.turns| == |s.turns| && s' == s.(turns := s.turns[w := s'.turns[w]])
      && (Owes(s'.turns[w], owner, kind, hi) ==>
        s.clock <= hi && CountSince(s.usage.kept, owner, kind, s.clock - cfg.window) < LimitFor(cfg, owner, kind))
  {
  }

  lemma {:induction false} CheckKeepsLoad(cfg: Settings, s: State, w: nat, permitted: bool, owner: string,
                                          kind: Kind, lo: int)
    requires KeptCounts(s.usage, cfg.window, s.clock) && cfg.enabled && w < |s.turns| && s.turns[w].Peeked?
    requires Load(s, cfg, owner, kind, lo) <= Ceiling(s, cfg, owner, kind)
    ensures Load(Apply(cfg, s, Check(w, permitted)), cfg, owner, kind, lo) <= Ceiling(s, cfg, owner, kind)
  {
    var hi, turn := lo + cfg.window, Apply(cfg, s, Check(w, permitted)).turns[w];
    CheckMoves(cfg, s, w, permitted, owner, kind, hi);
    PassedCheckFits(s.usage.ever, s.turns, w, turn, owner, kind, lo, hi, s.clock - cfg.window,
                    LimitFor(cfg, owner, kind));
  }

  lemma {:induction false} ChargedWithin(rows: seq<UsageRecord>, r: UsageRecord, owner: string, kind: Kind, lo: int,
                                         hi: int)
    ensures CountWithin(rows + [r], owner, kind, lo, hi) == CountWithin(rows, owner, kind, lo, hi) +
      if Matches(r, owner, kind, lo) && r.at <= hi then 1 else 0
  {
    assert (rows + [r])[..|rows|] == rows;
  }

  lemma {:induction false} ChargeKeepsLoad(cfg: Settings, s: State, w: nat, owner: string, kind: Kind, lo: int)
    requires cfg.enabled && w < |s.turns|
    requires s.turns[w].Holding? ==> s.turns[w].reply.approve && s.turns[w].checkedAt <= s.clock
    requires Load(s, cfg, owner, kind, lo) <= Ceiling(s, cfg, owner, kind)
    ensures Load(Apply(cfg, s, Charge(w)), cfg, owner, kind, lo) <= Ceiling(s, cfg, owner, kind)
  {
    var hi, s' := lo + cfg.window, Apply(cfg, s, Charge(w));
    if s' != s {
      OwingOfChange(s.turns, w, s'.turns[w], owner, kind, hi);
      ChargedWithin(s.usage.ever, UsageRecord(s.turns[w].reply.owner, s.turns[w].reply.kind, s.clock), owner, kind, lo, hi);
    }
  }

  /** A step other than a check or a charge owes no more than before and records nothing. */
  lemma {:induction false} OtherOwesNoMore(cfg: Settings, s: State, step: Step, w: nat, owner: string, kind: Kind,
                                           hi: int)
    requires !step.Check? && !step.Charge? && w < |s.turns|
    ensures var s' := Apply(cfg, s, step);
      && |s'.turns| == |s.turns|
      && (Owes(s'.turns[w], owner, kind, hi) ==> Owes(s.turns[w], owner, kind, hi))
  {
  }

  lemma {:induction false} OtherRecordsNothing(cfg: Settings, s: State, step: Step)
    requires !step.Charge?
    ensures Apply(cfg, s, step).usage.ever == s.usage.ever
  {
  }

  lemma {:induction false} OwingMonotone(turns: seq<Turn>, next: seq<Turn>, owner: string, kind: Kind, hi: int)
    requires |next| == |turns|
    requires forall w | 0 <= w < |turns| && Owes(next[w], owner, kind, hi) :: Owes(turns[w], owner, kind, hi)
    ensures Owing(next, owner, kind, hi) <= Owing(turns, owner, kind, hi)
  {
    if turns != [] {
      OwingMonotone(turns[..|turns| - 1], next[..|turns| - 1], owner, kind, hi);
    }
  }

  lemma {:induction false} OtherKeepsLoad(cfg: Settings, s: State, step: Step, owner: string, kind: Kind, lo: int)
    requires !step.Check? && !step.Charge?
    ensures Load(Apply(cfg, s, step), cfg, owner, kind, lo) <= Load(s, cfg, owner, kind, lo)
  {
    var hi, s' := lo + cfg.window, Apply(cfg, s, step);
    TurnsStay(cfg, s, step);
    OtherRecordsNothing(cfg, s, step);
    forall w | 0 <= w < |s.turns| && Owes(s'.turns[w], owner, kind, hi) ensures Owes(s.turns[w], owner, kind, hi) {
      OtherOwesNoMore(cfg, s, step, w, owner, kind, hi);
    }
    OwingMonotone(s.turns, s'.turns, owner, kind, hi);
  }

  lemma {:induction false} StepKeepsLoad(cfg: Settings, s: State, step: Step, owner: string, kind: Kind, lo: int)
    requires FlowInv(cfg, s) && UsageOk(cfg, s) && cfg.enabled
    requires Load(s, cfg, owner, kind, lo) <= Ceiling(s, cfg, owner, kind)
    ensures Load(Apply(cfg, s, step), cfg, owner, kind, lo) <= Ceiling(s, cfg, owner, kind)
  {
    if !step.Check? && !step.Charge? {
      OtherKeepsLoad(cfg, s, step, owner, kind, lo);
    } else if step.w >= |s.turns| {
      assert Apply(cfg, s, step) == s;
    } else if step.Check? {
      if s.turns[step.w].Peeked? {
        CheckKeepsLoad(cfg, s, step.w, step.permitted, owner, kind, lo);
      } else {
        assert Apply(cfg, s, step) == s;
      }
    } else {
      assert TurnOk(s.turns[step.w], s.born, s.wins);
      ChargeKeepsLoad(cfg, s, step.w, owner, kind, lo);
    }
  }

  lemma {:induction false} LoadStaysUnderCeiling(cfg: Settings, start: State, steps: seq<Step>, owner: string,
                                                 kind: Kind, lo: int)
    requires Initial(start) && cfg.enabled && start.turns != []
    ensures UsageOk(cfg, Run(cfg, start, steps)) && |Run(cfg, start, steps).turns| == |start.turns|
    ensures Load(Run(cfg, start, steps), cfg, owner, kind, lo) <= Ceiling(start, cfg, owner, kind)
  {
    if steps == [] {
      NobodyOwes(start.turns, owner, kind, lo + cfg.window);
    } else {
      var init, step := steps[..|steps| - 1], steps[|steps| - 1];
      var s := Run(cfg, start, init);
      LoadStaysUnderCeiling(cfg, start, init, owner, kind, lo);
      RunKeepsFlows(cfg, start, init);
      StepKeepsUsage(cfg, s, step);
      StepKeepsLoad(cfg, s, step, owner, kind, lo);
      TurnsStay(cfg, s, step);
    }
  }

  /** With any number of turns at work at once, every closed interval of the window's length
    * holds at most the limit plus one less than that number; a single turn at a time never
    * exceeds the limit. */
  lemma {:induction false} QuotaUnderRaces(cfg: Settings, start: State, steps: seq<Step>, owner: string, kind: Kind,
                                           lo: int)
    requires Initial(start) && cfg.enabled && start.turns != []
    ensures CountWithin(Run(cfg, start, steps).usage.ever, owner, kind, lo, lo + cfg.window)
      <= LimitFor(cfg, owner, kind) + |start.turns| - 1
  {
    LoadStaysUnderCeiling(cfg, start, steps, owner, kind, lo);
  }

  lemma {:induction false} TurnsStay(cfg: Settings, s: State, step: Step)
    ensures |Apply(cfg, s, step).turns| == |s.turns|
  {
  }

  lemma {:induction false} NobodyOwes(turns: seq<Turn>, owner: string, kind: Kind, hi: int)
    requires forall w | 0 <= w < |turns| :: turns[w] == Idle
    ensures Owing(turns, owner, kind, hi) == 0
  {
    if turns != [] {
      NobodyOwes(turns[..|turns| - 1], owner, kind, hi);
    }
  }
}
