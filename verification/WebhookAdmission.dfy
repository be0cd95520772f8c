/** Which alerts a routing sweep turns into deliveries, in terms of the alert, the destination
  * and the deliveries that were there; and what one send makes of a delivery. */
module WebhookAdmission {
  import opened Wrappers
  import opened Webhooks
  import opened WebhookRouting
  import opened WebhookRuns

  // ---- the conditions ----

  /** Info is below warning and warning below critical; a floor of any other name is a warning,
    * and an alert of any other severity is below it. */
  predicate AtFloor(severity: string, floor: string) {
    || floor == "info"
    || severity == "critical"
    || (floor != "critical" && severity == "warning")
  }

  predicate InFilter(policy: Policy, classification: string) {
    policy.alertFilter.None? || policy.alertFilter.value == {} || classification in policy.alertFilter.value
  }

  /** The condition has been seen as often as an escalating destination asks for. */
  predicate Persistent(policy: Policy, count: nat) {
    policy.escalateAfter.Some? ==> policy.escalateAfter.value <= count
  }

  /** Delivery `i` is the newest for its destination and signal. */
  predicate NewestFor(rows: seq<Delivery>, key: Key, i: nat) {
    i < |rows| && rows[i].key == Some(key) && forall j | i < j < |rows| :: rows[j].key != Some(key)
  }

  predicate NothingOpen(rows: seq<Delivery>, key: Key) {
    forall i | 0 <= i < |rows| && NewestFor(rows, key, i) :: rows[i].status != Pending
  }

  /** The newest delivery was for the same severity, less than the window ago. */
  predicate TooSoon(rows: seq<Delivery>, key: Key, severity: string, now: int, window: int) {
    exists i :: 0 <= i < |rows| && NewestFor(rows, key, i) && rows[i].severity == severity && now < rows[i].createdAt + window
  }

  function WindowOf(policy: Policy, cfg: Settings): int {
    match policy.suppressSeconds
    case Some(own) => own
    case None => cfg.suppressSeconds
  }

  /** The alert is meant for the destination: not silenced, at its floor, in its filter, and
    * persistent enough; and nothing is under way for it there. */
  predicate Wanted(s: Sweep, d: nat, policy: Policy, alert: Alert)
    requires alert.Signal() in s.occ
  {
    && alert.Signal() !in s.silenced
    && AtFloor(alert.severity, policy.minSeverity) && InFilter(policy, alert.classification)
    && Persistent(policy, s.occ[alert.Signal()].count)
    && NothingOpen(s.rows, Key(d, alert.Signal()))
  }

  predicate Early(s: Sweep, d: nat, policy: Policy, alert: Alert) {
    && WindowOf(policy, s.cfg) > 0
    && TooSoon(s.rows, Key(d, alert.Signal()), alert.severity, s.now, WindowOf(policy, s.cfg))
  }

  predicate Takes(dest: Destination, now: int) {
    && dest.present && dest.policy.enabled && dest.policy.subscription in {Alerts, Both}
    && (dest.cooldownUntil.Some? ==> dest.cooldownUntil.value <= now)
  }

  // ---- the decision meets them ----

  lemma {:induction false} FloorIffRank(severity: string, floor: string)
    ensures AtFloor(severity, floor) <==> Rank(severity, 0) >= Rank(floor, 1)
  {
  }

  lemma {:induction false} NewestIsLatest(rows: seq<Delivery>, key: Key, i: nat)
    requires i < |rows|
    ensures NewestFor(rows, key, i) <==> Latest(rows, key) == Some(i)
  {
  }

  lemma {:induction false} LastTells(s: Sweep, key: Key, severity: string, window: int)
    ensures NothingOpen(s.rows, key) <==> !(Last(s, key).Some? && Last(s, key).value.status == Pending)
    ensures TooSoon(s.rows, key, severity, s.now, window) <==>
      Last(s, key).Some? && Last(s, key).value.severity == severity && s.now - Last(s, key).value.createdAt < window
  {
    var last := Latest(s.rows, key);
    forall i | 0 <= i < |s.rows| ensures NewestFor(s.rows, key, i) <==> last == Some(i) {
      NewestIsLatest(s.rows, key, i);
    }
    if last.Some? {
      assert NewestFor(s.rows, key, last.value);
    }
  }

  /** An alert is routed when it is wanted and not too early, and suppressed when it is wanted
    * but too early. */
  lemma {:induction false} FateTells(s: Sweep, d: nat, policy: Policy, alert: Alert)
    requires alert.Signal() in s.occ
    ensures Fate(s, d, policy, alert) == Mute <==> alert.Signal() in s.silenced
    ensures Routes(s, d, policy, alert) <==> Wanted(s, d, policy, alert) && !Early(s, d, policy, alert)
    ensures Fate(s, d, policy, alert) == Suppress <==> Wanted(s, d, policy, alert) && Early(s, d, policy, alert)
  {
    FloorIffRank(alert.severity, policy.minSeverity);
    LastTells(s, Key(d, alert.Signal()), alert.severity, WindowOf(policy, s.cfg));
  }

  lemma {:induction false} JudgesIffTakes(s: Sweep, dest: Destination)
    ensures Judges(s, dest) <==> Takes(dest, s.now)
  {
  }

  // ---- every delivery was wanted ----

  /** Row `row` is the delivery of alert `k` to destination `d`. */
  predicate Delivers(s: Sweep, dests: seq<Destination>, alerts: seq<Alert>, row: Delivery, d: nat, k: nat) {
    && d < |dests| && k < |alerts| && Judges(s, dests[d]) && Routes(s, d, dests[d].policy, alerts[k])
    && row == NewDelivery(s, d, dests[d].policy, alerts[k])
  }

  lemma {:induction false} AlertsDeliver(s: Sweep, p: Progress, d: nat, alerts: seq<Alert>, i: nat) returns (k: nat)
    requires d < |p.dests| && |p.added| <= i < |SweepAlerts(s, p, d, alerts).added|
    ensures k < |alerts| && Routes(s, d, p.dests[d].policy, alerts[k])
    ensures SweepAlerts(s, p, d, alerts).added[i] == NewDelivery(s, d, p.dests[d].policy, alerts[k])
  {
    var n := |alerts| - 1;
    AlertsAddUp(s, p, d, alerts[..n]);
    if i < |SweepAlerts(s, p, d, alerts[..n]).added| {
      k := AlertsDeliver(s, p, d, alerts[..n], i);
    } else {
      k := n;
    }
  }

  lemma {:induction false} AlertsKeepAdded(s: Sweep, p: Progress, d: nat, alerts: seq<Alert>)
    requires d < |p.dests|
    ensures p.added <= SweepAlerts(s, p, d, alerts).added
  {
    if alerts != [] {
      AlertsKeepAdded(s, p, d, alerts[..|alerts| - 1]);
    }
  }

  lemma {:induction false} SweepDelivers(s: Sweep, dests: seq<Destination>, alerts: seq<Alert>, n: nat, i: nat)
    returns (d: nat, k: nat)
    requires n <= |dests| && i < |SweepDests(s, dests, alerts, n).added|
    ensures Delivers(s, dests, alerts, SweepDests(s, dests, alerts, n).added[i], d, k)
  {
    var prior := SweepDests(s, dests, alerts, n - 1);
    if i < |prior.added| {
      d, k := SweepDelivers(s, dests, alerts, n - 1, i);
      AlertsKeepAdded(s, prior, n - 1, alerts);
    } else {
      LaterUntouched(s, dests, alerts, n - 1);
      d := n - 1;
      k := AlertsDeliver(s, prior, n - 1, alerts, i);
    }
  }

  /** Every delivery that a sweep adds is of one of its alerts, to a destination that takes
    * alerts and does not cool down, and the alert was wanted there and not too early. */
  lemma {:induction false} DeliveriesAreWanted(t: Tables, alerts: seq<Alert>, silenced: set<string>, now: int,
                                               stamp: int, cfg: Settings, i: nat)
    returns (d: nat, k: nat)
    requires |t.rows| <= i < |RouteSession(t, alerts, silenced, now, stamp, cfg).rows|
    ensures d < |t.dests| && k < |alerts| && Takes(t.dests[d], now)
    ensures var s, a, policy := SweepOf(t, alerts, silenced, now, stamp, cfg), alerts[k], t.dests[d].policy;
      && a.Signal() in s.occ && Wanted(s, d, policy, a) && !Early(s, d, policy, a)
      && s.occ == RouteSession(t, alerts, silenced, now, stamp, cfg).occ
      && RouteSession(t, alerts, silenced, now, stamp, cfg).rows[i] ==
        Delivery(d, Some(Key(d, a.Signal())), a.severity, Pending, 0, None, stamp, WindowOf(policy, cfg))
  {
    var s := SweepOf(t, alerts, silenced, now, stamp, cfg);
    d, k := SweepDelivers(s, t.dests, alerts, |t.dests|, i - |t.rows|);
    assert alerts[k] in alerts;
    JudgesIffTakes(s, t.dests[d]);
    FateTells(s, d, t.dests[d].policy, alerts[k]);
  }

  // ---- every wanted alert is delivered ----

  /** How many alerts are wanted at a destination, and are too early there or not. */
  function NumWanted(s: Sweep, d: nat, policy: Policy, alerts: seq<Alert>, early: bool): nat
    requires forall a | a in alerts :: a.Signal() in s.occ
  {
    if alerts == [] then 0
    else
      var last := alerts[|alerts| - 1];
      NumWanted(s, d, policy, alerts[..|alerts| - 1], early) +
      if Wanted(s, d, policy, last) && Early(s, d, policy, last) == early then 1 else 0
  }

  lemma {:induction false} AlertsCount(s: Sweep, p: Progress, d: nat, alerts: seq<Alert>)
    requires d < |p.dests| && forall a | a in alerts :: a.Signal() in s.occ
    ensures var before, after := p.dests[d], SweepAlerts(s, p, d, alerts).dests[d];
      && after.routed == before.routed + NumWanted(s, d, before.policy, alerts, false)
      && after.suppressed == before.suppressed + NumWanted(s, d, before.policy, alerts, true)
  {
    if alerts != [] {
      var n := |alerts| - 1;
      AlertsCount(s, p, d, alerts[..n]);
      AlertsAddUp(s, p, d, alerts[..n]);
      FateTells(s, d, p.dests[d].policy, alerts[n]);
    }
  }

  lemma {:induction false} SweepCounts(s: Sweep, dests: seq<Destination>, alerts: seq<Alert>, n: nat, d: nat)
    requires d < n <= |dests| && forall a | a in alerts :: a.Signal() in s.occ
    requires Judges(s, dests[d])
    ensures var before, after := dests[d], SweepDests(s, dests, alerts, n).dests[d];
      && after.routed == before.routed + NumWanted(s, d, before.policy, alerts, false)
      && after.suppressed == before.suppressed + NumWanted(s, d, before.policy, alerts, true)
  {
    var prior := SweepDests(s, dests, alerts, n - 1);
    LaterUntouched(s, dests, alerts, n - 1);
    if d == n - 1 {
      AlertsCount(s, prior, d, alerts);
    } else {
      SweepCounts(s, dests, alerts, n - 1, d);
      DestAddsUp(s, prior, n - 1, alerts);
    }
  }

  /** In a sweep that commits, a destination that takes alerts and does not cool down gets
    * exactly one delivery for each alert that is wanted there and not too early, and counts
    * those that are too early as suppressed; any other destination gets none. */
  lemma {:induction false} WantedAreDelivered(t: Tables, alerts: seq<Alert>, silenced: set<string>, now: int,
                                              stamp: int, cfg: Settings, d: nat)
    requires cfg.enabled && alerts != [] && Commits(t.occ, alerts) && d < |t.dests|
    ensures var s, after := SweepOf(t, alerts, silenced, now, stamp, cfg), RouteSession(t, alerts, silenced, now, stamp, cfg);
      var policy := t.dests[d].policy;
      && |after.dests| == |t.dests| && t.rows <= after.rows
      && AddedFor(after.rows[|t.rows|..], d) ==
        (if Takes(t.dests[d], now) then NumWanted(s, d, policy, alerts, false) else 0)
      && after.dests[d].suppressed - t.dests[d].suppressed ==
        (if Takes(t.dests[d], now) then NumWanted(s, d, policy, alerts, true) else 0)
  {
    var s := SweepOf(t, alerts, silenced, now, stamp, cfg);
    DestinationCounters(t, alerts, silenced, now, stamp, cfg, d);
    JudgesIffTakes(s, t.dests[d]);
    if Takes(t.dests[d], now) {
      SweepCounts(s, t.dests, alerts, |t.dests|, d);
    }
  }

  lemma {:induction false} NumWantedHas(s: Sweep, d: nat, policy: Policy, alerts: seq<Alert>, k: nat)
    requires k < |alerts| && forall a | a in alerts :: a.Signal() in s.occ
    requires alerts[k] in alerts && Wanted(s, d, policy, alerts[k]) && !Early(s, d, policy, alerts[k])
    ensures NumWanted(s, d, policy, alerts, false) > 0
  {
    var n := |alerts| - 1;
    if k < n {
      assert alerts[..n][k] in alerts[..n];
      NumWantedHas(s, d, policy, alerts[..n], k);
    }
  }

  /** A first alert for a destination, when it is meant for it, is delivered. */
  lemma {:induction false} FirstAlertIsDelivered(t: Tables, alerts: seq<Alert>, silenced: set<string>, now: int,
                                                 stamp: int, cfg: Settings, d: nat, k: nat)
    requires cfg.enabled && Commits(t.occ, alerts) && d < |t.dests| && k < |alerts| && Takes(t.dests[d], now)
    requires var a, policy := alerts[k], t.dests[d].policy;
      && a.Signal() !in silenced && AtFloor(a.severity, policy.minSeverity) && InFilter(policy, a.classification)
      && a in alerts && Persistent(policy, Sightings(t.occ, alerts, now, cfg.resolveSeconds)[a.Signal()].count)
      && forall i | 0 <= i < |t.rows| :: t.rows[i].key != Some(Key(d, a.Signal()))
    ensures AddedFor(RouteSession(t, alerts, silenced, now, stamp, cfg).rows, d) > AddedFor(t.rows, d)
  {
    var s, after := SweepOf(t, alerts, silenced, now, stamp, cfg), RouteSession(t, alerts, silenced, now, stamp, cfg);
    WantedAreDelivered(t, alerts, silenced, now, stamp, cfg, d);
    NumWantedHas(s, d, t.dests[d].policy, alerts, k);
    assert after.rows == t.rows + after.rows[|t.rows|..];
    AddedForAppend(t.rows, after.rows[|t.rows|..], d);
  }

  lemma {:induction false} AddedForAppend(rows: seq<Delivery>, more: seq<Delivery>, d: nat)
    ensures AddedFor(rows + more, d) == AddedFor(rows, d) + AddedFor(more, d)
  {
    if more == [] {
      assert rows + more == rows;
    } else {
      var n := |more| - 1;
      assert (rows + more)[..|rows + more| - 1] == rows + more[..n];
      AddedForAppend(rows, more[..n], d);
    }
  }

  // ---- what a send makes of a delivery ----

  /** How often a delivery may be sent: as its destination says, twice to a chat, or as configured. */
  function BudgetOf(view: Option<Policy>, cfg: Settings): int {
    match view
    case Some(Policy(_, _, _, _, _, _, _, Some(own))) => if own < 1 then 1 else own
    case Some(Policy(Slack, _, _, _, _, _, _, None)) => 2
    case _ => if cfg.maxAttempts < 1 then 1 else cfg.maxAttempts
  }

  /** A send counts one more attempt on its delivery. It is delivered when there is a destination
    * and the send succeeded, failed for good when the budget is spent, and otherwise open. */
  lemma {:induction false} SendTells(s: Desk, view: Option<Policy>, sent: bool, cfg: Settings)
    requires DeskOk(s) && s.batch != []
    ensures var id, rows, s' := s.batch[0].id, s.tables.rows, Next(s, Attempt(view, sent), cfg);
      && s'.batch == s.batch[1..] && id < |rows|
      && s'.tables.rows == rows[id := rows[id].(attempts := rows[id].attempts + 1, status :=
        if view.Some? && sent then Delivered
        else if rows[id].attempts + 1 >= BudgetOf(view, cfg) then Failed
        else Pending)]
  {
  }

  /** A success clears the streak and the cooldown of the delivery's destination; a delivery that
    * fails for good adds to the streak, and from the threshold on starts a cooldown of the
    * configured length; a retry leaves all as it is, and so does a destination that is gone. */
  lemma {:induction false} SendBooks(s: Desk, view: Option<Policy>, sent: bool, cfg: Settings, d: nat)
    requires DeskOk(s) && s.batch != [] && d < |s.tables.dests|
    ensures var id, dest, s' := s.batch[0].id, s.tables.dests[d], Next(s, Attempt(view, sent), cfg);
      var row := s'.tables.rows[id];
      && |s'.tables.dests| == |s.tables.dests|
      && s'.tables.dests[d] ==
        if !dest.present || row.dest != d || row.status == Pending then dest
        else if row.status == Delivered then dest.(failures := 0, cooldownUntil := None)
        else if cfg.cooldownSeconds > 0 && dest.failures + 1 >= cfg.cooldownThreshold
        then dest.(failures := dest.failures + 1, cooldownUntil := Some(s.clock + cfg.cooldownSeconds))
        else dest.(failures := dest.failures + 1)
  {
  }

  function OpenBefore(rows: seq<Delivery>): nat {
    if rows == [] then 0
    else OpenBefore(rows[..|rows| - 1]) + if rows[|rows| - 1].status == Pending then 1 else 0
  }

  predicate InBatch(batch: seq<Work>, i: nat) {
    exists k :: 0 <= k < |batch| && batch[k].id == i
  }

  lemma {:induction false} FetchedSize(rows: seq<Delivery>, limit: nat)
    ensures |Fetched(rows, limit)| == if OpenBefore(rows) < limit then OpenBefore(rows) else limit
  {
    if rows != [] {
      FetchedSize(rows[..|rows| - 1], limit);
    }
  }

  lemma {:induction false} InOneMore(batch: seq<Work>, w: Work, i: nat)
    ensures InBatch(batch + [w], i) <==> InBatch(batch, i) || w.id == i
  {
    var all := batch + [w];
    assert all[|batch|] == w;
    if InBatch(batch, i) {
      var k :| 0 <= k < |batch| && batch[k].id == i;
      assert all[k].id == i;
    }
  }

  /** The worker takes a delivery exactly when it is open and fewer than the limit are older. */
  lemma {:induction false} FetchedIff(rows: seq<Delivery>, limit: nat, i: nat)
    requires i < |rows|
    ensures InBatch(Fetched(rows, limit), i) <==> rows[i].status == Pending && OpenBefore(rows[..i]) < limit
  {
    var n := |rows| - 1;
    FetchedSize(rows[..n], limit);
    InOneMore(Fetched(rows[..n], limit), Work(n, rows[n].attempts), i);
    if i < n {
      FetchedIff(rows[..n], limit, i);
      assert rows[..n][..i] == rows[..i];
    }
  }

  /** Whether a send reaches someone: the delivery's destination has not been deleted. */
  function Reader(dests: seq<Destination>, d: nat): Option<Policy> {
    if d >= |dests| || !dests[d].present then None else Some(dests[d].policy)
  }

  /** What the worker's batch promises of its rows. */
  predicate Reads(rows: seq<Delivery>, batch: seq<Work>) {
    forall k | 0 <= k < |batch| :: batch[k].id < |rows| && batch[k].attempts == rows[batch[k].id].attempts
  }

  predicate Increasing(batch: seq<Work>) {
    forall k, l | 0 <= k < l < |batch| :: batch[k].id < batch[l].id
  }

  /** A delivery once it was sent. */
  function Sent(row: Delivery, view: Option<Policy>, ok: bool, cfg: Settings): Delivery {
    row.(attempts := row.attempts + 1,
         status := if view.Some? && ok then Delivered
                   else if row.attempts + 1 >= BudgetOf(view, cfg) then Failed else Pending)
  }

  /** A worker that runs alone sends every delivery of its batch exactly once, to the destination
    * it is for, and touches no other row: the oldest pending ones up to the limit count one more
    * attempt and are delivered, failed or open as their own send says. */
  lemma {:induction false} BatchIsSent(t: Tables, limit: nat, sends: set<nat>, now: int, cfg: Settings, i: nat)
    requires i < |t.rows|
    ensures var rows, after := t.rows, DeliverAll(t, Fetched(t.rows, limit), sends, now, cfg);
      && |after.rows| == |rows|
      && after.rows[i] == if rows[i].status == Pending && OpenBefore(rows[..i]) < limit
                          then Sent(rows[i], Reader(t.dests, rows[i].dest), i in sends, cfg) else rows[i]
  {
    FetchedReads(t.rows, limit);
    FetchedIff(t.rows, limit, i);
    SentInTurn(t, Fetched(t.rows, limit), sends, now, cfg, i);
  }

  lemma {:induction false} FetchedReads(rows: seq<Delivery>, limit: nat)
    ensures Reads(rows, Fetched(rows, limit)) && Increasing(Fetched(rows, limit))
  {
    if rows != [] {
      FetchedReads(rows[..|rows| - 1], limit);
    }
  }

  lemma {:induction false} SentInTurn(t: Tables, batch: seq<Work>, sends: set<nat>, now: int, cfg: Settings, i: nat)
    requires i < |t.rows| && Reads(t.rows, batch) && Increasing(batch)
    ensures var after := DeliverAll(t, batch, sends, now, cfg);
      && |after.rows| == |t.rows|
      && after.rows[i] == (if InBatch(batch, i)
                           then Sent(t.rows[i], Reader(t.dests, t.rows[i].dest), i in sends, cfg) else t.rows[i])
  {
    if batch != [] {
      var n := |batch| - 1;
      var w := batch[n];
      assert batch == batch[..n] + [w];
      SentInTurn(t, batch[..n], sends, now, cfg, i);
      InOneMore(batch[..n], w, i);
      if i == w.id {
        ReadersStay(t, batch[..n], sends, now, cfg, t.rows[i].dest);
      }
    }
  }

  lemma {:induction false} ReadersStay(t: Tables, batch: seq<Work>, sends: set<nat>, now: int, cfg: Settings, d: nat)
    ensures Reader(DeliverAll(t, batch, sends, now, cfg).dests, d) == Reader(t.dests, d)
  {
    if batch != [] {
      ReadersStay(t, batch[..|batch| - 1], sends, now, cfg, d);
    }
  }

  // ---- what an operator changes ----

  /** Creating adds an enabled, healthy destination with no counts; configuring changes the
    * policy of one that is there, clearing its health, deleting its presence. */
  lemma {:induction false} OperatorTells(s: Desk, e: Event, d: nat, cfg: Settings)
    requires e.Create? || e.Configure? || e.Delete? || e.Clear?
    requires d < |Next(s, e, cfg).tables.dests|
    ensures var before, after := s.tables.dests, Next(s, e, cfg).tables.dests;
      && |after| == |before| + (if e.Create? then 1 else 0)
      && (d >= |before| ==> after[d] == Destination(true, e.policy, 0, 0, 0, 0, None))
      && (d < |before| ==>
        && (e == Delete(d) ==> after[d] == before[d].(present := false))
        && (before[d].present && e == Clear(d) ==> after[d] == before[d].(failures := 0, cooldownUntil := None))
        && (before[d].present && e.Configure? && e.d == d ==> after[d] == before[d].(policy := e.policy))
        && (!before[d].present && !e.Delete? ==> after[d] == before[d])
        && (!e.Create? && e.d != d ==> after[d] == before[d]))
  {
  }

  // ---- escalations ----

  /** How many of these deliveries went to destinations with an escalation threshold. */
  function Escalating(dests: seq<Destination>, rows: seq<Delivery>): nat {
    if rows == [] then 0
    else
      var last := rows[|rows| - 1];
      Escalating(dests, rows[..|rows| - 1]) +
      if last.dest < |dests| && Escalates(dests[last.dest].policy) then 1 else 0
  }

  predicate Escalates(policy: Policy) {
    policy.escalateAfter.Some? && policy.escalateAfter.value != 0
  }

  lemma {:induction false} OneEscalates(s: Sweep, dests: seq<Destination>, p: Progress, d: nat, alert: Alert)
    requires d < |p.dests| && d < |dests| && p.dests[d].policy == dests[d].policy
    requires p.tally.escalated == Escalating(dests, p.added)
    ensures var r := SweepAlert(s, p, d, alert);
      r.tally.escalated == Escalating(dests, r.added)
  {
    var row := NewDelivery(s, d, p.dests[d].policy, alert);
    assert (p.added + [row])[..|p.added|] == p.added;
  }

  lemma {:induction false} AlertsEscalate(s: Sweep, dests: seq<Destination>, p: Progress, d: nat, alerts: seq<Alert>)
    requires d < |p.dests| && d < |dests| && p.dests[d].policy == dests[d].policy
    requires p.tally.escalated == Escalating(dests, p.added)
    ensures var r := SweepAlerts(s, p, d, alerts);
      r.tally.escalated == Escalating(dests, r.added)
  {
    if alerts != [] {
      var n := |alerts| - 1;
      AlertsEscalate(s, dests, p, d, alerts[..n]);
      AlertsAddUp(s, p, d, alerts[..n]);
      OneEscalates(s, dests, SweepAlerts(s, p, d, alerts[..n]), d, alerts[n]);
    }
  }

  /** The tally's escalations are the deliveries made for destinations with a threshold. */
  lemma {:induction false} EscalationsAreCounted(s: Sweep, dests: seq<Destination>, alerts: seq<Alert>, n: nat)
    requires n <= |dests|
    ensures var r := SweepDests(s, dests, alerts, n);
      r.tally.escalated == Escalating(dests, r.added)
  {
    if n > 0 {
      EscalationsAreCounted(s, dests, alerts, n - 1);
      LaterUntouched(s, dests, alerts, n - 1);
      AlertsEscalate(s, dests, SweepDests(s, dests, alerts, n - 1), n - 1, alerts);
    }
  }
}
