/** External delivery: alert routing sweeps, the delivery worker, cooldown, and redrive. A
  * destination's or delivery's id is its position. */
module Webhooks {
  import opened Wrappers

  datatype Kind = Webhook | Slack

  datatype Subscription = Events | Alerts | Both

  /** What an operator configures for a destination. */
  datatype Policy = Policy(
    kind: Kind, enabled: bool, subscription: Subscription, minSeverity: string, alertFilter: Option<set<string>>,
    suppressSeconds: Option<int>, escalateAfter: Option<int>, maxAttempts: Option<int>)

  /** A destination; `present` is false once it has been deleted. */
  datatype Destination = Destination(
    present: bool, policy: Policy, routed: nat, suppressed: nat, skipped: nat, failures: nat, cooldownUntil: Option<int>)

  datatype Status = Pending | Delivered | Failed

  /** One alert signal at one destination. */
  datatype Key = Key(dest: nat, signal: string)

  /** A delivery. `window` is the suppression window that was in force when it was created; it
    * is no column, and no operation reads it. */
  datatype Delivery = Delivery(
    dest: nat, key: Option<Key>, severity: string, status: Status, attempts: nat, redriveOf: Option<nat>,
    createdAt: int, window: int)

  datatype Occurrence = Occurrence(count: nat, severity: string, firstSeen: int, lastSeen: int)

  datatype Alert = Alert(classification: string, subject: string, severity: string) {
    function Signal(): string { classification + ":" + subject }
  }

  datatype Settings = Settings(
    enabled: bool, suppressSeconds: int, resolveSeconds: int, maxAttempts: int, maxRedrives: int,
    cooldownThreshold: int, cooldownSeconds: int)

  datatype Tables = Tables(dests: seq<Destination>, rows: seq<Delivery>, occ: map<string, Occurrence>)

  // ---- the routing decision ----

  datatype Reason = BelowMinSeverity | ClassificationFiltered | BelowEscalation | InFlight

  datatype Decision = Route | Suppress | Skip(reason: Reason) | Mute

  function Rank(severity: string, default: nat): nat {
    if severity == "info" then 0 else if severity == "warning" then 1 else if severity == "critical" then 2 else default
  }

  predicate InCooldown(until: Option<int>, now: int) {
    until.Some? && until.value > now
  }

  function EffectiveMaxAttempts(policy: Option<Policy>, cfg: Settings): int {
    if policy.Some? && policy.value.maxAttempts.Some? then Max(1, policy.value.maxAttempts.value)
    else if policy.Some? && policy.value.kind == Slack then 2
    else Max(1, cfg.maxAttempts)
  }

  function Window(policy: Policy, cfg: Settings): int {
    if policy.suppressSeconds.Some? then policy.suppressSeconds.value else cfg.suppressSeconds
  }

  /** The newest delivery of a key. */
  function Latest(rows: seq<Delivery>, key: Key): (r: Option<nat>)
    ensures r.Some? ==> r.value < |rows| && rows[r.value].key == Some(key)
    ensures r.Some? ==> forall i | r.value < i < |rows| :: rows[i].key != Some(key)
    ensures r.None? ==> forall i | 0 <= i < |rows| :: rows[i].key != Some(key)
  {
    if rows == [] then None
    else if rows[|rows| - 1].key == Some(key) then Some(|rows| - 1)
    else Latest(rows[..|rows| - 1], key)
  }

  function AlertRoutingDecision(policy: Policy, alert: Alert, last: Option<Delivery>, now: int, window: int,
                                count: nat): Decision {
    if Rank(alert.severity, 0) < Rank(policy.minSeverity, 1) then Skip(BelowMinSeverity)
    else if policy.alertFilter.Some? && policy.alertFilter.value != {} && alert.classification !in policy.alertFilter.value then
      Skip(ClassificationFiltered)
    else if policy.escalateAfter.Some? && policy.escalateAfter.value != 0 && count < policy.escalateAfter.value then
      Skip(BelowEscalation)
    else if last.Some? && last.value.status == Pending then Skip(InFlight)
    else if window > 0 && last.Some? && last.value.severity == alert.severity && now - last.value.createdAt < window then
      Suppress
    else Route
  }

  // ---- the sweep ----

  /** One more sighting of a signal. A signal that the table does not hold is staged anew at
    * each sighting, because a lookup does not see rows that are not flushed. */
  function Sighted(base: map<string, Occurrence>, occ: map<string, Occurrence>, alert: Alert, now: int, resolve: int)
    : map<string, Occurrence>
  {
    var signal := alert.Signal();
    if signal !in base || signal !in occ then occ[signal := Occurrence(1, alert.severity, now, now)]
    else
      var stale := resolve > 0 && now - occ[signal].lastSeen > resolve;
      occ[signal := Occurrence(if stale then 1 else occ[signal].count + 1, alert.severity,
                               if stale then now else occ[signal].firstSeen, now)]
  }

  function Sightings(base: map<string, Occurrence>, alerts: seq<Alert>, now: int,
                     resolve: int): (r: map<string, Occurrence>)
    ensures base.Keys <= r.Keys
    ensures forall a | a in alerts :: a.Signal() in r
  {
    if alerts == [] then base
    else Sighted(base, Sightings(base, alerts[..|alerts| - 1], now, resolve), alerts[|alerts| - 1], now, resolve)
  }

  /** Staging one new signal twice breaks the primary key, and the sweep is rolled back. */
  predicate Commits(base: map<string, Occurrence>, alerts: seq<Alert>) {
    forall k, l | 0 <= k < l < |alerts| && alerts[k].Signal() == alerts[l].Signal() :: alerts[k].Signal() in base
  }

  /** What every decision of one sweep sees: the deliveries before the sweep, the occurrence
    * counts after all of its sightings, the silenced signals, and the clock. New deliveries
    * are stamped when they are written. */
  datatype Sweep = Sweep(
    rows: seq<Delivery>, occ: map<string, Occurrence>, silenced: set<string>, now: int, stamp: int, cfg: Settings)

  function Last(s: Sweep, key: Key): Option<Delivery> {
    var last := Latest(s.rows, key);
    if last.Some? then Some(s.rows[last.value]) else None
  }

  function Fate(s: Sweep, d: nat, policy: Policy, alert: Alert): Decision {
    if alert.Signal() in s.silenced then Mute
    else AlertRoutingDecision(policy, alert, Last(s, Key(d, alert.Signal())), s.now, Window(policy, s.cfg),
                              if alert.Signal() in s.occ then s.occ[alert.Signal()].count else 1)
  }

  datatype Tally = Tally(routed: nat, suppressed: nat, skipped: nat, escalated: nat, silenced: nat)

  function Counted(t: Tally, fate: Decision, policy: Policy): Tally {
    match fate
    case Mute => t.(silenced := t.silenced + 1)
    case Suppress => t.(suppressed := t.suppressed + 1)
    case Skip(_) => t.(skipped := t.skipped + 1)
    case Route =>
      var escalation := policy.escalateAfter.Some? && policy.escalateAfter.value != 0;
      t.(routed := t.routed + 1, escalated := t.escalated + if escalation then 1 else 0)
  }

  function Touched(dest: Destination, fate: Decision): Destination {
    match fate
    case Mute => dest
    case Suppress => dest.(suppressed := dest.suppressed + 1)
    case Skip(_) => dest.(skipped := dest.skipped + 1)
    case Route => dest.(routed := dest.routed + 1)
  }

  function NewDelivery(s: Sweep, d: nat, policy: Policy, alert: Alert): Delivery {
    Delivery(d, Some(Key(d, alert.Signal())), alert.severity, Pending, 0, None, s.stamp, Window(policy, s.cfg))
  }

  /** A sweep in progress: the destinations with their counters, the new deliveries, the tally. */
  datatype Progress = Progress(dests: seq<Destination>, added: seq<Delivery>, tally: Tally)

  function SweepAlert(s: Sweep, p: Progress, d: nat, alert: Alert): Progress
    requires d < |p.dests|
  {
    var policy := p.dests[d].policy;
    var fate := Fate(s, d, policy, alert);
    Progress(p.dests[d := Touched(p.dests[d], fate)],
             if fate == Route then p.added + [NewDelivery(s, d, policy, alert)] else p.added,
             Counted(p.tally, fate, policy))
  }

  function SweepAlerts(s: Sweep, p: Progress, d: nat, alerts: seq<Alert>): (r: Progress)
    requires d < |p.dests|
    ensures |r.dests| == |p.dests|
  {
    if alerts == [] then p
    else SweepAlert(s, SweepAlerts(s, p, d, alerts[..|alerts| - 1]), d, alerts[|alerts| - 1])
  }

  predicate Subscribed(dest: Destination) {
    dest.present && dest.policy.enabled && dest.policy.subscription != Events
  }

  function SweepDest(s: Sweep, p: Progress, d: nat, alerts: seq<Alert>): (r: Progress)
    requires d < |p.dests|
    ensures |r.dests| == |p.dests|
  {
    var dest := p.dests[d];
    if !Subscribed(dest) then p
    else if InCooldown(dest.cooldownUntil, s.now) then
      Progress(p.dests[d := dest.(skipped := dest.skipped + |alerts|)], p.added,
               p.tally.(skipped := p.tally.skipped + |alerts|))
    else SweepAlerts(s, p, d, alerts)
  }

  /** The sweep over the first `n` destinations. */
  function SweepDests(s: Sweep, dests: seq<Destination>, alerts: seq<Alert>, n: nat): (r: Progress)
    requires n <= |dests|
    ensures |r.dests| == |dests|
  {
    if n == 0 then Progress(dests, [], Tally(0, 0, 0, 0, 0))
    else SweepDest(s, SweepDests(s, dests, alerts, n - 1), n - 1, alerts)
  }

  function SweepOf(t: Tables, alerts: seq<Alert>, silenced: set<string>, now: int, stamp: int, cfg: Settings): Sweep {
    Sweep(t.rows, Sightings(t.occ, alerts, now, cfg.resolveSeconds), silenced, now, stamp, cfg)
  }

  function RouteTally(t: Tables, alerts: seq<Alert>, silenced: set<string>, now: int, stamp: int,
                      cfg: Settings): Tally {
    if !cfg.enabled then Tally(0, 0, 0, 0, 0)
    else SweepDests(SweepOf(t, alerts, silenced, now, stamp, cfg), t.dests, alerts, |t.dests|).tally
  }

  function RouteSession(t: Tables, alerts: seq<Alert>, silenced: set<string>, now: int, stamp: int,
                        cfg: Settings): Tables {
    if !cfg.enabled || alerts == [] || !Commits(t.occ, alerts) then t
    else
      var s := SweepOf(t, alerts, silenced, now, stamp, cfg);
      var p := SweepDests(s, t.dests, alerts, |t.dests|);
      Tables(p.dests, t.rows + p.added, s.occ)
  }

  // ---- the delivery worker ----

  /** A pending delivery as the worker read it, with the attempts it had. */
  datatype Work = Work(id: nat, attempts: nat)

  /** The oldest pending deliveries, at most `limit`. */
  function Fetched(rows: seq<Delivery>, limit: nat): (r: seq<Work>)
    ensures |r| <= limit
    ensures forall k | 0 <= k < |r| :: r[k].id < |rows|
    ensures forall k, l | 0 <= k < l < |r| :: r[k].id < r[l].id
  {
    if rows == [] then []
    else
      var n := |rows| - 1;
      var prior := Fetched(rows[..n], limit);
      if rows[n].status == Pending && |prior| < limit then prior + [Work(n, rows[n].attempts)] else prior
  }

  function Outcome(ok: bool, attempts: nat, budget: int): Status {
    if ok then Delivered else if attempts >= budget then Failed else Pending
  }

  /** The health bookkeeping of a delivery's destination, when there still is one. */
  function Healed(dest: Destination): Destination {
    dest.(failures := 0, cooldownUntil := None)
  }

  function Hurt(dest: Destination, now: int, cfg: Settings): Destination {
    var failures := dest.failures + 1;
    dest.(failures := failures,
          cooldownUntil := if cfg.cooldownSeconds > 0 && failures >= Max(1, cfg.cooldownThreshold)
                             then Some(now + cfg.cooldownSeconds) else dest.cooldownUntil)
  }

  function Booked(dests: seq<Destination>, d: nat, outcome: Status, now: int, cfg: Settings): seq<Destination> {
    if d >= |dests| || !dests[d].present || outcome == Pending then dests
    else dests[d := if outcome == Delivered then Healed(dests[d]) else Hurt(dests[d], now, cfg)]
  }

  /** The result of one send is written: `view` is the destination's policy as read before the
    * send, if there was a destination, and `sent` what the send returned. */
  function AttemptSession(t: Tables, w: Work, view: Option<Policy>, sent: bool, now: int, cfg: Settings): Tables {
    if w.id >= |t.rows| then t
    else
      var outcome := Outcome(view.Some? && sent, w.attempts + 1, EffectiveMaxAttempts(view, cfg));
      var row := t.rows[w.id];
      Tables(Booked(t.dests, row.dest, outcome, now, cfg),
             t.rows[w.id := row.(attempts := w.attempts + 1, status := outcome)], t.occ)
  }

  function ViewOf(dests: seq<Destination>, d: nat): Option<Policy> {
    if d < |dests| && dests[d].present then Some(dests[d].policy) else None
  }

  /** The worker's loop when nothing else runs; `sends` tells which sends succeed. */
  function DeliverAll(t: Tables, batch: seq<Work>, sends: set<nat>, now: int, cfg: Settings): Tables {
    if batch == [] then t
    else
      var prior, w := DeliverAll(t, batch[..|batch| - 1], sends, now, cfg), batch[|batch| - 1];
      if w.id >= |prior.rows| then prior
      else AttemptSession(prior, w, ViewOf(prior.dests, prior.rows[w.id].dest), w.id in sends, now, cfg)
  }

  /** How many deliveries of a batch stand at a status. */
  function Ended(rows: seq<Delivery>, batch: seq<Work>, status: Status): nat {
    if batch == [] then 0
    else
      var w := batch[|batch| - 1];
      Ended(rows, batch[..|batch| - 1], status) + if w.id < |rows| && rows[w.id].status == status then 1 else 0
  }

  lemma {:induction false} EndedElsewhere(rows: seq<Delivery>, batch: seq<Work>, id: nat, row: Delivery, status: Status)
    requires id < |rows| && forall k | 0 <= k < |batch| :: batch[k].id != id
    ensures Ended(rows[id := row], batch, status) == Ended(rows, batch, status)
  {
    if batch != [] {
      EndedElsewhere(rows, batch[..|batch| - 1], id, row, status);
    }
  }

  /** Sending one more delivery adds one to the count of its new status. */
  lemma {:induction false} EndedOneMore(rows: seq<Delivery>, batch: seq<Work>, k: nat, row: Delivery, status: Status)
    requires k < |batch| && batch[k].id < |rows| && forall j | 0 <= j < k :: batch[j].id != batch[k].id
    ensures Ended(rows[batch[k].id := row], batch[..k + 1], status)
      == Ended(rows, batch[..k], status) + if row.status == status then 1 else 0
  {
    assert batch[..k + 1][..k] == batch[..k];
    EndedElsewhere(rows, batch[..k], batch[k].id, row, status);
  }

  /** Every delivery of a batch is counted once. */
  lemma {:induction false} EndedAddUp(rows: seq<Delivery>, batch: seq<Work>)
    requires forall k | 0 <= k < |batch| :: batch[k].id < |rows|
    ensures Ended(rows, batch, Delivered) + Ended(rows, batch, Failed) + Ended(rows, batch, Pending) == |batch|
  {
    if batch != [] {
      EndedAddUp(rows, batch[..|batch| - 1]);
    }
  }

  // ---- redrive ----

  function Children(rows: seq<Delivery>, id: nat): (r: set<nat>)
    ensures forall c | c in r :: c < |rows|
  {
    set c | 0 <= c < |rows| && rows[c].redriveOf == Some(id)
  }

  predicate OpenChild(rows: seq<Delivery>, id: nat) {
    exists c :: c in Children(rows, id) && rows[c].status == Pending
  }

  datatype Redriven = Scheduled(child: nat) | AlreadyOpen | NotFound | NotFailed | LimitReached

  function RedriveAnswer(rows: seq<Delivery>, id: nat, cfg: Settings): Redriven {
    if id >= |rows| then NotFound
    else if rows[id].status != Failed then NotFailed
    else if OpenChild(rows, id) then AlreadyOpen
    else if |Children(rows, id)| >= Max(1, cfg.maxRedrives) then LimitReached
    else Scheduled(|rows|)
  }

  function RedriveSession(rows: seq<Delivery>, id: nat, now: int, cfg: Settings): seq<Delivery> {
    if RedriveAnswer(rows, id, cfg).Scheduled?
    then rows + [Delivery(rows[id].dest, None, rows[id].severity, Pending, 0, Some(id), now, 0)]
    else rows
  }

  datatype DeadLetter = Candidate | InRedrive | Resolved | Exhausted

  /** How the operator view classifies a failed delivery from its redrives. */
  function DeadLetterState(rows: seq<Delivery>, id: nat, cfg: Settings): DeadLetter {
    if exists c :: c in Children(rows, id) && rows[c].status == Delivered then Resolved
    else if OpenChild(rows, id) then InRedrive
    else if |Children(rows, id)| >= Max(1, cfg.maxRedrives) then Exhausted
    else Candidate
  }

  class DeliveryService {
    var tables: Tables
    const cfg: Settings

    constructor (cfg: Settings)
      ensures tables == Tables([], [], map[]) && this.cfg == cfg
    {
      tables := Tables([], [], map[]);
      this.cfg := cfg;
    }

    /** One routing sweep. The tally is returned even when the sweep is rolled back. */
    method RouteAlertsDetailed(alerts: seq<Alert>, silenced: set<string>, now: int, stamp: int) returns (counts: Tally)
      modifies this
      ensures tables == RouteSession(old(tables), alerts, silenced, now, stamp, cfg)
      ensures counts == if alerts == [] then Tally(0, 0, 0, 0, 0)
                        else RouteTally(old(tables), alerts, silenced, now, stamp, cfg)
    {
      counts := Tally(0, 0, 0, 0, 0);
      if !cfg.enabled || alerts == [] {
        return;
      }
      var occ := RecordOccurrences(tables.occ, alerts, now, cfg.resolveSeconds);
      var s := Sweep(tables.rows, occ, silenced, now, stamp, cfg);
      var dests, added;
      dests, added, counts := RouteToDestinations(s, tables.dests, alerts);
      if Commits(tables.occ, alerts) {
        tables := Tables(dests, tables.rows + added, occ);
      }
    }

    static method RecordOccurrences(base: map<string, Occurrence>, alerts: seq<Alert>, now: int, resolve: int)
      returns (occ: map<string, Occurrence>)
      ensures occ == Sightings(base, alerts, now, resolve)
    {
      occ := base;
      for k := 0 to |alerts|
        invariant occ == Sightings(base, alerts[..k], now, resolve)
      {
        assert alerts[..k + 1][..k] == alerts[..k];
        occ := Sighted(base, occ, alerts[k], now, resolve);
      }
      assert alerts[..|alerts|] == alerts;
    }

    /** The outer loop of the sweep: every destination that takes alerts. */
    static method RouteToDestinations(s: Sweep, dests0: seq<Destination>, alerts: seq<Alert>)
      returns (dests: seq<Destination>, added: seq<Delivery>, counts: Tally)
      ensures Progress(dests, added, counts) == SweepDests(s, dests0, alerts, |dests0|)
    {
      dests, added, counts := dests0, [], Tally(0, 0, 0, 0, 0);
      for d := 0 to |dests0|
        invariant |dests| == |dests0|
        invariant Progress(dests, added, counts) == SweepDests(s, dests0, alerts, d)
      {
        if Subscribed(dests[d]) {
          if InCooldown(dests[d].cooldownUntil, s.now) {
            dests := dests[d := dests[d].(skipped := dests[d].skipped + |alerts|)];
            counts := counts.(skipped := counts.skipped + |alerts|);
          } else {
            dests, added, counts := RouteToDestination(s, dests, added, counts, d, alerts);
          }
        }
      }
    }

    /** The inner loop of the sweep: every alert against one destination. */
    static method RouteToDestination(s: Sweep, dests0: seq<Destination>, added0: seq<Delivery>, counts0: Tally, d: nat,
                                     alerts: seq<Alert>)
      returns (dests: seq<Destination>, added: seq<Delivery>, counts: Tally)
      requires d < |dests0|
      ensures Progress(dests, added, counts) == SweepAlerts(s, Progress(dests0, added0, counts0), d, alerts)
    {
      dests, added, counts := dests0, added0, counts0;
      for k := 0 to |alerts|
        invariant |dests| == |dests0|
        invariant Progress(dests, added, counts) == SweepAlerts(s, Progress(dests0, added0, counts0), d, alerts[..k])
      {
        assert alerts[..k + 1][..k] == alerts[..k];
        var dest, alert := dests[d], alerts[k];
        var fate := Fate(s, d, dest.policy, alert);
        if fate == Route {
          added := added + [NewDelivery(s, d, dest.policy, alert)];
        }
        counts := Counted(counts, fate, dest.policy);
        dests := dests[d := Touched(dest, fate)];
      }
      assert alerts[..|alerts|] == alerts;
    }

    /** The worker reads its batch in one session. */
    method FetchPending(limit: nat) returns (batch: seq<Work>)
      ensures batch == Fetched(tables.rows, limit)
    {
      batch := [];
      for i := 0 to |tables.rows|
        invariant batch == Fetched(tables.rows[..i], limit)
      {
        assert tables.rows[..i + 1][..i] == tables.rows[..i];
        if tables.rows[i].status == Pending && |batch| < limit {
          batch := batch + [Work(i, tables.rows[i].attempts)];
        }
      }
      assert tables.rows[..|tables.rows|] == tables.rows;
    }

    /** Sends the batch row by row and counts what became of it. */
    method DeliverPending(limit: nat, sends: set<nat>, now: int) returns (delivered: nat, failed: nat, retried: nat)
      modifies this
      ensures tables == DeliverAll(old(tables), Fetched(old(tables).rows, limit), sends, now, cfg)
      ensures var batch := Fetched(old(tables).rows, limit);
        && delivered == Ended(tables.rows, batch, Delivered) && failed == Ended(tables.rows, batch, Failed)
        && retried == Ended(tables.rows, batch, Pending) && delivered + failed + retried == |batch|
    {
      var batch := FetchPending(limit);
      delivered, failed, retried := 0, 0, 0;
      for k := 0 to |batch|
        invariant |tables.rows| == |old(tables).rows|
        invariant tables == DeliverAll(old(tables), batch[..k], sends, now, cfg)
        invariant delivered == Ended(tables.rows, batch[..k], Delivered)
        invariant failed == Ended(tables.rows, batch[..k], Failed)
        invariant retried == Ended(tables.rows, batch[..k], Pending)
      {
        assert batch[..k + 1][..k] == batch[..k];
        var prior, w := tables, batch[k];
        tables := AttemptSession(prior, w, ViewOf(prior.dests, prior.rows[w.id].dest), w.id in sends, now, cfg);
        var row := tables.rows[w.id];
        EndedOneMore(prior.rows, batch, k, row, Delivered);
        EndedOneMore(prior.rows, batch, k, row, Failed);
        EndedOneMore(prior.rows, batch, k, row, Pending);
        match row.status {
          case Delivered => delivered := delivered + 1;
          case Failed => failed := failed + 1;
          case Pending => retried := retried + 1;
        }
      }
      assert batch[..|batch|] == batch;
      EndedAddUp(tables.rows, batch);
    }

    method Redrive(id: nat, now: int) returns (answer: Redriven)
      modifies this
      ensures answer == RedriveAnswer(old(tables).rows, id, cfg)
      ensures tables == old(tables).(rows := RedriveSession(old(tables).rows, id, now, cfg))
    {
      var rows := tables.rows;
      if id >= |rows| {
        return NotFound;
      }
      if rows[id].status != Failed {
        return NotFailed;
      }
      if OpenChild(rows, id) {
        return AlreadyOpen;
      }
      if |Children(rows, id)| >= Max(1, cfg.maxRedrives) {
        return LimitReached;
      }
      tables := tables.(rows := rows + [Delivery(rows[id].dest, None, rows[id].severity, Pending, 0, Some(id), now, 0)]);
      answer := Scheduled(|rows|);
    }

    method ClearCooldown(d: nat) returns (found: bool)
      modifies this
      ensures found == (d < |old(tables).dests| && old(tables).dests[d].present)
      ensures tables == if found then old(tables).(dests := old(tables).dests[d := Healed(old(tables).dests[d])])
                        else old(tables)
    {
      found := d < |tables.dests| && tables.dests[d].present;
      if found {
        tables := tables.(dests := tables.dests[d := tables.dests[d].(cooldownUntil := None, failures := 0)]);
      }
    }
  }
}
