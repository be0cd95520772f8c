/** Whole runs of external delivery: routing sweeps, operator changes and redrives interleave
  * with one delivery worker, which reads its batch first and then sends it row by row. */
module WebhookRuns {
  import opened Wrappers
  import opened Webhooks
  import opened WebhookRouting

  datatype Desk = Desk(tables: Tables, batch: seq<Work>, clock: int)

  datatype Event =
    | Create(policy: Policy)
    | Configure(d: nat, policy: Policy)
    | Delete(d: nat)
    | Clear(d: nat)
    | RouteAlerts(alerts: seq<Alert>, silenced: set<string>, delay: nat)
    | Fetch(limit: nat)
    | Attempt(view: Option<Policy>, sent: bool)
    | Redrive(id: nat)
    | Tick(delay: nat)

  function Changed(dests: seq<Destination>, e: Event): (r: seq<Destination>)
    ensures |r| >= |dests|
  {
    match e
    case Create(policy) => dests + [Destination(true, policy, 0, 0, 0, 0, None)]
    case Configure(d, policy) => if d < |dests| && dests[d].present then dests[d := dests[d].(policy := policy)] else dests
    case Delete(d) => if d < |dests| then dests[d := dests[d].(present := false)] else dests
    case Clear(d) => if d < |dests| && dests[d].present then dests[d := Healed(dests[d])] else dests
    case _ => dests
  }

  function Next(s: Desk, e: Event, cfg: Settings): Desk {
    match e
    case RouteAlerts(alerts, silenced, delay) =>
      s.(tables := RouteSession(s.tables, alerts, silenced, s.clock, s.clock + delay, cfg), clock := s.clock + delay)
    case Fetch(limit) => if s.batch == [] then s.(batch := Fetched(s.tables.rows, limit)) else s
    case Attempt(view, sent) =>
      if s.batch == [] then s
      else s.(tables := AttemptSession(s.tables, s.batch[0], view, sent, s.clock, cfg), batch := s.batch[1..])
    case Redrive(id) => s.(tables := s.tables.(rows := RedriveSession(s.tables.rows, id, s.clock, cfg)))
    case Tick(delay) => s.(clock := s.clock + delay)
    case _ => s.(tables := s.tables.(dests := Changed(s.tables.dests, e)))
  }

  function Reached(events: seq<Event>, cfg: Settings): Desk {
    if events == [] then Desk(Tables([], [], map[]), [], 0)
    else Next(Reached(events[..|events| - 1], cfg), events[|events| - 1], cfg)
  }

  // ---- deliveries only ever gain an outcome ----

  predicate GainsOutcome(row: Delivery, row': Delivery) {
    && row' == row.(status := row'.status, attempts := row'.attempts)
    && (row.status != Pending ==> row' == row)
  }

  predicate Evolves(rows: seq<Delivery>, rows': seq<Delivery>) {
    && |rows| <= |rows'|
    && forall i | 0 <= i < |rows| :: GainsOutcome(rows[i], rows'[i])
  }

  /** The worker's batch is what the table still holds: only the worker gives outcomes. */
  predicate BatchOk(rows: seq<Delivery>, batch: seq<Work>) {
    && (forall k | 0 <= k < |batch| ::
      && batch[k].id < |rows| && rows[batch[k].id].status == Pending && rows[batch[k].id].attempts == batch[k].attempts)
    && forall k, l | 0 <= k < l < |batch| :: batch[k].id != batch[l].id
  }

  predicate StampedBy(rows: seq<Delivery>, clock: int) {
    forall i | 0 <= i < |rows| :: rows[i].createdAt <= clock
  }

  lemma {:induction false} FetchedIsOk(rows: seq<Delivery>, limit: nat)
    ensures BatchOk(rows, Fetched(rows, limit))
  {
    if rows != [] {
      var n := |rows| - 1;
      FetchedIsOk(rows[..n], limit);
      var prior := Fetched(rows[..n], limit);
      assert forall k | 0 <= k < |prior| :: rows[..n][prior[k].id] == rows[prior[k].id];
    }
  }

  lemma {:induction false} AttemptKeepsBatch(rows: seq<Delivery>, batch: seq<Work>, row: Delivery)
    requires BatchOk(rows, batch) && batch != []
    ensures BatchOk(rows[batch[0].id := row], batch[1..])
  {
  }

  lemma {:induction false} MoreRowsKeepBatch(rows: seq<Delivery>, batch: seq<Work>, rows': seq<Delivery>)
    requires BatchOk(rows, batch) && rows <= rows'
    ensures BatchOk(rows', batch)
  {
  }

  lemma {:induction false} SweepStamps(s: Sweep, dests: seq<Destination>, alerts: seq<Alert>, n: nat)
    requires n <= |dests|
    ensures forall k | 0 <= k < |SweepDests(s, dests, alerts, n).added| ::
      SweepDests(s, dests, alerts, n).added[k].createdAt == s.stamp && SweepDests(s, dests, alerts, n).added[k].redriveOf == None &&
      SweepDests(s, dests, alerts, n).added[k].attempts == 0
  {
    if n > 0 {
      SweepStamps(s, dests, alerts, n - 1);
      AlertsStamp(s, SweepDests(s, dests, alerts, n - 1), n - 1, alerts);
    }
  }

  lemma {:induction false} AlertsStamp(s: Sweep, p: Progress, d: nat, alerts: seq<Alert>)
    requires d < |p.dests|
    requires forall k | 0 <= k < |p.added| ::
      p.added[k].createdAt == s.stamp && p.added[k].redriveOf == None && p.added[k].attempts == 0
    ensures forall k | 0 <= k < |SweepAlerts(s, p, d, alerts).added| ::
      SweepAlerts(s, p, d, alerts).added[k].createdAt == s.stamp && SweepAlerts(s, p, d, alerts).added[k].redriveOf == None &&
      SweepAlerts(s, p, d, alerts).added[k].attempts == 0
  {
    if alerts != [] {
      AlertsStamp(s, p, d, alerts[..|alerts| - 1]);
    }
  }

  predicate DeskOk(s: Desk) {
    BatchOk(s.tables.rows, s.batch) && StampedBy(s.tables.rows, s.clock)
  }

  lemma {:induction false} RouteKeepsDesk(t: Tables, alerts: seq<Alert>, silenced: set<string>, now: int, stamp: int,
                                          cfg: Settings,
                       batch: seq<Work>)
    requires BatchOk(t.rows, batch) && StampedBy(t.rows, now) && now <= stamp
    ensures var t' := RouteSession(t, alerts, silenced, now, stamp, cfg);
      t.rows <= t'.rows && BatchOk(t'.rows, batch) && StampedBy(t'.rows, stamp)
  {
    SweepStamps(SweepOf(t, alerts, silenced, now, stamp, cfg), t.dests, alerts, |t.dests|);
    MoreRowsKeepBatch(t.rows, batch, RouteSession(t, alerts, silenced, now, stamp, cfg).rows);
  }

  lemma {:induction false} AttemptKeepsDesk(s: Desk, view: Option<Policy>, sent: bool, cfg: Settings)
    requires DeskOk(s) && s.batch != []
    ensures var rows := AttemptSession(s.tables, s.batch[0], view, sent, s.clock, cfg).rows;
      BatchOk(rows, s.batch[1..]) && StampedBy(rows, s.clock) && Evolves(s.tables.rows, rows)
  {
    var id := s.batch[0].id;
    AttemptKeepsBatch(s.tables.rows, s.batch, AttemptSession(s.tables, s.batch[0], view, sent, s.clock, cfg).rows[id]);
  }

  lemma {:induction false} NextKeepsDesk(s: Desk, e: Event, cfg: Settings)
    requires DeskOk(s)
    ensures DeskOk(Next(s, e, cfg)) && Evolves(s.tables.rows, Next(s, e, cfg).tables.rows)
  {
    if e.RouteAlerts? {
      RouteKeepsDesk(s.tables, e.alerts, e.silenced, s.clock, s.clock + e.delay, cfg, s.batch);
    } else if e.Fetch? {
      FetchedIsOk(s.tables.rows, e.limit);
    } else if e.Attempt? && s.batch != [] {
      AttemptKeepsDesk(s, e.view, e.sent, cfg);
    } else if e.Redrive? {
      MoreRowsKeepBatch(s.tables.rows, s.batch, RedriveSession(s.tables.rows, e.id, s.clock, cfg));
    }
  }

  lemma {:induction false} DeskAlwaysOk(events: seq<Event>, cfg: Settings)
    ensures DeskOk(Reached(events, cfg))
  {
    if events != [] {
      DeskAlwaysOk(events[..|events| - 1], cfg);
      NextKeepsDesk(Reached(events[..|events| - 1], cfg), events[|events| - 1], cfg);
    }
  }

  lemma {:induction false} OutcomesAreFinal(events: seq<Event>, n: nat, cfg: Settings)
    requires n <= |events|
    ensures Evolves(Reached(events[..n], cfg).tables.rows, Reached(events, cfg).tables.rows)
  {
    if n == |events| {
      assert events[..n] == events;
    } else {
      var m := |events| - 1;
      assert events[..m][..n] == events[..n];
      OutcomesAreFinal(events[..m], n, cfg);
      DeskAlwaysOk(events[..m], cfg);
      NextKeepsDesk(Reached(events[..m], cfg), events[m], cfg);
    }
  }

  // ---- the noise bound ----

  predicate SameSubjects(rows: seq<Delivery>, rows': seq<Delivery>) {
    && |rows| == |rows'|
    && forall i | 0 <= i < |rows| :: GainsOutcome(rows[i], rows'[i])
  }

  lemma {:induction false} SameLatest(rows: seq<Delivery>, rows': seq<Delivery>, key: Key)
    requires SameSubjects(rows, rows')
    ensures Latest(rows, key) == Latest(rows', key)
  {
    if rows != [] {
      SameLatest(rows[..|rows| - 1], rows'[..|rows| - 1], key);
    }
  }

  lemma {:induction false} OutcomeKeepsNoise(rows: seq<Delivery>, rows': seq<Delivery>)
    requires NoiseBounded(rows) && SameSubjects(rows, rows')
    ensures NoiseBounded(rows')
  {
    forall i, j | 0 <= i < j < |rows'| && rows'[i].key.Some? && rows'[i].key == rows'[j].key
      ensures rows'[i].status != Pending
    {
      assert rows[i].key == rows[j].key;
    }
    forall j | 0 <= j < |rows'| && rows'[j].key.Some? ensures SpacedAt(rows'[..j], rows'[j]) {
      SameLatest(rows[..j], rows'[..j], rows[j].key.value);
      assert SpacedAt(rows[..j], rows[j]);
    }
  }

  lemma {:induction false} KeylessKeepsNoise(rows: seq<Delivery>, row: Delivery)
    requires NoiseBounded(rows) && row.key.None?
    ensures NoiseBounded(rows + [row])
  {
    var all := rows + [row];
    forall j | 0 <= j < |all| && all[j].key.Some? ensures SpacedAt(all[..j], all[j]) {
      assert all[..j] == rows[..j];
    }
  }

  /** The event is a sweep that routes two alerts of one signal to one destination. */
  predicate RoutesDouble(s: Desk, e: Event, cfg: Settings) {
    e.RouteAlerts? && DoubleRoute(s.tables, e.alerts, e.silenced, s.clock, s.clock + e.delay, cfg)
  }

  lemma {:induction false} AttemptKeepsNoise(s: Desk, e: Event, cfg: Settings)
    requires e.Attempt? && BatchOk(s.tables.rows, s.batch) && NoiseBounded(s.tables.rows)
    ensures NoiseBounded(Next(s, e, cfg).tables.rows)
  {
    if s.batch != [] {
      OutcomeKeepsNoise(s.tables.rows, Next(s, e, cfg).tables.rows);
    }
  }

  lemma {:induction false} RedriveKeepsNoise(s: Desk, e: Event, cfg: Settings)
    requires e.Redrive? && NoiseBounded(s.tables.rows)
    ensures NoiseBounded(Next(s, e, cfg).tables.rows)
  {
    var rows := s.tables.rows;
    if e.id < |rows| {
      KeylessKeepsNoise(rows, Delivery(rows[e.id].dest, None, rows[e.id].severity, Pending, 0, Some(e.id), s.clock, 0));
    }
  }

  /** Only sweeps, sends and redrives touch the deliveries. */
  lemma {:induction false} OthersLeaveRows(s: Desk, e: Event, cfg: Settings)
    requires !e.RouteAlerts? && !e.Attempt? && !e.Redrive?
    ensures Next(s, e, cfg).tables.rows == s.tables.rows
  {
  }

  lemma {:induction false} NextKeepsNoiseIff(s: Desk, e: Event, cfg: Settings)
    requires DeskOk(s) && NoiseBounded(s.tables.rows)
    ensures NoiseBounded(Next(s, e, cfg).tables.rows) <==> !RoutesDouble(s, e, cfg)
  {
    if e.RouteAlerts? {
      SweepKeepsNoiseBoundIff(s.tables, e.alerts, e.silenced, s.clock, s.clock + e.delay, cfg);
    } else if e.Attempt? {
      AttemptKeepsNoise(s, e, cfg);
    } else if e.Redrive? {
      RedriveKeepsNoise(s, e, cfg);
    } else {
      OthersLeaveRows(s, e, cfg);
    }
  }

  predicate Bounded(events: seq<Event>, cfg: Settings) {
    NoiseBounded(Reached(events, cfg).tables.rows)
  }

  /** At the start of a run and after every event of it. */
  predicate AlwaysBounded(events: seq<Event>, cfg: Settings) {
    Bounded(events, cfg) && (events != [] ==> AlwaysBounded(events[..|events| - 1], cfg))
  }

  predicate NeverDouble(events: seq<Event>, cfg: Settings) {
    events != [] ==>
      var m := |events| - 1;
      !RoutesDouble(Reached(events[..m], cfg), events[m], cfg) && NeverDouble(events[..m], cfg)
  }

  /** A run keeps the noise bound throughout, if and only if no sweep of it routes two alerts
    * of the same signal to one destination. */
  lemma {:induction false} NoiseBoundIff(events: seq<Event>, cfg: Settings)
    ensures AlwaysBounded(events, cfg) <==> NeverDouble(events, cfg)
  {
    if events != [] {
      var m := |events| - 1;
      NoiseBoundIff(events[..m], cfg);
      DeskAlwaysOk(events[..m], cfg);
      if Bounded(events[..m], cfg) {
        NextKeepsNoiseIff(Reached(events[..m], cfg), events[m], cfg);
      }
    }
  }

  predicate SweepsAreDistinct(events: seq<Event>) {
    forall n | 0 <= n < |events| && events[n].RouteAlerts? :: DistinctSignals(events[n].alerts)
  }

  /** When no sweep of a run holds two alerts of one signal, the noise bound holds throughout. */
  lemma {:induction false} DistinctSweepsKeepNoiseBound(events: seq<Event>, cfg: Settings)
    requires SweepsAreDistinct(events)
    ensures NeverDouble(events, cfg) && AlwaysBounded(events, cfg)
  {
    if events != [] {
      var m := |events| - 1;
      DistinctSweepsKeepNoiseBound(events[..m], cfg);
      if events[m].RouteAlerts? {
        var s, e := Reached(events[..m], cfg), events[m];
        DistinctSignalsRouteOnce(s.tables, e.alerts, e.silenced, s.clock, s.clock + e.delay, cfg);
      }
    }
    NoiseBoundIff(events, cfg);
  }

  /** A destination that takes every warning at once, and an alert. */
  const EAGER := Policy(Webhook, true, Alerts, "warning", None, Some(0), None, None)
  const ALARM := Alert("stuck", "j", "warning")

  /** The signal is sighted once, a destination is created, and one sweep brings the alert twice. */
  function TwiceInOneSweep(): seq<Event> {
    [RouteAlerts([ALARM], {}, 0), Create(EAGER), RouteAlerts([ALARM, ALARM], {}, 0)]
  }

  lemma {:induction false} SweptTwice(s: Sweep)
    requires s.rows == [] && s.silenced == {}
    ensures var dests := [Destination(true, EAGER, 0, 0, 0, 0, None)];
      var row := NewDelivery(s, 0, EAGER, ALARM);
      SweepDests(s, dests, [ALARM, ALARM], 1).added == [row, row]
  {
    var p := Progress([Destination(true, EAGER, 0, 0, 0, 0, None)], [], Tally(0, 0, 0, 0, 0));
    var p1 := SweepAlert(s, p, 0, ALARM);
    assert Routes(s, 0, EAGER, ALARM);
    assert [ALARM, ALARM][..1] == [ALARM];
    assert [ALARM][..0] == [];
    assert SweepAlerts(s, p, 0, []) == p;
    assert SweepAlerts(s, p, 0, [ALARM]) == p1;
    assert SweepAlerts(s, p, 0, [ALARM, ALARM]) == SweepAlert(s, p1, 0, ALARM);
    assert SweepDests(s, p.dests, [ALARM, ALARM], 0) == p;
  }

  lemma {:induction false} AfterTwoEvents(cfg: Settings)
    requires cfg.enabled
    ensures var s := Reached(TwiceInOneSweep()[..2], cfg);
      s.tables.rows == [] && s.tables.dests == [Destination(true, EAGER, 0, 0, 0, 0, None)] && ALARM.Signal() in s.tables.occ
  {
    var two := TwiceInOneSweep()[..2];
    assert two[..1] == TwiceInOneSweep()[..1];
    assert two[..1][..0] == [];
    assert Reached([], cfg) == Desk(Tables([], [], map[]), [], 0);
    assert [ALARM][..0] == [];
    assert Reached(two[..1], cfg) == Next(Reached([], cfg), RouteAlerts([ALARM], {}, 0), cfg);
  }

  /** The noise bound can break: one sweep leaves two open deliveries for one signal. */
  lemma {:induction false} OneSweepTwoOpen(cfg: Settings)
    requires cfg.enabled
    ensures var rows := Reached(TwiceInOneSweep(), cfg).tables.rows;
      |rows| == 2 && rows[0] == rows[1] && rows[0].status == Pending && rows[0].key.Some?
  {
    AfterTwoEvents(cfg);
    var t := Reached(TwiceInOneSweep()[..2], cfg).tables;
    var now := Reached(TwiceInOneSweep()[..2], cfg).clock;
    SweptTwice(SweepOf(t, [ALARM, ALARM], {}, now, now, cfg));
  }

  // ---- retries ----

  predicate AttemptsUnder(rows: seq<Delivery>, budget: int) {
    forall i | 0 <= i < |rows| :: rows[i].attempts <= budget && (rows[i].status == Pending ==> rows[i].attempts < budget)
  }

  /** When no send of a run reads a larger budget, every delivery is attempted at most that
    * often, and one that may be attempted again was attempted less often. */
  lemma {:induction false} AttemptsAreBounded(events: seq<Event>, cfg: Settings, budget: int)
    requires 1 <= budget
    requires forall n | 0 <= n < |events| && events[n].Attempt? :: EffectiveMaxAttempts(events[n].view, cfg) <= budget
    ensures AttemptsUnder(Reached(events, cfg).tables.rows, budget)
  {
    if events != [] {
      var prior, e := events[..|events| - 1], events[|events| - 1];
      AttemptsAreBounded(prior, cfg, budget);
      DeskAlwaysOk(prior, cfg);
      var s := Reached(prior, cfg);
      if e.RouteAlerts? {
        SweepStamps(SweepOf(s.tables, e.alerts, e.silenced, s.clock, s.clock + e.delay, cfg), s.tables.dests, e.alerts,
                    |s.tables.dests|);
      }
    }
  }
}
