/** What the stored counters of external delivery mean: occurrence counts, failure streaks
  * and redrives are facts about the whole run so far. */
module WebhookHistory {
  import opened Wrappers
  import opened Webhooks
  import opened WebhookRouting
  import opened WebhookRuns

  // ---- occurrence counts ----

  /** The sightings of a signal that a sweep of these alerts records. */
  function SeenIn(alerts: seq<Alert>, signal: string, now: int): seq<int> {
    if alerts == [] then []
    else SeenIn(alerts[..|alerts| - 1], signal, now) + if alerts[|alerts| - 1].Signal() == signal then [now] else []
  }

  /** When a signal was sighted, over the sweeps of a run that were not rolled back. */
  function SeenAt(events: seq<Event>, signal: string, cfg: Settings): seq<int> {
    if events == [] then []
    else
      var m := |events| - 1;
      var s, e := Reached(events[..m], cfg), events[m];
      SeenAt(events[..m], signal, cfg) +
      if e.RouteAlerts? && cfg.enabled && Commits(s.tables.occ, e.alerts) then SeenIn(e.alerts, signal, s.clock) else []
  }

  /** Whether sighting `k` comes too late to continue the episode of the one before it. */
  predicate Breaks(times: seq<int>, k: nat, resolve: int)
    requires 0 < k < |times|
  {
    resolve > 0 && times[k] - times[k - 1] > resolve
  }

  /** The last `n` sightings are one episode, and no longer stretch of the last ones is. */
  predicate Episode(times: seq<int>, resolve: int, n: nat) {
    && 1 <= n <= |times|
    && (forall k | |times| - n < k < |times| :: !Breaks(times, k, resolve))
    && (n < |times| ==> Breaks(times, |times| - n, resolve))
  }

  /** The stored row of a signal tells the current episode of its sightings. */
  predicate Tells(occ: map<string, Occurrence>, signal: string, times: seq<int>, resolve: int) {
    && (signal in occ <==> times != [])
    && (signal in occ ==>
          && Episode(times, resolve, occ[signal].count)
          && occ[signal].lastSeen == times[|times| - 1]
          && occ[signal].firstSeen == times[|times| - occ[signal].count])
  }

  lemma {:induction false} SightingExtends(times: seq<int>, resolve: int, n: nat, now: int)
    requires Episode(times, resolve, n)
    ensures var stale := resolve > 0 && now - times[|times| - 1] > resolve;
      Episode(times + [now], resolve, if stale then 1 else n + 1)
  {
    var more := times + [now];
    assert forall k | 0 < k < |times| :: Breaks(more, k, resolve) == Breaks(times, k, resolve);
  }

  /** One more alert; a signal that the table did not hold before the sweep is new to it. */
  lemma {:induction false} SightedTells(base: map<string, Occurrence>, occ: map<string, Occurrence>, alert: Alert,
                                        now: int, resolve: int,
                     signal: string, times: seq<int>)
    requires Tells(occ, signal, times, resolve) && (signal in base ==> signal in occ)
    requires alert.Signal() == signal && signal !in base ==> times == []
    ensures Tells(Sighted(base, occ, alert, now, resolve), signal,
                  times + if alert.Signal() == signal then [now] else [], resolve)
  {
    if alert.Signal() != signal {
      assert times + [] == times;
    } else if signal in base {
      SightingExtends(times, resolve, occ[signal].count, now);
    }
  }

  lemma {:induction false} SweepTells(base: map<string, Occurrence>, alerts: seq<Alert>, now: int, resolve: int,
                                      signal: string, times: seq<int>)
    requires Tells(base, signal, times, resolve) && Commits(base, alerts)
    ensures Tells(Sightings(base, alerts, now, resolve), signal, times + SeenIn(alerts, signal, now), resolve)
  {
    if alerts == [] {
      assert times + [] == times;
    } else {
      var n := |alerts| - 1;
      SweepTells(base, alerts[..n], now, resolve, signal, times);
      var before := times + SeenIn(alerts[..n], signal, now);
      if alerts[n].Signal() == signal && signal !in base {
        NotSeenBefore(base, alerts, signal, now);
      }
      SightedTells(base, Sightings(base, alerts[..n], now, resolve), alerts[n], now, resolve, signal, before);
      assert times + SeenIn(alerts, signal, now) == before + if alerts[n].Signal() == signal then [now] else [];
    }
  }

  lemma {:induction false} NeverSeen(alerts: seq<Alert>, signal: string, now: int)
    requires forall k | 0 <= k < |alerts| :: alerts[k].Signal() != signal
    ensures SeenIn(alerts, signal, now) == []
  {
    if alerts != [] {
      NeverSeen(alerts[..|alerts| - 1], signal, now);
    }
  }

  lemma {:induction false} NotSeenBefore(base: map<string, Occurrence>, alerts: seq<Alert>, signal: string, now: int)
    requires alerts != [] && Commits(base, alerts) && signal !in base && alerts[|alerts| - 1].Signal() == signal
    ensures SeenIn(alerts[..|alerts| - 1], signal, now) == []
  {
    NeverSeen(alerts[..|alerts| - 1], signal, now);
  }

  /** In every run, the count stored for a signal is the length of its current episode: the
    * longest stretch of its last sightings in which no gap exceeds the resolve window. */
  lemma {:induction false} CountIsEpisode(events: seq<Event>, signal: string, cfg: Settings)
    ensures Tells(Reached(events, cfg).tables.occ, signal, SeenAt(events, signal, cfg), cfg.resolveSeconds)
  {
    if events != [] {
      var m := |events| - 1;
      var s, e := Reached(events[..m], cfg), events[m];
      CountIsEpisode(events[..m], signal, cfg);
      var times := SeenAt(events[..m], signal, cfg);
      assert times + [] == times;
      if e.RouteAlerts? && cfg.enabled && Commits(s.tables.occ, e.alerts) {
        SweepTells(s.tables.occ, e.alerts, s.clock, cfg.resolveSeconds, signal, times);
      }
    }
  }

  /** The last alert of a sweep for a signal. */
  function LastFor(alerts: seq<Alert>, signal: string): Option<Alert> {
    if alerts == [] then None
    else if alerts[|alerts| - 1].Signal() == signal then Some(alerts[|alerts| - 1])
    else LastFor(alerts[..|alerts| - 1], signal)
  }

  /** A sweep leaves, for each signal that it sights, the severity of the last sighting, and
    * every other signal as it was. */
  lemma {:induction false} SeverityIsLast(base: map<string, Occurrence>, alerts: seq<Alert>, now: int, resolve: int,
                                          signal: string)
    ensures var occ, last := Sightings(base, alerts, now, resolve), LastFor(alerts, signal);
      && (last.Some? ==> signal in occ && occ[signal].severity == last.value.severity)
      && (last.None? ==> (signal in occ <==> signal in base) && (signal in base ==> occ[signal] == base[signal]))
  {
    if alerts != [] {
      SeverityIsLast(base, alerts[..|alerts| - 1], now, resolve, signal);
    }
  }

  // ---- failure streaks ----

  datatype Mark = Good | Bad

  /** What an event means for a destination's health: a success or an operator's clearing is
    * good, a delivery that fails for good is bad, a retry says nothing. */
  function MarkOf(s: Desk, e: Event, d: nat, cfg: Settings): seq<Mark> {
    if d >= |s.tables.dests| || !s.tables.dests[d].present then []
    else match e
      case Clear(d') => if d' == d then [Good] else []
      case Attempt(view, sent) =>
        if s.batch == [] || s.batch[0].id >= |s.tables.rows| || s.tables.rows[s.batch[0].id].dest != d then []
        else (match Outcome(view.Some? && sent, s.batch[0].attempts + 1, EffectiveMaxAttempts(view, cfg))
              case Delivered => [Good]
              case Failed => [Bad]
              case Pending => [])
      case _ => []
  }

  function Marks(events: seq<Event>, d: nat, cfg: Settings): seq<Mark> {
    if events == [] then []
    else
      var m := |events| - 1;
      Marks(events[..m], d, cfg) + MarkOf(Reached(events[..m], cfg), events[m], d, cfg)
  }

  /** The last `n` marks are bad, and the one before them, if any, is good. */
  predicate Streak(marks: seq<Mark>, n: nat) {
    && n <= |marks|
    && (forall k | |marks| - n <= k < |marks| :: marks[k] == Bad)
    && (n < |marks| ==> marks[|marks| - n - 1] == Good)
  }

  /** The failures of a destination are its current streak; it cools down exactly when the
    * streak has reached the threshold, and for no longer than the configured time. */
  predicate HealthTells(dest: Destination, marks: seq<Mark>, clock: int, cfg: Settings) {
    && Streak(marks, dest.failures)
    && (dest.cooldownUntil.Some? <==> cfg.cooldownSeconds > 0 && dest.failures >= Max(1, cfg.cooldownThreshold))
    && (dest.cooldownUntil.Some? ==> dest.cooldownUntil.value <= clock + cfg.cooldownSeconds)
  }

  predicate SameHealth(dest: Destination, dest': Destination) {
    dest'.failures == dest.failures && dest'.cooldownUntil == dest.cooldownUntil && dest'.present == dest.present
  }

  lemma {:induction false} HealthMoves(dest: Destination, marks: seq<Mark>, clock: int, cfg: Settings)
    requires HealthTells(dest, marks, clock, cfg)
    ensures HealthTells(Healed(dest), marks + [Good], clock, cfg)
    ensures HealthTells(Hurt(dest, clock, cfg), marks + [Bad], clock, cfg)
  {
  }

  lemma {:induction false} SweepKeepsHealth(s: Sweep, dests: seq<Destination>, alerts: seq<Alert>, n: nat, d: nat)
    requires n <= |dests| && d < |dests|
    ensures SameHealth(dests[d], SweepDests(s, dests, alerts, n).dests[d])
  {
    if n > 0 {
      SweepKeepsHealth(s, dests, alerts, n - 1, d);
      DestAddsUp(s, SweepDests(s, dests, alerts, n - 1), n - 1, alerts);
    }
  }

  lemma {:induction false} RouteKeepsHealth(t: Tables, alerts: seq<Alert>, silenced: set<string>, now: int,
                                            stamp: int, cfg: Settings, d: nat)
    requires d < |t.dests|
    ensures var t' := RouteSession(t, alerts, silenced, now, stamp, cfg);
      |t'.dests| == |t.dests| && SameHealth(t.dests[d], t'.dests[d])
  {
    SweepKeepsHealth(SweepOf(t, alerts, silenced, now, stamp, cfg), t.dests, alerts, |t.dests|, d);
  }

  /** What one event does to a destination that is there. */
  lemma {:induction false} NextTellsHealth(s: Desk, e: Event, d: nat, marks: seq<Mark>, cfg: Settings)
    requires d < |s.tables.dests| && s.tables.dests[d].present && HealthTells(s.tables.dests[d], marks, s.clock, cfg)
    ensures var s' := Next(s, e, cfg);
      && d < |s'.tables.dests|
      && (s'.tables.dests[d].present ==>
            HealthTells(s'.tables.dests[d], marks + MarkOf(s, e, d, cfg), s'.clock, cfg))
  {
    HealthMoves(s.tables.dests[d], marks, s.clock, cfg);
    assert marks + [] == marks;
    if e.RouteAlerts? {
      RouteKeepsHealth(s.tables, e.alerts, e.silenced, s.clock, s.clock + e.delay, cfg, d);
    }
  }

  /** A destination that is gone does not come back, and one not yet created has no marks. */
  lemma {:induction false} NextAbsent(s: Desk, e: Event, d: nat, cfg: Settings)
    requires d < |s.tables.dests| ==> !s.tables.dests[d].present
    ensures var dests := Next(s, e, cfg).tables.dests;
      d < |dests| && dests[d].present ==> d >= |s.tables.dests| && dests[d].failures == 0 && dests[d].cooldownUntil == None
  {
    if e.RouteAlerts? && d < |s.tables.dests| {
      RouteKeepsHealth(s.tables, e.alerts, e.silenced, s.clock, s.clock + e.delay, cfg, d);
    }
  }

  /** In every run, a destination's failures are the deliveries to it that failed for good
    * since its last success or clearing, and they decide whether it cools down. */
  lemma {:induction false} StreakIsHistory(events: seq<Event>, d: nat, cfg: Settings)
    ensures var s := Reached(events, cfg);
      && (d < |s.tables.dests| && s.tables.dests[d].present ==>
            HealthTells(s.tables.dests[d], Marks(events, d, cfg), s.clock, cfg))
      && (d >= |s.tables.dests| ==> Marks(events, d, cfg) == [])
  {
    if events != [] {
      var m := |events| - 1;
      var s := Reached(events[..m], cfg);
      StreakIsHistory(events[..m], d, cfg);
      if d < |s.tables.dests| && s.tables.dests[d].present {
        NextTellsHealth(s, events[m], d, Marks(events[..m], d, cfg), cfg);
      } else {
        NextAbsent(s, events[m], d, cfg);
        NeverShrinks(s, events[m], cfg);
      }
    }
  }

  lemma {:induction false} NeverShrinks(s: Desk, e: Event, cfg: Settings)
    ensures |Next(s, e, cfg).tables.dests| >= |s.tables.dests|
  {
  }

  // ---- redrive ----

  /** A failed delivery has at most one open redrive, and no more than the limit in all. */
  predicate RedrivesOk(rows: seq<Delivery>, id: nat, cfg: Settings) {
    && |Children(rows, id)| <= Max(1, cfg.maxRedrives)
    && (forall b, c | b in Children(rows, id) && c in Children(rows, id) && rows[b].status == Pending && rows[c].status == Pending ::
      b == c)
    && (forall c | c in Children(rows, id) ::
      && id < c && rows[id].status == Failed
      && rows[c].dest == rows[id].dest && rows[c].severity == rows[id].severity)
  }

  lemma {:induction false} SameChildren(rows: seq<Delivery>, rows': seq<Delivery>, id: nat)
    requires |rows| <= |rows'|
    requires forall i | 0 <= i < |rows| :: rows'[i].redriveOf == rows[i].redriveOf
    requires forall i | |rows| <= i < |rows'| :: rows'[i].redriveOf != Some(id)
    ensures Children(rows', id) == Children(rows, id)
  {
  }

  lemma {:induction false} GrowthKeepsRedrives(rows: seq<Delivery>, rows': seq<Delivery>, id: nat, cfg: Settings)
    requires RedrivesOk(rows, id, cfg) && Evolves(rows, rows')
    requires forall i | |rows| <= i < |rows'| :: rows'[i].redriveOf != Some(id)
    ensures RedrivesOk(rows', id, cfg)
  {
    SameChildren(rows, rows', id);
  }

  lemma {:induction false} RedriveKeepsRedrives(rows: seq<Delivery>, p: nat, now: int, id: nat, cfg: Settings)
    requires RedrivesOk(rows, id, cfg)
    ensures RedrivesOk(RedriveSession(rows, p, now, cfg), id, cfg)
  {
    if RedriveAnswer(rows, p, cfg).Scheduled? {
      var rows' := RedriveSession(rows, p, now, cfg);
      if p == id {
        assert Children(rows', id) == Children(rows, id) + {|rows|};
        assert forall c | c in Children(rows, id) :: rows[c].status != Pending;
      } else {
        GrowthKeepsRedrives(rows, rows', id, cfg);
      }
    }
  }

  lemma {:induction false} NextKeepsRedrives(s: Desk, e: Event, id: nat, cfg: Settings)
    requires DeskOk(s) && RedrivesOk(s.tables.rows, id, cfg)
    ensures RedrivesOk(Next(s, e, cfg).tables.rows, id, cfg)
  {
    if e.Redrive? {
      RedriveKeepsRedrives(s.tables.rows, e.id, s.clock, id, cfg);
    } else {
      NextKeepsDesk(s, e, cfg);
      if e.RouteAlerts? {
        SweepStamps(SweepOf(s.tables, e.alerts, e.silenced, s.clock, s.clock + e.delay, cfg), s.tables.dests, e.alerts,
                    |s.tables.dests|);
      }
      GrowthKeepsRedrives(s.tables.rows, Next(s, e, cfg).tables.rows, id, cfg);
    }
  }

  /** In every run, each delivery has at most one open redrive and at most the configured
    * number of redrives, and only one that failed for good has any. */
  lemma {:induction false} RedrivesAreBounded(events: seq<Event>, id: nat, cfg: Settings)
    ensures RedrivesOk(Reached(events, cfg).tables.rows, id, cfg)
  {
    if events != [] {
      RedrivesAreBounded(events[..|events| - 1], id, cfg);
      DeskAlwaysOk(events[..|events| - 1], cfg);
      NextKeepsRedrives(Reached(events[..|events| - 1], cfg), events[|events| - 1], id, cfg);
    } else {
      assert Children([], id) == {};
    }
  }

  /** How the operator view relates to what a redrive does: a candidate is always scheduled,
    * one in redrive or exhausted never; a resolved one is scheduled again unless a further
    * redrive is open or the limit is reached, so `Resolved` does not stop a redrive. */
  lemma {:induction false} RedriveVersusDeadLetter(rows: seq<Delivery>, id: nat, cfg: Settings)
    requires id < |rows| && rows[id].status == Failed
    ensures RedriveAnswer(rows, id, cfg).Scheduled? <==>
      match DeadLetterState(rows, id, cfg)
      case Candidate => true
      case InRedrive => false
      case Exhausted => false
      case Resolved => !OpenChild(rows, id) && |Children(rows, id)| < Max(1, cfg.maxRedrives)
  {
  }

  // ---- a resolved delivery is redriven ----

  /** A destination that gives up after one attempt. */
  const FRAGILE := Policy(Webhook, true, Alerts, "warning", None, Some(0), None, Some(1))

  /** An alert's delivery fails, is redriven, and the redrive is delivered. */
  const REDRIVEN: seq<Event> := [
    Create(FRAGILE), RouteAlerts([ALARM], {}, 0), Fetch(1), Attempt(Some(FRAGILE), false),
    Redrive(0), Fetch(1), Attempt(Some(FRAGILE), true)]

  function FirstRow(status: Status, attempts: nat): Delivery {
    Delivery(0, Some(Key(0, ALARM.Signal())), "warning", status, attempts, None, 0, 0)
  }

  function RedrivenRow(status: Status, attempts: nat): Delivery {
    Delivery(0, None, "warning", status, attempts, Some(0), 0, 0)
  }

  /** The worker and the deliveries stand so; the destinations do not matter. */
  predicate Holds(s: Desk, rows: seq<Delivery>, batch: seq<Work>) {
    s.tables.rows == rows && s.batch == batch && s.clock == 0
  }

  lemma {:induction false} ReachedNext(events: seq<Event>, n: nat, cfg: Settings)
    requires n < |events|
    ensures Reached(events[..n + 1], cfg) == Next(Reached(events[..n], cfg), events[n], cfg)
  {
    assert events[..n + 1][..n] == events[..n];
  }

  lemma {:induction false} AlarmIsRouted(s: Desk, cfg: Settings)
    requires cfg.enabled && s == Desk(Tables([Destination(true, FRAGILE, 0, 0, 0, 0, None)], [], map[]), [], 0)
    ensures Holds(Next(s, RouteAlerts([ALARM], {}, 0), cfg), [FirstRow(Pending, 0)], [])
  {
    var sweep := SweepOf(s.tables, [ALARM], {}, 0, 0, cfg);
    var p := Progress(s.tables.dests, [], Tally(0, 0, 0, 0, 0));
    assert [ALARM][..0] == [];
    assert SweepDests(sweep, s.tables.dests, [ALARM], 0) == p;
    assert SweepAlerts(sweep, p, 0, []) == p;
    assert SweepAlerts(sweep, p, 0, [ALARM]) == SweepAlert(sweep, p, 0, ALARM);
    assert Fate(sweep, 0, FRAGILE, ALARM) == Route;
  }

  lemma {:induction false} FirstIsFetched(s: Desk, cfg: Settings)
    requires Holds(s, [FirstRow(Pending, 0)], [])
    ensures Holds(Next(s, Fetch(1), cfg), s.tables.rows, [Work(0, 0)])
  {
    assert s.tables.rows[..0] == [];
  }

  lemma {:induction false} RedriveIsFetched(s: Desk, cfg: Settings)
    requires Holds(s, [FirstRow(Failed, 1), RedrivenRow(Pending, 0)], [])
    ensures Holds(Next(s, Fetch(1), cfg), s.tables.rows, [Work(1, 0)])
  {
    assert s.tables.rows[..1] == [FirstRow(Failed, 1)];
    assert s.tables.rows[..1][..0] == [];
    assert Fetched([FirstRow(Failed, 1)], 1) == [];
  }

  lemma {:induction false} FirstIsRedriven(s: Desk, cfg: Settings)
    requires Holds(s, [FirstRow(Failed, 1)], [])
    ensures Holds(Next(s, Redrive(0), cfg), [FirstRow(Failed, 1), RedrivenRow(Pending, 0)], [])
  {
    assert Children(s.tables.rows, 0) == {};
  }

  lemma {:induction false} AlarmIsReached(cfg: Settings)
    requires cfg.enabled
    ensures Holds(Reached(REDRIVEN[..2], cfg), [FirstRow(Pending, 0)], [])
  {
    assert REDRIVEN[..0] == [];
    ReachedNext(REDRIVEN, 0, cfg);
    ReachedNext(REDRIVEN, 1, cfg);
    AlarmIsRouted(Reached(REDRIVEN[..1], cfg), cfg);
  }

  lemma {:induction false} FirstIsAttempted(s: Desk, cfg: Settings)
    requires Holds(s, [FirstRow(Pending, 0)], [Work(0, 0)])
    ensures Holds(Next(s, Attempt(Some(FRAGILE), false), cfg), [FirstRow(Failed, 1)], [])
  {
  }

  lemma {:induction false} RedriveIsAttempted(s: Desk, cfg: Settings)
    requires Holds(s, [FirstRow(Failed, 1), RedrivenRow(Pending, 0)], [Work(1, 0)])
    ensures Holds(Next(s, Attempt(Some(FRAGILE), true), cfg), [FirstRow(Failed, 1), RedrivenRow(Delivered, 1)], [])
  {
  }

  lemma {:induction false} FirstFails(cfg: Settings)
    requires cfg.enabled
    ensures Holds(Reached(REDRIVEN[..4], cfg), [FirstRow(Failed, 1)], [])
  {
    AlarmIsReached(cfg);
    ReachedNext(REDRIVEN, 2, cfg);
    FirstIsFetched(Reached(REDRIVEN[..2], cfg), cfg);
    ReachedNext(REDRIVEN, 3, cfg);
    FirstIsAttempted(Reached(REDRIVEN[..3], cfg), cfg);
  }

  lemma {:induction false} RedriveIsDelivered(cfg: Settings)
    requires cfg.enabled
    ensures Holds(Reached(REDRIVEN, cfg), [FirstRow(Failed, 1), RedrivenRow(Delivered, 1)], [])
  {
    FirstFails(cfg);
    ReachedNext(REDRIVEN, 4, cfg);
    FirstIsRedriven(Reached(REDRIVEN[..4], cfg), cfg);
    ReachedNext(REDRIVEN, 5, cfg);
    RedriveIsFetched(Reached(REDRIVEN[..5], cfg), cfg);
    ReachedNext(REDRIVEN, 6, cfg);
    RedriveIsAttempted(Reached(REDRIVEN[..6], cfg), cfg);
    assert REDRIVEN[..7] == REDRIVEN;
  }

  /** A failed alert delivery whose redrive was delivered is redriven again: an event list
    * reaches it, whenever more than one redrive is allowed. */
  lemma {:induction false} ResolvedCanBeRedriven(cfg: Settings)
    requires cfg.enabled && cfg.maxRedrives > 1
    ensures exists events, id: nat ::
      var rows := Reached(events, cfg).tables.rows;
      && id < |rows| && rows[id].status == Failed && rows[id].redriveOf == None
      && DeadLetterState(rows, id, cfg) == Resolved
      && Reached(events + [Redrive(id)], cfg).tables.rows == rows + [RedrivenRow(Pending, 0)]
  {
    RedriveIsDelivered(cfg);
    var rows := Reached(REDRIVEN, cfg).tables.rows;
    assert (REDRIVEN + [Redrive(0)])[..|REDRIVEN|] == REDRIVEN;
    assert Children(rows, 0) == {1};
    assert DeadLetterState(rows, 0, cfg) == Resolved;
    assert Reached(REDRIVEN + [Redrive(0)], cfg).tables.rows == rows + [RedrivenRow(Pending, 0)];
  }
}
