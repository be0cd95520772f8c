/** What one routing sweep does: its counters add up, and when it keeps to one open delivery
  * per destination and signal. */
module WebhookRouting {
  import opened Wrappers
  import opened Webhooks

  // ---- conservation ----

  function Judged(t: Tally): nat { t.routed + t.suppressed + t.skipped + t.silenced }

  /** How many alerts of a sweep are silenced. */
  function SilencedIn(s: Sweep, alerts: seq<Alert>): (n: nat)
    ensures n <= |alerts|
  {
    if alerts == [] then 0
    else SilencedIn(s, alerts[..|alerts| - 1]) + if alerts[|alerts| - 1].Signal() in s.silenced then 1 else 0
  }

  function Counters(dest: Destination): nat { dest.routed + dest.suppressed + dest.skipped }

  /** One destination's share of a sweep, `n` alerts judged: `p` before it and `r` after it. */
  predicate Share(p: Progress, r: Progress, d: nat, n: nat)
    requires d < |p.dests| && |r.dests| == |p.dests|
  {
    && r.dests == p.dests[d := r.dests[d]]
    && r.dests[d] == p.dests[d].(routed := r.dests[d].routed, suppressed := r.dests[d].suppressed,
                                 skipped := r.dests[d].skipped)
    && |r.added| - |p.added| == r.tally.routed - p.tally.routed == r.dests[d].routed - p.dests[d].routed
    && r.tally.suppressed - p.tally.suppressed == r.dests[d].suppressed - p.dests[d].suppressed
    && r.tally.skipped - p.tally.skipped == r.dests[d].skipped - p.dests[d].skipped
    && Judged(r.tally) == Judged(p.tally) + n
  }

  lemma {:induction false} OneAlertAddsUp(s: Sweep, p: Progress, d: nat, alert: Alert)
    requires d < |p.dests|
    ensures var r := SweepAlert(s, p, d, alert);
      && Share(p, r, d, 1)
      && r.tally.silenced == p.tally.silenced + if alert.Signal() in s.silenced then 1 else 0
  {
    var fate := Fate(s, d, p.dests[d].policy, alert);
    assert fate == Mute <==> alert.Signal() in s.silenced;
  }

  lemma {:induction false} SharesCompose(p: Progress, q: Progress, r: Progress, d: nat, m: nat, n: nat)
    requires d < |p.dests| == |q.dests| == |r.dests|
    requires Share(p, q, d, m) && Share(q, r, d, n)
    ensures Share(p, r, d, m + n)
  {
  }

  lemma {:induction false} AlertsAddUp(s: Sweep, p: Progress, d: nat, alerts: seq<Alert>)
    requires d < |p.dests|
    ensures Share(p, SweepAlerts(s, p, d, alerts), d, |alerts|)
    ensures SweepAlerts(s, p, d, alerts).tally.silenced == p.tally.silenced + SilencedIn(s, alerts)
  {
    if alerts != [] {
      var n := |alerts| - 1;
      var q := SweepAlerts(s, p, d, alerts[..n]);
      AlertsAddUp(s, p, d, alerts[..n]);
      OneAlertAddsUp(s, q, d, alerts[n]);
      SharesCompose(p, q, SweepAlert(s, q, d, alerts[n]), d, n, 1);
    }
  }

  /** What a sweep books on one destination: nothing on one that takes no alerts; every alert
    * as skipped on one that cools down; every alert that is not silenced on any other. */
  predicate BookedOn(s: Sweep, before: Destination, after: Destination, alerts: seq<Alert>) {
    && after == before.(routed := after.routed, suppressed := after.suppressed, skipped := after.skipped)
    && (!Subscribed(before) ==> after == before)
    && (Subscribed(before) && InCooldown(before.cooldownUntil, s.now) ==>
          after == before.(skipped := before.skipped + |alerts|))
    && (Subscribed(before) && !InCooldown(before.cooldownUntil, s.now) ==>
          Counters(after) == Counters(before) + |alerts| - SilencedIn(s, alerts))
  }

  lemma {:induction false} DestAddsUp(s: Sweep, p: Progress, d: nat, alerts: seq<Alert>)
    requires d < |p.dests|
    ensures Share(p, SweepDest(s, p, d, alerts), d, if Subscribed(p.dests[d]) then |alerts| else 0)
    ensures BookedOn(s, p.dests[d], SweepDest(s, p, d, alerts).dests[d], alerts)
  {
    AlertsAddUp(s, p, d, alerts);
  }

  function NumSubscribed(dests: seq<Destination>): nat {
    if dests == [] then 0 else NumSubscribed(dests[..|dests| - 1]) + if Subscribed(dests[|dests| - 1]) then 1 else 0
  }

  /** Destinations from the `n`th on are as they were. */
  lemma {:induction false} LaterUntouched(s: Sweep, dests: seq<Destination>, alerts: seq<Alert>, n: nat)
    requires n <= |dests|
    ensures forall e | n <= e < |dests| :: SweepDests(s, dests, alerts, n).dests[e] == dests[e]
  {
    if n > 0 {
      LaterUntouched(s, dests, alerts, n - 1);
      DestAddsUp(s, SweepDests(s, dests, alerts, n - 1), n - 1, alerts);
    }
  }

  lemma {:induction false} SweepAddsRouted(s: Sweep, dests: seq<Destination>, alerts: seq<Alert>, n: nat)
    requires n <= |dests|
    ensures |SweepDests(s, dests, alerts, n).added| == SweepDests(s, dests, alerts, n).tally.routed
  {
    if n > 0 {
      SweepAddsRouted(s, dests, alerts, n - 1);
      DestAddsUp(s, SweepDests(s, dests, alerts, n - 1), n - 1, alerts);
    }
  }

  /** One judgement an alert for each destination that takes alerts. */
  function Asked(dests: seq<Destination>, alerts: nat): nat {
    if dests == [] then 0 else Asked(dests[..|dests| - 1], alerts) + if Subscribed(dests[|dests| - 1]) then alerts else 0
  }

  lemma {:induction false} AskedIsProduct(dests: seq<Destination>, alerts: nat)
    ensures Asked(dests, alerts) == NumSubscribed(dests) * alerts
  {
    if dests != [] {
      AskedIsProduct(dests[..|dests| - 1], alerts);
    }
  }

  lemma {:induction false} SweepJudgesAll(s: Sweep, dests: seq<Destination>, alerts: seq<Alert>, n: nat)
    requires n <= |dests|
    ensures Judged(SweepDests(s, dests, alerts, n).tally) == Asked(dests[..n], |alerts|)
  {
    if n > 0 {
      SweepJudgesAll(s, dests, alerts, n - 1);
      LaterUntouched(s, dests, alerts, n - 1);
      DestAddsUp(s, SweepDests(s, dests, alerts, n - 1), n - 1, alerts);
      assert dests[..n][..n - 1] == dests[..n - 1];
    }
  }

  /** Every alert is judged once for every destination that takes alerts. */
  lemma {:induction false} RoutingConserves(t: Tables, alerts: seq<Alert>, silenced: set<string>, now: int,
                                            stamp: int, cfg: Settings)
    requires cfg.enabled
    ensures Judged(RouteTally(t, alerts, silenced, now, stamp, cfg)) == NumSubscribed(t.dests) * |alerts|
  {
    SweepJudgesAll(SweepOf(t, alerts, silenced, now, stamp, cfg), t.dests, alerts, |t.dests|);
    AskedIsProduct(t.dests, |alerts|);
    assert t.dests[..|t.dests|] == t.dests;
  }

  /** A sweep creates as many deliveries as it says it routed, if and only if it is not rolled
    * back or routed nothing; the deliveries that were there stay as they are. */
  lemma {:induction false} RoutedIsCreatedIff(t: Tables, alerts: seq<Alert>, silenced: set<string>, now: int,
                                              stamp: int, cfg: Settings)
    requires cfg.enabled && alerts != []
    ensures var after, routed :=
        RouteSession(t, alerts, silenced, now, stamp, cfg), RouteTally(t, alerts, silenced, now, stamp, cfg).routed;
      && t.rows <= after.rows
      && (|after.rows| == |t.rows| + routed <==> Commits(t.occ, alerts) || routed == 0)
  {
    SweepAddsRouted(SweepOf(t, alerts, silenced, now, stamp, cfg), t.dests, alerts, |t.dests|);
  }

  function AddedFor(added: seq<Delivery>, d: nat): nat {
    if added == [] then 0 else AddedFor(added[..|added| - 1], d) + if added[|added| - 1].dest == d then 1 else 0
  }

  lemma {:induction false} AlertsAddFor(s: Sweep, p: Progress, d: nat, alerts: seq<Alert>, e: nat)
    requires d < |p.dests|
    ensures var r := SweepAlerts(s, p, d, alerts);
      AddedFor(r.added, e) - AddedFor(p.added, e) == if d == e then r.dests[d].routed - p.dests[d].routed else 0
  {
    if alerts != [] {
      var q := SweepAlerts(s, p, d, alerts[..|alerts| - 1]);
      AlertsAddFor(s, p, d, alerts[..|alerts| - 1], e);
      var row := NewDelivery(s, d, q.dests[d].policy, alerts[|alerts| - 1]);
      assert (q.added + [row])[..|q.added|] == q.added;
    }
  }

  lemma {:induction false} DestAddsFor(s: Sweep, p: Progress, d: nat, alerts: seq<Alert>, e: nat)
    requires d < |p.dests|
    ensures var r := SweepDest(s, p, d, alerts);
      AddedFor(r.added, e) - AddedFor(p.added, e) == if d == e then r.dests[d].routed - p.dests[d].routed else 0
  {
    AlertsAddFor(s, p, d, alerts, e);
  }

  lemma {:induction false} SweepAddsFor(s: Sweep, dests: seq<Destination>, alerts: seq<Alert>, n: nat, d: nat)
    requires n <= |dests| && d < |dests|
    ensures var r := SweepDests(s, dests, alerts, n);
      AddedFor(r.added, d) == if d < n then r.dests[d].routed - dests[d].routed else 0
  {
    if n > 0 {
      var p := SweepDests(s, dests, alerts, n - 1);
      SweepAddsFor(s, dests, alerts, n - 1, d);
      LaterUntouched(s, dests, alerts, n - 1);
      DestAddsUp(s, p, n - 1, alerts);
      DestAddsFor(s, p, n - 1, alerts, d);
    }
  }

  lemma {:induction false} SweepBooks(s: Sweep, dests: seq<Destination>, alerts: seq<Alert>, n: nat, d: nat)
    requires d < n <= |dests|
    ensures BookedOn(s, dests[d], SweepDests(s, dests, alerts, n).dests[d], alerts)
  {
    LaterUntouched(s, dests, alerts, n - 1);
    DestAddsUp(s, SweepDests(s, dests, alerts, n - 1), n - 1, alerts);
    if d < n - 1 {
      SweepBooks(s, dests, alerts, n - 1, d);
    }
  }

  /** The counters of each destination: its deliveries are those it routed, and nothing but its
    * counters changes. */
  lemma {:induction false} DestinationCounters(t: Tables, alerts: seq<Alert>, silenced: set<string>, now: int,
                                               stamp: int, cfg: Settings, d: nat)
    requires cfg.enabled && alerts != [] && Commits(t.occ, alerts) && d < |t.dests|
    ensures var after := RouteSession(t, alerts, silenced, now, stamp, cfg);
      && |after.dests| == |t.dests|
      && BookedOn(SweepOf(t, alerts, silenced, now, stamp, cfg), t.dests[d], after.dests[d], alerts)
      && t.rows <= after.rows
      && AddedFor(after.rows[|t.rows|..], d) == after.dests[d].routed - t.dests[d].routed
  {
    var s := SweepOf(t, alerts, silenced, now, stamp, cfg);
    SweepBooks(s, t.dests, alerts, |t.dests|, d);
    SweepAddsFor(s, t.dests, alerts, |t.dests|, d);
    var p := SweepDests(s, t.dests, alerts, |t.dests|);
    assert (t.rows + p.added)[|t.rows|..] == p.added;
  }

  // ---- one open delivery per destination and signal ----

  /** Of two deliveries for one destination and signal, the earlier is closed. */
  predicate OneOpen(rows: seq<Delivery>) {
    forall i, j | 0 <= i < j < |rows| && rows[i].key.Some? && rows[i].key == rows[j].key :: rows[i].status != Pending
  }

  /** A delivery has another severity than the one before it for its destination and signal,
    * or comes at least the suppression window after it. */
  predicate Spaced(rows: seq<Delivery>) {
    forall j | 0 <= j < |rows| && rows[j].key.Some? :: SpacedAt(rows[..j], rows[j])
  }

  predicate SpacedAt(earlier: seq<Delivery>, row: Delivery)
    requires row.key.Some?
  {
    var last := Latest(earlier, row.key.value);
    last.Some? ==>
      || earlier[last.value].severity != row.severity
      || row.createdAt - earlier[last.value].createdAt >= row.window
  }

  predicate NoiseBounded(rows: seq<Delivery>) {
    OneOpen(rows) && Spaced(rows)
  }

  /** A new delivery fits the deliveries before the sweep. */
  predicate Admitted(rows: seq<Delivery>, row: Delivery) {
    && row.status == Pending && row.key.Some?
    && SpacedAt(rows, row)
    && forall i | 0 <= i < |rows| && rows[i].key == row.key :: rows[i].status != Pending
  }

  predicate HasKey(rows: seq<Delivery>, key: Key) {
    exists i :: 0 <= i < |rows| && rows[i].key == Some(key)
  }

  predicate KeysDistinct(rows: seq<Delivery>) {
    forall i, j | 0 <= i < j < |rows| && rows[i].key.Some? :: rows[i].key != rows[j].key
  }

  lemma {:induction false} LatestInPrefix(rows: seq<Delivery>, more: seq<Delivery>, key: Key)
    requires !HasKey(more, key)
    ensures Latest(rows + more, key) == Latest(rows, key)
  {
    if more == [] {
      assert rows + more == rows;
    } else {
      var n := |more| - 1;
      assert (rows + more)[..|rows + more| - 1] == rows + more[..n];
      assert more[n].key != Some(key);
      assert forall i | 0 <= i < n :: more[..n][i] == more[i];
      LatestInPrefix(rows, more[..n], key);
    }
  }

  lemma {:induction false} AddingKeepsSpaced(rows: seq<Delivery>, added: seq<Delivery>)
    requires Spaced(rows) && KeysDistinct(added)
    requires forall k | 0 <= k < |added| :: Admitted(rows, added[k])
    ensures Spaced(rows + added)
  {
    var all := rows + added;
    forall j | 0 <= j < |all| && all[j].key.Some? ensures SpacedAt(all[..j], all[j]) {
      if j < |rows| {
        assert all[..j] == rows[..j];
      } else {
        var k := j - |rows|;
        assert all[..j] == rows + added[..k];
        LatestInPrefix(rows, added[..k], added[k].key.value);
      }
    }
  }

  /** Deliveries that each fit what was there keep to one open delivery exactly when no two of
    * them are for the same destination and signal. */
  lemma {:induction false} AddingKeepsOneOpenIff(rows: seq<Delivery>, added: seq<Delivery>)
    requires OneOpen(rows)
    requires forall k | 0 <= k < |added| :: Admitted(rows, added[k])
    ensures OneOpen(rows + added) <==> KeysDistinct(added)
  {
    var all := rows + added;
    if OneOpen(all) {
      forall i, j | 0 <= i < j < |added| && added[i].key.Some? ensures added[i].key != added[j].key {
        assert all[|rows| + i] == added[i] && all[|rows| + j] == added[j];
      }
    }
  }

  // ---- which deliveries a sweep adds ----

  predicate Routes(s: Sweep, d: nat, policy: Policy, alert: Alert) {
    Fate(s, d, policy, alert) == Route
  }

  predicate RoutesSignal(s: Sweep, d: nat, policy: Policy, alerts: seq<Alert>, signal: string) {
    exists k :: 0 <= k < |alerts| && Routes(s, d, policy, alerts[k]) && alerts[k].Signal() == signal
  }

  /** The `l`th alert routes after an earlier one of the same signal did. */
  predicate RoutesAgain(s: Sweep, d: nat, policy: Policy, alerts: seq<Alert>, l: nat)
    requires l < |alerts|
  {
    Routes(s, d, policy, alerts[l]) && RoutesSignal(s, d, policy, alerts[..l], alerts[l].Signal())
  }

  predicate RoutesTwice(s: Sweep, d: nat, policy: Policy, alerts: seq<Alert>) {
    exists l :: 0 <= l < |alerts| && RoutesAgain(s, d, policy, alerts, l)
  }

  lemma {:induction false} RoutesOneMore(s: Sweep, d: nat, policy: Policy, alerts: seq<Alert>, signal: string)
    requires alerts != []
    ensures var n := |alerts| - 1;
      RoutesSignal(s, d, policy, alerts, signal) <==>
        || RoutesSignal(s, d, policy, alerts[..n], signal)
        || (Routes(s, d, policy, alerts[n]) && alerts[n].Signal() == signal)
  {
    var n := |alerts| - 1;
    if RoutesSignal(s, d, policy, alerts[..n], signal) {
      var k :| 0 <= k < n && Routes(s, d, policy, alerts[..n][k]) && alerts[..n][k].Signal() == signal;
      assert Routes(s, d, policy, alerts[k]);
    }
    if RoutesSignal(s, d, policy, alerts, signal) {
      var k :| 0 <= k < |alerts| && Routes(s, d, policy, alerts[k]) && alerts[k].Signal() == signal;
      if k < n {
        assert Routes(s, d, policy, alerts[..n][k]);
      }
    }
  }

  lemma {:induction false} RoutesTwiceOneMore(s: Sweep, d: nat, policy: Policy, alerts: seq<Alert>)
    requires alerts != []
    ensures var n := |alerts| - 1;
      RoutesTwice(s, d, policy, alerts) <==>
        || RoutesTwice(s, d, policy, alerts[..n])
        || (Routes(s, d, policy, alerts[n]) && RoutesSignal(s, d, policy, alerts[..n], alerts[n].Signal()))
  {
    var n := |alerts| - 1;
    forall l | 0 <= l < n ensures RoutesAgain(s, d, policy, alerts, l) <==> RoutesAgain(s, d, policy, alerts[..n], l) {
      assert alerts[..n][..l] == alerts[..l];
    }
    if RoutesTwice(s, d, policy, alerts) {
      var l :| 0 <= l < |alerts| && RoutesAgain(s, d, policy, alerts, l);
      assert l == n || RoutesAgain(s, d, policy, alerts[..n], l);
    }
    if l :| 0 <= l < n && RoutesAgain(s, d, policy, alerts[..n], l) {
      assert RoutesAgain(s, d, policy, alerts, l);
    }
    if RoutesAgain(s, d, policy, alerts, n) {
      assert RoutesTwice(s, d, policy, alerts);
    }
  }

  lemma {:induction false} AppendKey(rows: seq<Delivery>, row: Delivery, key: Key)
    requires row.key.Some?
    ensures HasKey(rows + [row], key) <==> HasKey(rows, key) || row.key.value == key
    ensures KeysDistinct(rows + [row]) <==> KeysDistinct(rows) && !HasKey(rows, row.key.value)
  {
    var all := rows + [row];
    if HasKey(rows, key) {
      var i :| 0 <= i < |rows| && rows[i].key == Some(key);
      assert all[i].key == Some(key);
    }
    assert all[|rows|] == row;
    if KeysDistinct(all) {
      forall i, j | 0 <= i < j < |rows| && rows[i].key.Some? ensures rows[i].key != rows[j].key {
        assert all[i] == rows[i] && all[j] == rows[j];
      }
      forall i | 0 <= i < |rows| ensures rows[i].key != row.key {
        assert all[i] == rows[i];
      }
    }
  }

  /** The keys one destination adds, on top of those that earlier destinations added. */
  lemma {:induction false} AlertsAddKeys(s: Sweep, p: Progress, d: nat, alerts: seq<Alert>, key: Key)
    requires d < |p.dests|
    ensures HasKey(SweepAlerts(s, p, d, alerts).added, key) <==>
      HasKey(p.added, key) || (key.dest == d && RoutesSignal(s, d, p.dests[d].policy, alerts, key.signal))
  {
    if alerts != [] {
      var n := |alerts| - 1;
      var q, policy := SweepAlerts(s, p, d, alerts[..n]), p.dests[d].policy;
      AlertsAddKeys(s, p, d, alerts[..n], key);
      AlertsAddUp(s, p, d, alerts[..n]);
      RoutesOneMore(s, d, policy, alerts, key.signal);
      AppendKey(q.added, NewDelivery(s, d, policy, alerts[n]), key);
    }
  }

  lemma {:induction false} AlertsAddDistinct(s: Sweep, p: Progress, d: nat, alerts: seq<Alert>)
    requires d < |p.dests|
    requires forall key: Key :: key.dest == d ==> !HasKey(p.added, key)
    ensures KeysDistinct(SweepAlerts(s, p, d, alerts).added) <==>
      KeysDistinct(p.added) && !RoutesTwice(s, d, p.dests[d].policy, alerts)
  {
    if alerts != [] {
      var n := |alerts| - 1;
      var q, policy := SweepAlerts(s, p, d, alerts[..n]), p.dests[d].policy;
      AlertsAddDistinct(s, p, d, alerts[..n]);
      AlertsAddUp(s, p, d, alerts[..n]);
      RoutesTwiceOneMore(s, d, policy, alerts);
      AlertsAddKeys(s, p, d, alerts[..n], Key(d, alerts[n].Signal()));
      AppendKey(q.added, NewDelivery(s, d, policy, alerts[n]), Key(d, alerts[n].Signal()));
    }
  }

  /** A destination that the sweep judges the alerts for. */
  predicate Judges(s: Sweep, dest: Destination) {
    Subscribed(dest) && !InCooldown(dest.cooldownUntil, s.now)
  }

  lemma {:induction false} SweepAddsKeysBelow(s: Sweep, dests: seq<Destination>, alerts: seq<Alert>, n: nat, key: Key)
    requires n <= |dests| && n <= key.dest
    ensures !HasKey(SweepDests(s, dests, alerts, n).added, key)
  {
    if n > 0 {
      SweepAddsKeysBelow(s, dests, alerts, n - 1, key);
      AlertsAddKeys(s, SweepDests(s, dests, alerts, n - 1), n - 1, alerts, key);
    }
  }

  lemma {:induction false} DestAddsDistinct(s: Sweep, p: Progress, d: nat, alerts: seq<Alert>)
    requires d < |p.dests|
    requires forall key: Key :: key.dest == d ==> !HasKey(p.added, key)
    ensures KeysDistinct(SweepDest(s, p, d, alerts).added) <==>
      KeysDistinct(p.added) && !(Judges(s, p.dests[d]) && RoutesTwice(s, d, p.dests[d].policy, alerts))
  {
    if Judges(s, p.dests[d]) {
      AlertsAddDistinct(s, p, d, alerts);
    }
  }

  lemma {:induction false} SweepAddsDistinct(s: Sweep, dests: seq<Destination>, alerts: seq<Alert>, n: nat)
    requires n <= |dests|
    ensures KeysDistinct(SweepDests(s, dests, alerts, n).added) <==>
      forall d | 0 <= d < n && Judges(s, dests[d]) :: !RoutesTwice(s, d, dests[d].policy, alerts)
  {
    if n > 0 {
      var p := SweepDests(s, dests, alerts, n - 1);
      SweepAddsDistinct(s, dests, alerts, n - 1);
      LaterUntouched(s, dests, alerts, n - 1);
      forall key: Key | key.dest == n - 1 ensures !HasKey(p.added, key) {
        SweepAddsKeysBelow(s, dests, alerts, n - 1, key);
      }
      DestAddsDistinct(s, p, n - 1, alerts);
    }
  }

  /** An alert that passes the floor, the filter and the escalation threshold, and whose
    * severity is not that of the last delivery, is routed unless that delivery is open. */
  lemma {:induction false} SeverityChangeRoutesIff(policy: Policy, alert: Alert, last: Delivery, now: int,
                                                   window: int, count: nat)
    requires AlertRoutingDecision(policy, alert, None, now, window, count) == Route
    requires last.severity != alert.severity
    ensures AlertRoutingDecision(policy, alert, Some(last), now, window, count) == Route <==> last.status != Pending
  {
  }

  predicate AllAdmitted(rows: seq<Delivery>, added: seq<Delivery>) {
    forall k | 0 <= k < |added| :: Admitted(rows, added[k])
  }

  /** The routing decision lets a delivery through only when it fits. */
  lemma {:induction false} RoutedIsAdmitted(s: Sweep, d: nat, policy: Policy, alert: Alert)
    requires OneOpen(s.rows) && s.now <= s.stamp && Routes(s, d, policy, alert)
    requires forall i | 0 <= i < |s.rows| :: s.rows[i].createdAt <= s.now
    ensures Admitted(s.rows, NewDelivery(s, d, policy, alert))
  {
    var row := NewDelivery(s, d, policy, alert);
    var last := Latest(s.rows, row.key.value);
    forall i | 0 <= i < |s.rows| && s.rows[i].key == row.key ensures s.rows[i].status != Pending {
      assert last.Some? && i <= last.value;
    }
  }

  lemma {:induction false} AlertsAddAdmitted(s: Sweep, p: Progress, d: nat, alerts: seq<Alert>)
    requires d < |p.dests| && AllAdmitted(s.rows, p.added)
    requires OneOpen(s.rows) && s.now <= s.stamp
    requires forall i | 0 <= i < |s.rows| :: s.rows[i].createdAt <= s.now
    ensures AllAdmitted(s.rows, SweepAlerts(s, p, d, alerts).added)
  {
    if alerts != [] {
      var n := |alerts| - 1;
      AlertsAddAdmitted(s, p, d, alerts[..n]);
      var policy := SweepAlerts(s, p, d, alerts[..n]).dests[d].policy;
      if Routes(s, d, policy, alerts[n]) {
        RoutedIsAdmitted(s, d, policy, alerts[n]);
      }
    }
  }

  lemma {:induction false} SweepAddsAdmitted(s: Sweep, dests: seq<Destination>, alerts: seq<Alert>, n: nat)
    requires n <= |dests| && OneOpen(s.rows) && s.now <= s.stamp
    requires forall i | 0 <= i < |s.rows| :: s.rows[i].createdAt <= s.now
    ensures AllAdmitted(s.rows, SweepDests(s, dests, alerts, n).added)
  {
    if n > 0 {
      SweepAddsAdmitted(s, dests, alerts, n - 1);
      AlertsAddAdmitted(s, SweepDests(s, dests, alerts, n - 1), n - 1, alerts);
    }
  }

  /** Some destination routes two alerts of one signal in a sweep that commits. */
  predicate DoubleRoute(t: Tables, alerts: seq<Alert>, silenced: set<string>, now: int, stamp: int, cfg: Settings) {
    && cfg.enabled && Commits(t.occ, alerts)
    && var s := SweepOf(t, alerts, silenced, now, stamp, cfg);
      exists d :: 0 <= d < |t.dests| && Judges(s, t.dests[d]) && RoutesTwice(s, d, t.dests[d].policy, alerts)
  }

  /** A sweep keeps the noise bound if and only if no destination routes two alerts of the
    * same signal in it: the decisions do not see the deliveries of their own sweep. */
  lemma {:induction false} SweepKeepsNoiseBoundIff(t: Tables, alerts: seq<Alert>, silenced: set<string>, now: int,
                                                   stamp: int, cfg: Settings)
    requires NoiseBounded(t.rows) && now <= stamp && forall i | 0 <= i < |t.rows| :: t.rows[i].createdAt <= now
    ensures NoiseBounded(RouteSession(t, alerts, silenced, now, stamp, cfg).rows) <==>
      !DoubleRoute(t, alerts, silenced, now, stamp, cfg)
  {
    var s := SweepOf(t, alerts, silenced, now, stamp, cfg);
    var added := SweepDests(s, t.dests, alerts, |t.dests|).added;
    SweepAddsDistinct(s, t.dests, alerts, |t.dests|);
    SweepAddsAdmitted(s, t.dests, alerts, |t.dests|);
    AddingKeepsOneOpenIff(t.rows, added);
    if KeysDistinct(added) {
      AddingKeepsSpaced(t.rows, added);
    }
  }

  predicate DistinctSignals(alerts: seq<Alert>) {
    forall k, l | 0 <= k < l < |alerts| :: alerts[k].Signal() != alerts[l].Signal()
  }

  /** Alerts for different signals never route twice. */
  lemma {:induction false} DistinctSignalsRouteOnce(t: Tables, alerts: seq<Alert>, silenced: set<string>, now: int,
                                                    stamp: int, cfg: Settings)
    requires DistinctSignals(alerts)
    ensures Commits(t.occ, alerts) && !DoubleRoute(t, alerts, silenced, now, stamp, cfg)
  {
  }
}
