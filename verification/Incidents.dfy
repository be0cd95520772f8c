/** The operator incident workflow: sweeps that open, bump, reopen and recover incidents, the
  * operator actions, and the action trail. An incident's id is its position. */
module Incidents {
  import opened Wrappers

  datatype IncidentState = Open | Acknowledged | Silenced | Recovered

  datatype Incident = Incident(
    signal: string, state: IncidentState, severity: string, occurrences: nat,
    acknowledgedAt: Option<int>, silencedUntil: Option<int>, recoveredAt: Option<int>,
    note: Option<string>, assignee: Option<string>, firstSeen: int, lastSeen: int)

  datatype Entry = Entry(incident: nat, action: string, state: IncidentState)

  datatype Alert = Alert(signal: string, severity: string)

  datatype Settings = Settings(maxSilence: int, defaultSilence: int)

  /** The two tables of the workflow. */
  datatype Board = Board(rows: seq<Incident>, trail: seq<Entry>)

  function Find(rows: seq<Incident>, signal: string): (r: Option<nat>)
    ensures r.Some? ==> r.value < |rows| && rows[r.value].signal == signal
    ensures r.None? ==> forall i | 0 <= i < |rows| :: rows[i].signal != signal
  {
    if rows == [] then None
    else
      var r := Find(rows[..|rows| - 1], signal);
      if r.Some? then r
      else if rows[|rows| - 1].signal == signal then Some(|rows| - 1)
      else None
  }

  // ---- the sweep ----

  predicate SilenceOver(row: Incident, now: int) {
    row.state == Silenced && (row.silencedUntil.None? || row.silencedUntil.value <= now)
  }

  predicate Reopens(row: Incident, now: int) {
    row.state == Recovered || SilenceOver(row, now)
  }

  function Seen(row: Incident, alert: Alert, now: int): Incident {
    var row1 := if Reopens(row, now)
                  then row.(state := Open, recoveredAt := None, silencedUntil := None, acknowledgedAt := None,
                            note := None, firstSeen := now)
                  else row;
    row1.(occurrences := row.occurrences + 1, severity := alert.severity, lastSeen := now)
  }

  function Opened(alert: Alert, now: int): Incident {
    Incident(alert.signal, Open, alert.severity, 1, None, None, None, None, None, now, now)
  }

  /** A sweep in progress: the committed rows with the changes made to them, the new rows not
    * yet flushed, and the trail. A lookup does not see the unflushed rows. */
  datatype Sweep = Sweep(rows: seq<Incident>, staged: seq<Incident>, trail: seq<Entry>)

  function SweepOne(s: Sweep, alert: Alert, now: int): Sweep {
    var found := Find(s.rows, alert.signal);
    if found.None? then
      Sweep(s.rows, s.staged + [Opened(alert, now)], s.trail + [Entry(|s.rows| + |s.staged|, "opened", Open)])
    else
      var i := found.value;
      Sweep(s.rows[i := Seen(s.rows[i], alert, now)], s.staged,
            if Reopens(s.rows[i], now) then s.trail + [Entry(i, "reopened", Open)] else s.trail)
  }

  function SweepAll(b: Board, alerts: seq<Alert>, now: int): Sweep {
    if alerts == [] then Sweep(b.rows, [], b.trail)
    else SweepOne(SweepAll(b, alerts[..|alerts| - 1], now), alerts[|alerts| - 1], now)
  }

  predicate DistinctSignals(rows: seq<Incident>) {
    forall i, j | 0 <= i < j < |rows| :: rows[i].signal != rows[j].signal
  }

  /** Two new rows for one signal break the unique column, and the whole sweep is lost. */
  function ObserveSession(b: Board, alerts: seq<Alert>, now: int): Board {
    var s := SweepAll(b, alerts, now);
    if DistinctSignals(s.staged) then Board(s.rows + s.staged, s.trail) else b
  }

  function RecoverRow(row: Incident, active: set<string>, now: int): Incident {
    if row.state != Recovered && row.signal !in active
    then row.(state := Recovered, recoveredAt := Some(now), silencedUntil := None)
    else row
  }

  /** The board after the first `n` rows have been checked for recovery. */
  function RecoverUpTo(b: Board, active: set<string>, now: int, n: nat): (r: Board)
    requires n <= |b.rows|
    ensures |r.rows| == |b.rows|
  {
    if n == 0 then b
    else
      var prior, row := RecoverUpTo(b, active, now, n - 1), RecoverRow(b.rows[n - 1], active, now);
      Board(prior.rows[n - 1 := row],
            if row == b.rows[n - 1] then prior.trail else prior.trail + [Entry(n - 1, "recovered", Recovered)])
  }

  function RecoverSession(b: Board, active: set<string>, now: int): Board {
    RecoverUpTo(b, active, now, |b.rows|)
  }

  // ---- operator actions ----

  datatype Op =
    | Acknowledge(ackNote: Option<string>)
    | Silence(seconds: Option<int>)
    | Unsilence
    | SetNote(text: string)
    | Assign(handle: string)
    | Unassign
    | MarkRecovered

  /** The longest beginning of a text that is no longer than `n`. */
  function Clip(s: string, n: nat): (r: string)
    ensures r <= s && |r| <= n && (|r| == n || r == s)
  {
    if |s| <= n then s else s[..n]
  }

  function SilenceSeconds(seconds: Option<int>, cfg: Settings): int {
    var wanted := Max(1, if seconds.Some? then seconds.value else cfg.defaultSilence);
    var most := Max(1, cfg.maxSilence);
    if wanted < most then wanted else most
  }

  /** The row an action leaves and the action it logs; no action is logged when the action
    * is refused or changes nothing. */
  function Edit(row: Incident, op: Op, now: int, cfg: Settings): (Incident, Option<string>) {
    match op
    case Acknowledge(note) =>
      (row.(acknowledgedAt := Some(now), state := if row.state == Open then Acknowledged else row.state,
            note := if note.Some? then Some(Clip(note.value, 280)) else row.note), Some("acknowledged"))
    case Silence(seconds) =>
      (row.(state := Silenced, silencedUntil := Some(now + SilenceSeconds(seconds, cfg))), Some("silenced"))
    case Unsilence =>
      (row.(silencedUntil := None, state := if row.acknowledgedAt.Some? then Acknowledged else Open), Some("unsilenced"))
    case SetNote(text) => (row.(note := Some(Clip(text, 280))), Some("note_updated"))
    case Assign(handle) =>
      var name := Clip(handle, 80);
      (row.(assignee := Some(name)),
       Some(if row.assignee.Some? && row.assignee.value !in {"", name} then "reassigned" else "assigned"))
    case Unassign => (row.(assignee := None), Some("unassigned"))
    case MarkRecovered =>
      if row.state == Recovered then (row, None)
      else (row.(state := Recovered, recoveredAt := Some(now), silencedUntil := None), Some("recovered"))
  }

  /** An empty handle is refused before the row is read. */
  predicate Refused(op: Op) {
    op.Assign? && op.handle == ""
  }

  function OperateSession(b: Board, id: nat, op: Op, now: int, cfg: Settings): Board {
    if id >= |b.rows| || Refused(op) then b
    else
      var (row, action) := Edit(b.rows[id], op, now, cfg);
      Board(b.rows[id := row], if action.Some? then b.trail + [Entry(id, action.value, row.state)] else b.trail)
  }

  // ---- reads ----

  function EffectiveState(row: Incident, now: int): IncidentState {
    if SilenceOver(row, now) then if row.acknowledgedAt.Some? then Acknowledged else Open else row.state
  }

  function SilencedSignals(rows: seq<Incident>, now: int): set<string> {
    set row | row in rows && row.state == Silenced && row.silencedUntil.Some? && row.silencedUntil.value > now :: row.signal
  }

  class IncidentWorkflowService {
    var board: Board
    const cfg: Settings

    constructor (cfg: Settings)
      ensures board == Board([], []) && this.cfg == cfg
    {
      board := Board([], []);
      this.cfg := cfg;
    }

    method Observe(alerts: seq<Alert>, now: int)
      modifies this
      ensures board == ObserveSession(old(board), alerts, now)
    {
      if alerts == [] {
        return;
      }
      var rows, staged, trail := board.rows, [], board.trail;
      for k := 0 to |alerts|
        invariant Sweep(rows, staged, trail) == SweepAll(board, alerts[..k], now)
        invariant board == old(board)
      {
        assert alerts[..k + 1][..k] == alerts[..k];
        var found := Find(rows, alerts[k].signal);
        if found.None? {
          trail := trail + [Entry(|rows| + |staged|, "opened", Open)];
          staged := staged + [Opened(alerts[k], now)];
        } else {
          var row := rows[found.value];
          if Reopens(row, now) {
            row := row.(state := Open, recoveredAt := None, silencedUntil := None, acknowledgedAt := None,
                        note := None, firstSeen := now);
            trail := trail + [Entry(found.value, "reopened", Open)];
          }
          row := row.(occurrences := row.occurrences + 1, severity := alerts[k].severity, lastSeen := now);
          rows := rows[found.value := row];
        }
      }
      assert alerts[..|alerts|] == alerts;
      if DistinctSignals(staged) {
        board := Board(rows + staged, trail);
      }
    }

    method RecoverStale(activeSignals: seq<string>, now: int) returns (recovered: nat)
      modifies this
      ensures board == RecoverSession(old(board), (set x | x in activeSignals), now)
      ensures recovered == |board.trail| - |old(board).trail|
    {
      var active := set x | x in activeSignals;
      recovered := 0;
      ghost var start := board;
      for i := 0 to |board.rows|
        invariant |board.rows| == |start.rows| && board == RecoverUpTo(start, active, now, i)
        invariant forall k | i <= k < |start.rows| :: board.rows[k] == start.rows[k]
        invariant recovered == |board.trail| - |start.trail|
      {
        var row := board.rows[i];
        if row.state != Recovered && row.signal !in active {
          row := row.(state := Recovered, recoveredAt := Some(now), silencedUntil := None);
          board := Board(board.rows[i := row], board.trail + [Entry(i, "recovered", Recovered)]);
          recovered := recovered + 1;
        }
      }
    }

    method Operate(id: nat, op: Op, now: int) returns (row: Option<Incident>)
      modifies this
      ensures board == OperateSession(old(board), id, op, now, cfg)
      ensures row == if id < |board.rows| && !Refused(op) then Some(board.rows[id]) else None
    {
      if id >= |board.rows| || Refused(op) {
        return None;
      }
      var (edited, action) := Edit(board.rows[id], op, now, cfg);
      var trail := board.trail;
      if action.Some? {
        trail := trail + [Entry(id, action.value, edited.state)];
      }
      board := Board(board.rows[id := edited], trail);
      row := Some(edited);
    }
  }

  // ---- what every operation keeps ----

  /** The state the trail last recorded for an incident. */
  function LastLogged(trail: seq<Entry>, i: nat): Option<IncidentState> {
    if trail == [] then None
    else
      var last := |trail| - 1;
      if trail[last].incident == i then Some(trail[last].state) else LastLogged(trail[..last], i)
  }

  lemma {:induction false} LoggedAfter(trail: seq<Entry>, e: Entry, i: nat)
    ensures LastLogged(trail + [e], i) == if e.incident == i then Some(e.state) else LastLogged(trail, i)
  {
    assert (trail + [e])[..|trail|] == trail;
  }

  predicate RowOk(row: Incident) {
    row.state == Silenced <==> row.silencedUntil.Some?
  }

  /** The trail tells each incident's state, and knows no incident that is not there. */
  predicate TrailTells(rows: seq<Incident>, trail: seq<Entry>) {
    && (forall i | 0 <= i < |rows| :: LastLogged(trail, i) == Some(rows[i].state))
    && (forall k | 0 <= k < |trail| :: trail[k].incident < |rows|)
  }

  predicate BoardOk(b: Board) {
    && DistinctSignals(b.rows)
    && (forall i | 0 <= i < |b.rows| :: RowOk(b.rows[i]))
    && TrailTells(b.rows, b.trail)
  }

  /** One incident changes, with a trail entry unless its state stayed the same. */
  lemma {:induction false} ChangeKeepsTrail(rows: seq<Incident>, trail: seq<Entry>, i: nat, row: Incident,
                                            action: Option<string>)
    requires i < |rows| && TrailTells(rows, trail)
    requires action.None? ==> row.state == rows[i].state
    ensures TrailTells(rows[i := row], if action.Some? then trail + [Entry(i, action.value, row.state)] else trail)
  {
    if action.Some? {
      forall k | 0 <= k < |rows|
        ensures LastLogged(trail + [Entry(i, action.value, row.state)], k) == Some(rows[i := row][k].state)
      {
        LoggedAfter(trail, Entry(i, action.value, row.state), k);
      }
    }
  }

  lemma {:induction false} NewKeepsTrail(rows: seq<Incident>, trail: seq<Entry>, row: Incident, action: string)
    requires TrailTells(rows, trail)
    ensures TrailTells(rows + [row], trail + [Entry(|rows|, action, row.state)])
  {
    forall k | 0 <= k <= |rows|
      ensures LastLogged(trail + [Entry(|rows|, action, row.state)], k) == Some((rows + [row])[k].state)
    {
      LoggedAfter(trail, Entry(|rows|, action, row.state), k);
    }
  }

  // ---- what a sweep does ----

  predicate IsNew(rows: seq<Incident>, signal: string) {
    Find(rows, signal).None?
  }

  predicate Alerted(alerts: seq<Alert>, signal: string) {
    exists k :: 0 <= k < |alerts| && alerts[k].signal == signal
  }

  /** No two alerts of the sweep are for the same signal that has no incident yet. */
  predicate NewSignalsDistinct(rows: seq<Incident>, alerts: seq<Alert>) {
    forall k, l | 0 <= k < l < |alerts| && alerts[k].signal == alerts[l].signal :: !IsNew(rows, alerts[k].signal)
  }

  /** The rows known before the sweep keep their signals, and an alerted one is active. */
  predicate RowsSwept(before: seq<Incident>, alerts: seq<Alert>, rows: seq<Incident>) {
    && |rows| == |before|
    && (forall i | 0 <= i < |before| ::
      && rows[i].signal == before[i].signal && RowOk(rows[i])
      && (Alerted(alerts, rows[i].signal) ==> rows[i].state != Recovered))
  }

  /** The new rows are for exactly the alerted signals that had no incident. */
  ghost predicate NewRowsStaged(before: seq<Incident>, alerts: seq<Alert>, staged: seq<Incident>) {
    && (forall k | 0 <= k < |staged| :: staged[k].state == Open && RowOk(staged[k]))
    && (forall x :: !IsNew(staged, x) <==> IsNew(before, x) && Alerted(alerts, x))
    && (DistinctSignals(staged) <==> NewSignalsDistinct(before, alerts))
  }

  ghost predicate SweepOk(b: Board, alerts: seq<Alert>, s: Sweep) {
    && RowsSwept(b.rows, alerts, s.rows)
    && NewRowsStaged(b.rows, alerts, s.staged)
    && TrailTells(s.rows + s.staged, s.trail)
  }

  lemma {:induction false} SameSignalsFindSame(rows: seq<Incident>, rows': seq<Incident>, signal: string)
    requires |rows| == |rows'| && forall i | 0 <= i < |rows| :: rows[i].signal == rows'[i].signal
    ensures Find(rows, signal).None? == Find(rows', signal).None?
  {
  }

  lemma {:induction false} NothingSwept(b: Board)
    requires BoardOk(b)
    ensures SweepOk(b, [], Sweep(b.rows, [], b.trail))
  {
    assert b.rows + [] == b.rows;
    assert forall x :: !Alerted([], x) && IsNew([], x);
  }

  lemma {:induction false} SweepIsOk(b: Board, alerts: seq<Alert>, now: int)
    requires BoardOk(b)
    ensures SweepOk(b, alerts, SweepAll(b, alerts, now))
  {
    if alerts == [] {
      NothingSwept(b);
    } else {
      var n := |alerts| - 1;
      SweepIsOk(b, alerts[..n], now);
      OneMoreAlert(b, alerts[..n], SweepAll(b, alerts[..n], now), alerts[n], now);
      assert alerts[..n] + [alerts[n]] == alerts;
    }
  }

  lemma {:induction false} AlertedAfter(alerts: seq<Alert>, alert: Alert, x: string)
    ensures Alerted(alerts + [alert], x) <==> Alerted(alerts, x) || alert.signal == x
  {
    if alert.signal == x {
      assert (alerts + [alert])[|alerts|].signal == x;
    }
    if Alerted(alerts, x) {
      var k :| 0 <= k < |alerts| && alerts[k].signal == x;
      assert (alerts + [alert])[k].signal == x;
    }
  }

  lemma {:induction false} NewDistinctAfter(rows: seq<Incident>, alerts: seq<Alert>, alert: Alert)
    ensures NewSignalsDistinct(rows, alerts + [alert]) <==>
      NewSignalsDistinct(rows, alerts) && !(IsNew(rows, alert.signal) && Alerted(alerts, alert.signal))
  {
    var all := alerts + [alert];
    if NewSignalsDistinct(rows, all) {
      forall k, l | 0 <= k < l < |alerts| && alerts[k].signal == alerts[l].signal ensures !IsNew(rows, alerts[k].signal) {
        assert all[k] == alerts[k] && all[l] == alerts[l];
      }
      if Alerted(alerts, alert.signal) {
        var k :| 0 <= k < |alerts| && alerts[k].signal == alert.signal;
        assert all[k].signal == all[|alerts|].signal;
      }
    }
  }

  lemma {:induction false} DistinctAfter(rows: seq<Incident>, row: Incident)
    ensures DistinctSignals(rows + [row]) <==> DistinctSignals(rows) && IsNew(rows, row.signal)
  {
    var all := rows + [row];
    if DistinctSignals(all) {
      forall i, j | 0 <= i < j < |rows| ensures rows[i].signal != rows[j].signal {
        assert all[i] == rows[i] && all[j] == rows[j];
      }
      forall i | 0 <= i < |rows| ensures rows[i].signal != row.signal {
        assert all[i] == rows[i] && all[|rows|] == row;
      }
    }
  }

  lemma {:induction false} IsNewAfter(rows: seq<Incident>, row: Incident, x: string)
    ensures IsNew(rows + [row], x) <==> IsNew(rows, x) && row.signal != x
  {
    var all := rows + [row];
    if !IsNew(rows, x) {
      assert all[Find(rows, x).value].signal == x;
    } else if row.signal == x {
      assert all[|rows|].signal == x;
    }
  }

  lemma {:induction false} NewRowsAfter(before: seq<Incident>, alerts: seq<Alert>, staged: seq<Incident>,
                                        alert: Alert, row: Incident)
    requires NewRowsStaged(before, alerts, staged) && IsNew(before, alert.signal)
    requires row.signal == alert.signal && row.state == Open && RowOk(row)
    ensures NewRowsStaged(before, alerts + [alert], staged + [row])
  {
    forall x ensures !IsNew(staged + [row], x) <==> IsNew(before, x) && Alerted(alerts + [alert], x) {
      IsNewAfter(staged, row, x);
      AlertedAfter(alerts, alert, x);
    }
    DistinctAfter(staged, row);
    NewDistinctAfter(before, alerts, alert);
  }

  lemma {:induction false} KnownKeepsNewRows(before: seq<Incident>, alerts: seq<Alert>, staged: seq<Incident>,
                                             alert: Alert)
    requires NewRowsStaged(before, alerts, staged) && !IsNew(before, alert.signal)
    ensures NewRowsStaged(before, alerts + [alert], staged)
  {
    forall x ensures !IsNew(staged, x) <==> IsNew(before, x) && Alerted(alerts + [alert], x) {
      AlertedAfter(alerts, alert, x);
    }
    NewDistinctAfter(before, alerts, alert);
  }

  /** The row that is looked up becomes `row`; no other row is for the alerted signal. */
  lemma {:induction false} RowsAfter(before: seq<Incident>, alerts: seq<Alert>, rows: seq<Incident>, alert: Alert,
                                     i: nat, row: Incident)
    requires RowsSwept(before, alerts, rows) && DistinctSignals(before)
    requires i < |rows| && rows[i].signal == alert.signal
    requires row.signal == alert.signal && row.state != Recovered && RowOk(row)
    ensures RowsSwept(before, alerts + [alert], rows[i := row])
  {
    forall k | 0 <= k < |rows| && k != i && Alerted(alerts + [alert], rows[k].signal)
      ensures rows[k].state != Recovered
    {
      assert before[k].signal != before[i].signal;
      AlertedAfter(alerts, alert, rows[k].signal);
    }
  }

  lemma {:induction false} UnknownKeepsRows(before: seq<Incident>, alerts: seq<Alert>, rows: seq<Incident>,
                                            alert: Alert)
    requires RowsSwept(before, alerts, rows) && IsNew(rows, alert.signal)
    ensures RowsSwept(before, alerts + [alert], rows)
  {
    forall k | 0 <= k < |rows| && Alerted(alerts + [alert], rows[k].signal)
      ensures rows[k].state != Recovered
    {
      AlertedAfter(alerts, alert, rows[k].signal);
    }
  }

  lemma {:induction false} TrailAfterOpening(rows: seq<Incident>, staged: seq<Incident>, trail: seq<Entry>,
                                             row: Incident)
    requires TrailTells(rows + staged, trail)
    ensures TrailTells(rows + (staged + [row]), trail + [Entry(|rows| + |staged|, "opened", row.state)])
  {
    NewKeepsTrail(rows + staged, trail, row, "opened");
    assert rows + staged + [row] == rows + (staged + [row]);
  }

  lemma {:induction false} TrailAfterSeeing(rows: seq<Incident>, staged: seq<Incident>, trail: seq<Entry>,
                                            alert: Alert, now: int, i: nat)
    requires TrailTells(rows + staged, trail) && i < |rows|
    ensures TrailTells(rows[i := Seen(rows[i], alert, now)] + staged,
                       if Reopens(rows[i], now) then trail + [Entry(i, "reopened", Open)] else trail)
  {
    var row := Seen(rows[i], alert, now);
    ChangeKeepsTrail(rows + staged, trail, i, row, if Reopens(rows[i], now) then Some("reopened") else None);
    assert (rows + staged)[i := row] == rows[i := row] + staged;
  }

  lemma {:induction false} OneMoreAlert(b: Board, alerts: seq<Alert>, s: Sweep, alert: Alert, now: int)
    requires SweepOk(b, alerts, s) && DistinctSignals(b.rows)
    ensures SweepOk(b, alerts + [alert], SweepOne(s, alert, now))
  {
    SameSignalsFindSame(b.rows, s.rows, alert.signal);
    var found := Find(s.rows, alert.signal);
    if found.None? {
      UnknownKeepsRows(b.rows, alerts, s.rows, alert);
      NewRowsAfter(b.rows, alerts, s.staged, alert, Opened(alert, now));
      TrailAfterOpening(s.rows, s.staged, s.trail, Opened(alert, now));
    } else {
      RowsAfter(b.rows, alerts, s.rows, alert, found.value, Seen(s.rows[found.value], alert, now));
      KnownKeepsNewRows(b.rows, alerts, s.staged, alert);
      TrailAfterSeeing(s.rows, s.staged, s.trail, alert, now, found.value);
    }
  }

  lemma {:induction false} RecoveredRows(b: Board, active: set<string>, now: int, n: nat)
    requires n <= |b.rows|
    ensures forall i | 0 <= i < |b.rows| ::
      RecoverUpTo(b, active, now, n).rows[i] == if i < n then RecoverRow(b.rows[i], active, now) else b.rows[i]
  {
    if n > 0 {
      RecoveredRows(b, active, now, n - 1);
    }
  }

  lemma {:induction false} NotYetRecovered(b: Board, active: set<string>, now: int, n: nat, i: nat)
    requires n <= i < |b.rows|
    ensures RecoverUpTo(b, active, now, n).rows[i] == b.rows[i]
  {
    if n > 0 {
      NotYetRecovered(b, active, now, n - 1, i);
    }
  }

  /** One more row has been checked for recovery. */
  function RecoverOne(prior: Board, i: nat, active: set<string>, now: int): Board
    requires i < |prior.rows|
  {
    var row := RecoverRow(prior.rows[i], active, now);
    Board(prior.rows[i := row],
          if row == prior.rows[i] then prior.trail else prior.trail + [Entry(i, "recovered", Recovered)])
  }

  lemma {:induction false} OneMoreChecked(b: Board, active: set<string>, now: int, n: nat)
    requires n < |b.rows|
    ensures RecoverUpTo(b, active, now, n + 1) == RecoverOne(RecoverUpTo(b, active, now, n), n, active, now)
  {
    NotYetRecovered(b, active, now, n, n);
  }

  lemma {:induction false} RecoverOneTrail(prior: Board, i: nat, active: set<string>, now: int)
    requires i < |prior.rows| && TrailTells(prior.rows, prior.trail)
    ensures var next := RecoverOne(prior, i, active, now);
      TrailTells(next.rows, next.trail)
  {
    var row := RecoverRow(prior.rows[i], active, now);
    ChangeKeepsTrail(prior.rows, prior.trail, i, row, if row == prior.rows[i] then None else Some("recovered"));
  }

  predicate TrailOk(b: Board) {
    TrailTells(b.rows, b.trail)
  }

  lemma {:induction false} NextRecoveredTrail(b: Board, active: set<string>, now: int, n: nat)
    requires n < |b.rows| && TrailOk(RecoverUpTo(b, active, now, n))
    ensures TrailOk(RecoverUpTo(b, active, now, n + 1))
  {
    OneMoreChecked(b, active, now, n);
    RecoverOneTrail(RecoverUpTo(b, active, now, n), n, active, now);
  }

  lemma {:induction false} RecoveredTrail(b: Board, active: set<string>, now: int, n: nat)
    requires n <= |b.rows| && TrailOk(b)
    ensures TrailOk(RecoverUpTo(b, active, now, n))
  {
    if n > 0 {
      RecoveredTrail(b, active, now, n - 1);
      NextRecoveredTrail(b, active, now, n - 1);
    }
  }

  // ---- the board in every run ----

  lemma {:induction false} ObserveKeeps(b: Board, alerts: seq<Alert>, now: int)
    requires BoardOk(b)
    ensures BoardOk(ObserveSession(b, alerts, now))
  {
    SweepIsOk(b, alerts, now);
    var s := SweepAll(b, alerts, now);
    if DistinctSignals(s.staged) {
      var rows := s.rows + s.staged;
      forall i, j | 0 <= i < j < |rows| ensures rows[i].signal != rows[j].signal {
        if i < |s.rows| <= j {
          assert IsNew(b.rows, s.staged[j - |s.rows|].signal);
          assert s.rows[i].signal == b.rows[i].signal;
        }
      }
    }
  }

  lemma {:induction false} RecoverKeeps(b: Board, active: set<string>, now: int)
    requires BoardOk(b)
    ensures BoardOk(RecoverSession(b, active, now))
  {
    RecoveredRows(b, active, now, |b.rows|);
    RecoveredTrail(b, active, now, |b.rows|);
  }

  lemma {:induction false} OperateKeeps(b: Board, id: nat, op: Op, now: int, cfg: Settings)
    requires BoardOk(b)
    ensures BoardOk(OperateSession(b, id, op, now, cfg))
  {
    if id < |b.rows| && !Refused(op) {
      var (row, action) := Edit(b.rows[id], op, now, cfg);
      ChangeKeepsTrail(b.rows, b.trail, id, row, action);
    }
  }

  datatype Event =
    | Observed(alerts: seq<Alert>, now: int)
    | RecoveredStale(active: set<string>, now: int)
    | Operated(id: nat, op: Op, now: int)

  function Handle(b: Board, e: Event, cfg: Settings): Board {
    match e
    case Observed(alerts, now) => ObserveSession(b, alerts, now)
    case RecoveredStale(active, now) => RecoverSession(b, active, now)
    case Operated(id, op, now) => OperateSession(b, id, op, now, cfg)
  }

  function History(events: seq<Event>, cfg: Settings): Board {
    if events == [] then Board([], [])
    else Handle(History(events[..|events| - 1], cfg), events[|events| - 1], cfg)
  }

  /** The clock of the events never runs backwards. */
  predicate Ordered(events: seq<Event>) {
    forall i, j | 0 <= i < j < |events| :: events[i].now <= events[j].now
  }

  /** Whatever the events, there is one incident per signal, an incident is silenced exactly
    * when it has an end of silence, and the last trail entry of each tells its state. */
  lemma {:induction false} BoardAlwaysOk(events: seq<Event>, cfg: Settings)
    ensures BoardOk(History(events, cfg))
  {
    if events != [] {
      var b, e := History(events[..|events| - 1], cfg), events[|events| - 1];
      BoardAlwaysOk(events[..|events| - 1], cfg);
      match e
      case Observed(alerts, now) => ObserveKeeps(b, alerts, now);
      case RecoveredStale(active, now) => RecoverKeeps(b, active, now);
      case Operated(id, op, now) => OperateKeeps(b, id, op, now, cfg);
    }
  }

  predicate SilencesEndBy(rows: seq<Incident>, end: int) {
    forall i | 0 <= i < |rows| && rows[i].silencedUntil.Some? :: rows[i].silencedUntil.value <= end
  }

  lemma {:induction false} SweepSilences(b: Board, alerts: seq<Alert>, now: int, end: int)
    requires SilencesEndBy(b.rows, end)
    ensures SilencesEndBy(SweepAll(b, alerts, now).rows, end) && SilencesEndBy(SweepAll(b, alerts, now).staged, end)
  {
    if alerts != [] {
      SweepSilences(b, alerts[..|alerts| - 1], now, end);
    }
  }

  lemma {:induction false} HandledSilences(b: Board, e: Event, cfg: Settings, end: int)
    requires SilencesEndBy(b.rows, end) && e.now + Max(1, cfg.maxSilence) <= end
    ensures SilencesEndBy(Handle(b, e, cfg).rows, end)
  {
    match e
    case Observed(alerts, at) => SweepSilences(b, alerts, at, end);
    case RecoveredStale(active, at) => RecoveredRows(b, active, at, |b.rows|);
    case Operated(id, op, at) =>
  }

  /** No silence reaches further than the configured maximum past the present. */
  lemma {:induction false} SilencesAreBounded(events: seq<Event>, cfg: Settings, now: int)
    requires Ordered(events) && (events != [] ==> events[|events| - 1].now <= now)
    ensures SilencesEndBy(History(events, cfg).rows, now + Max(1, cfg.maxSilence))
  {
    if events != [] {
      SilencesAreBounded(events[..|events| - 1], cfg, now);
      HandledSilences(History(events[..|events| - 1], cfg), events[|events| - 1], cfg, now + Max(1, cfg.maxSilence));
    }
  }

  /** The signals that routing skips are those of the incidents that read as silenced. */
  lemma {:induction false} SilencedIffReadsSilenced(events: seq<Event>, cfg: Settings, now: int, signal: string)
    ensures var rows := History(events, cfg).rows;
      signal in SilencedSignals(rows, now) <==>
      exists i :: 0 <= i < |rows| && rows[i].signal == signal && EffectiveState(rows[i], now) == Silenced
  {
    var rows := History(events, cfg).rows;
    if signal in SilencedSignals(rows, now) {
      var row :| row in rows && row.signal == signal && row.state == Silenced &&
        row.silencedUntil.Some? && row.silencedUntil.value > now;
      var i :| 0 <= i < |rows| && rows[i] == row;
      assert EffectiveState(rows[i], now) == Silenced;
    }
    if i :| 0 <= i < |rows| && rows[i].signal == signal && EffectiveState(rows[i], now) == Silenced {
      assert rows[i] in rows;
    }
  }

  // ---- what one sweep leaves ----

  function AlertSignals(alerts: seq<Alert>): set<string> {
    set a | a in alerts :: a.signal
  }

  function ActiveSignals(rows: seq<Incident>): set<string> {
    set row | row in rows && row.state != Recovered :: row.signal
  }

  lemma {:induction false} AlertedIsIn(alerts: seq<Alert>, x: string)
    ensures Alerted(alerts, x) <==> x in AlertSignals(alerts)
  {
    if Alerted(alerts, x) {
      var k :| 0 <= k < |alerts| && alerts[k].signal == x;
      assert alerts[k] in alerts;
    }
    if x in AlertSignals(alerts) {
      var a :| a in alerts && a.signal == x;
      var k :| 0 <= k < |alerts| && alerts[k] == a;
    }
  }

  lemma {:induction false} ActiveIsAt(rows: seq<Incident>, x: string)
    ensures x in ActiveSignals(rows) <==> exists i :: 0 <= i < |rows| && rows[i].state != Recovered && rows[i].signal == x
  {
    if x in ActiveSignals(rows) {
      var row :| row in rows && row.state != Recovered && row.signal == x;
      var i :| 0 <= i < |rows| && rows[i] == row;
    }
    if i :| 0 <= i < |rows| && rows[i].state != Recovered && rows[i].signal == x {
      assert rows[i] in rows;
    }
  }

  /** The rows a whole sweep leaves: those observed, with everything not alerted recovered. */
  lemma {:induction false} ActiveAfterRecovery(b: Board, alerts: seq<Alert>, later: int, x: string)
    requires BoardOk(b)
    ensures x in ActiveSignals(RecoverSession(b, AlertSignals(alerts), later).rows) <==>
      Alerted(alerts, x) && exists i :: 0 <= i < |b.rows| && b.rows[i].state != Recovered && b.rows[i].signal == x
  {
    var active := AlertSignals(alerts);
    var rows := RecoverSession(b, active, later).rows;
    RecoveredRows(b, active, later, |b.rows|);
    ActiveIsAt(rows, x);
    AlertedIsIn(alerts, x);
    if i :| 0 <= i < |b.rows| && b.rows[i].state != Recovered && b.rows[i].signal == x && x in active {
      assert rows[i] == b.rows[i];
    }
    if i :| 0 <= i < |rows| && rows[i].state != Recovered && rows[i].signal == x {
      assert rows[i] == RecoverRow(b.rows[i], active, later);
      assert b.rows[i].state != Recovered && b.rows[i].signal == x;
    }
  }

  lemma {:induction false} ObservedIsActive(b: Board, alerts: seq<Alert>, now: int, x: string)
    requires BoardOk(b) && Alerted(alerts, x) && NewSignalsDistinct(b.rows, alerts)
    ensures var rows := ObserveSession(b, alerts, now).rows;
      exists i :: 0 <= i < |rows| && rows[i].state != Recovered && rows[i].signal == x
  {
    SweepIsOk(b, alerts, now);
    var s := SweepAll(b, alerts, now);
    var rows := s.rows + s.staged;
    if IsNew(b.rows, x) {
      var k := Find(s.staged, x).value;
      assert rows[|s.rows| + k] == s.staged[k];
    } else {
      var i := Find(b.rows, x).value;
      assert rows[i] == s.rows[i];
    }
  }

  /** Two alerts for a signal that had no incident: the sweep opens nothing, and that signal
    * stays without an incident. */
  lemma {:induction false} LostSweep(b: Board, alerts: seq<Alert>, now: int) returns (x: string)
    requires BoardOk(b) && !NewSignalsDistinct(b.rows, alerts)
    ensures ObserveSession(b, alerts, now) == b && Alerted(alerts, x) && IsNew(b.rows, x)
  {
    SweepIsOk(b, alerts, now);
    var k, l :| 0 <= k < l < |alerts| && alerts[k].signal == alerts[l].signal && IsNew(b.rows, alerts[k].signal);
    x := alerts[k].signal;
  }

  /** A sweep followed by the recovery of stale incidents leaves exactly the alerted signals
    * active, if and only if no signal that is new to the board is alerted twice. */
  lemma {:induction false} SweepIsExactIff(b: Board, alerts: seq<Alert>, now: int, later: int)
    requires BoardOk(b)
    ensures BoardOk(RecoverSession(ObserveSession(b, alerts, now), AlertSignals(alerts), later)) // one row a signal
    ensures var left := RecoverSession(ObserveSession(b, alerts, now), AlertSignals(alerts), later);
      ActiveSignals(left.rows) == AlertSignals(alerts) <==> NewSignalsDistinct(b.rows, alerts)
  {
    var b1, active := ObserveSession(b, alerts, now), AlertSignals(alerts);
    ObserveKeeps(b, alerts, now);
    RecoverKeeps(b1, active, later);
    var left := ActiveSignals(RecoverSession(b1, active, later).rows);
    if NewSignalsDistinct(b.rows, alerts) {
      forall x ensures x in left <==> x in active {
        AlertedIsIn(alerts, x);
        ActiveAfterRecovery(b1, alerts, later, x);
        if Alerted(alerts, x) {
          ObservedIsActive(b, alerts, now, x);
        }
      }
    } else {
      var x := LostSweep(b, alerts, now);
      AlertedIsIn(alerts, x);
      ActiveAfterRecovery(b1, alerts, later, x);
      assert x in active && x !in left;
    }
  }
}
