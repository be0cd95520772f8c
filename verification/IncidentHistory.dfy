/** What the columns of an incident mean: each is a fact about the whole run of sweeps and
  * operator actions so far. */
module IncidentHistory {
  import opened Wrappers
  import opened Incidents

  // ---- one sweep ----

  function Sightings(alerts: seq<Alert>, signal: string): nat {
    if alerts == [] then 0
    else Sightings(alerts[..|alerts| - 1], signal) + if alerts[|alerts| - 1].signal == signal then 1 else 0
  }

  /** The last alert of a sweep for a signal. */
  function LastAlert(alerts: seq<Alert>, signal: string): Option<Alert> {
    if alerts == [] then None
    else if alerts[|alerts| - 1].signal == signal then Some(alerts[|alerts| - 1])
    else LastAlert(alerts[..|alerts| - 1], signal)
  }

  /** The incident's episode is over: it has recovered, or its silence has run out. */
  predicate EpisodeOver(row: Incident, now: int) {
    || row.state == Recovered
    || (row.state == Silenced && row.silencedUntil.None?)
    || (row.state == Silenced && row.silencedUntil.Some? && now >= row.silencedUntil.value)
  }

  /** A known incident after a sweep that sights it at least once. */
  function Sighted(row: Incident, n: nat, severity: string, now: int): Incident {
    var begun := if EpisodeOver(row, now)
      then Incident(row.signal, Open, row.severity, row.occurrences, None, None, None, None, row.assignee, now, row.lastSeen)
      else row;
    begun.(occurrences := row.occurrences + n, severity := severity, lastSeen := now)
  }

  function AfterSweep(row: Incident, alerts: seq<Alert>, now: int): Incident {
    var last := LastAlert(alerts, row.signal);
    if last.None? then row else Sighted(row, Sightings(alerts, row.signal), last.value.severity, now)
  }

  lemma {:induction false} LastAlertIff(alerts: seq<Alert>, signal: string)
    ensures LastAlert(alerts, signal).Some? <==> Sightings(alerts, signal) > 0
    ensures LastAlert(alerts, signal).Some? ==> LastAlert(alerts, signal).value.signal == signal
    ensures LastAlert(alerts, signal).Some? <==> Alerted(alerts, signal)
  {
    if alerts != [] {
      var n := |alerts| - 1;
      LastAlertIff(alerts[..n], signal);
      AlertedAfter(alerts[..n], alerts[n], signal);
      assert alerts[..n] + [alerts[n]] == alerts;
    }
  }

  /** Seeing one more alert for the row's own signal. */
  lemma {:induction false} SeenOnceMore(row: Incident, alerts: seq<Alert>, alert: Alert, now: int)
    requires alert.signal == row.signal
    ensures Seen(AfterSweep(row, alerts, now), alert, now) == AfterSweep(row, alerts + [alert], now)
  {
    LastAlertIff(alerts, row.signal);
    assert (alerts + [alert])[..|alerts|] == alerts;
  }

  lemma {:induction false} FindsIt(rows: seq<Incident>, i: nat)
    requires DistinctSignals(rows) && i < |rows|
    ensures Find(rows, rows[i].signal) == Some(i)
  {
  }

  /** An alert for another signal leaves the row. */
  lemma {:induction false} SeenElsewhere(row: Incident, alerts: seq<Alert>, alert: Alert, now: int)
    requires alert.signal != row.signal
    ensures AfterSweep(row, alerts + [alert], now) == AfterSweep(row, alerts, now)
  {
    assert (alerts + [alert])[..|alerts|] == alerts;
  }

  lemma {:induction false} OneAlertRow(s: Sweep, row: Incident, alerts: seq<Alert>, alert: Alert, now: int, i: nat)
    requires DistinctSignals(s.rows) && i < |s.rows|
    requires s.rows[i] == AfterSweep(row, alerts, now)
    ensures var rows := SweepOne(s, alert, now).rows;
      |rows| == |s.rows| && rows[i] == AfterSweep(row, alerts + [alert], now)
  {
    if alert.signal == row.signal {
      FindsIt(s.rows, i);
      SeenOnceMore(row, alerts, alert, now);
    } else {
      SeenElsewhere(row, alerts, alert, now);
    }
  }

  lemma {:induction false} SweptStayDistinct(b: Board, alerts: seq<Alert>, now: int)
    requires BoardOk(b)
    ensures DistinctSignals(SweepAll(b, alerts, now).rows)
  {
    SweepIsOk(b, alerts, now);
  }

  /** Whatever the sweep brings, each known row is as its own alerts leave it. */
  lemma {:induction false} SweepRow(b: Board, alerts: seq<Alert>, now: int, i: nat)
    requires BoardOk(b) && i < |b.rows|
    ensures |SweepAll(b, alerts, now).rows| == |b.rows|
    ensures SweepAll(b, alerts, now).rows[i] == AfterSweep(b.rows[i], alerts, now)
  {
    if alerts != [] {
      var n := |alerts| - 1;
      SweepRow(b, alerts[..n], now, i);
      SweptStayDistinct(b, alerts[..n], now);
      OneAlertRow(SweepAll(b, alerts[..n], now), b.rows[i], alerts[..n], alerts[n], now, i);
      assert alerts[..n] + [alerts[n]] == alerts;
    }
  }

  /** In a sweep that is not lost, each new row is as its one alert opens it. */
  lemma {:induction false} StagedRow(b: Board, alerts: seq<Alert>, now: int, k: nat)
    requires BoardOk(b) && NewSignalsDistinct(b.rows, alerts) && k < |SweepAll(b, alerts, now).staged|
    ensures var row := SweepAll(b, alerts, now).staged[k];
      && IsNew(b.rows, row.signal)
      && Sightings(alerts, row.signal) == 1 && LastAlert(alerts, row.signal).Some?
      && row == Incident(row.signal, Open, LastAlert(alerts, row.signal).value.severity, 1, None, None, None, None, None, now, now)
  {
    if alerts == [] {
      assert false;
    } else {
      var n := |alerts| - 1;
      var s, alert := SweepAll(b, alerts[..n], now), alerts[n];
      assert alerts[..n] + [alert] == alerts;
      SweepIsOk(b, alerts[..n], now);
      SweepIsOk(b, alerts, now);
      NewDistinctAfter(b.rows, alerts[..n], alert);
      SameSignalsFindSame(b.rows, s.rows, alert.signal);
      LastAlertIff(alerts[..n], alert.signal);
      if k < |s.staged| {
        StagedRow(b, alerts[..n], now, k);
        StagedIsAlerted(b.rows, alerts[..n], s.staged, k);
      }
    }
  }

  lemma {:induction false} StagedIsAlerted(before: seq<Incident>, alerts: seq<Alert>, staged: seq<Incident>, k: nat)
    requires NewRowsStaged(before, alerts, staged) && k < |staged|
    ensures IsNew(before, staged[k].signal) && Alerted(alerts, staged[k].signal)
  {
    assert !IsNew(staged, staged[k].signal);
  }

  // ---- one operator action, one recovery ----

  /** How long a silence lasts: as asked for or by default, at least a second and at most the
    * maximum. */
  predicate Lasts(seconds: int, asked: Option<int>, cfg: Settings) {
    var wanted, most := if asked.None? then cfg.defaultSilence else asked.value, if cfg.maxSilence < 1 then 1 else cfg.maxSilence;
    && 1 <= seconds <= most
    && (wanted > most ==> seconds == most) && (wanted < 1 ==> seconds == 1) && (1 <= wanted <= most ==> seconds == wanted)
  }

  /** The state and silence that an operator action leaves. */
  predicate StateAfter(row: Incident, op: Op, row': Incident, now: int, cfg: Settings) {
    match op
    case Acknowledge(_) =>
      row'.silencedUntil == row.silencedUntil && row'.state == if row.state.Open? then Acknowledged else row.state
    case Silence(seconds) =>
      row'.state == Silenced && row'.silencedUntil.Some? && Lasts(row'.silencedUntil.value - now, seconds, cfg)
    case Unsilence =>
      row'.silencedUntil.None? && row'.state == if row.acknowledgedAt.None? then Open else Acknowledged
    case MarkRecovered =>
      row'.state == Recovered && (row.state == Recovered || row'.silencedUntil.None?)
    case _ => row'.state == row.state && row'.silencedUntil == row.silencedUntil
  }

  /** The word for it in the trail; an action without effect has none. */
  function Word(row: Incident, op: Op): Option<string> {
    match op
    case Acknowledge(_) => Some("acknowledged")
    case Silence(_) => Some("silenced")
    case Unsilence => Some("unsilenced")
    case SetNote(_) => Some("note_updated")
    case Assign(handle) =>
      if row.assignee in {None, Some(""), Some(Clip(handle, 80))} then Some("assigned") else Some("reassigned")
    case Unassign => Some("unassigned")
    case MarkRecovered => if row.state == Recovered then None else Some("recovered")
  }

  /** An operator action changes at most one incident, as its state table says, and logs its
    * word with the state that it leaves; without an incident or with an empty handle it does
    * nothing. */
  lemma {:induction false} OperationTells(b: Board, id: nat, op: Op, now: int, cfg: Settings)
    ensures var b' := Handle(b, Operated(id, op, now), cfg);
      && |b'.rows| == |b.rows|
      && (forall i | 0 <= i < |b.rows| && i != id :: b'.rows[i] == b.rows[i])
      && (id >= |b.rows| || op == Assign("") ==> b' == b)
      && (id < |b.rows| && op != Assign("") ==>
        && StateAfter(b.rows[id], op, b'.rows[id], now, cfg)
        && b'.trail == b.trail + match Word(b.rows[id], op)
                                 case Some(word) => [Entry(id, word, b'.rows[id].state)]
                                 case None => [])
  {
  }

  // ---- what the columns mean ----

  /** The sweep is not lost. */
  predicate Lands(b: Board, e: Event) {
    e.Observed? && NewSignalsDistinct(b.rows, e.alerts)
  }

  /** A new episode of incident `i` begins. */
  predicate Begins(b: Board, e: Event, i: nat) {
    && Lands(b, e)
    && (i < |b.rows| ==> Alerted(e.alerts, b.rows[i].signal) && EpisodeOver(b.rows[i], e.now))
  }

  predicate Does(b: Board, e: Event, i: nat, op: Op) {
    e.Operated? && e.id == i && i < |b.rows| && e.op == op
  }

  /** Incident `i` recovers, because it is no longer alerted or because an operator says so. */
  predicate Recovers(b: Board, e: Event, i: nat) {
    && i < |b.rows| && b.rows[i].state != Recovered
    && ((e.RecoveredStale? && b.rows[i].signal !in e.active) || Does(b, e, i, MarkRecovered))
  }

  /** How often a signal has been alerted, in sweeps that were not lost. */
  function TotalSeen(events: seq<Event>, cfg: Settings, signal: string): nat {
    if events == [] then 0
    else
      var prior, e := events[..|events| - 1], events[|events| - 1];
      TotalSeen(prior, cfg, signal) + if Lands(History(prior, cfg), e) then Sightings(e.alerts, signal) else 0
  }

  /** When and with which severity it was last alerted. */
  function LastSeen(events: seq<Event>, cfg: Settings, signal: string): Option<(int, string)> {
    if events == [] then None
    else
      var prior, e := events[..|events| - 1], events[|events| - 1];
      if Lands(History(prior, cfg), e) && LastAlert(e.alerts, signal).Some?
      then Some((e.now, LastAlert(e.alerts, signal).value.severity)) else LastSeen(prior, cfg, signal)
  }

  /** When the present episode began. */
  function BeganAt(events: seq<Event>, cfg: Settings, i: nat): int {
    if events == [] then 0
    else
      var prior, e := events[..|events| - 1], events[|events| - 1];
      if Begins(History(prior, cfg), e, i) then e.now else BeganAt(prior, cfg, i)
  }

  /** Who was last made the owner, over all episodes. */
  function OwnerOf(events: seq<Event>, cfg: Settings, i: nat): Option<string> {
    if events == [] then None
    else
      var prior, e := events[..|events| - 1], events[|events| - 1];
      if e.Operated? && e.op.Assign? && e.op.handle != "" && Does(History(prior, cfg), e, i, e.op)
      then Some(Clip(e.op.handle, 80))
      else if Does(History(prior, cfg), e, i, Unassign) then None
      else OwnerOf(prior, cfg, i)
  }

  /** When it was last acknowledged in the present episode. */
  function AcknowledgedAt(events: seq<Event>, cfg: Settings, i: nat): Option<int> {
    if events == [] then None
    else
      var prior, e := events[..|events| - 1], events[|events| - 1];
      if Begins(History(prior, cfg), e, i) then None
      else if e.Operated? && e.op.Acknowledge? && Does(History(prior, cfg), e, i, e.op) then Some(e.now)
      else AcknowledgedAt(prior, cfg, i)
  }

  /** The last note of the present episode, whether set or given with an acknowledgement. */
  function NoteOf(events: seq<Event>, cfg: Settings, i: nat): Option<string> {
    if events == [] then None
    else
      var prior, e := events[..|events| - 1], events[|events| - 1];
      if Begins(History(prior, cfg), e, i) then None
      else if e.Operated? && e.op.SetNote? && Does(History(prior, cfg), e, i, e.op) then Some(Clip(e.op.text, 280))
      else if e.Operated? && e.op.Acknowledge? && e.op.ackNote.Some? && Does(History(prior, cfg), e, i, e.op)
      then Some(Clip(e.op.ackNote.value, 280))
      else NoteOf(prior, cfg, i)
  }

  /** When it last recovered in the present episode. */
  function RecoveredAt(events: seq<Event>, cfg: Settings, i: nat): Option<int> {
    if events == [] then None
    else
      var prior, e := events[..|events| - 1], events[|events| - 1];
      if Begins(History(prior, cfg), e, i) then None
      else if Recovers(History(prior, cfg), e, i) then Some(e.now)
      else RecoveredAt(prior, cfg, i)
  }

  /** What the columns of incident `i` say of its alerts. */
  predicate TellsAlerts(row: Incident, events: seq<Event>, cfg: Settings, i: nat) {
    && row.occurrences == TotalSeen(events, cfg, row.signal)
    && LastSeen(events, cfg, row.signal) == Some((row.lastSeen, row.severity))
    && row.firstSeen == BeganAt(events, cfg, i)
  }

  /** What they say of the actions on it. */
  predicate TellsActions(row: Incident, events: seq<Event>, cfg: Settings, i: nat) {
    && row.assignee == OwnerOf(events, cfg, i)
    && row.acknowledgedAt == AcknowledgedAt(events, cfg, i)
    && row.note == NoteOf(events, cfg, i)
    && row.recoveredAt == RecoveredAt(events, cfg, i)
  }

  predicate Tells(row: Incident, events: seq<Event>, cfg: Settings, i: nat) {
    TellsAlerts(row, events, cfg, i) && TellsActions(row, events, cfg, i)
  }

  /** Nothing has happened to a signal without an incident. */
  lemma {:induction false} UnseenHasNothing(events: seq<Event>, cfg: Settings, signal: string)
    requires IsNew(History(events, cfg).rows, signal)
    ensures TotalSeen(events, cfg, signal) == 0 && LastSeen(events, cfg, signal) == None
  {
    if events != [] {
      var prior, e := events[..|events| - 1], events[|events| - 1];
      BoardAlwaysOk(prior, cfg);
      SignalsStay(History(prior, cfg), e, cfg, signal);
      UnseenHasNothing(prior, cfg, signal);
      if Lands(History(prior, cfg), e) {
        LastAlertIff(e.alerts, signal);
      }
    }
  }

  lemma {:induction false} KeepsSignal(b: Board, e: Event, cfg: Settings, i: nat)
    requires BoardOk(b) && i < |b.rows|
    ensures i < |Handle(b, e, cfg).rows| && Handle(b, e, cfg).rows[i].signal == b.rows[i].signal
  {
    match e
    case Observed(alerts, now) =>
      SweepRow(b, alerts, now, i);
      var s := SweepAll(b, alerts, now);
      assert (s.rows + s.staged)[i] == s.rows[i];
    case RecoveredStale(active, now) => RecoveredRows(b, active, now, |b.rows|);
    case Operated(_, _, _) =>
  }

  /** A signal without an incident had none before, and a sweep that landed did not bring it. */
  lemma {:induction false} SignalsStay(b: Board, e: Event, cfg: Settings, signal: string)
    requires BoardOk(b) && IsNew(Handle(b, e, cfg).rows, signal)
    ensures IsNew(b.rows, signal) && (Lands(b, e) ==> !Alerted(e.alerts, signal))
  {
    forall i | 0 <= i < |b.rows| ensures b.rows[i].signal != signal {
      KeepsSignal(b, e, cfg, i);
    }
    if Lands(b, e) {
      if Alerted(e.alerts, signal) {
        ObservedIsActive(b, e.alerts, e.now, signal);
      }
    }
  }

  lemma {:induction false} NobodyOwnsYet(events: seq<Event>, cfg: Settings, i: nat)
    requires i >= |History(events, cfg).rows|
    ensures OwnerOf(events, cfg, i) == None
  {
    if events != [] {
      var prior, e := events[..|events| - 1], events[|events| - 1];
      BoardAlwaysOk(prior, cfg);
      RowsStay(History(prior, cfg), e, cfg);
      NobodyOwnsYet(prior, cfg, i);
    }
  }

  lemma {:induction false} RowsStay(b: Board, e: Event, cfg: Settings)
    requires BoardOk(b)
    ensures |b.rows| <= |Handle(b, e, cfg).rows|
  {
    if e.Observed? {
      SweepIsOk(b, e.alerts, e.now);
    }
  }

  // ---- known incidents ----

  lemma {:induction false} SweptTells(events: seq<Event>, e: Event, more: seq<Event>, cfg: Settings, i: nat)
    requires e.Observed? && more == events + [e] && i < |History(events, cfg).rows|
    requires Tells(History(events, cfg).rows[i], events, cfg, i)
    ensures i < |History(more, cfg).rows| && Tells(History(more, cfg).rows[i], more, cfg, i)
  {
    var b := History(events, cfg);
    assert more[..|events|] == events;
    BoardAlwaysOk(events, cfg);
    SweepIsOk(b, e.alerts, e.now);
    SweepRow(b, e.alerts, e.now, i);
    LastAlertIff(e.alerts, b.rows[i].signal);
    var s := SweepAll(b, e.alerts, e.now);
    assert (s.rows + s.staged)[i] == s.rows[i];
  }

  lemma {:induction false} RecoveredTells(events: seq<Event>, e: Event, more: seq<Event>, cfg: Settings, i: nat)
    requires e.RecoveredStale? && more == events + [e] && i < |History(events, cfg).rows|
    requires Tells(History(events, cfg).rows[i], events, cfg, i)
    ensures i < |History(more, cfg).rows| && Tells(History(more, cfg).rows[i], more, cfg, i)
  {
    var b := History(events, cfg);
    assert more[..|events|] == events;
    RecoveredRows(b, e.active, e.now, |b.rows|);
  }

  /** What an action leaves in the columns that it may change. */
  lemma {:induction false} ActedRow(row: Incident, op: Op, now: int, cfg: Settings)
    ensures var row' := Edit(row, op, now, cfg).0;
      && row'.signal == row.signal && row'.occurrences == row.occurrences && row'.severity == row.severity
      && row'.lastSeen == row.lastSeen && row'.firstSeen == row.firstSeen
      && row'.assignee == (if op.Assign? then Some(Clip(op.handle, 80)) else if op.Unassign? then None else row.assignee)
      && row'.acknowledgedAt == (if op.Acknowledge? then Some(now) else row.acknowledgedAt)
      && row'.note == (if op.SetNote? then Some(Clip(op.text, 280))
                       else if op.Acknowledge? && op.ackNote.Some? then Some(Clip(op.ackNote.value, 280)) else row.note)
      && row'.recoveredAt == (if op.MarkRecovered? && row.state != Recovered then Some(now) else row.recoveredAt)
  {
  }

  lemma {:induction false} OperatedTellsAlerts(events: seq<Event>, e: Event, more: seq<Event>, cfg: Settings, i: nat)
    requires e.Operated? && more == events + [e] && i < |History(events, cfg).rows|
    requires TellsAlerts(History(events, cfg).rows[i], events, cfg, i)
    ensures i < |History(more, cfg).rows| && TellsAlerts(History(more, cfg).rows[i], more, cfg, i)
  {
    assert more[..|events|] == events;
    ActedRow(History(events, cfg).rows[i], e.op, e.now, cfg);
  }

  lemma {:induction false} OperatedTellsActions(events: seq<Event>, e: Event, more: seq<Event>, cfg: Settings, i: nat)
    requires e.Operated? && more == events + [e] && i < |History(events, cfg).rows|
    requires TellsActions(History(events, cfg).rows[i], events, cfg, i)
    ensures i < |History(more, cfg).rows| && TellsActions(History(more, cfg).rows[i], more, cfg, i)
  {
    var b := History(events, cfg);
    assert more[..|events|] == events;
    ActedRow(b.rows[i], e.op, e.now, cfg);
    if e.id == i && !Refused(e.op) {
      assert History(more, cfg).rows[i] == Edit(b.rows[i], e.op, e.now, cfg).0;
    } else {
      assert History(more, cfg).rows[i] == b.rows[i];
    }
  }

  /** A row that an event adds: a sweep landed, and brought the signal in one alert. */
  lemma {:induction false} OpenedRow(b: Board, e: Event, cfg: Settings, i: nat)
    requires BoardOk(b) && |b.rows| <= i < |Handle(b, e, cfg).rows|
    ensures Lands(b, e)
    ensures var row := Handle(b, e, cfg).rows[i];
      && IsNew(b.rows, row.signal) && Sightings(e.alerts, row.signal) == 1
      && LastAlert(e.alerts, row.signal).Some?
      && row == Incident(row.signal, Open, LastAlert(e.alerts, row.signal).value.severity, 1, None, None, None, None, None,
                         e.now, e.now)
  {
    SweepIsOk(b, e.alerts, e.now);
    var s := SweepAll(b, e.alerts, e.now);
    StagedRow(b, e.alerts, e.now, i - |b.rows|);
    assert (s.rows + s.staged)[i] == s.staged[i - |b.rows|];
  }

  lemma {:induction false} OpenedTells(events: seq<Event>, e: Event, more: seq<Event>, cfg: Settings, i: nat)
    requires more == events + [e] && |History(events, cfg).rows| <= i < |History(more, cfg).rows|
    ensures Tells(History(more, cfg).rows[i], more, cfg, i)
  {
    assert more[..|events|] == events;
    BoardAlwaysOk(events, cfg);
    NobodyOwnsYet(events, cfg, i);
    OpenedRow(History(events, cfg), e, cfg, i);
    UnseenHasNothing(events, cfg, History(more, cfg).rows[i].signal);
  }

  /** In every run, the columns of every incident tell its history: how often and when last its
    * signal was alerted, when the present episode began, and who owns it, when it was
    * acknowledged, what the note is and when it recovered. A lost sweep leaves no trace. */
  lemma {:induction false} ColumnsAreHistory(events: seq<Event>, cfg: Settings, i: nat)
    requires i < |History(events, cfg).rows|
    ensures Tells(History(events, cfg).rows[i], events, cfg, i)
  {
    if events == [] {
      assert false;
    } else {
      var prior, e := events[..|events| - 1], events[|events| - 1];
      assert events == prior + [e];
      if i >= |History(prior, cfg).rows| {
        OpenedTells(prior, e, events, cfg, i);
      } else {
        ColumnsAreHistory(prior, cfg, i);
        match e
        case Observed(_, _) => SweptTells(prior, e, events, cfg, i);
        case RecoveredStale(_, _) => RecoveredTells(prior, e, events, cfg, i);
        case Operated(_, _, _) =>
          OperatedTellsAlerts(prior, e, events, cfg, i);
          OperatedTellsActions(prior, e, events, cfg, i);
      }
    }
  }

  // ---- what a read shows ----

  /** A silence shows until it ends; once it has run out, the incident shows as acknowledged, if
    * it was, and otherwise as open. Any other state shows as it is. */
  lemma {:induction false} ShownState(events: seq<Event>, cfg: Settings, i: nat, now: int)
    requires i < |History(events, cfg).rows|
    ensures var row := History(events, cfg).rows[i];
      EffectiveState(row, now) ==
        if row.silencedUntil.None? || now < row.silencedUntil.value then row.state
        else if AcknowledgedAt(events, cfg, i).Some? then Acknowledged else Open
  {
    BoardAlwaysOk(events, cfg);
    ColumnsAreHistory(events, cfg, i);
  }

  // ---- what the trail logs ----

  function Times(trail: seq<Entry>, entry: Entry): nat {
    if trail == [] then 0
    else Times(trail[..|trail| - 1], entry) + if trail[|trail| - 1] == entry then 1 else 0
  }

  lemma {:induction false} OneMoreTime(trail: seq<Entry>, e: Entry, entry: Entry)
    ensures Times(trail + [e], entry) == Times(trail, entry) + if e == entry then 1 else 0
  {
    assert (trail + [e])[..|trail|] == trail;
  }

  /** A sweep logs the opening of each new incident and the reopening of each known one that it
    * alerts after its episode was over. */
  predicate SweepLogs(b: Board, alerts: seq<Alert>, now: int, openings: nat, entry: Entry) {
    || (entry == Entry(entry.incident, "opened", Open) && |b.rows| <= entry.incident < |b.rows| + openings)
    || (entry == Entry(entry.incident, "reopened", Open) && entry.incident < |b.rows| &&
        EpisodeOver(b.rows[entry.incident], now) && Alerted(alerts, b.rows[entry.incident].signal))
  }

  lemma {:induction false} ReopensIff(row: Incident, alerts: seq<Alert>, now: int)
    ensures Reopens(AfterSweep(row, alerts, now), now) <==> EpisodeOver(row, now) && !Alerted(alerts, row.signal)
  {
    LastAlertIff(alerts, row.signal);
  }

  lemma {:induction false} OneAlertLogs(b: Board, alerts: seq<Alert>, s: Sweep, alert: Alert, now: int, entry: Entry)
    requires DistinctSignals(b.rows) && RowsSwept(b.rows, alerts, s.rows)
    requires forall i | 0 <= i < |b.rows| :: s.rows[i] == AfterSweep(b.rows[i], alerts, now)
    requires Times(s.trail, entry) == Times(b.trail, entry) + if SweepLogs(b, alerts, now, |s.staged|, entry) then 1 else 0
    ensures var s', all := SweepOne(s, alert, now), alerts + [alert];
      Times(s'.trail, entry) == Times(b.trail, entry) + if SweepLogs(b, all, now, |s'.staged|, entry) then 1 else 0
  {
    var found := Find(s.rows, alert.signal);
    forall x: string ensures Alerted(alerts + [alert], x) <==> Alerted(alerts, x) || alert.signal == x {
      AlertedAfter(alerts, alert, x);
    }
    if found.None? {
      OneMoreTime(s.trail, Entry(|s.rows| + |s.staged|, "opened", Open), entry);
    } else {
      ReopensIff(b.rows[found.value], alerts, now);
      OneMoreTime(s.trail, Entry(found.value, "reopened", Open), entry);
    }
  }

  /** A sweep that is not lost adds each of those entries once, and no other. */
  lemma {:induction false} SweepLogsOnce(b: Board, alerts: seq<Alert>, now: int, entry: Entry)
    requires BoardOk(b)
    ensures var s := SweepAll(b, alerts, now);
      Times(s.trail, entry) == Times(b.trail, entry) + if SweepLogs(b, alerts, now, |s.staged|, entry) then 1 else 0
  {
    if alerts != [] {
      var n := |alerts| - 1;
      var s := SweepAll(b, alerts[..n], now);
      SweepLogsOnce(b, alerts[..n], now, entry);
      SweepIsOk(b, alerts[..n], now);
      forall i | 0 <= i < |b.rows| ensures s.rows[i] == AfterSweep(b.rows[i], alerts[..n], now) {
        SweepRow(b, alerts[..n], now, i);
      }
      OneAlertLogs(b, alerts[..n], s, alerts[n], now, entry);
      assert alerts[..n] + [alerts[n]] == alerts;
    }
  }

  /** Recovering what is no longer alerted logs each incident that recovers once, and no other. */
  lemma {:induction false} RecoveryLogsOnce(b: Board, active: set<string>, now: int, n: nat, entry: Entry)
    requires n <= |b.rows|
    ensures Times(RecoverUpTo(b, active, now, n).trail, entry) == Times(b.trail, entry) +
      if entry == Entry(entry.incident, "recovered", Recovered) && entry.incident < n &&
        b.rows[entry.incident].state != Recovered && b.rows[entry.incident].signal !in active then 1 else 0
  {
    if n > 0 {
      RecoveryLogsOnce(b, active, now, n - 1, entry);
      OneMoreTime(RecoverUpTo(b, active, now, n - 1).trail, Entry(n - 1, "recovered", Recovered), entry);
    }
  }
}
