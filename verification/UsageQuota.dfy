/** The sliding-window quota: a durable table of usage records, a check that counts the
  * records of one owner and kind in the window, and a purge of old records. */
module UsageQuota {
  import opened Wrappers

  datatype Kind = ExecutionStart | ArtifactGeneration | StartupValidation

  datatype UsageRecord = UsageRecord(owner: string, kind: Kind, at: int)

  /** A limit for each kind of use. */
  datatype Limits = Limits(executions: nat, artifacts: nat, validations: nat)

  datatype Settings = Settings(enabled: bool, window: nat, personal: Limits, workspace: Limits)

  predicate IsWorkspaceOwner(owner: string) {
    "workspace:" <= owner
  }

  function LimitFor(cfg: Settings, owner: string, kind: Kind): nat {
    var limits := if IsWorkspaceOwner(owner) then cfg.workspace else cfg.personal;
    match kind
    case ExecutionStart => limits.executions
    case ArtifactGeneration => limits.artifacts
    case StartupValidation => limits.validations
  }

  predicate Matches(r: UsageRecord, owner: string, kind: Kind, cutoff: int) {
    r.owner == owner && r.kind == kind && r.at >= cutoff
  }

  function CountSince(rows: seq<UsageRecord>, owner: string, kind: Kind, cutoff: int): nat {
    if rows == [] then 0
    else
      var last := |rows| - 1;
      CountSince(rows[..last], owner, kind, cutoff) + if Matches(rows[last], owner, kind, cutoff) then 1 else 0
  }

  function KeepSince(rows: seq<UsageRecord>, cutoff: int): seq<UsageRecord> {
    if rows == [] then []
    else
      var kept := KeepSince(rows[..|rows| - 1], cutoff);
      if rows[|rows| - 1].at >= cutoff then kept + [rows[|rows| - 1]] else kept
  }

  /** The quota decision at one moment. */
  predicate Allows(cfg: Settings, rows: seq<UsageRecord>, owner: string, kind: Kind, now: int) {
    cfg.enabled ==> CountSince(rows, owner, kind, now - cfg.window) < LimitFor(cfg, owner, kind)
  }

  class UsageLimiter {
    var rows: seq<UsageRecord>

    constructor ()
      ensures rows == []
    {
      rows := [];
    }

    method Check(cfg: Settings, owner: string, kind: Kind, now: int) returns (allowed: bool)
      ensures allowed == Allows(cfg, rows, owner, kind, now)
    {
      if !cfg.enabled {
        return true;
      }
      var count := CountSince(rows, owner, kind, now - cfg.window);
      allowed := count < LimitFor(cfg, owner, kind);
    }

    method Record(cfg: Settings, owner: string, kind: Kind, now: int)
      modifies this
      ensures rows == if cfg.enabled then old(rows) + [UsageRecord(owner, kind, now)] else old(rows)
    {
      if cfg.enabled {
        rows := rows + [UsageRecord(owner, kind, now)];
      }
    }

    method PurgeOld(age: nat, now: int) returns (removed: nat)
      modifies this
      ensures rows == KeepSince(old(rows), now - age) && removed == |old(rows)| - |rows|
      ensures forall r :: r in rows <==> r in old(rows) && r.at >= now - age
    {
      KeepSinceKeeps(rows, now - age);
      removed := |rows|;
      rows := KeepSince(rows, now - age);
      removed := removed - |rows|;
    }
  }

  lemma {:induction false} KeepSinceKeeps(rows: seq<UsageRecord>, cutoff: int)
    ensures |KeepSince(rows, cutoff)| <= |rows|
    ensures forall r :: r in KeepSince(rows, cutoff) <==> r in rows && r.at >= cutoff
  {
    if rows != [] {
      var n := |rows| - 1;
      KeepSinceKeeps(rows[..n], cutoff);
      assert rows == rows[..n] + [rows[n]];
    }
  }

  // ---- histories ----

  /** A turn checks the quota, and records only if it was allowed and its approval was still
    * there to consume; the record may be stamped later than the check. */
  datatype Event =
    | Turn(owner: string, kind: Kind, checkedAt: int, consumed: bool, recordedAt: int)
    | Purge(at: int, age: nat)

  /** What the table holds now, and every record ever made. */
  datatype History = History(kept: seq<UsageRecord>, ever: seq<UsageRecord>)

  function Next(cfg: Settings, h: History, e: Event): History {
    match e
    case Turn(owner, kind, checkedAt, consumed, recordedAt) =>
      if cfg.enabled && consumed && Allows(cfg, h.kept, owner, kind, checkedAt) then
        var r := UsageRecord(owner, kind, recordedAt);
        History(h.kept + [r], h.ever + [r])
      else h
    case Purge(at, age) => h.(kept := KeepSince(h.kept, at - age))
  }

  function Replay(cfg: Settings, events: seq<Event>): History {
    if events == [] then History([], [])
    else Next(cfg, Replay(cfg, events[..|events| - 1]), events[|events| - 1])
  }

  /** A turn records exactly when quotas are on, its check was passed and its approval was still
    * there; the record is of its owner, kind and later stamp. */
  lemma {:induction false} TurnRecordsIff(cfg: Settings, h: History, e: Event)
    requires e.Turn?
    ensures var r := UsageRecord(e.owner, e.kind, e.recordedAt);
      Next(cfg, h, e) == if cfg.enabled && e.consumed &&
          CountSince(h.kept, e.owner, e.kind, e.checkedAt - cfg.window) < LimitFor(cfg, e.owner, e.kind)
        then History(h.kept + [r], h.ever + [r]) else h
  {
  }

  function Starts(e: Event): int { if e.Turn? then e.checkedAt else e.at }

  function Ends(e: Event): int { if e.Turn? then e.recordedAt else e.at }

  /** Turns and purges follow one another in time, and purges are no shorter than the window. */
  predicate Sequential(cfg: Settings, events: seq<Event>) {
    && (forall i | 0 <= i < |events| ::
      Starts(events[i]) <= Ends(events[i]) && (events[i].Purge? ==> events[i].age >= cfg.window))
    && (forall i, j | 0 <= i < j < |events| :: Ends(events[i]) <= Starts(events[j]))
  }

  lemma {:induction false} CountSnoc(rows: seq<UsageRecord>, r: UsageRecord, owner: string, kind: Kind, cutoff: int)
    ensures CountSince(rows + [r], owner, kind, cutoff) ==
      CountSince(rows, owner, kind, cutoff) + if Matches(r, owner, kind, cutoff) then 1 else 0
  {
    assert (rows + [r])[..|rows|] == rows;
  }

  lemma {:induction false} PurgeKeepsCount(rows: seq<UsageRecord>, purged: int, owner: string, kind: Kind, cutoff: int)
    requires purged <= cutoff
    ensures CountSince(KeepSince(rows, purged), owner, kind, cutoff) == CountSince(rows, owner, kind, cutoff)
  {
    if rows != [] {
      var n := |rows| - 1;
      PurgeKeepsCount(rows[..n], purged, owner, kind, cutoff);
      if rows[n].at >= purged {
        CountSnoc(KeepSince(rows[..n], purged), rows[n], owner, kind, cutoff);
      }
    }
  }

  /** From the moment the last event ended, the purged table answers every window as the full
    * history would. */
  lemma {:induction false} KeptCountsAsEver(cfg: Settings, events: seq<Event>, owner: string, kind: Kind, cutoff: int)
    requires Sequential(cfg, events)
    requires forall i | 0 <= i < |events| :: cutoff >= Ends(events[i]) - cfg.window
    ensures var h := Replay(cfg, events);
      CountSince(h.kept, owner, kind, cutoff) == CountSince(h.ever, owner, kind, cutoff)
  {
    if events == [] {
    } else {
      var n := |events| - 1;
      var h, e := Replay(cfg, events[..n]), events[n];
      KeptCountsAsEver(cfg, events[..n], owner, kind, cutoff);
      if e.Purge? {
        PurgeKeepsCount(h.kept, e.at - e.age, owner, kind, cutoff);
      } else if Next(cfg, h, e) != h {
        var r := UsageRecord(e.owner, e.kind, e.recordedAt);
        CountSnoc(h.kept, r, owner, kind, cutoff);
        CountSnoc(h.ever, r, owner, kind, cutoff);
      }
    }
  }

  /** Purging changes no decision: at any later moment the check answers as it would over the
    * full history. */
  lemma {:induction false} PurgeChangesNoDecision(cfg: Settings, events: seq<Event>, owner: string, kind: Kind,
                                                  now: int)
    requires Sequential(cfg, events)
    requires forall i | 0 <= i < |events| :: Ends(events[i]) <= now
    ensures Allows(cfg, Replay(cfg, events).kept, owner, kind, now)
      == Allows(cfg, Replay(cfg, events).ever, owner, kind, now)
  {
    KeptCountsAsEver(cfg, events, owner, kind, now - cfg.window);
  }

  function CountWithin(rows: seq<UsageRecord>, owner: string, kind: Kind, lo: int, hi: int): nat {
    if rows == [] then 0
    else
      var last := |rows| - 1;
      CountWithin(rows[..last], owner, kind, lo, hi) +
      if Matches(rows[last], owner, kind, lo) && rows[last].at <= hi then 1 else 0
  }

  lemma {:induction false} WithinAtMostSince(rows: seq<UsageRecord>, owner: string, kind: Kind, lo: int, hi: int,
                                             cutoff: int)
    requires cutoff <= lo
    ensures CountWithin(rows, owner, kind, lo, hi) <= CountSince(rows, owner, kind, cutoff)
  {
    if rows != [] {
      WithinAtMostSince(rows[..|rows| - 1], owner, kind, lo, hi, cutoff);
    }
  }

  /** A record made now fits every window it falls in, if its check counted that window. */
  lemma {:induction false} RecordFits(rows: seq<UsageRecord>, r: UsageRecord, owner: string, kind: Kind, lo: int,
                                      hi: int, cutoff: int, limit: nat)
    requires CountWithin(rows, owner, kind, lo, hi) <= limit
    requires Matches(r, owner, kind, lo) && r.at <= hi ==>
      cutoff <= lo && CountSince(rows, owner, kind, cutoff) < limit
    ensures CountWithin(rows + [r], owner, kind, lo, hi) <= limit
  {
    assert (rows + [r])[..|rows|] == rows;
    if Matches(r, owner, kind, lo) && r.at <= hi {
      WithinAtMostSince(rows, owner, kind, lo, hi, cutoff);
    }
  }

  lemma {:induction false} TurnKeepsWindow(cfg: Settings, h: History, e: Event, owner: string, kind: Kind, lo: int)
    requires e.Turn? && e.checkedAt <= e.recordedAt
    requires Allows(cfg, h.kept, e.owner, e.kind, e.checkedAt) == Allows(cfg, h.ever, e.owner, e.kind, e.checkedAt)
    requires CountWithin(h.ever, owner, kind, lo, lo + cfg.window) <= LimitFor(cfg, owner, kind)
    ensures CountWithin(Next(cfg, h, e).ever, owner, kind, lo, lo + cfg.window) <= LimitFor(cfg, owner, kind)
  {
    if Next(cfg, h, e) != h {
      RecordFits(h.ever, UsageRecord(e.owner, e.kind, e.recordedAt), owner, kind, lo, lo + cfg.window,
                 e.checkedAt - cfg.window, LimitFor(cfg, owner, kind));
    }
  }

  /** Every closed interval of the window's length holds at most `limit` records ever made for
    * one owner and kind, even though records are stamped after their checks and old ones are
    * purged. */
  lemma {:induction false} WindowBound(cfg: Settings, events: seq<Event>, owner: string, kind: Kind, lo: int)
    requires Sequential(cfg, events)
    ensures CountWithin(Replay(cfg, events).ever, owner, kind, lo, lo + cfg.window) <= LimitFor(cfg, owner, kind)
  {
    if events == [] {
    } else {
      var n := |events| - 1;
      var h, e := Replay(cfg, events[..n]), events[n];
      WindowBound(cfg, events[..n], owner, kind, lo);
      if e.Turn? {
        PurgeChangesNoDecision(cfg, events[..n], e.owner, e.kind, e.checkedAt);
        TurnKeepsWindow(cfg, h, e, owner, kind, lo);
      }
    }
  }

  function CountKind(rows: seq<UsageRecord>, owner: string, kind: Kind, lo: int, window: nat): nat {
    CountWithin(rows, owner, kind, lo, lo + window)
  }

  /** The bound in the operator's settings: a workspace has the workspace's three limits, and
    * anyone else the personal ones, and each kind of use is counted for itself. */
  lemma {:induction false} WindowBoundByOwner(cfg: Settings, events: seq<Event>, id: string, owner: string, lo: int)
    requires Sequential(cfg, events) && owner[..if |owner| < 10 then |owner| else 10] != "workspace:"
    ensures var ever, n := Replay(cfg, events).ever, cfg.window;
      && CountKind(ever, "workspace:" + id, ExecutionStart, lo, n) <= cfg.workspace.executions
      && CountKind(ever, "workspace:" + id, ArtifactGeneration, lo, n) <= cfg.workspace.artifacts
      && CountKind(ever, "workspace:" + id, StartupValidation, lo, n) <= cfg.workspace.validations
      && CountKind(ever, owner, ExecutionStart, lo, n) <= cfg.personal.executions
      && CountKind(ever, owner, ArtifactGeneration, lo, n) <= cfg.personal.artifacts
      && CountKind(ever, owner, StartupValidation, lo, n) <= cfg.personal.validations
  {
    assert IsWorkspaceOwner("workspace:" + id) && !IsWorkspaceOwner(owner);
    forall kind: Kind, who | who in {owner, "workspace:" + id}
      ensures CountKind(Replay(cfg, events).ever, who, kind, lo, cfg.window) <= LimitFor(cfg, who, kind)
    {
      WindowBound(cfg, events, who, kind, lo);
    }
  }

  predicate Under(rows: seq<UsageRecord>, owner: string, kind: Kind, since: int, limit: nat) {
    CountSince(rows, owner, kind, since) < limit
  }

  /** And below those limits nothing is refused. */
  lemma {:induction false} AllowedByOwner(cfg: Settings, rows: seq<UsageRecord>, id: string, owner: string, now: int)
    requires cfg.enabled && owner[..if |owner| < 10 then |owner| else 10] != "workspace:"
    ensures var team, since := "workspace:" + id, now - cfg.window;
      && (Allows(cfg, rows, team, ExecutionStart, now) <==> Under(rows, team, ExecutionStart, since, cfg.workspace.executions))
      && (Allows(cfg, rows, team, ArtifactGeneration, now) <==>
            Under(rows, team, ArtifactGeneration, since, cfg.workspace.artifacts))
      && (Allows(cfg, rows, team, StartupValidation, now) <==>
            Under(rows, team, StartupValidation, since, cfg.workspace.validations))
      && (Allows(cfg, rows, owner, ExecutionStart, now) <==> Under(rows, owner, ExecutionStart, since, cfg.personal.executions))
      && (Allows(cfg, rows, owner, ArtifactGeneration, now) <==>
            Under(rows, owner, ArtifactGeneration, since, cfg.personal.artifacts))
      && (Allows(cfg, rows, owner, StartupValidation, now) <==>
            Under(rows, owner, StartupValidation, since, cfg.personal.validations))
  {
    assert IsWorkspaceOwner("workspace:" + id) && !IsWorkspaceOwner(owner);
  }
}
