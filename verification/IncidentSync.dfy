/** Mirroring incidents to external targets: sync records with bounded retry and redrive, and
  * the link that each incident keeps to each target. A record's or target's id is its position. */
module IncidentSync {
  import opened IncidentTargets
  import opened Wrappers

  datatype Status = Pending | Synced | Failed

  /** A target; `present` is false once it has been deleted. */
  datatype Target = Target(present: bool, enabled: bool, kind: Kind, syncActions: Option<set<string>>, failures: nat)

  datatype Record = Record(
    target: nat, incident: string, action: string, status: Status, attempts: nat, ref: Option<string>,
    redriveOf: Option<nat>)

  /** What a status text of an external system says about its incident. */
  datatype External = ReportsClosed | ReportsOpen | ReportsOther

  function ReadStatus(text: string): External {
    if text in {"resolved", "closed", "done"} then ReportsClosed
    else if text in {"open", "triggered", "acknowledged"} then ReportsOpen
    else ReportsOther
  }

  datatype Link = Link(
    incident: string, target: nat, ref: Option<string>, lastAction: string, syncedAt: Option<int>,
    checkedAt: Option<int>, found: Option<bool>, status: Option<External>, detached: bool)

  datatype Settings = Settings(maxAttempts: int, maxRedrives: int)

  datatype Tables = Tables(targets: seq<Target>, records: seq<Record>, links: seq<Link>)

  // ---- export ----

  predicate Mirrors(target: Target, action: string) {
    && target.present && target.enabled
    && (target.syncActions.Some? ==> target.syncActions.value == {} || action in target.syncActions.value)
  }

  /** The records of one transition, for the first `n` targets. */
  function Exported(targets: seq<Target>, incident: string, action: string, n: nat): seq<Record>
    requires n <= |targets|
  {
    if n == 0 then []
    else
      var prior := Exported(targets, incident, action, n - 1);
      if Mirrors(targets[n - 1], action) then prior + [Record(n - 1, incident, action, Pending, 0, None, None)] else prior
  }

  // ---- one attempt ----

  function FindLink(links: seq<Link>, incident: string, target: nat): (r: Option<nat>)
    ensures r.Some? ==> r.value < |links| && links[r.value].incident == incident && links[r.value].target == target
    ensures r.None? ==> forall i | 0 <= i < |links| :: links[i].incident != incident || links[i].target != target
  {
    if links == [] then None
    else
      var r := FindLink(links[..|links| - 1], incident, target);
      if r.Some? then r
      else if links[|links| - 1].incident == incident && links[|links| - 1].target == target then Some(|links| - 1)
      else None
  }

  function NonEmpty(ref: Option<string>): Option<string> {
    if ref == Some("") then None else ref
  }

  function UpsertLink(links: seq<Link>, record: Record, ref: Option<string>, now: int): seq<Link> {
    var found := FindLink(links, record.incident, record.target);
    if found.None? then
      links + [Link(record.incident, record.target, NonEmpty(ref), record.action, Some(now), None, None, None, false)]
    else
      var link := links[found.value];
      links[found.value := link.(ref := if NonEmpty(ref).Some? then ref else link.ref, lastAction := record.action,
                                 syncedAt := Some(now))]
  }

  /** What the send returned. */
  datatype Sent = Accepted(ref: Option<string>) | Refused

  predicate TargetPresent(t: Tables, id: nat)
    requires id < |t.records|
  {
    t.records[id].target < |t.targets| && t.targets[t.records[id].target].present
  }

  function AttemptSession(t: Tables, id: nat, sent: Sent, now: int, cfg: Settings): Tables {
    if id >= |t.records| || t.records[id].status == Synced then t
    else
      var record := t.records[id];
      if !TargetPresent(t, id) then t.(records := t.records[id := record.(status := Failed)])
      else
        var target, attempts := t.targets[record.target], record.attempts + 1;
        match sent
        case Accepted(ref) =>
          Tables(t.targets[record.target := target.(failures := 0)],
                 t.records[id := record.(status := Synced, attempts := attempts, ref := ref)],
                 UpsertLink(t.links, record, ref, now))
        case Refused =>
          Tables(t.targets[record.target := target.(failures := target.failures + 1)],
                 t.records[id := record.(status := if attempts >= Max(1, cfg.maxAttempts) then Failed else Pending,
                                         attempts := attempts)],
                 t.links)
  }

  /** The first `n` records from `first` on are attempted one after the other; `sends` tells
    * what each send returns. */
  function AttemptAll(t: Tables, first: nat, n: nat, sends: nat -> Sent, now: int, cfg: Settings): Tables {
    if n == 0 then t
    else AttemptSession(AttemptAll(t, first, n - 1, sends, now, cfg), first + n - 1, sends(first + n - 1), now, cfg)
  }

  /** One new record per mirroring target, and then one attempt at each. */
  function ExportSession(t: Tables, incident: string, action: string, sends: nat -> Sent, now: int,
                         cfg: Settings): Tables {
    var made := Exported(t.targets, incident, action, |t.targets|);
    AttemptAll(t.(records := t.records + made), |t.records|, |made|, sends, now, cfg)
  }

  /** A record after the one attempt that its export makes. */
  function AttemptedOnce(record: Record, sent: Sent, cfg: Settings): Record {
    match sent
    case Accepted(ref) => record.(status := Synced, attempts := record.attempts + 1, ref := ref)
    case Refused => record.(status := if record.attempts + 1 >= Max(1, cfg.maxAttempts) then Failed else Pending,
                            attempts := record.attempts + 1)
  }

  lemma {:induction false} ExportedAreOpen(targets: seq<Target>, incident: string, action: string, n: nat)
    requires n <= |targets|
    ensures forall r | r in Exported(targets, incident, action, n) ::
      r.status == Pending && r.attempts == 0 && r.target < n && Mirrors(targets[r.target], action)
  {
    if n > 0 {
      ExportedAreOpen(targets, incident, action, n - 1);
    }
  }

  /** The same targets are there, and no record is gone. */
  predicate Steady(t: Tables, t': Tables) {
    && |t'.targets| == |t.targets| && |t'.records| == |t.records|
    && forall d | 0 <= d < |t.targets| :: t'.targets[d].present == t.targets[d].present
  }

  lemma {:induction false} OneAttemptTells(t: Tables, id: nat, sent: Sent, now: int, cfg: Settings)
    requires id < |t.records| && t.records[id].status == Pending && TargetPresent(t, id)
    ensures var t' := AttemptSession(t, id, sent, now, cfg);
      Steady(t, t') && t'.records == t.records[id := AttemptedOnce(t.records[id], sent, cfg)]
  {
  }

  /** A record that the attempts have not come to is as it was. */
  lemma {:induction false} AttemptAllLeaves(t: Tables, first: nat, n: nat, sends: nat -> Sent, now: int,
                                            cfg: Settings, i: nat)
    requires i < |t.records| && (i < first || first + n <= i)
    ensures var t' := AttemptAll(t, first, n, sends, now, cfg);
      |t'.records| == |t.records| && t'.records[i] == t.records[i]
  {
    if n > 0 {
      AttemptAllLeaves(t, first, n - 1, sends, now, cfg, i);
      AttemptLeaves(AttemptAll(t, first, n - 1, sends, now, cfg), first + n - 1, sends(first + n - 1), now, cfg, i);
    }
  }

  lemma {:induction false} AttemptLeaves(t: Tables, id: nat, sent: Sent, now: int, cfg: Settings, i: nat)
    requires i < |t.records| && i != id
    ensures var t' := AttemptSession(t, id, sent, now, cfg);
      |t'.records| == |t.records| && t'.records[i] == t.records[i]
  {
  }

  lemma {:induction false} AttemptSteady(t: Tables, id: nat, sent: Sent, now: int, cfg: Settings)
    ensures Steady(t, AttemptSession(t, id, sent, now, cfg))
  {
  }

  lemma {:induction false} AttemptAllSteady(t: Tables, first: nat, n: nat, sends: nat -> Sent, now: int, cfg: Settings)
    ensures Steady(t, AttemptAll(t, first, n, sends, now, cfg))
  {
    if n > 0 {
      AttemptAllSteady(t, first, n - 1, sends, now, cfg);
      AttemptSteady(AttemptAll(t, first, n - 1, sends, now, cfg), first + n - 1, sends(first + n - 1), now, cfg);
    }
  }

  lemma {:induction false} AttemptAllReaches(t: Tables, first: nat, n: nat, sends: nat -> Sent, now: int,
                                             cfg: Settings, i: nat)
    requires first <= i < first + n && i < |t.records|
    requires t.records[i].status == Pending && TargetPresent(t, i)
    ensures var t' := AttemptAll(t, first, n, sends, now, cfg);
      |t'.records| == |t.records| && t'.records[i] == AttemptedOnce(t.records[i], sends(i), cfg)
  {
    if i < first + n - 1 {
      AttemptAllReaches(t, first, n - 1, sends, now, cfg, i);
      AttemptLeaves(AttemptAll(t, first, n - 1, sends, now, cfg), first + n - 1, sends(first + n - 1), now, cfg, i);
    } else {
      LastIsReached(t, first, n - 1, sends, now, cfg);
    }
  }

  lemma {:induction false} LastIsReached(t: Tables, first: nat, k: nat, sends: nat -> Sent, now: int, cfg: Settings)
    requires first + k < |t.records| && t.records[first + k].status == Pending && TargetPresent(t, first + k)
    ensures var i, prior := first + k, AttemptAll(t, first, k, sends, now, cfg);
      var t' := AttemptSession(prior, i, sends(i), now, cfg);
      |t'.records| == |t.records| && t'.records[i] == AttemptedOnce(t.records[i], sends(i), cfg)
  {
    AttemptAllLeaves(t, first, k, sends, now, cfg, first + k);
    AttemptAllSteady(t, first, k, sends, now, cfg);
    OneAttemptTells(AttemptAll(t, first, k, sends, now, cfg), first + k, sends(first + k), now, cfg);
  }

  /** An export leaves every older record alone and attempts each new one exactly once. */
  lemma {:induction false} ExportAttemptsEachOnce(t: Tables, incident: string, action: string, sends: nat -> Sent,
                                                  now: int, cfg: Settings, i: nat)
    requires i < |t.records| + |Exported(t.targets, incident, action, |t.targets|)|
    ensures var made := Exported(t.targets, incident, action, |t.targets|);
      var t' := ExportSession(t, incident, action, sends, now, cfg);
      && |t'.records| == |t.records| + |made|
      && t'.records[i] == if i < |t.records| then t.records[i]
                          else AttemptedOnce(made[i - |t.records|], sends(i), cfg)
  {
    var made := Exported(t.targets, incident, action, |t.targets|);
    var grown := t.(records := t.records + made);
    if i < |t.records| {
      AttemptAllLeaves(grown, |t.records|, |made|, sends, now, cfg, i);
    } else {
      ExportedAreOpen(t.targets, incident, action, |t.targets|);
      assert made[i - |t.records|] in made;
      AttemptAllReaches(grown, |t.records|, |made|, sends, now, cfg, i);
    }
  }

  // ---- redrive ----

  function Children(records: seq<Record>, id: nat): (r: set<nat>)
    ensures forall c | c in r :: c < |records|
  {
    set c | 0 <= c < |records| && records[c].redriveOf == Some(id)
  }

  function OpenChildren(records: seq<Record>, id: nat): set<nat> {
    set c | c in Children(records, id) && records[c].status != Failed
  }

  datatype Redriven = Scheduled(child: nat) | AlreadyOpen | NotFound | NotFailed | LimitReached

  function RedriveAnswer(records: seq<Record>, id: nat, cfg: Settings): Redriven {
    if id >= |records| then NotFound
    else if records[id].status != Failed then NotFailed
    else if OpenChildren(records, id) != {} then AlreadyOpen
    else if |Children(records, id)| >= Max(1, cfg.maxRedrives) then LimitReached
    else Scheduled(|records|)
  }

  function RedriveSession(records: seq<Record>, id: nat, cfg: Settings): seq<Record> {
    if RedriveAnswer(records, id, cfg).Scheduled?
    then records + [records[id].(status := Pending, attempts := 0, ref := None, redriveOf := Some(id))]
    else records
  }

  // ---- link repair ----

  /** What the adapter reports about an external reference. */
  datatype Fetched = Fetched(ok: bool, found: Option<bool>, status: Option<string>)

  datatype Relinked = Repaired | NoReference | TargetMissing | Unsupported | Unverified

  function RelinkAnswer(t: Tables, target: nat, ref: string, fetched: Fetched): Relinked {
    if ref == "" then NoReference
    else if target >= |t.targets| || !t.targets[target].present then TargetMissing
    else if !SupportsRefresh(Some(t.targets[target].kind)) then Unsupported
    else if !fetched.ok || fetched.found == Some(false) then Unverified
    else Repaired
  }

  function RepairLink(links: seq<Link>, incident: string, target: nat, ref: string, status: Option<External>,
                      now: int): seq<Link> {
    var found := FindLink(links, incident, target);
    var base := if found.Some? then links[found.value]
                else Link(incident, target, None, "relink", None, None, None, None, false);
    var link := base.(ref := Some(ref), status := status, found := Some(true), checkedAt := Some(now),
                      syncedAt := if base.syncedAt.Some? then base.syncedAt else Some(now),
                      lastAction := "relink", detached := false);
    if found.Some? then links[found.value := link] else links + [link]
  }

  function Reported(fetched: Fetched): Option<External> {
    if fetched.status.Some? then Some(ReadStatus(fetched.status.value)) else None
  }

  function RelinkSession(t: Tables, incident: string, target: nat, ref: string, fetched: Fetched, now: int): Tables {
    if RelinkAnswer(t, target, ref, fetched) == Repaired
    then t.(links := RepairLink(t.links, incident, target, ref, Reported(fetched), now))
    else t
  }

  function DetachSession(t: Tables, incident: string, target: nat): Tables {
    var found := FindLink(t.links, incident, target);
    if found.Some? then t.(links := t.links[found.value := t.links[found.value].(detached := true)]) else t
  }

  class IncidentSyncService {
    var tables: Tables
    const cfg: Settings

    constructor (cfg: Settings)
      ensures tables == Tables([], [], []) && this.cfg == cfg
    {
      tables := Tables([], [], []);
      this.cfg := cfg;
    }

    /** The records of one transition, made in one session. */
    method MakeRecords(incident: string, action: string) returns (created: nat)
      modifies this
      ensures var made := Exported(old(tables).targets, incident, action, |old(tables).targets|);
        tables == old(tables).(records := old(tables).records + made) && created == |made|
    {
      var records: seq<Record> := [];
      for i := 0 to |tables.targets|
        invariant records == Exported(tables.targets, incident, action, i)
        invariant tables == old(tables)
      {
        if Mirrors(tables.targets[i], action) {
          records := records + [Record(i, incident, action, Pending, 0, None, None)];
        }
      }
      created := |records|;
      tables := tables.(records := tables.records + records);
    }

    /** Mirrors one transition: its records, and then one attempt at each. */
    method Export(incident: string, action: string, sends: nat -> Sent, now: int) returns (created: nat)
      modifies this
      ensures tables == ExportSession(old(tables), incident, action, sends, now, cfg)
      ensures created == |Exported(old(tables).targets, incident, action, |old(tables).targets|)|
    {
      var first := |tables.records|;
      created := MakeRecords(incident, action);
      ghost var made := tables;
      for k := 0 to created
        invariant tables == AttemptAll(made, first, k, sends, now, cfg)
      {
        var _ := Attempt(first + k, sends(first + k), now);
      }
    }

    method Attempt(id: nat, sent: Sent, now: int) returns (bucket: Status)
      modifies this
      ensures tables == AttemptSession(old(tables), id, sent, now, cfg)
      ensures bucket == if id < |tables.records| then tables.records[id].status else Failed
    {
      if id >= |tables.records| {
        return Failed;
      }
      var record := tables.records[id];
      if record.status == Synced {
        return Synced;
      }
      if !TargetPresent(tables, id) {
        tables := tables.(records := tables.records[id := record.(status := Failed)]);
        return Failed;
      }
      var target, links := tables.targets[record.target], tables.links;
      record := record.(attempts := record.attempts + 1);
      if sent.Accepted? {
        record := record.(status := Synced, ref := sent.ref);
        target := target.(failures := 0);
        links := Upsert(links, record, sent.ref, now);
      } else {
        target := target.(failures := target.failures + 1);
        record := record.(status := if record.attempts >= Max(1, cfg.maxAttempts) then Failed else Pending);
      }
      tables := Tables(tables.targets[record.target := target], tables.records[id := record], links);
      bucket := record.status;
    }

    static method Upsert(links0: seq<Link>, record: Record, ref: Option<string>, now: int) returns (links: seq<Link>)
      ensures links == UpsertLink(links0, record, ref, now)
    {
      links := links0;
      var found := FindLink(links, record.incident, record.target);
      var link := if found.Some? then links[found.value]
                  else Link(record.incident, record.target, None, "", None, None, None, None, false);
      if ref.Some? && ref.value != "" {
        link := link.(ref := ref);
      }
      link := link.(lastAction := record.action, syncedAt := Some(now));
      links := if found.Some? then links[found.value := link] else links + [link];
    }

    /** The new record is attempted at once. */
    method Redrive(id: nat, sent: Sent, now: int) returns (answer: Redriven)
      modifies this
      ensures answer == RedriveAnswer(old(tables).records, id, cfg)
      ensures var made := old(tables).(records := RedriveSession(old(tables).records, id, cfg));
        tables == if answer.Scheduled? then AttemptSession(made, answer.child, sent, now, cfg) else old(tables)
    {
      var records := tables.records;
      if id >= |records| {
        return NotFound;
      }
      if records[id].status != Failed {
        return NotFailed;
      }
      if OpenChildren(records, id) != {} {
        return AlreadyOpen;
      }
      if |Children(records, id)| >= Max(1, cfg.maxRedrives) {
        return LimitReached;
      }
      tables := tables.(records := records + [Record(records[id].target, records[id].incident, records[id].action,
                                                     Pending, 0, None, Some(id))]);
      answer := Scheduled(|records|);
      var _ := Attempt(|records|, sent, now);
    }

    method Relink(incident: string, target: nat, ref: string, fetched: Fetched, now: int) returns (answer: Relinked)
      modifies this
      ensures answer == RelinkAnswer(old(tables), target, ref, fetched)
      ensures tables == RelinkSession(old(tables), incident, target, ref, fetched, now)
    {
      if ref == "" {
        return NoReference;
      }
      if target >= |tables.targets| || !tables.targets[target].present {
        return TargetMissing;
      }
      if !SupportsRefresh(Some(tables.targets[target].kind)) {
        return Unsupported;
      }
      if !fetched.ok || fetched.found == Some(false) {
        return Unverified;
      }
      var links := tables.links;
      var found := FindLink(links, incident, target);
      if found.None? {
        links := links + [Link(incident, target, None, "relink", None, None, None, None, false)];
      }
      var i := if found.Some? then found.value else |links| - 1;
      var synced := if links[i].syncedAt.Some? then links[i].syncedAt else Some(now);
      links := links[i := links[i].(ref := Some(ref), status := Reported(fetched), found := Some(true),
                                    checkedAt := Some(now), syncedAt := synced, lastAction := "relink", detached := false)];
      tables := tables.(links := links);
      answer := Repaired;
    }

    method Detach(incident: string, target: nat) returns (found: bool)
      modifies this
      ensures found == FindLink(old(tables).links, incident, target).Some?
      ensures tables == DetachSession(old(tables), incident, target)
    {
      var i := FindLink(tables.links, incident, target);
      found := i.Some?;
      if found {
        tables := tables.(links := tables.links[i.value := tables.links[i.value].(detached := true)]);
      }
    }
  }
}
