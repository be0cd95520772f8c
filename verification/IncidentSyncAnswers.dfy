/** What each session of the mirroring leaves: records, targets and links, field by field, in
  * terms of what was sent and answered. */
module IncidentSyncAnswers {
  import opened IncidentTargets
  import opened IncidentSync
  import opened IncidentSyncRuns
  import opened Wrappers

  // ---- export ----

  /** The target is there, switched on, and mirrors all actions or this one among others. */
  predicate Subscribes(target: Target, action: string) {
    && target.present && target.enabled
    && (target.syncActions.None? || target.syncActions.value == {} || action in target.syncActions.value)
  }

  predicate RecordedFor(made: seq<Record>, d: nat) {
    exists k :: 0 <= k < |made| && made[k].target == d
  }

  /** A record of the transition, made and not attempted, for one of the first `n` targets that
    * subscribes to it. */
  predicate MadeFor(r: Record, targets: seq<Target>, incident: string, action: string, n: nat) {
    && r.target < n <= |targets| && Subscribes(targets[r.target], action)
    && r == Record(r.target, incident, action, Pending, 0, None, None)
  }

  predicate Ascending(made: seq<Record>) {
    forall j, k | 0 <= j < k < |made| :: made[j].target < made[k].target
  }

  lemma {:induction false} RecordsTell(targets: seq<Target>, incident: string, action: string, n: nat)
    requires n <= |targets|
    ensures var made := Exported(targets, incident, action, n);
      Ascending(made) && forall k | 0 <= k < |made| :: MadeFor(made[k], targets, incident, action, n)
  {
    if n > 0 {
      var prior, made := Exported(targets, incident, action, n - 1), Exported(targets, incident, action, n);
      RecordsTell(targets, incident, action, n - 1);
      forall k | 0 <= k < |made| ensures MadeFor(made[k], targets, incident, action, n) {
        assert k < |prior| ==> MadeFor(prior[k], targets, incident, action, n - 1);
      }
      forall j, k | 0 <= j < k < |made| ensures made[j].target < made[k].target {
        assert MadeFor(prior[j], targets, incident, action, n - 1);
      }
    }
  }

  lemma {:induction false} SubscribersAreRecorded(targets: seq<Target>, incident: string, action: string, n: nat, d: nat)
    requires d < n <= |targets| && Subscribes(targets[d], action)
    ensures RecordedFor(Exported(targets, incident, action, n), d)
  {
    var prior := Exported(targets, incident, action, n - 1);
    if d < n - 1 {
      SubscribersAreRecorded(targets, incident, action, n - 1, d);
      var k :| 0 <= k < |prior| && prior[k].target == d;
      assert Exported(targets, incident, action, n)[k].target == d;
    } else {
      assert Exported(targets, incident, action, n)[|prior|].target == d;
    }
  }

  /** An export makes one pending record of the transition for each target that subscribes to
    * it, and for no other. */
  lemma {:induction false} ExportTells(t: Tables, incident: string, action: string, d: nat, cfg: Settings)
    requires d < |t.targets|
    ensures var t' := Next(t, Export(incident, action), cfg);
      && t.records <= t'.records && t' == t.(records := t'.records)
      && var made := t'.records[|t.records|..];
      && (RecordedFor(made, d) <==> Subscribes(t.targets[d], action))
      && Ascending(made) && forall k | 0 <= k < |made| :: MadeFor(made[k], t.targets, incident, action, |t.targets|)
  {
    var made := Exported(t.targets, incident, action, |t.targets|);
    assert (t.records + made)[|t.records|..] == made;
    RecordsTell(t.targets, incident, action, |t.targets|);
    if Subscribes(t.targets[d], action) {
      SubscribersAreRecorded(t.targets, incident, action, |t.targets|, d);
    }
    if RecordedFor(made, d) {
      var k :| 0 <= k < |made| && made[k].target == d;
      assert MadeFor(made[k], t.targets, incident, action, |t.targets|);
    }
  }

  // ---- links ----

  /** An incident's link to a target, if there is one. */
  function LinkOf(links: seq<Link>, incident: string, target: nat): Option<Link> {
    var found := FindLink(links, incident, target);
    if found.Some? then Some(links[found.value]) else None
  }

  /** The link of one pair is now this one, and every other pair's is as it was. */
  ghost predicate OnlyLink(links: seq<Link>, links': seq<Link>, link: Link) {
    && LinkOf(links', link.incident, link.target) == Some(link)
    && forall i: string, d: nat :: i != link.incident || d != link.target ==> LinkOf(links', i, d) == LinkOf(links, i, d)
  }

  lemma {:induction false} ReplacedLink(links: seq<Link>, k: nat, link: Link)
    requires OneLinkEach(links) && k < |links| && link.incident == links[k].incident && link.target == links[k].target
    ensures OnlyLink(links, links[k := link], link)
  {
    var links' := links[k := link];
    FindUnique(links', k);
    forall i: string, d: nat | i != link.incident || d != link.target
      ensures LinkOf(links', i, d) == LinkOf(links, i, d)
    {
      var found := FindLink(links, i, d);
      if found.Some? {
        assert links'[found.value] == links[found.value];
        FindUnique(links', found.value);
      } else {
        assert forall j | 0 <= j < |links'| :: links'[j].incident == links[j].incident && links'[j].target == links[j].target;
      }
    }
  }

  lemma {:induction false} AppendedLink(links: seq<Link>, link: Link)
    requires OneLinkEach(links) && FindLink(links, link.incident, link.target).None?
    ensures OnlyLink(links, links + [link], link)
  {
    var links' := links + [link];
    FindUnique(links', |links|);
    forall i: string, d: nat | i != link.incident || d != link.target
      ensures LinkOf(links', i, d) == LinkOf(links, i, d)
    {
      var found := FindLink(links, i, d);
      if found.Some? {
        assert links'[found.value] == links[found.value];
        FindUnique(links', found.value);
      }
    }
  }

  // ---- one attempt ----

  function AtLeastOne(n: int): int { if n < 1 then 1 else n }

  predicate Sendable(t: Tables, id: nat) {
    && id < |t.records| && t.records[id].status != Synced
    && t.records[id].target < |t.targets| && t.targets[t.records[id].target].present
  }

  /** A record that is synced, or not there, is left alone; one whose target is gone fails
    * without an attempt. Nothing else changes. */
  lemma {:induction false} UnsentTells(t: Tables, id: nat, sent: Sent, now: int, cfg: Settings)
    requires !Sendable(t, id)
    ensures Next(t, Attempt(id, sent, now), cfg) ==
      if id < |t.records| && t.records[id].status != Synced
      then t.(records := t.records[id := t.records[id].(status := Failed)]) else t
  {
  }

  /** A refused send counts an attempt and a failure of the target; the record stays pending
    * until the attempts reach the cap. */
  lemma {:induction false} RefusedTells(t: Tables, id: nat, now: int, cfg: Settings)
    requires Sendable(t, id)
    ensures var r, d, n := t.records[id], t.records[id].target, t.records[id].attempts + 1;
      Next(t, Attempt(id, Refused, now), cfg) ==
        Tables(t.targets[d := t.targets[d].(failures := t.targets[d].failures + 1)],
               t.records[id := r.(attempts := n, status := if n < AtLeastOne(cfg.maxAttempts) then Pending else Failed)],
               t.links)
  {
  }

  /** An accepted send ends the record and the target's streak of failures, and the pair's link
    * tells the action and the time, with the reference received if it is not empty. */
  lemma {:induction false} AcceptedTells(t: Tables, id: nat, ref: Option<string>, now: int, cfg: Settings)
    requires Sendable(t, id) && OneLinkEach(t.links)
    ensures var r, d, t' := t.records[id], t.records[id].target, Next(t, Attempt(id, Accepted(ref), now), cfg);
      && t'.records == t.records[id := r.(attempts := r.attempts + 1, status := Synced, ref := ref)]
      && t'.targets == t.targets[d := t.targets[d].(failures := 0)]
      && var was, kept := LinkOf(t.links, r.incident, d), LinkOf(t'.links, r.incident, d);
      && kept.Some? && OnlyLink(t.links, t'.links, kept.value)
      && kept.value.lastAction == r.action && kept.value.syncedAt == Some(now)
      && kept.value.ref == (if ref.Some? && |ref.value| > 0 then ref else if was.Some? then was.value.ref else None)
      && (was.Some? ==> kept.value == was.value.(lastAction := r.action, syncedAt := Some(now), ref := kept.value.ref))
      && (was.None? ==> kept.value.checkedAt == None && kept.value.found == None && kept.value.status == None && !kept.value.detached)
  {
    var r := t.records[id];
    var found := FindLink(t.links, r.incident, r.target);
    var links' := UpsertLink(t.links, r, ref, now);
    if found.Some? {
      ReplacedLink(t.links, found.value, links'[found.value]);
    } else {
      AppendedLink(t.links, links'[|t.links|]);
    }
  }

  // ---- redrive ----

  /** A redrive is a new pending record of the same transition, never attempted. */
  lemma {:induction false} RedriveTells(t: Tables, id: nat, cfg: Settings)
    ensures var t' := Next(t, Redrive(id), cfg);
      var open := exists c :: 0 <= c < |t.records| && t.records[c].redriveOf == Some(id) && t.records[c].status != Failed;
      if id < |t.records| && t.records[id].status == Failed && !open &&
        |Children(t.records, id)| < AtLeastOne(cfg.maxRedrives)
      then t' == t.(records := t.records + [Record(t.records[id].target, t.records[id].incident, t.records[id].action,
                                                   Pending, 0, None, Some(id))])
      else t' == t
  {
    if c :| 0 <= c < |t.records| && t.records[c].redriveOf == Some(id) && t.records[c].status != Failed {
      assert c in OpenChildren(t.records, id);
    }
  }

  // ---- link repair ----

  /** The words of external systems for a closed and for an open incident. */
  const CLOSED_WORDS := {"resolved", "closed", "done"}
  const OPEN_WORDS := {"open", "triggered", "acknowledged"}

  function Meaning(text: Option<string>): Option<External> {
    match text
    case None => None
    case Some(word) =>
      if word in OPEN_WORDS then Some(ReportsOpen) else if word in CLOSED_WORDS then Some(ReportsClosed) else Some(ReportsOther)
  }

  /** A link is repaired exactly when a reference is given, the target is there and of a kind
    * that can be asked, and the answer came and does not deny the incident. The link then holds
    * that reference and what was answered, is attached again, and is the only one changed. */
  lemma {:induction false} RelinkTells(t: Tables, incident: string, d: nat, ref: string, fetched: Fetched, now: int,
                                       cfg: Settings)
    requires OneLinkEach(t.links)
    ensures var t' := Next(t, Relink(incident, d, ref, fetched, now), cfg);
      var was, kept := LinkOf(t.links, incident, d), LinkOf(t'.links, incident, d);
      if |ref| > 0 && d < |t.targets| && t.targets[d].present && t.targets[d].kind != Jira && fetched.ok &&
        fetched.found != Some(false)
      then
        && t' == t.(links := t'.links) && kept.Some? && OnlyLink(t.links, t'.links, kept.value)
        && kept.value == Link(incident, d, Some(ref), "relink",
                             if was.Some? && was.value.syncedAt.Some? then was.value.syncedAt else Some(now),
                             Some(now), Some(true), Meaning(fetched.status), false)
      else t' == t
  {
    RefreshTells(if d < |t.targets| then Some(t.targets[d].kind) else None);
    if RelinkAnswer(t, d, ref, fetched) == Repaired {
      var found := FindLink(t.links, incident, d);
      var links' := RepairLink(t.links, incident, d, ref, Reported(fetched), now);
      if found.Some? {
        ReplacedLink(t.links, found.value, links'[found.value]);
      } else {
        AppendedLink(t.links, links'[|t.links|]);
      }
    }
  }

  /** Detaching keeps the link and marks it. */
  lemma {:induction false} DetachTells(t: Tables, incident: string, d: nat, cfg: Settings)
    requires OneLinkEach(t.links)
    ensures var t', was := Next(t, Detach(incident, d), cfg), LinkOf(t.links, incident, d);
      && t' == t.(links := t'.links)
      && if was.None? then t' == t else OnlyLink(t.links, t'.links, was.value.(detached := true))
  {
    var found := FindLink(t.links, incident, d);
    if found.Some? {
      ReplacedLink(t.links, found.value, t.links[found.value].(detached := true));
    }
  }

  /** In every run the sessions above find the links as they require them. */
  lemma {:induction false} LinksStaySingle(events: seq<Event>, cfg: Settings)
    ensures OneLinkEach(Reached(events, cfg).links)
  {
    LinkHoldsLastRef(events, "", 0, cfg);
  }
}
