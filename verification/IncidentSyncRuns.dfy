/** Whole runs of the mirroring: the sessions of exports, attempts, redrives and link repairs
  * interleave in any order. */
module IncidentSyncRuns {
  import opened IncidentTargets
  import opened IncidentSync
  import opened Wrappers

  datatype Event =
    | AddTarget(added: Target)
    | DeleteTarget(id: nat)
    | Export(incident: string, action: string)
    | Push(incident: string, action: string, target: nat)
    | Attempt(record: nat, sent: Sent, now: int)
    | Redrive(record: nat)
    | Relink(incident: string, target: nat, ref: string, fetched: Fetched, now: int)
    | Detach(incident: string, target: nat)

  function Next(t: Tables, e: Event, cfg: Settings): Tables {
    match e
    case AddTarget(target) => t.(targets := t.targets + [target])
    case DeleteTarget(id) =>
      if id < |t.targets| then t.(targets := t.targets[id := t.targets[id].(present := false)]) else t
    case Export(incident, action) => t.(records := t.records + Exported(t.targets, incident, action, |t.targets|))
    case Push(incident, action, target) =>
      t.(records := t.records + [Record(target, incident, action, Pending, 0, None, None)])
    case Attempt(id, sent, now) => AttemptSession(t, id, sent, now, cfg)
    case Redrive(id) => t.(records := RedriveSession(t.records, id, cfg))
    case Relink(incident, target, ref, fetched, now) => RelinkSession(t, incident, target, ref, fetched, now)
    case Detach(incident, target) => DetachSession(t, incident, target)
  }

  function Reached(events: seq<Event>, cfg: Settings): Tables {
    if events == [] then Tables([], [], []) else Next(Reached(events[..|events| - 1], cfg), events[|events| - 1], cfg)
  }

  /** The sessions of an export after the one that makes its records. */
  function AttemptEvents(first: nat, n: nat, sends: nat -> Sent, now: int): seq<Event> {
    if n == 0 then [] else AttemptEvents(first, n - 1, sends, now) + [Attempt(first + n - 1, sends(first + n - 1), now)]
  }

  lemma {:induction false} ReachedSnoc(events: seq<Event>, e: Event, cfg: Settings)
    ensures Reached(events + [e], cfg) == Next(Reached(events, cfg), e, cfg)
  {
    assert (events + [e])[..|events|] == events;
  }

  lemma {:induction false} AttemptsAreRun(events: seq<Event>, first: nat, n: nat, sends: nat -> Sent, now: int,
                                          cfg: Settings)
    ensures Reached(events + AttemptEvents(first, n, sends, now), cfg)
      == AttemptAll(Reached(events, cfg), first, n, sends, now, cfg)
  {
    if n == 0 {
      assert events + [] == events;
    } else {
      var k := n - 1;
      AttemptsAreRun(events, first, k, sends, now, cfg);
      OneMoreAttempt(events, AttemptEvents(first, k, sends, now), AttemptEvents(first, n, sends, now), first + k,
                     sends(first + k), now, cfg);
    }
  }

  lemma {:induction false} OneMoreAttempt(events: seq<Event>, prior: seq<Event>, more: seq<Event>, id: nat, sent: Sent,
                                          now: int, cfg: Settings)
    requires more == prior + [Attempt(id, sent, now)]
    ensures Reached(events + more, cfg) == AttemptSession(Reached(events + prior, cfg), id, sent, now, cfg)
  {
    assert events + more == (events + prior) + [Attempt(id, sent, now)];
    ReachedSnoc(events + prior, Attempt(id, sent, now), cfg);
    NextAttempts(Reached(events + prior, cfg), id, sent, now, cfg);
  }

  lemma {:induction false} NextAttempts(t: Tables, id: nat, sent: Sent, now: int, cfg: Settings)
    ensures Next(t, Attempt(id, sent, now), cfg) == AttemptSession(t, id, sent, now, cfg)
  {
  }

  /** An export with nobody in between is a run of its sessions. */
  lemma {:induction false} ExportIsRun(events: seq<Event>, incident: string, action: string, sends: nat -> Sent,
                                       now: int, cfg: Settings)
    ensures var t := Reached(events, cfg);
      var made := Exported(t.targets, incident, action, |t.targets|);
      Reached(events + [Export(incident, action)] + AttemptEvents(|t.records|, |made|, sends, now), cfg)
        == ExportSession(t, incident, action, sends, now, cfg)
  {
    var t := Reached(events, cfg);
    ReachedSnoc(events, Export(incident, action), cfg);
    AttemptsAreRun(events + [Export(incident, action)], |t.records|,
                   |Exported(t.targets, incident, action, |t.targets|)|, sends, now, cfg);
  }

  // ---- links ----

  predicate OneLinkEach(links: seq<Link>) {
    forall i, j | 0 <= i < j < |links| :: links[i].incident != links[j].incident || links[i].target != links[j].target
  }

  /** The non-empty references that a session establishes for one incident at one target. */
  function RefOf(t: Tables, e: Event, incident: string, target: nat): seq<string> {
    match e
    case Attempt(id, Accepted(Some(ref)), _) =>
      if id < |t.records| && t.records[id].status != Synced && TargetPresent(t, id) && ref != "" &&
         t.records[id].incident == incident && t.records[id].target == target
      then [ref] else []
    case Relink(i, d, ref, fetched, _) =>
      if RelinkAnswer(t, d, ref, fetched) == Repaired && i == incident && d == target then [ref] else []
    case _ => []
  }

  /** Those of a whole run, in order. */
  function Refs(events: seq<Event>, incident: string, target: nat, cfg: Settings): seq<string> {
    if events == [] then []
    else
      var m := |events| - 1;
      Refs(events[..m], incident, target, cfg) + RefOf(Reached(events[..m], cfg), events[m], incident, target)
  }

  function LastOf(refs: seq<string>): Option<string> {
    if refs == [] then None else Some(refs[|refs| - 1])
  }

  /** The reference that an incident's link to a target holds, if there is a link. */
  function RefHeld(links: seq<Link>, incident: string, target: nat): Option<string> {
    var found := FindLink(links, incident, target);
    if found.None? then None else links[found.value].ref
  }

  lemma {:induction false} FindUnique(links: seq<Link>, i: nat)
    requires OneLinkEach(links) && i < |links|
    ensures FindLink(links, links[i].incident, links[i].target) == Some(i)
  {
  }

  /** The link of one pair is changed or added, and every other one stays. */
  ghost predicate LinkMoved(links: seq<Link>, links': seq<Link>, incident: string, target: nat, ref: Option<string>) {
    && OneLinkEach(links')
    && RefHeld(links', incident, target) == (if ref.Some? then ref else RefHeld(links, incident, target))
    && forall i: string, d: nat :: i != incident || d != target ==> RefHeld(links', i, d) == RefHeld(links, i, d)
  }

  lemma {:induction false} SetLink(links: seq<Link>, k: nat, link: Link)
    requires OneLinkEach(links) && k < |links| && link.incident == links[k].incident && link.target == links[k].target
    requires link.ref == links[k].ref || link.ref.Some?
    ensures LinkMoved(links, links[k := link], link.incident, link.target, link.ref)
  {
    var links' := links[k := link];
    FindUnique(links', k);
    FindUnique(links, k);
    forall i: string, d: nat | i != link.incident || d != link.target
      ensures RefHeld(links', i, d) == RefHeld(links, i, d)
    {
      var found := FindLink(links, i, d);
      if found.Some? {
        FindUnique(links', found.value);
      } else {
        assert forall j | 0 <= j < |links'| :: links'[j].incident == links[j].incident && links'[j].target == links[j].target;
      }
    }
  }

  lemma {:induction false} AddLink(links: seq<Link>, link: Link)
    requires OneLinkEach(links) && FindLink(links, link.incident, link.target).None?
    ensures LinkMoved(links, links + [link], link.incident, link.target, link.ref)
  {
    var links' := links + [link];
    FindUnique(links', |links|);
    forall i: string, d: nat | i != link.incident || d != link.target
      ensures RefHeld(links', i, d) == RefHeld(links, i, d)
    {
      var found := FindLink(links, i, d);
      if found.Some? {
        assert links'[found.value] == links[found.value];
        FindUnique(links', found.value);
      }
    }
  }

  lemma {:induction false} UpsertMoves(links: seq<Link>, record: Record, ref: Option<string>, now: int)
    requires OneLinkEach(links)
    ensures LinkMoved(links, UpsertLink(links, record, ref, now), record.incident, record.target, NonEmpty(ref))
  {
    var found := FindLink(links, record.incident, record.target);
    if found.Some? {
      SetLink(links, found.value, UpsertLink(links, record, ref, now)[found.value]);
    } else {
      AddLink(links, UpsertLink(links, record, ref, now)[|links|]);
    }
  }

  lemma {:induction false} RepairMoves(links: seq<Link>, incident: string, target: nat, ref: string,
                                       status: Option<External>, now: int)
    requires OneLinkEach(links)
    ensures LinkMoved(links, RepairLink(links, incident, target, ref, status, now), incident, target, Some(ref))
  {
    var found := FindLink(links, incident, target);
    if found.Some? {
      SetLink(links, found.value, RepairLink(links, incident, target, ref, status, now)[found.value]);
    } else {
      AddLink(links, RepairLink(links, incident, target, ref, status, now)[|links|]);
    }
  }

  lemma {:induction false} DetachMoves(t: Tables, incident: string, target: nat)
    requires OneLinkEach(t.links)
    ensures LinkMoved(t.links, DetachSession(t, incident, target).links, incident, target, None)
  {
    var found := FindLink(t.links, incident, target);
    if found.Some? {
      SetLink(t.links, found.value, t.links[found.value].(detached := true));
    }
  }

  /** One session moves the reference of each link to the last one that it established. */
  lemma {:induction false} NextMovesRefs(t: Tables, e: Event, cfg: Settings, incident: string, target: nat)
    requires OneLinkEach(t.links)
    ensures OneLinkEach(Next(t, e, cfg).links)
    ensures var refs := RefOf(t, e, incident, target);
      RefHeld(Next(t, e, cfg).links, incident, target) == if refs == [] then RefHeld(t.links, incident, target) else LastOf(refs)
  {
    if e.Attempt? && e.record < |t.records| && e.sent.Accepted? {
      UpsertMoves(t.links, t.records[e.record], e.sent.ref, e.now);
    } else if e.Relink? {
      RepairMoves(t.links, e.incident, e.target, e.ref, Reported(e.fetched), e.now);
    } else if e.Detach? {
      DetachMoves(t, e.incident, e.target);
    }
  }

  /** In every run, an incident has one link to a target, and it holds the last non-empty
    * reference that a successful send or a repair established. */
  lemma {:induction false} LinkHoldsLastRef(events: seq<Event>, incident: string, target: nat, cfg: Settings)
    ensures OneLinkEach(Reached(events, cfg).links)
    ensures RefHeld(Reached(events, cfg).links, incident, target) == LastOf(Refs(events, incident, target, cfg))
  {
    if events != [] {
      var m := |events| - 1;
      LinkHoldsLastRef(events[..m], incident, target, cfg);
      NextMovesRefs(Reached(events[..m], cfg), events[m], cfg, incident, target);
    }
  }

  // ---- retries ----

  predicate RetriesBounded(records: seq<Record>, cfg: Settings) {
    forall i | 0 <= i < |records| && records[i].status == Pending :: records[i].attempts < Max(1, cfg.maxAttempts)
  }

  lemma {:induction false} ExportedAreNew(targets: seq<Target>, incident: string, action: string, n: nat)
    requires n <= |targets|
    ensures forall k | 0 <= k < |Exported(targets, incident, action, n)| ::
      Exported(targets, incident, action, n)[k].attempts == 0 && Exported(targets, incident, action, n)[k].redriveOf == None
  {
    if n > 0 {
      ExportedAreNew(targets, incident, action, n - 1);
    }
  }

  /** In every run, a record that waits to be sent was sent less often than the limit. */
  lemma {:induction false} RetriesAreBounded(events: seq<Event>, cfg: Settings)
    ensures RetriesBounded(Reached(events, cfg).records, cfg)
  {
    if events != [] {
      var m := |events| - 1;
      RetriesAreBounded(events[..m], cfg);
      if events[m].Export? {
        var t := Reached(events[..m], cfg);
        ExportedAreNew(t.targets, events[m].incident, events[m].action, |t.targets|);
      }
    }
  }

  // ---- redrives ----

  lemma {:induction false} SameChildren(records: seq<Record>, records': seq<Record>, p: nat)
    requires |records| <= |records'|
    requires forall i | 0 <= i < |records| :: records'[i].redriveOf == records[i].redriveOf
    requires forall i | |records| <= i < |records'| :: records'[i].redriveOf != Some(p)
    ensures Children(records', p) == Children(records, p)
  {
  }

  lemma {:induction false} OneMoreChild(records: seq<Record>, child: Record, p: nat)
    requires child.redriveOf == Some(p)
    ensures Children(records + [child], p) == Children(records, p) + {|records|}
  {
    assert forall c | 0 <= c < |records| :: (records + [child])[c] == records[c];
  }

  lemma {:induction false} NextKeepsChildren(t: Tables, e: Event, p: nat, cfg: Settings)
    requires |Children(t.records, p)| <= Max(1, cfg.maxRedrives)
    ensures |Children(Next(t, e, cfg).records, p)| <= Max(1, cfg.maxRedrives)
  {
    var records' := Next(t, e, cfg).records;
    if e.Redrive? && RedriveAnswer(t.records, e.record, cfg).Scheduled? && e.record == p {
      OneMoreChild(t.records, records'[|t.records|], p);
    } else {
      if e.Export? {
        ExportedAreNew(t.targets, e.incident, e.action, |t.targets|);
      }
      SameChildren(t.records, records', p);
    }
  }

  /** In every run, a record is redriven at most the configured number of times. */
  lemma {:induction false} RedrivesAreBounded(events: seq<Event>, p: nat, cfg: Settings)
    ensures |Children(Reached(events, cfg).records, p)| <= Max(1, cfg.maxRedrives)
  {
    if events == [] {
      assert Children([], p) == {};
    } else {
      RedrivesAreBounded(events[..|events| - 1], p, cfg);
      NextKeepsChildren(Reached(events[..|events| - 1], cfg), events[|events| - 1], p, cfg);
    }
  }

  /** Of the redrives of a record, at most one has not failed. */
  predicate OneOpen(records: seq<Record>, p: nat) {
    forall b, c | b in OpenChildren(records, p) && c in OpenChildren(records, p) :: b == c
  }

  /** An attempt at a record that has failed for good gives it another outcome, although
    * another redrive of the same record is open. Only a list of pending records that was read
    * before the failure leads to such an attempt. */
  predicate Revives(t: Tables, e: Event, p: nat, cfg: Settings) {
    && e.Attempt? && e.record < |t.records| && t.records[e.record].status == Failed && t.records[e.record].redriveOf == Some(p)
    && TargetPresent(t, e.record)
    && (e.sent.Accepted? || t.records[e.record].attempts + 1 < Max(1, cfg.maxAttempts))
    && OpenChildren(t.records, p) != {}
  }

  lemma {:induction false} AttemptOpens(t: Tables, id: nat, sent: Sent, now: int, p: nat, cfg: Settings)
    requires id < |t.records|
    ensures var open, open' := OpenChildren(t.records, p), OpenChildren(AttemptSession(t, id, sent, now, cfg).records, p);
      && open - {id} == open' - {id}
      && (id in open' <==>
            && t.records[id].redriveOf == Some(p)
            && AttemptSession(t, id, sent, now, cfg).records[id].status != Failed)
  {
    SameChildren(t.records, AttemptSession(t, id, sent, now, cfg).records, p);
  }

  lemma {:induction false} AttemptKeepsOneOpenIff(t: Tables, id: nat, sent: Sent, now: int, p: nat, cfg: Settings)
    requires OneOpen(t.records, p)
    ensures OneOpen(AttemptSession(t, id, sent, now, cfg).records, p) <==> !Revives(t, Attempt(id, sent, now), p, cfg)
  {
    if id < |t.records| {
      AttemptOpens(t, id, sent, now, p, cfg);
      var open, open' := OpenChildren(t.records, p), OpenChildren(AttemptSession(t, id, sent, now, cfg).records, p);
      if id in open' && id !in open {
        assert t.records[id].status == Failed;
        assert open' == open + {id};
        if c :| c in open {
          assert c in open' && id in open' && c != id;
        }
      } else {
        assert open' <= open;
      }
    }
  }

  lemma {:induction false} AppendKeepsOpen(records: seq<Record>, more: seq<Record>, p: nat)
    requires forall k | 0 <= k < |more| :: more[k].redriveOf != Some(p)
    ensures OpenChildren(records + more, p) == OpenChildren(records, p)
  {
    SameChildren(records, records + more, p);
  }

  lemma {:induction false} RedriveKeepsOneOpen(records: seq<Record>, id: nat, p: nat, cfg: Settings)
    requires OneOpen(records, p)
    ensures OneOpen(RedriveSession(records, id, cfg), p)
  {
    if RedriveAnswer(records, id, cfg).Scheduled? {
      var child := RedriveSession(records, id, cfg)[|records|];
      if id == p {
        OneMoreChild(records, child, p);
        assert OpenChildren(records + [child], p) == {|records|};
      } else {
        AppendKeepsOpen(records, [child], p);
      }
    }
  }

  lemma {:induction false} NextKeepsOneOpenIff(t: Tables, e: Event, p: nat, cfg: Settings)
    requires OneOpen(t.records, p)
    ensures OneOpen(Next(t, e, cfg).records, p) <==> !Revives(t, e, p, cfg)
  {
    if e.Attempt? {
      AttemptKeepsOneOpenIff(t, e.record, e.sent, e.now, p, cfg);
    } else if e.Redrive? {
      RedriveKeepsOneOpen(t.records, e.record, p, cfg);
    } else if e.Export? {
      ExportedAreNew(t.targets, e.incident, e.action, |t.targets|);
      AppendKeepsOpen(t.records, Exported(t.targets, e.incident, e.action, |t.targets|), p);
    } else if e.Push? {
      AppendKeepsOpen(t.records, [Record(e.target, e.incident, e.action, Pending, 0, None, None)], p);
    }
  }

  /** At the start of a run and after every event of it. */
  predicate AlwaysOneOpen(events: seq<Event>, p: nat, cfg: Settings) {
    OneOpen(Reached(events, cfg).records, p) && (events != [] ==> AlwaysOneOpen(events[..|events| - 1], p, cfg))
  }

  predicate NeverRevives(events: seq<Event>, p: nat, cfg: Settings) {
    events != [] ==>
      var m := |events| - 1;
      !Revives(Reached(events[..m], cfg), events[m], p, cfg) && NeverRevives(events[..m], p, cfg)
  }

  /** Throughout a run at most one redrive of a record has not failed, if and only if no failed
    * redrive of it is attempted again while another is open. */
  lemma {:induction false} OneOpenRedriveIff(events: seq<Event>, p: nat, cfg: Settings)
    ensures AlwaysOneOpen(events, p, cfg) <==> NeverRevives(events, p, cfg)
  {
    if events != [] {
      var m := |events| - 1;
      OneOpenRedriveIff(events[..m], p, cfg);
      if OneOpen(Reached(events[..m], cfg).records, p) {
        NextKeepsOneOpenIff(Reached(events[..m], cfg), events[m], p, cfg);
      }
    }
  }

  lemma {:induction false} OneMoreEvent(events: seq<Event>, e: Event, cfg: Settings)
    ensures Reached(events + [e], cfg) == Next(Reached(events, cfg), e, cfg)
  {
    assert (events + [e])[..|events|] == events;
  }

  /** One attempt each, two redrives. The first redrive fails; while a second one waits, a
    * stale list of pending records brings the first to be sent again, and it succeeds. */
  const ONE_TRY := Settings(1, 2)
  const GENERIC := Target(true, true, Generic, None, 0)
  const FIRST_FAILS := [AddTarget(GENERIC), Push("i", "opened", 0), Attempt(0, Refused, 0)]
  const REDRIVEN := FIRST_FAILS + [Redrive(0)] + [Attempt(1, Refused, 1)]
  const REVIVED := REDRIVEN + [Redrive(0)] + [Attempt(1, Accepted(None), 2)]

  function Sample(status: Status, attempts: nat, redriveOf: Option<nat>): Record {
    Record(0, "i", "opened", status, attempts, None, redriveOf)
  }

  lemma {:induction false} FirstHasFailed()
    ensures var t := Reached(FIRST_FAILS, ONE_TRY);
      |t.targets| == 1 && t.targets[0].present && t.records == [Sample(Failed, 1, None)]
  {
    assert FIRST_FAILS == [] + [AddTarget(GENERIC)] + [Push("i", "opened", 0)] + [Attempt(0, Refused, 0)];
    OneMoreEvent([], AddTarget(GENERIC), ONE_TRY);
    OneMoreEvent([] + [AddTarget(GENERIC)], Push("i", "opened", 0), ONE_TRY);
    OneMoreEvent([] + [AddTarget(GENERIC)] + [Push("i", "opened", 0)], Attempt(0, Refused, 0), ONE_TRY);
  }

  lemma {:induction false} RedriveHasFailed()
    ensures var t := Reached(REDRIVEN, ONE_TRY);
      && |t.targets| == 1 && t.targets[0].present
      && t.records == [Sample(Failed, 1, None), Sample(Failed, 1, Some(0))]
  {
    FirstHasFailed();
    OneMoreEvent(FIRST_FAILS, Redrive(0), ONE_TRY);
    assert Children(Reached(FIRST_FAILS, ONE_TRY).records, 0) == {};
    OneMoreEvent(FIRST_FAILS + [Redrive(0)], Attempt(1, Refused, 1), ONE_TRY);
  }

  /** Two redrives of one record have then not failed. */
  lemma {:induction false} TwoOpenRedrives()
    ensures OpenChildren(Reached(REVIVED, ONE_TRY).records, 0) == {1, 2}
  {
    RedriveHasFailed();
    OneMoreEvent(REDRIVEN, Redrive(0), ONE_TRY);
    var t := Reached(REDRIVEN, ONE_TRY);
    assert Children(t.records, 0) == {1};
    assert OpenChildren(t.records, 0) == {};
    OneMoreEvent(REDRIVEN + [Redrive(0)], Attempt(1, Accepted(None), 2), ONE_TRY);
    assert Reached(REVIVED, ONE_TRY).records == [Sample(Failed, 1, None), Sample(Synced, 2, Some(0)), Sample(Pending, 0, Some(0))];
  }
}
