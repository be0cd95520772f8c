/** The operator's view of an incident's external links: the verdict on each link, the actions
  * on offer, and the one action that lets an external observation change the local side. */
module ApplyPreview {
  import opened IncidentTargets
  import opened IncidentSync
  import opened IncidentSyncRuns
  import opened Wrappers
  import Incidents

  type Local = Option<Incidents.IncidentState>

  // ---- the verdict on one link ----

  datatype LinkStatus = Linked | NeverLinked | Stale | MissingExternal | Drifted | Refreshed | Detached

  predicate LocalOpen(local: Local) {
    local.Some? && local.value != Incidents.Recovered
  }

  function ClassifyLinkStatus(local: Local, link: Link, now: int, stale: int): LinkStatus {
    if link.detached then Detached
    else if link.syncedAt.None? then NeverLinked
    else if link.found == Some(false) then MissingExternal
    else if link.status == Some(ReportsClosed) && LocalOpen(local) then Drifted
    else if link.status == Some(ReportsOpen) && local == Some(Incidents.Recovered) then Drifted
    else if now - link.syncedAt.value > Max(1, stale) then Stale
    else if link.checkedAt.Some? then Refreshed
    else Linked
  }

  function Severity(status: LinkStatus): nat {
    match status
    case Detached => 0
    case NeverLinked => 0
    case Linked => 1
    case Refreshed => 1
    case Stale => 2
    case Drifted => 3
    case MissingExternal => 4
  }

  // ---- the status of one incident ----

  /** What is known of a link's target; nothing, once the target is deleted. */
  datatype Policy = Policy(kind: Option<Kind>, profile: Option<Profile>, overrides: map<Action, bool>)

  /** A link as shown: the verdict on it and the policy of its target. */
  datatype Shown = Shown(link: Link, verdict: LinkStatus, policy: Policy)

  function Show(link: Link, policies: map<nat, Policy>, local: Local, now: int, stale: int): Shown {
    Shown(link, ClassifyLinkStatus(local, link, now, stale),
          if link.target in policies then policies[link.target] else Policy(None, None, map[]))
  }

  function ShowAll(links: seq<Link>, policies: map<nat, Policy>, local: Local, now: int, stale: int): seq<Shown> {
    seq(|links|, i requires 0 <= i < |links| => Show(links[i], policies, local, now, stale))
  }

  function Active(shown: seq<Shown>): seq<Shown> {
    if shown == [] then []
    else
      var prior, last := Active(shown[..|shown| - 1]), shown[|shown| - 1];
      if last.link.detached then prior else prior + [last]
  }

  /** The first of the links with the worst verdict. */
  function Primary(active: seq<Shown>): (r: Option<nat>)
    ensures r.Some? <==> active != []
    ensures r.Some? ==> r.value < |active|
    ensures r.Some? ==> forall i | 0 <= i < |active| :: Severity(active[i].verdict) <= Severity(active[r.value].verdict)
    ensures r.Some? ==> forall i | 0 <= i < r.value :: Severity(active[i].verdict) < Severity(active[r.value].verdict)
  {
    if active == [] then None
    else
      var prior, n := Primary(active[..|active| - 1]), |active| - 1;
      if prior.None? || Severity(active[n].verdict) > Severity(active[prior.value].verdict) then Some(n) else prior
  }

  /** The first link with a given verdict. */
  function FirstWith(active: seq<Shown>, verdict: LinkStatus): (r: Option<nat>)
    ensures r.Some? ==> r.value < |active| && active[r.value].verdict == verdict
    ensures r.Some? ==> forall i | 0 <= i < r.value :: active[i].verdict != verdict
    ensures r.None? ==> forall i | 0 <= i < |active| :: active[i].verdict != verdict
  {
    if active == [] then None
    else
      var prior, n := FirstWith(active[..|active| - 1], verdict), |active| - 1;
      if prior.Some? then prior else if active[n].verdict == verdict then Some(n) else None
  }

  /** The one application, if any, that the observed disagreement supports. */
  function OfferedApply(active: seq<Shown>, local: Local): Option<Action> {
    var primary := Primary(active);
    if primary.None? then None
    else if active[primary.value].verdict == MissingExternal then Some(AcceptMissing)
    else if active[primary.value].verdict == Drifted then
      var drifted := FirstWith(active, Drifted);
      if drifted.Some? && active[drifted.value].link.status == Some(ReportsClosed) && LocalOpen(local)
      then Some(AcceptResolved) else None
    else None
  }

  function PolicyFor(shown: Shown, action: Action): Verdict {
    TargetActionPolicy(shown.policy.kind, shown.policy.overrides, action, shown.policy.profile)
  }

  /** An entry of the preview. */
  datatype Offer = Offer(name: OfferName, available: bool)

  datatype OfferName =
    | ToRefresh | ToRedrive | ToDetach | ToRelink | ToApplyResolved | ToApplyMissing | ToPush
    | ToResolve | ToReopen | ToAcknowledge

  predicate AnyAllows(active: seq<Shown>, action: Action) {
    exists i :: 0 <= i < |active| && PolicyFor(active[i], action) == Allowed
  }

  predicate CanRelink(shown: seq<Shown>) {
    exists s :: s in shown && SupportsRefresh(s.policy.kind)
  }

  predicate CanRefresh(shown: seq<Shown>) {
    exists s :: s in shown && SupportsRefresh(s.policy.kind) && !s.link.detached
  }

  predicate ApplyAvailable(active: seq<Shown>, local: Local, action: Action) {
    && OfferedApply(active, local) == Some(action)
    && Primary(active).Some?
    && PolicyFor(active[Primary(active).value], action) == Allowed
  }

  /** How an application ends: at a gate, past all of them on a link, or past them without the
    * local recovery that it asked for. */
  datatype Applied =
    | UnknownAction
    | DeniedState
    | DeniedPolicy(link: Link, verdict: Verdict)
    | Passed(link: Link)
    | RecoveryFailed(link: Link)

  function ApplyGates(shown: seq<Shown>, local: Local, action: Action): Applied {
    var active := Active(shown);
    if action != AcceptResolved && action != AcceptMissing then UnknownAction
    else if shown == [] then DeniedState
    else if OfferedApply(active, local) != Some(action) then DeniedState
    else
      var wanted := if action == AcceptMissing then MissingExternal else Drifted;
      var found := FirstWith(active, wanted);
      if found.None? then DeniedState
      else if PolicyFor(active[found.value], action) != Allowed then
        DeniedPolicy(active[found.value].link, PolicyFor(active[found.value], action))
      else Passed(active[found.value].link)
  }

  /** A line of the audit trail: the target, once a link was picked, and the outcome. */
  datatype Entry = Entry(target: Option<nat>, action: Action, outcome: Outcome)

  datatype Outcome = Done | NotDone | RefusedUnknown | RefusedState | RefusedPolicy(verdict: Verdict)

  function EntryFor(action: Action, answer: Applied): Entry {
    match answer
    case UnknownAction => Entry(None, action, RefusedUnknown)
    case DeniedState => Entry(None, action, RefusedState)
    case DeniedPolicy(link, verdict) => Entry(Some(link.target), action, RefusedPolicy(verdict))
    case Passed(link) => Entry(Some(link.target), action, Done)
    case RecoveryFailed(link) => Entry(Some(link.target), action, NotDone)
  }

  lemma {:induction false} ActiveIsShown(shown: seq<Shown>, i: nat) returns (k: nat)
    requires i < |Active(shown)|
    ensures k < |shown| && shown[k] == Active(shown)[i] && !shown[k].link.detached
  {
    var n := |shown| - 1;
    if i < |Active(shown[..n])| {
      k := ActiveIsShown(shown[..n], i);
    } else {
      k := n;
    }
  }

  // ---- the preview is exact ----

  /** When the worst verdict calls for an application, the link that the preview judges is the
    * link that the application picks. */
  lemma {:induction false} PrimaryIsPicked(active: seq<Shown>, i: nat)
    requires Primary(active) == Some(i) && active[i].verdict in {MissingExternal, Drifted}
    ensures FirstWith(active, active[i].verdict) == Some(i)
  {
    var found := FirstWith(active, active[i].verdict);
    assert found.Some?;
    assert forall k | 0 <= k < |active| && active[k].verdict == active[i].verdict :: i <= k;
  }

  /** For every list of links, policies and local states, the preview marks an application
    * available if and only if the application passes all of its gates, on the same link. */
  lemma {:induction false} PreviewIsExact(shown: seq<Shown>, local: Local, action: Action)
    requires action == AcceptResolved || action == AcceptMissing
    ensures ApplyAvailable(Active(shown), local, action) <==> ApplyGates(shown, local, action).Passed?
    ensures ApplyGates(shown, local, action).Passed? ==>
      ApplyGates(shown, local, action).link == Active(shown)[Primary(Active(shown)).value].link
  {
    var active := Active(shown);
    if OfferedApply(active, local) == Some(action) {
      PrimaryIsPicked(active, Primary(active).value);
    }
  }

  /** A link that passes is one of those shown, with the verdict that the action calls for. */
  lemma {:induction false} PassedIsShown(shown: seq<Shown>, local: Local, action: Action) returns (k: nat)
    requires ApplyGates(shown, local, action).Passed?
    ensures k < |shown| && shown[k].link == ApplyGates(shown, local, action).link
    ensures shown[k].verdict == if action == AcceptMissing then MissingExternal else Drifted
    ensures action == AcceptResolved ==> shown[k].link.status == Some(ReportsClosed)
  {
    var active := Active(shown);
    var i := FirstWith(active, if action == AcceptMissing then MissingExternal else Drifted).value;
    k := ActiveIsShown(shown, i);
  }

  // ---- what a verdict and an offer rest on ----

  /** The external incident is reported otherwise than the local one stands. */
  predicate Disagrees(local: Local, link: Link) {
    || (link.status == Some(ReportsClosed) && local.Some? && local.value in {Incidents.Open, Incidents.Acknowledged, Incidents.Silenced})
    || (link.status == Some(ReportsOpen) && local == Some(Incidents.Recovered))
  }

  predicate Overdue(link: Link, now: int, stale: int) {
    link.syncedAt.Some? && now > link.syncedAt.value + if stale < 1 then 1 else stale
  }

  /** Each verdict on a link that is attached and was synced: missing before drifted, drifted
    * before stale, and refreshed only when it was asked for. */
  lemma {:induction false} VerdictTells(local: Local, link: Link, now: int, stale: int)
    ensures var verdict, settled := ClassifyLinkStatus(local, link, now, stale), !link.detached && link.syncedAt.Some?;
      && (verdict == Detached <==> link.detached)
      && (verdict == NeverLinked <==> !link.detached && link.syncedAt.None?)
      && (verdict == MissingExternal <==> settled && link.found == Some(false))
      && (verdict == Drifted <==> settled && link.found != Some(false) && Disagrees(local, link))
      && (verdict == Stale <==>
            settled && link.found != Some(false) && !Disagrees(local, link) && Overdue(link, now, stale))
      && (verdict == Refreshed ==> link.checkedAt.Some?) && (verdict == Linked ==> link.checkedAt.None?)
  {
  }

  predicate Has(active: seq<Shown>, verdict: LinkStatus) {
    exists i :: 0 <= i < |active| && active[i].verdict == verdict
  }

  /** The first drifted link is reported closed while the incident is open. */
  predicate ClosedElsewhere(active: seq<Shown>, local: Local) {
    exists i :: 0 <= i < |active| && FirstDrifted(active, i) && active[i].link.status == Some(ReportsClosed) && LocalOpen(local)
  }

  predicate FirstDrifted(active: seq<Shown>, i: nat) {
    i < |active| && active[i].verdict == Drifted && forall k | 0 <= k < i :: active[k].verdict != Drifted
  }

  /** Accepting an absence is offered exactly when some active link misses its external incident;
    * accepting a resolution exactly when none does and the first drifted link is closed
    * elsewhere. */
  lemma {:induction false} OfferedIff(active: seq<Shown>, local: Local)
    ensures OfferedApply(active, local) == Some(AcceptMissing) <==> Has(active, MissingExternal)
    ensures OfferedApply(active, local) == Some(AcceptResolved) <==>
      !Has(active, MissingExternal) && ClosedElsewhere(active, local)
  {
    var primary, drifted := Primary(active), FirstWith(active, Drifted);
    if drifted.Some? {
      assert FirstDrifted(active, drifted.value);
    }
    if i :| 0 <= i < |active| && active[i].verdict == MissingExternal {
      assert Severity(active[i].verdict) <= Severity(active[primary.value].verdict);
    } else if i :| 0 <= i < |active| && FirstDrifted(active, i) {
      assert Severity(active[i].verdict) <= Severity(active[primary.value].verdict);
      assert drifted == Some(i);
    }
  }

  /** An application that passes is one that the link's own target is able to do and wants; the
    * link is attached, and no other link of the incident's decides. */
  lemma {:induction false} PassedIsPermitted(links: seq<Link>, policies: map<nat, Policy>, local: Local, now: int,
                                             stale: int, action: Action)
    returns (k: nat)
    requires ApplyGates(ShowAll(links, policies, local, now, stale), local, action).Passed?
    ensures k < |links| && !links[k].detached
    ensures ApplyGates(ShowAll(links, policies, local, now, stale), local, action) == Passed(links[k])
    ensures links[k].target in policies ==>
      var p := policies[links[k].target]; action in Abilities(p.kind) && Wants(p.overrides, p.profile, action)
    ensures links[k].target !in policies ==> action in Abilities(None)
  {
    var shown := ShowAll(links, policies, local, now, stale);
    var i := FirstWith(Active(shown), if action == AcceptMissing then MissingExternal else Drifted).value;
    k := ActiveIsShown(shown, i);
    var p := shown[k].policy;
    PolicyTells(p.kind, p.overrides, action, p.profile);
  }

  /** With only observe-only targets that say nothing of their own, no action that changes an
    * external system is allowed on any link. */
  lemma {:induction false} ObserveOnlyIsNeverPushed(active: seq<Shown>, action: Action)
    requires Outbound(action)
    requires forall i | 0 <= i < |active| ::
      active[i].policy.profile == Some(PagerDutyReadonly) && active[i].policy.overrides == map[]
    ensures !AnyAllows(active, action)
  {
    forall i | 0 <= i < |active| ensures PolicyFor(active[i], action) != Allowed {
      PolicyTells(active[i].policy.kind, active[i].policy.overrides, action, active[i].policy.profile);
    }
  }

  lemma {:induction false} ActiveHas(shown: seq<Shown>, s: Shown)
    ensures s in Active(shown) <==> s in shown && !s.link.detached
  {
    if shown != [] {
      ActiveHas(shown[..|shown| - 1], s);
      assert shown == shown[..|shown| - 1] + [shown[|shown| - 1]];
    }
  }

  /** The link's target is able to do the action and wants it. */
  predicate Welcomes(s: Shown, action: Action) {
    action in Abilities(s.policy.kind) && Wants(s.policy.overrides, s.policy.profile, action)
  }

  /** A refresh is on offer when an active link's target can be asked, a relink when any link's
    * can, and each outbound action when some active link's target is able to do it and wants it. */
  lemma {:induction false} OffersTell(shown: seq<Shown>, action: Action)
    ensures CanRefresh(shown) <==> exists s :: s in Active(shown) && s.policy.kind != Some(Jira)
    ensures CanRelink(shown) <==> exists s :: s in shown && s.policy.kind != Some(Jira)
    ensures AnyAllows(Active(shown), action) <==> exists s :: s in Active(shown) && Welcomes(s, action)
  {
    forall s: Shown ensures SupportsRefresh(s.policy.kind) <==> s.policy.kind != Some(Jira) {
      RefreshTells(s.policy.kind);
    }
    forall s: Shown ensures s in Active(shown) <==> s in shown && !s.link.detached {
      ActiveHas(shown, s);
    }
    forall s: Shown ensures PolicyFor(s, action) == Allowed <==> Welcomes(s, action) {
      PolicyTells(s.policy.kind, s.policy.overrides, action, s.policy.profile);
    }
    if s :| s in Active(shown) && PolicyFor(s, action) == Allowed {
      var i :| 0 <= i < |Active(shown)| && Active(shown)[i] == s;
      assert PolicyFor(Active(shown)[i], action) == Allowed;
    }
  }

  // ---- after an application ----

  lemma {:induction false} ClosedDoesNotDrift(link: Link, later: int, stale: int)
    requires link.status == Some(ReportsClosed)
    ensures ClassifyLinkStatus(Some(Incidents.Recovered), link, later, stale) != Drifted
  {
  }

  /** After an accepted resolution its link is no longer drifted. */
  lemma {:induction false} AfterAcceptResolved(shown: seq<Shown>, local: Local, link: Link, later: int, stale: int)
    requires ApplyGates(shown, local, AcceptResolved) == Passed(link)
    ensures exists k :: 0 <= k < |shown| && shown[k].link == link && shown[k].verdict == Drifted
    ensures ClassifyLinkStatus(Some(Incidents.Recovered), link, later, stale) != Drifted
  {
    var k := PassedIsShown(shown, local, AcceptResolved);
    assert shown[k].link == link;
    ClosedDoesNotDrift(link, later, stale);
  }

  /** Recovery can leave other links drifted: exactly those whose external incident is there
    * and still reported open. */
  lemma {:induction false} DriftedAfterRecovery(link: Link, later: int, stale: int)
    ensures ClassifyLinkStatus(Some(Incidents.Recovered), link, later, stale) == Drifted <==>
      && !link.detached && link.syncedAt.Some? && link.found != Some(false) && link.status == Some(ReportsOpen)
  {
  }

  /** The incident's links with the given one detached. */
  function DetachLink(links: seq<Link>, link: Link): seq<Link> {
    DetachSession(Tables([], [], links), link.incident, link.target).links
  }

  /** Accepting a missing external incident detaches exactly the link that was judged. */
  lemma {:induction false} AfterAcceptMissing(links: seq<Link>, policies: map<nat, Policy>, local: Local, now: int,
                                              later: int, stale: int,
                           applied: Link)
    requires OneLinkEach(links)
    requires ApplyGates(ShowAll(links, policies, local, now, stale), local, AcceptMissing) == Passed(applied)
    ensures ClassifyLinkStatus(local, applied, now, stale) == MissingExternal
    ensures exists i | 0 <= i < |links| ::
      links[i] == applied && DetachLink(links, applied) == links[i := applied.(detached := true)]
    ensures applied !in DetachLink(links, applied)
  {
    var shown := ShowAll(links, policies, local, now, stale);
    var k := PassedIsShown(shown, local, AcceptMissing);
    FindUnique(links, k);
    assert shown[k].link == links[k];
    assert DetachLink(links, applied) == links[k := applied.(detached := true)];
  }

  class IncidentView {
    var local: Local
    var links: seq<Link>
    var policies: map<nat, Policy>
    var trail: seq<Entry>
    const stale: int

    constructor (local: Local, links: seq<Link>, policies: map<nat, Policy>, stale: int)
      ensures this.local == local && this.links == links && this.policies == policies && this.stale == stale
      ensures trail == []
    {
      this.local, this.links, this.policies, this.stale := local, links, policies, stale;
      trail := [];
    }

    static method AnyTargetAllows(active: seq<Shown>, action: Action) returns (allowed: bool)
      ensures allowed <==> AnyAllows(active, action)
    {
      for i := 0 to |active|
        invariant forall k | 0 <= k < i :: PolicyFor(active[k], action) != Allowed
      {
        if PolicyFor(active[i], action) == Allowed {
          return true;
        }
      }
      allowed := false;
    }

    static method AnyRefreshes(shown: seq<Shown>) returns (refresh: bool, relink: bool)
      ensures refresh == CanRefresh(shown) && relink == CanRelink(shown)
    {
      refresh, relink := false, false;
      for i := 0 to |shown|
        invariant refresh == CanRefresh(shown[..i]) && relink == CanRelink(shown[..i])
      {
        refresh := refresh || (SupportsRefresh(shown[i].policy.kind) && !shown[i].link.detached);
        relink := relink || SupportsRefresh(shown[i].policy.kind);
      }
      assert shown[..|shown|] == shown;
    }

    /** The preview's list, entry by entry. `failed` and `upToDate` tell of the sync records. */
    static method AvailableActions(shown: seq<Shown>, local: Local, failed: bool,
                                   upToDate: bool) returns (offers: seq<Offer>)
      ensures var active := Active(shown);
        offers == [
          Offer(ToRefresh, CanRefresh(shown)),
          Offer(ToRedrive, failed && !upToDate),
          Offer(ToDetach, active != []),
          Offer(ToRelink, CanRelink(shown)),
          Offer(ToApplyResolved, ApplyAvailable(active, local, AcceptResolved)),
          Offer(ToApplyMissing, ApplyAvailable(active, local, AcceptMissing)),
          Offer(ToPush, AnyAllows(active, ResendCurrentState)),
          Offer(ToResolve, AnyAllows(active, ExternalResolve)),
          Offer(ToReopen, AnyAllows(active, ExternalReopen)),
          Offer(ToAcknowledge, AnyAllows(active, ExternalAcknowledge))]
    {
      var active := Active(shown);
      var offered, primary := OfferedApply(active, local), Primary(active);
      var refresh, relink := AnyRefreshes(shown);
      var resolved := offered == Some(AcceptResolved) && primary.Some? &&
        PolicyFor(active[primary.value], AcceptResolved) == Allowed;
      var missing := offered == Some(AcceptMissing) && primary.Some? &&
        PolicyFor(active[primary.value], AcceptMissing) == Allowed;
      var push := AnyTargetAllows(active, ResendCurrentState);
      var resolve := AnyTargetAllows(active, ExternalResolve);
      var reopen := AnyTargetAllows(active, ExternalReopen);
      var acknowledge := AnyTargetAllows(active, ExternalAcknowledge);
      offers := [Offer(ToRefresh, refresh), Offer(ToRedrive, failed && !upToDate), Offer(ToDetach, active != []),
                 Offer(ToRelink, relink), Offer(ToApplyResolved, resolved), Offer(ToApplyMissing, missing),
                 Offer(ToPush, push), Offer(ToResolve, resolve), Offer(ToReopen, reopen), Offer(ToAcknowledge, acknowledge)];
    }

    /** The gates of one application, in their order. */
    static method Gate(shown: seq<Shown>, local: Local, action: Action) returns (answer: Applied)
      ensures answer == ApplyGates(shown, local, action)
    {
      if action != AcceptResolved && action != AcceptMissing {
        return UnknownAction;
      }
      if shown == [] {
        return DeniedState;
      }
      var active := Active(shown);
      if OfferedApply(active, local) != Some(action) {
        return DeniedState;
      }
      var found := FirstWith(active, if action == AcceptMissing then MissingExternal else Drifted);
      if found.None? {
        return DeniedState;
      }
      var link, verdict := active[found.value].link, PolicyFor(active[found.value], action);
      answer := if verdict != Allowed then DeniedPolicy(link, verdict) else Passed(link);
    }

    /** The only way in which an external observation changes the local incident. Every call
      * leaves one line on the trail, and nothing changes unless that line says it was done;
      * `recovers` says whether the local recovery succeeds. */
    method ApplyFromExternal(action: Action, recovers: bool, now: int) returns (answer: Applied)
      modifies this
      ensures var gates := ApplyGates(ShowAll(old(links), old(policies), old(local), now, stale), old(local), action);
        answer == if gates.Passed? && action == AcceptResolved && !recovers then RecoveryFailed(gates.link) else gates
      ensures policies == old(policies) && trail == old(trail) + [EntryFor(action, answer)]
      ensures var line := trail[|old(trail)|];
        && line.action == action
        && (answer.UnknownAction? <==> line.outcome == RefusedUnknown)
        && (answer.DeniedState? <==> line.outcome == RefusedState)
        && (line.outcome != Done ==> local == old(local) && links == old(links))
        && (line.outcome == Done <==> answer.Passed?)
        && (answer.Passed? ==> line.target == Some(answer.link.target))
      ensures local == if answer.Passed? && action == AcceptResolved then Some(Incidents.Recovered) else old(local)
      ensures links == if answer.Passed? && action == AcceptMissing then DetachLink(old(links), answer.link) else old(links)
    {
      answer := Gate(ShowAll(links, policies, local, now, stale), local, action);
      if answer.Passed? {
        if action == AcceptMissing {
          links := DetachLink(links, answer.link);
        } else if recovers {
          local := Some(Incidents.Recovered);
        } else {
          answer := RecoveryFailed(answer.link);
        }
      }
      trail := trail + [EntryFor(action, answer)];
    }
  }
}
