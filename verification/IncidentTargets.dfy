/** External incident targets: what each adapter can do, the presets, and the policy that
  * decides whether one action is permitted for one target. */
module IncidentTargets {
  import opened Wrappers

  datatype Kind = Generic | PagerDuty | Opsgenie | Jira

  datatype Profile = GenericPreset | PagerDutyPreset | PagerDutyReadonly | OpsgeniePreset | JiraOutbound

  datatype Action =
    | AcceptResolved
    | AcceptMissing
    | ExternalResolve
    | ExternalReopen
    | ExternalAcknowledge
    | ResendCurrentState

  /** The adapter of a kind; a target that is gone has no kind, and falls back to the generic one. */
  function AdapterFor(kind: Option<Kind>): Kind {
    if kind.Some? then kind.value else Generic
  }

  predicate SupportsRefresh(kind: Option<Kind>) {
    AdapterFor(kind) != Jira
  }

  predicate Capable(kind: Option<Kind>, action: Action) {
    match AdapterFor(kind)
    case Generic => action in {AcceptResolved, AcceptMissing, ResendCurrentState}
    case PagerDuty => true
    case Opsgenie => action != ExternalReopen
    case Jira => action == ResendCurrentState
  }

  function ProfileKind(profile: Profile): Kind {
    match profile
    case GenericPreset => Generic
    case PagerDutyPreset => PagerDuty
    case PagerDutyReadonly => PagerDuty
    case OpsgeniePreset => Opsgenie
    case JiraOutbound => Jira
  }

  function DefaultProfile(kind: Kind): (profile: Profile)
    ensures ProfileKind(profile) == kind
  {
    match kind
    case Generic => GenericPreset
    case PagerDuty => PagerDutyPreset
    case Opsgenie => OpsgeniePreset
    case Jira => JiraOutbound
  }

  /** Whether the preset turns an action off for targets that do not say otherwise. */
  predicate OffByDefault(profile: Option<Profile>, action: Action) {
    profile == Some(PagerDutyReadonly) && action in {ExternalResolve, ExternalReopen, ExternalAcknowledge, ResendCurrentState}
  }

  datatype Verdict = Allowed | DeniedCapability | DeniedTarget | DeniedProfile

  /** Capability first, then the target's own setting, then the preset's default. */
  function TargetActionPolicy(kind: Option<Kind>, overrides: map<Action, bool>, action: Action,
                              profile: Option<Profile>)
    : Verdict
  {
    if !Capable(kind, action) then DeniedCapability
    else if action in overrides && !overrides[action] then DeniedTarget
    else if action !in overrides && OffByDefault(profile, action) then DeniedProfile
    else Allowed
  }

  // ---- who may do what ----

  /** What each kind of external system is able to do; a target that is gone counts as generic. */
  function Abilities(kind: Option<Kind>): set<Action> {
    match kind
    case Some(PagerDuty) =>
      {AcceptResolved, AcceptMissing, ExternalResolve, ExternalReopen, ExternalAcknowledge, ResendCurrentState}
    case Some(Opsgenie) => {AcceptResolved, AcceptMissing, ExternalResolve, ExternalAcknowledge, ResendCurrentState}
    case Some(Jira) => {ResendCurrentState}
    case _ => {AcceptResolved, AcceptMissing, ResendCurrentState}
  }

  /** An action that changes the external system. */
  predicate Outbound(action: Action) {
    action != AcceptResolved && action != AcceptMissing
  }

  /** What a target says of an action by itself, without the abilities of its kind: its own word
    * first, and only when it has none, no outbound action of an observe-only preset. */
  predicate Wants(overrides: map<Action, bool>, profile: Option<Profile>, action: Action) {
    if action in overrides then overrides[action] else profile == Some(PagerDutyReadonly) ==> !Outbound(action)
  }

  /** An action is allowed if and only if the kind is able to do it and the target wants it, and
    * a refusal names the first of capability, target and preset that stands in its way. */
  lemma {:induction false} PolicyTells(kind: Option<Kind>, overrides: map<Action, bool>, action: Action,
                                       profile: Option<Profile>)
    ensures var able := action in Abilities(kind);
      var verdict := TargetActionPolicy(kind, overrides, action, profile);
      && (verdict == Allowed <==> able && Wants(overrides, profile, action))
      && (verdict == DeniedCapability <==> !able)
      && (verdict == DeniedTarget <==> able && action in overrides && !overrides[action])
  {
  }

  /** Everything but the outbound-only kind can be asked for its state. */
  lemma {:induction false} RefreshTells(kind: Option<Kind>)
    ensures SupportsRefresh(kind) <==> kind != Some(Jira)
  {
  }

  /** Each kind's default preset allows all that the kind is able to do. */
  lemma {:induction false} DefaultAllowsAll(kind: Kind, action: Action)
    requires action in Abilities(Some(kind))
    ensures TargetActionPolicy(Some(kind), map[], action, Some(DefaultProfile(kind))) == Allowed
  {
  }
}
