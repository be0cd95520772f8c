/** The readiness of an external incident target: a verdict computed from the evidence that
  * its checks leave in the row. */
module Readiness {
  import opened Wrappers
  import opened IncidentTargets

  datatype Url = Url(text: string, http: bool)

  datatype CheckKind = ConfigCheck | Connectivity | TestSend

  datatype Evidence = Evidence(
    validatedAt: Option<int>, testAt: Option<int>, successAt: Option<int>, failureAt: Option<int>,
    error: Option<string>, kind: Option<CheckKind>)

  const NO_EVIDENCE := Evidence(None, None, None, None, None, None)

  datatype Target = Target(
    url: Url, secret: Option<string>, kind: Kind, profile: Option<Profile>, enabled: bool, evidence: Evidence)

  datatype Verdict = Disabled | InvalidConfig | Unverified | AuthFailed | TestFailed | Degraded | Stale | Ready

  function ResolvedProfile(target: Target): Profile {
    if target.profile.Some? then target.profile.value else DefaultProfile(target.kind)
  }

  predicate ConfigOk(target: Target) {
    target.url.http && ProfileKind(ResolvedProfile(target)) == target.kind
  }

  /** Whether an error reads like a refused credential; which texts do is not fixed here. */
  predicate LooksLikeAuthError(error: Option<string>, authErrors: set<string>) {
    error.Some? && error.value in authErrors
  }

  function ComputeReadiness(enabled: bool, configOk: bool, e: Evidence, now: int, stale: int,
                            authErrors: set<string>): Verdict {
    if !enabled then Disabled
    else if !configOk then InvalidConfig
    else if e.validatedAt.None? && e.testAt.None? then Unverified
    else if e.failureAt.Some? && (e.successAt.None? || e.failureAt.value > e.successAt.value) then
      if LooksLikeAuthError(e.error, authErrors) then AuthFailed
      else if e.kind == Some(TestSend) then TestFailed
      else Degraded
    else if stale != 0 && e.successAt.Some? && now - e.successAt.value > Max(1, stale) then Stale
    else Ready
  }

  function ReadinessOf(target: Target, now: int, stale: int, authErrors: set<string>): Verdict {
    ComputeReadiness(target.enabled, ConfigOk(target), target.evidence, now, stale, authErrors)
  }

  // ---- what a sound target is ----

  /** The presets and the kind that each is for. */
  const PRESETS: set<(Profile, Kind)> := {
    (GenericPreset, Generic), (PagerDutyPreset, PagerDuty), (PagerDutyReadonly, PagerDuty),
    (OpsgeniePreset, Opsgenie), (JiraOutbound, Jira)}

  /** An http url, and a preset, if one is set, that is for the target's kind. */
  predicate Sound(target: Target) {
    target.url.http && (target.profile.Some? ==> (target.profile.value, target.kind) in PRESETS)
  }

  /** Every kind but the outbound-only Jira can be probed. */
  predicate Probed(target: Target) {
    Sound(target) && target.kind != Jira
  }

  /** A validation passes when the target is sound and, if it can be probed, answers. */
  predicate Works(target: Target, probe: Probe) {
    Sound(target) && (target.kind == Jira || probe.Reached?)
  }

  lemma {:induction false} ConfigOkIff(target: Target)
    ensures ConfigOk(target) <==> Sound(target)
    ensures Probes(target) <==> Probed(target)
  {
  }

  // ---- the operations on one target ----

  /** One named change of an operator. A kind or a preset of no known name arrives as `None`;
    * what a readiness verdict never reads is `Other`. */
  datatype Setting =
    | SetUrl(url: Url)
    | SetSecret(secret: string)
    | SetKind(kind: Option<Kind>)
    | SetProfile(profile: Option<Profile>)
    | SetEnabled(enabled: bool)
    | Other

  predicate Refused(c: Setting) {
    (c.SetUrl? && !c.url.http) || (c.SetKind? && c.kind.None?) || (c.SetProfile? && c.profile.None?)
  }

  function Applied(target: Target, c: Setting): (r: Target)
    requires !Refused(c)
    ensures r.evidence == target.evidence
  {
    match c
    case SetUrl(url) => target.(url := url)
    case SetSecret(secret) => target.(secret := Some(secret))
    case SetKind(kind) => target.(kind := kind.value)
    case SetProfile(profile) => target.(profile := profile, kind := ProfileKind(profile.value))
    case SetEnabled(enabled) => target.(enabled := enabled)
    case Other => target
  }

  predicate Accepts(changes: seq<Setting>) {
    forall k | 0 <= k < |changes| :: !Refused(changes[k])
  }

  function AllApplied(target: Target, changes: seq<Setting>): (r: Target)
    requires Accepts(changes)
    ensures r.evidence == target.evidence
  {
    if changes == [] then target
    else Applied(AllApplied(target, changes[..|changes| - 1]), changes[|changes| - 1])
  }

  /** The changes are made in order, all or none; a new endpoint or secret drops the evidence. */
  function UpdateSession(target: Target, changes: seq<Setting>): Target {
    if !Accepts(changes) then target
    else
      var t := AllApplied(target, changes);
      if t.url != target.url || t.secret != target.secret then t.(evidence := NO_EVIDENCE) else t
  }

  function LastUrl(changes: seq<Setting>): Option<Url> {
    if changes == [] then None
    else if changes[|changes| - 1].SetUrl? then Some(changes[|changes| - 1].url) else LastUrl(changes[..|changes| - 1])
  }

  function LastSecret(changes: seq<Setting>): Option<string> {
    if changes == [] then None
    else if changes[|changes| - 1].SetSecret? then Some(changes[|changes| - 1].secret)
    else LastSecret(changes[..|changes| - 1])
  }

  function LastProfile(changes: seq<Setting>): Option<Profile> {
    if changes == [] then None
    else if changes[|changes| - 1].SetProfile? then changes[|changes| - 1].profile else LastProfile(changes[..|changes| - 1])
  }

  function LastEnabled(changes: seq<Setting>): Option<bool> {
    if changes == [] then None
    else if changes[|changes| - 1].SetEnabled? then Some(changes[|changes| - 1].enabled)
    else LastEnabled(changes[..|changes| - 1])
  }

  predicate BadUrl(c: Setting) {
    c.SetUrl? && !c.url.http
  }

  lemma {:induction false} AllAppliedTells(target: Target, changes: seq<Setting>)
    requires Accepts(changes)
    ensures var t := AllApplied(target, changes);
      && t.url == (if LastUrl(changes).Some? then LastUrl(changes).value else target.url)
      && t.secret == (if LastSecret(changes).Some? then LastSecret(changes) else target.secret)
      && t.profile == (if LastProfile(changes).Some? then LastProfile(changes) else target.profile)
      && t.enabled == (if LastEnabled(changes).Some? then LastEnabled(changes).value else target.enabled)
  {
    if changes != [] {
      AllAppliedTells(target, changes[..|changes| - 1]);
    }
  }

  /** A list of changes with an unknown kind, an unknown preset or a url that is not http leaves
    * the target as it was. Any other gives each field the last value that it names, and keeps
    * the evidence exactly when neither the url nor the secret is new. */
  lemma {:induction false} UpdateTells(target: Target, changes: seq<Setting>)
    ensures var t := UpdateSession(target, changes);
      if SetKind(None) in changes || SetProfile(None) in changes || exists c :: c in changes && BadUrl(c) then t == target
      else
        && t.url == (if LastUrl(changes).Some? then LastUrl(changes).value else target.url)
        && t.secret == (if LastSecret(changes).Some? then LastSecret(changes) else target.secret)
        && t.profile == (if LastProfile(changes).Some? then LastProfile(changes) else target.profile)
        && t.enabled == (if LastEnabled(changes).Some? then LastEnabled(changes).value else target.enabled)
        && t.evidence == if t.url == target.url && t.secret == target.secret then target.evidence else NO_EVIDENCE
  {
    if Accepts(changes) {
      AllAppliedTells(target, changes);
    } else {
      var k :| 0 <= k < |changes| && Refused(changes[k]);
      assert changes[k] in changes;
      assert changes[k] == SetKind(None) || changes[k] == SetProfile(None) || BadUrl(changes[k]);
    }
  }

  /** The kind is the one that the last kind or preset in the list calls for. */
  function KindAfter(kind: Kind, changes: seq<Setting>): Kind
    requires Accepts(changes)
  {
    if changes == [] then kind
    else
      var last := changes[|changes| - 1];
      if last.SetKind? then last.kind.value
      else if last.SetProfile? then ProfileKind(last.profile.value)
      else KindAfter(kind, changes[..|changes| - 1])
  }

  lemma {:induction false} UpdateTellsKind(target: Target, changes: seq<Setting>)
    ensures UpdateSession(target, changes).kind == if Accepts(changes) then KindAfter(target.kind, changes) else target.kind
  {
    if changes != [] && Accepts(changes) {
      UpdateTellsKind(target, changes[..|changes| - 1]);
    }
  }

  function RotateSession(target: Target, secret: Option<string>): Target {
    target.(secret := if secret == Some("") then None else secret, evidence := NO_EVIDENCE)
  }

  /** What a connectivity probe finds. */
  datatype Probe = Reached | Failed(error: string)

  predicate Probes(target: Target) {
    ConfigOk(target) && SupportsRefresh(Some(target.kind))
  }

  predicate Passes(target: Target, probe: Probe) {
    if Probes(target) then probe.Reached? else ConfigOk(target)
  }

  function ValidateSession(target: Target, probe: Probe, now: int): Target {
    var e := target.evidence.(validatedAt := Some(now), kind := Some(if Probes(target) then Connectivity else ConfigCheck));
    target.(evidence :=
      if Passes(target, probe) then e.(successAt := Some(now), error := None)
      else e.(failureAt := Some(now), error := Some(if Probes(target) && probe.Failed? then probe.error else "config")))
  }

  /** A test in flight, with the endpoint and secret that it sends to and with. */
  datatype Test = Test(url: Url, secret: Option<string>)

  function TestBegin(target: Target): Option<Test> {
    if target.enabled && ConfigOk(target) then Some(Test(target.url, target.secret)) else None
  }

  function TestFinish(target: Target, sent: Probe, now: int): Target {
    var e := target.evidence.(testAt := Some(now), kind := Some(TestSend));
    target.(evidence := if sent.Reached? then e.(successAt := Some(now), error := None)
                        else e.(failureAt := Some(now), error := Some(sent.error)))
  }

  class IncidentTarget {
    var target: Target

    constructor (url: Url, secret: Option<string>, kind: Kind, profile: Option<Profile>)
      ensures target == Target(url, if secret == Some("") then None else secret,
                               if profile.Some? then ProfileKind(profile.value) else kind,
                               if profile.Some? then profile else Some(DefaultProfile(kind)), true, NO_EVIDENCE)
    {
      target := Target(url, if secret == Some("") then None else secret,
                       if profile.Some? then ProfileKind(profile.value) else kind,
                       if profile.Some? then profile else Some(DefaultProfile(kind)), true, NO_EVIDENCE);
    }

    method InvalidateReadiness()
      modifies this
      ensures target == old(target).(evidence := NO_EVIDENCE)
    {
      target := target.(evidence := Evidence(None, None, None, None, None, None));
    }

    /** The first change that is refused ends the update, and the session is dropped. */
    method Update(changes: seq<Setting>) returns (ok: bool)
      modifies this
      ensures ok == Accepts(changes)
      ensures target == UpdateSession(old(target), changes)
    {
      var row := target;
      for k := 0 to |changes|
        invariant Accepts(changes[..k]) && row == AllApplied(target, changes[..k]) && target == old(target)
      {
        assert changes[..k + 1][..k] == changes[..k];
        if Refused(changes[k]) {
          return false;
        }
        match changes[k] {
          case SetUrl(url) => row := row.(url := url);
          case SetSecret(secret) => row := row.(secret := Some(secret));
          case SetKind(kind) => row := row.(kind := kind.value);
          case SetProfile(profile) => row := row.(profile := profile, kind := ProfileKind(profile.value));
          case SetEnabled(enabled) => row := row.(enabled := enabled);
          case Other =>
        }
      }
      assert changes[..|changes|] == changes;
      var url, secret := target.url, target.secret;
      target := row;
      if target.url != url || target.secret != secret {
        InvalidateReadiness();
      }
      ok := true;
    }

    method RotateSecret(secret: Option<string>)
      modifies this
      ensures target == RotateSession(old(target), secret)
      ensures target.secret == (if secret == Some("") then None else secret) && target.evidence == NO_EVIDENCE
    {
      target := target.(secret := if secret == Some("") then None else secret);
      InvalidateReadiness();
    }

    method Validate(probe: Probe, now: int) returns (ok: bool)
      modifies this
      ensures target == ValidateSession(old(target), probe, now)
      ensures ok <==> Works(old(target), probe)
    {
      ConfigOkIff(target);
      var configOk := ConfigOk(target);
      var ran := configOk && SupportsRefresh(Some(target.kind));
      var e := target.evidence.(validatedAt := Some(now));
      ok := configOk && (ran ==> probe.Reached?);
      if ran {
        e := if probe.Reached? then e.(successAt := Some(now), error := None)
             else e.(failureAt := Some(now), error := Some(probe.error));
        e := e.(kind := Some(Connectivity));
      } else if !configOk {
        e := e.(failureAt := Some(now), error := Some("config"), kind := Some(ConfigCheck));
      } else {
        e := e.(successAt := Some(now), error := None, kind := Some(ConfigCheck));
      }
      target := target.(evidence := e);
    }

    method FinishTest(sent: Probe, now: int)
      modifies this
      ensures target == TestFinish(old(target), sent, now)
    {
      var e := target.evidence.(testAt := Some(now), kind := Some(TestSend));
      if sent.Reached? {
        e := e.(successAt := Some(now), error := None);
      } else {
        e := e.(failureAt := Some(now), error := Some(sent.error));
      }
      target := target.(evidence := e);
    }
  }

  // ---- runs ----

  /** A target with the tests that are in flight. */
  datatype Desk = Desk(target: Target, tests: seq<Test>, clock: int)

  datatype Event =
    | Update(changes: seq<Setting>)
    | Rotate(secret: Option<string>)
    | Validate(probe: Probe)
    | Begin
    | Finish(test: nat, sent: Probe)
    | Tick(delay: nat)

  function Next(s: Desk, e: Event): Desk {
    match e
    case Update(changes) => s.(target := UpdateSession(s.target, changes))
    case Rotate(secret) => s.(target := RotateSession(s.target, secret))
    case Validate(probe) => s.(target := ValidateSession(s.target, probe, s.clock))
    case Begin => if TestBegin(s.target).Some? then s.(tests := s.tests + [TestBegin(s.target).value]) else s
    case Finish(k, sent) => if k < |s.tests| then s.(target := TestFinish(s.target, sent, s.clock)) else s
    case Tick(delay) => s.(clock := s.clock + delay)
  }

  /** Where a new target stands. */
  predicate New(s: Desk) {
    s.target.evidence == NO_EVIDENCE && s.tests == []
  }

  function Reached(start: Desk, events: seq<Event>): Desk {
    if events == [] then start else Next(Reached(start, events[..|events| - 1]), events[|events| - 1])
  }

  /** A check that ran: when, the endpoint and secret it used, of what kind it was, and the
    * error it ended with, if any. */
  datatype Check = Check(at: int, url: Url, secret: Option<string>, kind: CheckKind, error: Option<string>) {
    predicate Ok() { error.None? }
  }

  predicate ChangesCredentials(s: Desk, e: Event) {
    || e.Rotate?
    || (e.Update? && (Next(s, e).target.url != s.target.url || Next(s, e).target.secret != s.target.secret))
  }

  function CheckOf(s: Desk, e: Event): seq<Check> {
    match e
    case Validate(probe) =>
      [Check(s.clock, s.target.url, s.target.secret, if Probed(s.target) then Connectivity else ConfigCheck,
             if !Sound(s.target) then Some("config")
             else if s.target.kind != Jira && probe.Failed? then Some(probe.error) else None)]
    case Finish(k, sent) =>
      if k < |s.tests|
      then [Check(s.clock, s.tests[k].url, s.tests[k].secret, TestSend, if sent.Failed? then Some(sent.error) else None)]
      else []
    case _ => []
  }

  /** The checks that ended since the endpoint or the secret was last changed. */
  function ChecksSinceChange(start: Desk, events: seq<Event>): seq<Check> {
    if events == [] then []
    else
      var m := |events| - 1;
      var s := Reached(start, events[..m]);
      if ChangesCredentials(s, events[m]) then [] else ChecksSinceChange(start, events[..m]) + CheckOf(s, events[m])
  }

  /** The time of the last check with the given outcome. */
  function LastAt(checks: seq<Check>, ok: bool): Option<int> {
    if checks == [] then None
    else if checks[|checks| - 1].Ok() == ok then Some(checks[|checks| - 1].at)
    else LastAt(checks[..|checks| - 1], ok)
  }

  lemma {:induction false} LastAtAppend(checks: seq<Check>, c: Check)
    ensures LastAt(checks + [c], c.Ok()) == Some(c.at)
    ensures LastAt(checks + [c], !c.Ok()) == LastAt(checks, !c.Ok())
  {
    assert (checks + [c])[..|checks|] == checks;
  }

  /** The evidence is the last success and the last failure since the credentials changed, with
    * the kind and the error of the last check. */
  predicate EvidenceTells(e: Evidence, checks: seq<Check>, clock: int) {
    && e.successAt == LastAt(checks, true)
    && e.failureAt == LastAt(checks, false)
    && (if checks == [] then e == NO_EVIDENCE
        else
          && (e.validatedAt.Some? || e.testAt.Some?)
          && e.kind == Some(checks[|checks| - 1].kind) && e.error == checks[|checks| - 1].error)
    && (forall k | 0 <= k < |checks| :: checks[k].at <= clock)
    && (forall j, k | 0 <= j < k < |checks| :: checks[j].at <= checks[k].at)
  }

  /** One more check, with its outcome stamped on the matching side. */
  lemma {:induction false} CheckTells(e: Evidence, e': Evidence, checks: seq<Check>, c: Check)
    requires EvidenceTells(e, checks, c.at)
    requires e'.validatedAt.Some? || e'.testAt.Some?
    requires e'.kind == Some(c.kind) && e'.error == c.error
    requires c.Ok() ==> e'.successAt == Some(c.at) && e'.failureAt == e.failureAt
    requires !c.Ok() ==> e'.failureAt == Some(c.at) && e'.successAt == e.successAt
    ensures EvidenceTells(e', checks + [c], c.at)
  {
    LastAtAppend(checks, c);
  }

  /** What a validation leaves: a success when the target is sound and answers or cannot be
    * probed, and otherwise a failure with its error; the other side stays as it was. */
  lemma {:induction false} ValidationLeaves(s: Desk, probe: Probe)
    ensures var t, e, e' := Next(s, Validate(probe)).target, s.target.evidence, Next(s, Validate(probe)).target.evidence;
      && t == s.target.(evidence := e') && e'.validatedAt == Some(s.clock) && e'.testAt == e.testAt
      && e'.kind == Some(if Probed(s.target) then Connectivity else ConfigCheck)
      && (Works(s.target, probe) ==> e'.successAt == Some(s.clock) && e'.failureAt == e.failureAt && e'.error == None)
      && (!Works(s.target, probe) ==>
            && e'.failureAt == Some(s.clock) && e'.successAt == e.successAt
            && e'.error == Some(if Sound(s.target) then probe.error else "config"))
  {
    ConfigOkIff(s.target);
  }

  /** What a test leaves when its send returns. */
  lemma {:induction false} TestLeaves(s: Desk, k: nat, sent: Probe)
    requires k < |s.tests|
    ensures var t, e, e' := Next(s, Finish(k, sent)).target, s.target.evidence, Next(s, Finish(k, sent)).target.evidence;
      && t == s.target.(evidence := e') && e'.testAt == Some(s.clock) && e'.validatedAt == e.validatedAt
      && e'.kind == Some(TestSend)
      && (sent.Reached? ==> e'.successAt == Some(s.clock) && e'.failureAt == e.failureAt && e'.error == None)
      && (sent.Failed? ==> e'.failureAt == Some(s.clock) && e'.successAt == e.successAt && e'.error == Some(sent.error))
  {
  }

  /** A test is sent exactly for a target that is enabled and sound, with what it then holds. */
  lemma {:induction false} TestBeginsIff(s: Desk)
    ensures Next(s, Begin) ==
      if s.target.enabled && Sound(s.target) then s.(tests := s.tests + [Test(s.target.url, s.target.secret)]) else s
  {
    ConfigOkIff(s.target);
  }

  lemma {:induction false} NextTells(s: Desk, e: Event, checks: seq<Check>)
    requires EvidenceTells(s.target.evidence, checks, s.clock)
    ensures EvidenceTells(Next(s, e).target.evidence, if ChangesCredentials(s, e) then [] else checks + CheckOf(s, e),
                          Next(s, e).clock)
  {
    if e.Validate? {
      ValidationLeaves(s, e.probe);
      CheckTells(s.target.evidence, Next(s, e).target.evidence, checks, CheckOf(s, e)[0]);
    } else if e.Finish? && e.test < |s.tests| {
      TestLeaves(s, e.test, e.sent);
      CheckTells(s.target.evidence, Next(s, e).target.evidence, checks, CheckOf(s, e)[0]);
    } else {
      assert checks + [] == checks;
    }
  }

  lemma {:induction false} EvidenceIsHistory(start: Desk, events: seq<Event>)
    requires New(start)
    ensures EvidenceTells(Reached(start, events).target.evidence, ChecksSinceChange(start, events), Reached(start, events).clock)
  {
    if events != [] {
      var m := |events| - 1;
      EvidenceIsHistory(start, events[..m]);
      NextTells(Reached(start, events[..m]), events[m], ChecksSinceChange(start, events[..m]));
    }
  }

  lemma {:induction false} LastAtIsThere(checks: seq<Check>, ok: bool)
    ensures var last := LastAt(checks, ok);
      && (last.Some? ==> exists k :: 0 <= k < |checks| && checks[k].Ok() == ok && checks[k].at == last.value)
      && (last.None? ==> forall k | 0 <= k < |checks| :: checks[k].Ok() != ok)
  {
    if checks != [] {
      LastAtIsThere(checks[..|checks| - 1], ok);
      if checks[|checks| - 1].Ok() == ok {
        assert LastAt(checks, ok) == Some(checks[|checks| - 1].at);
      } else if LastAt(checks, ok).Some? {
        var k :| 0 <= k < |checks| - 1 && checks[..|checks| - 1][k].Ok() == ok && checks[..|checks| - 1][k].at == LastAt(checks, ok).value;
        assert checks[k].Ok() == ok;
      }
    }
  }

  lemma {:induction false} LastAtIsLatest(checks: seq<Check>, ok: bool, k: nat)
    requires k < |checks| && checks[k].Ok() == ok
    requires forall i, j | 0 <= i < j < |checks| :: checks[i].at <= checks[j].at
    ensures LastAt(checks, ok).Some? && checks[k].at <= LastAt(checks, ok).value
  {
    if checks[|checks| - 1].Ok() != ok {
      LastAtIsLatest(checks[..|checks| - 1], ok, k);
    }
  }

  /** The check that a verdict of ready rests on. */
  predicate Backs(checks: seq<Check>, k: nat, now: int, stale: int) {
    && k < |checks| && checks[k].Ok()
    && (stale != 0 ==> now - checks[k].at <= Max(1, stale))
    && forall j | 0 <= j < |checks| && !checks[j].Ok() :: checks[j].at <= checks[k].at
  }

  predicate Backed(checks: seq<Check>, now: int, stale: int) {
    exists k :: 0 <= k < |checks| && Backs(checks, k, now, stale)
  }

  lemma {:induction false} ReadyIsBacked(e: Evidence, checks: seq<Check>, now: int, stale: int, authErrors: set<string>)
    requires EvidenceTells(e, checks, now) && ComputeReadiness(true, true, e, now, stale, authErrors) == Ready
    ensures Backed(checks, now, stale)
  {
    LastAtIsThere(checks, true);
    LastAtIsThere(checks, false);
    assert checks != [] && e.successAt.Some?;
    var k :| 0 <= k < |checks| && checks[k].Ok() && checks[k].at == e.successAt.value;
    forall j | 0 <= j < |checks| && !checks[j].Ok() ensures checks[j].at <= checks[k].at {
      LastAtIsLatest(checks, false, j);
    }
    assert Backs(checks, k, now, stale);
  }

  lemma {:induction false} BackedIsReady(e: Evidence, checks: seq<Check>, now: int, stale: int, authErrors: set<string>)
    requires EvidenceTells(e, checks, now) && Backed(checks, now, stale)
    ensures ComputeReadiness(true, true, e, now, stale, authErrors) == Ready
  {
    var k :| 0 <= k < |checks| && Backs(checks, k, now, stale);
    LastAtIsLatest(checks, true, k);
    LastAtIsThere(checks, false);
    if e.failureAt.Some? {
      var j :| 0 <= j < |checks| && !checks[j].Ok() && checks[j].at == e.failureAt.value;
      assert checks[j].at <= checks[k].at;
    }
  }

  /** In every run, a target reads ready exactly when it is enabled and configured and some
    * check since the last change of its endpoint or secret succeeded, recently enough, with
    * no failed check strictly later. */
  lemma {:induction false} ReadyIffBacked(start: Desk, events: seq<Event>, stale: int, authErrors: set<string>)
    requires New(start)
    ensures var s := Reached(start, events);
      ReadinessOf(s.target, s.clock, stale, authErrors) == Ready <==>
        s.target.enabled && Sound(s.target) && Backed(ChecksSinceChange(start, events), s.clock, stale)
  {
    var s, checks := Reached(start, events), ChecksSinceChange(start, events);
    EvidenceIsHistory(start, events);
    ConfigOkIff(s.target);
    if s.target.enabled && Sound(s.target) {
      if Backed(checks, s.clock, stale) {
        BackedIsReady(s.target.evidence, checks, s.clock, stale, authErrors);
      } else if ReadinessOf(s.target, s.clock, stale, authErrors) == Ready {
        ReadyIsBacked(s.target.evidence, checks, s.clock, stale, authErrors);
      }
    }
  }

  // ---- every verdict ----

  /** Some failed check is strictly later than every success. */
  predicate FailedLast(checks: seq<Check>) {
    exists k :: 0 <= k < |checks| && !checks[k].Ok() &&
      forall j | 0 <= j < |checks| && checks[j].Ok() :: checks[j].at < checks[k].at
  }

  /** The verdict in terms of the target and of its checks since the last change. */
  function VerdictOf(target: Target, checks: seq<Check>, now: int, stale: int, authErrors: set<string>): Verdict {
    if !target.enabled then Disabled
    else if !Sound(target) then InvalidConfig
    else if checks == [] then Unverified
    else if FailedLast(checks) then
      var last := checks[|checks| - 1];
      if last.error.Some? && last.error.value in authErrors then AuthFailed
      else if last.kind == TestSend then TestFailed
      else Degraded
    else if Backed(checks, now, stale) then Ready
    else Stale
  }

  lemma {:induction false} FailedLastIff(e: Evidence, checks: seq<Check>, clock: int)
    requires EvidenceTells(e, checks, clock)
    ensures FailedLast(checks) <==> e.failureAt.Some? && (e.successAt.None? || e.failureAt.value > e.successAt.value)
    ensures FailedLast(checks) ==> !checks[|checks| - 1].Ok()
  {
    LastAtIsThere(checks, true);
    LastAtIsThere(checks, false);
    if FailedLast(checks) {
      var k :| 0 <= k < |checks| && !checks[k].Ok() &&
        forall j | 0 <= j < |checks| && checks[j].Ok() :: checks[j].at < checks[k].at;
      LastAtIsLatest(checks, false, k);
    } else if e.failureAt.Some? {
      var k :| 0 <= k < |checks| && !checks[k].Ok() && checks[k].at == e.failureAt.value;
      var j :| 0 <= j < |checks| && checks[j].Ok() && checks[j].at >= checks[k].at;
      LastAtIsLatest(checks, true, j);
    }
  }

  lemma {:induction false} NotFailedIsReadyIff(e: Evidence, checks: seq<Check>, now: int, stale: int,
                                               authErrors: set<string>)
    requires EvidenceTells(e, checks, now) && checks != [] && !FailedLast(checks)
    ensures ComputeReadiness(true, true, e, now, stale, authErrors) == if Backed(checks, now, stale) then Ready else Stale
  {
    FailedLastIff(e, checks, now);
    if Backed(checks, now, stale) {
      BackedIsReady(e, checks, now, stale, authErrors);
    } else if ComputeReadiness(true, true, e, now, stale, authErrors) == Ready {
      ReadyIsBacked(e, checks, now, stale, authErrors);
    }
  }

  /** In every run, each of the eight verdicts is read exactly as the checks since the last
    * change of endpoint or secret call for. */
  lemma {:induction false} VerdictIsHistory(start: Desk, events: seq<Event>, stale: int, authErrors: set<string>)
    requires New(start)
    ensures var s := Reached(start, events);
      ReadinessOf(s.target, s.clock, stale, authErrors)
        == VerdictOf(s.target, ChecksSinceChange(start, events), s.clock, stale, authErrors)
  {
    var s, checks := Reached(start, events), ChecksSinceChange(start, events);
    EvidenceIsHistory(start, events);
    ConfigOkIff(s.target);
    FailedLastIff(s.target.evidence, checks, s.clock);
    if s.target.enabled && Sound(s.target) && checks != [] && !FailedLast(checks) {
      NotFailedIsReadyIff(s.target.evidence, checks, s.clock, stale, authErrors);
    }
  }

  /** A validation that fails never leaves a target ready, unless a check succeeded at the same
    * moment. */
  lemma {:induction false} FailedValidationIsNotReady(start: Desk, events: seq<Event>, probe: Probe, stale: int,
                                                      authErrors: set<string>)
    requires New(start) && !Works(Reached(start, events).target, probe)
    ensures var s, s' := Reached(start, events), Reached(start, events + [Validate(probe)]);
      ReadinessOf(s'.target, s'.clock, stale, authErrors) == Ready ==> s.target.evidence.successAt == Some(s.clock)
  {
    var s, s' := Reached(start, events), Reached(start, events + [Validate(probe)]);
    assert (events + [Validate(probe)])[..|events|] == events;
    EvidenceIsHistory(start, events);
    ValidationLeaves(s, probe);
    ConfigOkIff(s'.target);
    LastAtIsThere(ChecksSinceChange(start, events), true);
  }

  // ---- whether the evidence is about the present credentials ----

  /** Every check that counts used the endpoint and the secret that the target has now. */
  predicate Current(target: Target, checks: seq<Check>) {
    forall k | 0 <= k < |checks| :: checks[k].url == target.url && checks[k].secret == target.secret
  }

  /** A test ends although the endpoint or the secret is no longer the one that it used. */
  predicate Outdated(s: Desk, e: Event) {
    e.Finish? && e.test < |s.tests| && (s.tests[e.test].url != s.target.url || s.tests[e.test].secret != s.target.secret)
  }

  lemma {:induction false} NextCurrentIff(s: Desk, e: Event, checks: seq<Check>)
    requires Current(s.target, checks)
    ensures Current(Next(s, e).target, if ChangesCredentials(s, e) then [] else checks + CheckOf(s, e)) <==> !Outdated(s, e)
  {
    assert checks + [] == checks;
    if Outdated(s, e) {
      var all := checks + CheckOf(s, e);
      assert all[|checks|] == CheckOf(s, e)[0];
    }
  }

  predicate CurrentAfter(start: Desk, events: seq<Event>) {
    Current(Reached(start, events).target, ChecksSinceChange(start, events))
  }

  /** At the start of a run and after every event of it. */
  predicate AlwaysCurrent(start: Desk, events: seq<Event>) {
    CurrentAfter(start, events) && (events != [] ==> AlwaysCurrent(start, events[..|events| - 1]))
  }

  predicate NeverOutdated(start: Desk, events: seq<Event>) {
    events != [] ==>
      var m := |events| - 1;
      !Outdated(Reached(start, events[..m]), events[m]) && NeverOutdated(start, events[..m])
  }

  /** The evidence is about the present endpoint and secret throughout a run, if and only if
    * no test ends in it with an endpoint or a secret that has changed since it began. */
  lemma {:induction false} EvidenceCurrentIff(start: Desk, events: seq<Event>)
    requires New(start)
    ensures AlwaysCurrent(start, events) <==> NeverOutdated(start, events)
  {
    if events != [] {
      var m := |events| - 1;
      EvidenceCurrentIff(start, events[..m]);
      if CurrentAfter(start, events[..m]) {
        NextCurrentIff(Reached(start, events[..m]), events[m], ChecksSinceChange(start, events[..m]));
      }
    }
  }

  /** A test begins, the secret is rotated, and the test ends well. */
  const RACE := [Begin, Rotate(Some("new")), Finish(0, Probe.Reached)]
  const NEW_TARGET := Desk(Target(Url("https://x", true), Some("old"), Generic, None, true, NO_EVIDENCE), [], 0)

  lemma {:induction false} BeforeFinish()
    ensures var s := Reached(NEW_TARGET, RACE[..2]);
      && s.target == NEW_TARGET.target.(secret := Some("new"))
      && s.tests == [Test(NEW_TARGET.target.url, Some("old"))] && s.clock == 0
    ensures ChecksSinceChange(NEW_TARGET, RACE[..2]) == []
  {
    assert RACE[..1][..0] == [] && RACE[..2][..1] == RACE[..1];
    assert Reached(NEW_TARGET, []) == NEW_TARGET;
    assert Reached(NEW_TARGET, RACE[..1]) == Next(NEW_TARGET, Begin);
  }

  /** The target of that run reads ready although nothing was ever sent with its secret. */
  lemma {:induction false} RotationDuringTest(stale: int, authErrors: set<string>)
    ensures New(NEW_TARGET)
    ensures var s, checks := Reached(NEW_TARGET, RACE), ChecksSinceChange(NEW_TARGET, RACE);
      && ReadinessOf(s.target, s.clock, stale, authErrors) == Ready
      && forall k | 0 <= k < |checks| :: checks[k].secret != s.target.secret
  {
    BeforeFinish();
    assert Reached(NEW_TARGET, RACE) == Next(Reached(NEW_TARGET, RACE[..2]), Finish(0, Probe.Reached));
    assert ChecksSinceChange(NEW_TARGET, RACE) == [] + [Check(0, NEW_TARGET.target.url, Some("old"), TestSend, None)];
  }
}
