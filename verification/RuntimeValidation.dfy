/** The approved runtime checks of a generated project: commands run in order, a failed one is
  * repaired and run again at most once, and a startup probe likewise. */
module RuntimeValidation {
  import opened Wrappers

  /** A check: a command, with the safety gate's view of it, or the startup probe. */
  datatype Action = Command(line: string, safe: bool) | StartupProbe

  /** The outside world, call by call: whether a run of a command succeeds, whether the failure
    * points to a file that can be repaired, whether its content is generated and written, and
    * how a probe ends. */
  datatype Probe = NotAttempted | Healthy | Unhealthy

  datatype Env = Env(
    runs: nat -> bool, target: nat -> bool, generates: nat -> bool, writes: nat -> bool, probes: nat -> Probe,
    probeTarget: nat -> bool)

  /** What happened, in order: a run of a command, or a file rewritten on behalf of an action. */
  datatype Item = Ran(action: nat, line: string, ok: bool) | Rewrote(action: nat)

  datatype Evidence = Evidence(log: seq<Item>, ran: nat, generated: nat, written: nat, probed: nat, completed: bool)

  const START := Evidence([], 0, 0, 0, 0, true)

  // ---- one action ----

  function Run(env: Env, e: Evidence, a: nat, line: string): Evidence {
    e.(log := e.log + [Ran(a, line, env.runs(e.ran))], ran := e.ran + 1)
  }

  function Fail(e: Evidence): Evidence { e.(completed := false) }

  /** A repair of the file that a failure points to; it fails when there is no such file, when
    * the generator raises, or when the write fails. */
  function Repair(env: Env, e: Evidence, a: nat, target: bool): Evidence {
    if !target then Fail(e)
    else if !env.generates(e.generated) then Fail(e.(generated := e.generated + 1))
    else if !env.writes(e.written) then Fail(e.(generated := e.generated + 1, written := e.written + 1))
    else e.(generated := e.generated + 1, written := e.written + 1, log := e.log + [Rewrote(a)])
  }

  function RunCommand(env: Env, e: Evidence, a: nat, line: string): Evidence {
    var first := Run(env, e, a, line);
    if env.runs(e.ran) then first
    else
      var repaired := Repair(env, first, a, env.target(e.ran));
      if !repaired.completed then repaired
      else
        var second := Run(env, repaired, a, line);
        if env.runs(repaired.ran) then second else Fail(second)
  }

  function RunProbe(env: Env, e: Evidence, a: nat): Evidence {
    var first := e.(probed := e.probed + 1);
    if env.probes(e.probed) != Unhealthy then first
    else
      var repaired := Repair(env, first, a, env.probeTarget(e.probed));
      if !repaired.completed then repaired
      else
        var second := repaired.(probed := repaired.probed + 1);
        if env.probes(repaired.probed) == Unhealthy then Fail(second) else second
  }

  function RunAction(env: Env, e: Evidence, a: nat, action: Action): Evidence {
    match action
    case StartupProbe => RunProbe(env, e, a)
    case Command(line, safe) => if safe then RunCommand(env, e, a, line) else Fail(e)
  }

  /** The evidence after the first `n` actions; a failure ends the sequence. */
  function Validated(env: Env, actions: seq<Action>, n: nat): Evidence
    requires n <= |actions|
  {
    if n == 0 then START
    else
      var prior := Validated(env, actions, n - 1);
      if prior.completed then RunAction(env, prior, n - 1, actions[n - 1]) else prior
  }

  class RuntimeValidator {
    const env: Env
    var evidence: Evidence

    constructor (env: Env)
      ensures this.env == env && evidence == START
    {
      this.env := env;
      evidence := Evidence([], 0, 0, 0, 0, true);
    }

    method RepairFile(a: nat, target: bool) returns (ok: bool)
      requires evidence.completed
      modifies this
      ensures evidence == Repair(env, old(evidence), a, target) && ok == evidence.completed
    {
      ok := false;
      if target {
        var generated := env.generates(evidence.generated);
        evidence := evidence.(generated := evidence.generated + 1);
        if generated {
          ok := env.writes(evidence.written);
          evidence := evidence.(written := evidence.written + 1);
        }
      }
      if ok {
        evidence := evidence.(log := evidence.log + [Rewrote(a)]);
      } else {
        evidence := evidence.(completed := false);
      }
    }

    /** The attempts at one command: the first, and one more after a repair. */
    method ExecuteCommand(a: nat, line: string)
      requires evidence.completed
      modifies this
      ensures evidence == RunCommand(env, old(evidence), a, line)
    {
      var attempt := 0;
      while attempt < 2
        invariant 0 <= attempt <= 1 && evidence.completed
        invariant attempt == 0 ==> evidence == old(evidence)
        invariant attempt == 1 ==>
          && !env.runs(old(evidence).ran)
          && evidence == Repair(env, Run(env, old(evidence), a, line), a, env.target(old(evidence).ran))
        decreases 2 - attempt
      {
        var ok, target := env.runs(evidence.ran), env.target(evidence.ran);
        evidence := evidence.(log := evidence.log + [Ran(a, line, ok)], ran := evidence.ran + 1);
        if ok {
          return;
        }
        if attempt == 1 {
          evidence := evidence.(completed := false);
          return;
        }
        var repaired := RepairFile(a, target);
        if !repaired {
          return;
        }
        attempt := attempt + 1;
      }
    }

    method RunStartupStep(a: nat)
      requires evidence.completed
      modifies this
      ensures evidence == RunProbe(env, old(evidence), a)
    {
      var probe, target := env.probes(evidence.probed), env.probeTarget(evidence.probed);
      evidence := evidence.(probed := evidence.probed + 1);
      if probe != Unhealthy {
        return;
      }
      var repaired := RepairFile(a, target);
      if !repaired {
        return;
      }
      probe := env.probes(evidence.probed);
      evidence := evidence.(probed := evidence.probed + 1);
      if probe == Unhealthy {
        evidence := evidence.(completed := false);
      }
    }

    method ExecuteRuntimeValidation(actions: seq<Action>)
      requires evidence == START
      modifies this
      ensures evidence == Validated(env, actions, |actions|)
    {
      var n := 0;
      while n < |actions|
        invariant 0 <= n <= |actions|
        invariant evidence.completed && evidence == Validated(env, actions, n)
      {
        match actions[n] {
          case StartupProbe =>
            RunStartupStep(n);
          case Command(line, safe) =>
            if safe {
              ExecuteCommand(n, line);
            } else {
              evidence := evidence.(completed := false);
            }
        }
        if !evidence.completed {
          StaysFailed(env, actions, n + 1, |actions|);
          return;
        }
        n := n + 1;
      }
    }
  }

  lemma {:induction false} StaysFailed(env: Env, actions: seq<Action>, m: nat, n: nat)
    requires m <= n <= |actions| && !Validated(env, actions, m).completed
    ensures Validated(env, actions, n) == Validated(env, actions, m)
  {
    if m < n {
      StaysFailed(env, actions, m, n - 1);
    }
  }

  // ---- what a completed validation is evidence of ----

  /** How often an action's command was run. */
  function RunsOf(log: seq<Item>, a: nat): nat {
    if log == [] then 0
    else
      var last := log[|log| - 1];
      RunsOf(log[..|log| - 1], a) + if last.Ran? && last.action == a then 1 else 0
  }

  /** How the last run of a command line came out, if it was run. */
  function LastRun(log: seq<Item>, line: string): Option<bool> {
    if log == [] then None
    else
      var last := log[|log| - 1];
      if last.Ran? && last.line == line then Some(last.ok) else LastRun(log[..|log| - 1], line)
  }

  lemma {:induction false} Appended(log: seq<Item>, item: Item, a: nat, line: string)
    ensures RunsOf(log + [item], a) == RunsOf(log, a) + if item.Ran? && item.action == a then 1 else 0
    ensures LastRun(log + [item], line) == if item.Ran? && item.line == line then Some(item.ok) else LastRun(log, line)
  {
    assert (log + [item])[..|log|] == log;
  }

  /** The log an action leaves: what was there, and then some items of its own. */
  predicate Adds(e: Evidence, e': Evidence, a: nat) {
    && e.log <= e'.log
    && forall k | |e.log| <= k < |e'.log| :: e'.log[k].action == a
  }

  lemma {:induction false} ActionAdds(env: Env, e: Evidence, a: nat, action: Action)
    requires e.completed
    ensures var e' := RunAction(env, e, a, action);
      && Adds(e, e', a) && |e'.log| <= |e.log| + 3
      && (forall k | |e.log| <= k < |e'.log| && e'.log[k].Ran? :: action.Command? && e'.log[k].line == action.line)
  {
  }

  lemma {:induction false} RunAppends(env: Env, e: Evidence, a: nat, line: string, b: nat, other: string)
    ensures RunsOf(Run(env, e, a, line).log, b) == RunsOf(e.log, b) + if a == b then 1 else 0
    ensures LastRun(Run(env, e, a, line).log, other) == if line == other then Some(env.runs(e.ran)) else LastRun(e.log, other)
  {
    Appended(e.log, Ran(a, line, env.runs(e.ran)), b, other);
  }

  lemma {:induction false} RepairRunsNothing(env: Env, e: Evidence, a: nat, target: bool, b: nat, line: string)
    ensures RunsOf(Repair(env, e, a, target).log, b) == RunsOf(e.log, b)
    ensures LastRun(Repair(env, e, a, target).log, line) == LastRun(e.log, line)
  {
    Appended(e.log, Rewrote(a), b, line);
  }

  lemma {:induction false} ActionRunsTwice(env: Env, e: Evidence, a: nat, action: Action, b: nat)
    requires e.completed
    ensures RunsOf(RunAction(env, e, a, action).log, b) <= RunsOf(e.log, b) + if a == b then 2 else 0
  {
    if action.Command? {
      var first := Run(env, e, a, action.line);
      var repaired := Repair(env, first, a, env.target(e.ran));
      RunAppends(env, e, a, action.line, b, "");
      RepairRunsNothing(env, first, a, env.target(e.ran), b, "");
      RunAppends(env, repaired, a, action.line, b, "");
    } else {
      RepairRunsNothing(env, e.(probed := e.probed + 1), a, env.probeTarget(e.probed), b, "");
    }
  }

  lemma {:induction false} NextRunsTwice(env: Env, actions: seq<Action>, n: nat, a: nat)
    requires n < |actions|
    ensures RunsOf(Validated(env, actions, n + 1).log, a) <=
      RunsOf(Validated(env, actions, n).log, a) + if a == n then 2 else 0
  {
    var e := Validated(env, actions, n);
    if e.completed {
      ActionRunsTwice(env, e, n, actions[n], a);
    }
  }

  /** No command is run more than twice for one action. */
  lemma {:induction false} AtMostTwoRuns(env: Env, actions: seq<Action>, n: nat, a: nat)
    requires n <= |actions|
    ensures RunsOf(Validated(env, actions, n).log, a) <= if a < n then 2 else 0
  {
    if n > 0 {
      AtMostTwoRuns(env, actions, n - 1, a);
      NextRunsTwice(env, actions, n - 1, a);
    }
  }

  lemma {:induction false} CommandRan(env: Env, e: Evidence, a: nat, action: Action, line: string)
    requires e.completed && RunAction(env, e, a, action).completed
    ensures LastRun(RunAction(env, e, a, action).log, line) ==
      if action.Command? && action.line == line then Some(true) else LastRun(e.log, line)
  {
    if action.Command? {
      var first := Run(env, e, a, action.line);
      var repaired := Repair(env, first, a, env.target(e.ran));
      RunAppends(env, e, a, action.line, 0, line);
      RepairRunsNothing(env, first, a, env.target(e.ran), 0, line);
      RunAppends(env, repaired, a, action.line, 0, line);
    } else {
      RepairRunsNothing(env, e.(probed := e.probed + 1), a, env.probeTarget(e.probed), 0, line);
    }
  }

  lemma {:induction false} NextRan(env: Env, actions: seq<Action>, n: nat, line: string)
    requires n < |actions| && Validated(env, actions, n + 1).completed
    ensures Validated(env, actions, n).completed
    ensures LastRun(Validated(env, actions, n + 1).log, line) ==
      if actions[n].Command? && actions[n].line == line then Some(true)
      else LastRun(Validated(env, actions, n).log, line)
  {
    CommandRan(env, Validated(env, actions, n), n, actions[n], line);
  }

  /** A validation that completes ran every command, and the last run of each succeeded. */
  lemma {:induction false} CompletedMeansRan(env: Env, actions: seq<Action>, n: nat, a: nat)
    requires a < n <= |actions| && Validated(env, actions, n).completed && actions[a].Command?
    ensures LastRun(Validated(env, actions, n).log, actions[a].line) == Some(true)
  {
    NextRan(env, actions, n - 1, actions[a].line);
    if a < n - 1 {
      CompletedMeansRan(env, actions, n - 1, a);
    }
  }

  // ---- whether the evidence is about the final files ----

  predicate Sorted(log: seq<Item>, n: nat) {
    && (forall k | 0 <= k < |log| :: log[k].action < n)
    && forall j, k | 0 <= j < k < |log| :: log[j].action <= log[k].action
  }

  lemma {:induction false} AddingKeepsSorted(e: Evidence, e': Evidence, n: nat)
    requires Sorted(e.log, n) && Adds(e, e', n)
    ensures Sorted(e'.log, n + 1)
  {
    assert e'.log[..|e.log|] == e.log;
  }

  lemma {:induction false} NextAdds(env: Env, actions: seq<Action>, n: nat)
    requires n < |actions|
    ensures Adds(Validated(env, actions, n), Validated(env, actions, n + 1), n)
  {
    var e := Validated(env, actions, n);
    if e.completed {
      ActionAdds(env, e, n, actions[n]);
    }
  }

  lemma {:induction false} LogIsSorted(env: Env, actions: seq<Action>, n: nat)
    requires n <= |actions|
    ensures Sorted(Validated(env, actions, n).log, n)
  {
    if n > 0 {
      LogIsSorted(env, actions, n - 1);
      NextAdds(env, actions, n - 1);
      AddingKeepsSorted(Validated(env, actions, n - 1), Validated(env, actions, n), n - 1);
    }
  }

  /** The last thing that was done for action `a` is a run that succeeded, at position `k`. */
  predicate LastOfAction(log: seq<Item>, a: nat, k: nat) {
    && k < |log| && log[k].Ran? && log[k].action == a && log[k].ok
    && forall j | k < j < |log| :: log[j].action != a
  }

  lemma {:induction false} CommandEndsWell(env: Env, actions: seq<Action>, n: nat, a: nat) returns (k: nat)
    requires a < n <= |actions| && Validated(env, actions, n).completed && actions[a].Command?
    ensures LastOfAction(Validated(env, actions, n).log, a, k)
  {
    var prior := Validated(env, actions, n - 1);
    ActionAdds(env, prior, n - 1, actions[n - 1]);
    if a < n - 1 {
      k := CommandEndsWell(env, actions, n - 1, a);
    } else {
      k := |Validated(env, actions, n).log| - 1;
    }
  }

  /** The command of action `a` last succeeded on the files as they are in the end. */
  predicate OnFinalFiles(log: seq<Item>, a: nat) {
    exists k :: 0 <= k < |log| && LastOfAction(log, a, k) && forall j | k < j < |log| :: !log[j].Rewrote?
  }

  lemma {:induction false} RewriteDecidesFinal(log: seq<Item>, n: nat, a: nat, k: nat)
    requires Sorted(log, n) && LastOfAction(log, a, k)
    ensures OnFinalFiles(log, a) <==> !exists b :: b > a && Rewrote(b) in log
  {
    if exists b :: b > a && Rewrote(b) in log {
      var b :| b > a && Rewrote(b) in log;
      var j :| 0 <= j < |log| && log[j] == Rewrote(b);
      forall l | 0 <= l < |log| && LastOfAction(log, a, l) ensures exists i :: l < i < |log| && log[i].Rewrote? {
        assert log[l].action < log[j].action;
      }
    } else {
      forall j | k < j < |log| ensures !log[j].Rewrote? {
        assert log[j].action > a;
        assert log[j] in log;
      }
    }
  }

  // ---- what the world decides ----

  /** How many command runs the first `n` actions take, if none of them fails for good. */
  function RunsBefore(env: Env, actions: seq<Action>, n: nat): nat
    requires n <= |actions|
  {
    if n == 0 then 0
    else
      var prior := RunsBefore(env, actions, n - 1);
      if actions[n - 1].StartupProbe? then prior else prior + if env.runs(prior) then 1 else 2
  }

  function ProbesBefore(env: Env, actions: seq<Action>, n: nat): nat
    requires n <= |actions|
  {
    if n == 0 then 0
    else
      var prior := ProbesBefore(env, actions, n - 1);
      if actions[n - 1].Command? then prior else prior + if env.probes(prior) == Unhealthy then 2 else 1
  }

  /** The first run of the command fails, or the first probe finds the application unhealthy. */
  predicate FirstFails(env: Env, actions: seq<Action>, b: nat)
    requires b < |actions|
  {
    match actions[b]
    case Command(_, _) => !env.runs(RunsBefore(env, actions, b))
    case StartupProbe => env.probes(ProbesBefore(env, actions, b)) == Unhealthy
  }

  function RepairsBefore(env: Env, actions: seq<Action>, n: nat): nat
    requires n <= |actions|
  {
    if n == 0 then 0 else RepairsBefore(env, actions, n - 1) + if FirstFails(env, actions, n - 1) then 1 else 0
  }

  /** A failure is mended when it points to a file, the file is generated and written, and the
    * second attempt succeeds. */
  predicate Mended(env: Env, actions: seq<Action>, b: nat)
    requires b < |actions|
  {
    var repairs := RepairsBefore(env, actions, b);
    && env.generates(repairs) && env.writes(repairs)
    && match actions[b]
       case Command(_, _) =>
         var r := RunsBefore(env, actions, b);
         env.target(r) && env.runs(r + 1)
       case StartupProbe =>
         var p := ProbesBefore(env, actions, b);
         env.probeTarget(p) && env.probes(p + 1) != Unhealthy
  }

  predicate Passes(env: Env, actions: seq<Action>, b: nat)
    requires b < |actions|
  {
    (actions[b].Command? ==> actions[b].safe) && (FirstFails(env, actions, b) ==> Mended(env, actions, b))
  }

  /** The calls made so far, in a validation that has not failed. */
  predicate CallsAre(env: Env, actions: seq<Action>, n: nat, e: Evidence)
    requires n <= |actions|
  {
    && e.ran == RunsBefore(env, actions, n) && e.probed == ProbesBefore(env, actions, n)
    && e.generated == e.written == RepairsBefore(env, actions, n)
  }

  lemma {:induction false} ActionPasses(env: Env, actions: seq<Action>, b: nat, e: Evidence)
    requires b < |actions| && e.completed && CallsAre(env, actions, b, e)
    ensures var e' := RunAction(env, e, b, actions[b]);
      && (e'.completed <==> Passes(env, actions, b))
      && (e'.completed ==>
        CallsAre(env, actions, b + 1, e') && (Rewrote(b) in e'.log[|e.log|..] <==> FirstFails(env, actions, b)))
  {
    var e' := RunAction(env, e, b, actions[b]);
    if e'.completed && FirstFails(env, actions, b) {
      var k := if actions[b].Command? then 1 else 0;
      assert e'.log[|e.log|..][k] == Rewrote(b);
    }
  }

  /** A validation completes exactly when every action is allowed to run and passes, at once or
    * after one repair. */
  lemma {:induction false} CompletedIff(env: Env, actions: seq<Action>, n: nat)
    requires n <= |actions|
    ensures Validated(env, actions, n).completed <==> forall b | 0 <= b < n :: Passes(env, actions, b)
    ensures Validated(env, actions, n).completed ==> CallsAre(env, actions, n, Validated(env, actions, n))
  {
    if n > 0 {
      CompletedIff(env, actions, n - 1);
      if Validated(env, actions, n - 1).completed {
        ActionPasses(env, actions, n - 1, Validated(env, actions, n - 1));
      }
    }
  }

  /** In a validation that completes, a file is rewritten exactly for the actions that fail at first. */
  lemma {:induction false} RewrittenIff(env: Env, actions: seq<Action>, n: nat, b: nat)
    requires n <= |actions| && Validated(env, actions, n).completed
    ensures Rewrote(b) in Validated(env, actions, n).log <==> b < n && FirstFails(env, actions, b)
  {
    if n > 0 {
      var prior, e := Validated(env, actions, n - 1), Validated(env, actions, n);
      RewrittenIff(env, actions, n - 1, b);
      CompletedIff(env, actions, n - 1);
      ActionPasses(env, actions, n - 1, prior);
      NextAdds(env, actions, n - 1);
      RewroteInPart(prior, e, n - 1, b);
    }
  }

  lemma {:induction false} RewroteInPart(e: Evidence, e': Evidence, a: nat, b: nat)
    requires Adds(e, e', a)
    ensures Rewrote(b) in e'.log <==> Rewrote(b) in e.log || (a == b && Rewrote(a) in e'.log[|e.log|..])
  {
    assert e'.log == e.log + e'.log[|e.log|..];
  }

  /** Of a completed validation, a command's last success is about the final files if and only
    * if every later action passes at its first run or probe: a repair runs again only the check
    * that it was made for. */
  lemma {:induction false} FinalFilesIff(env: Env, actions: seq<Action>, a: nat)
    requires a < |actions| && actions[a].Command? && Validated(env, actions, |actions|).completed
    ensures OnFinalFiles(Validated(env, actions, |actions|).log, a) <==>
      forall b | a < b < |actions| :: !FirstFails(env, actions, b)
  {
    var log := Validated(env, actions, |actions|).log;
    LogIsSorted(env, actions, |actions|);
    var k := CommandEndsWell(env, actions, |actions|, a);
    RewriteDecidesFinal(log, |actions|, a, k);
    forall b: nat ensures Rewrote(b) in log <==> b < |actions| && FirstFails(env, actions, b) {
      RewrittenIff(env, actions, |actions|, b);
    }
  }

  /** The second command fails once and is repaired; the first is not run again. */
  const REPAIRED_LATER := Env(k => k != 1, k => true, k => true, k => true, k => Healthy, k => true)
  const TWO_COMMANDS := [Command("compile", true), Command("import", true)]

  lemma {:induction false} CompletedOnOldFiles()
    ensures var e := Validated(REPAIRED_LATER, TWO_COMMANDS, 2);
      e.completed && !OnFinalFiles(e.log, 0)
  {
    assert RunsBefore(REPAIRED_LATER, TWO_COMMANDS, 0) == 0;
    assert RunsBefore(REPAIRED_LATER, TWO_COMMANDS, 1) == 1;
    CompletedIff(REPAIRED_LATER, TWO_COMMANDS, 2);
    FinalFilesIff(REPAIRED_LATER, TWO_COMMANDS, 0);
    assert FirstFails(REPAIRED_LATER, TWO_COMMANDS, 1);
  }
}
