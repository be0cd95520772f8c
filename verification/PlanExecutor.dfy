/** The step loop that executes an approved plan: every file is generated, written, read back
  * and validated, and repaired at most once; a last step validates all of them again. */
module PlanExecutor {
  import opened Wrappers

  datatype StepKind = WriteFile | Validate | OtherTool

  /** A step. `flat` is its payload as lower-case text; `allowed` is the tool registry's policy. */
  datatype Step = Step(kind: StepKind, path: string, flat: string, allowed: bool)

  datatype StepStatus = Pending | Executing | Completed | Failed | Repaired

  predicate Done(status: StepStatus) {
    status == Completed || status == Repaired
  }

  /** The step that a run stopped at. */
  predicate StoppedAt(statuses: seq<StepStatus>, n: nat) {
    && n < |statuses| && statuses[n] == Failed
    && (forall i | 0 <= i < n :: Done(statuses[i]))
    && (forall i | n < i < |statuses| :: statuses[i] == Pending)
  }

  predicate Stopped(statuses: seq<StepStatus>) {
    exists n :: 0 <= n < |statuses| && StoppedAt(statuses, n)
  }

  datatype ManifestEntry = ManifestEntry(path: string, flat: string, allowed: bool)

  // ---- plan construction ----

  /** A plan as it is built: one write step a file, and then one validation. */
  predicate Built(steps: seq<Step>) {
    && |steps| > 0
    && steps[|steps| - 1].kind == Validate
    && forall i | 0 <= i < |steps| - 1 :: steps[i].kind == WriteFile
  }

  method BuildExecutablePlan(projectDir: string, manifest: seq<ManifestEntry>, listFlat: string, listAllowed: bool)
    returns (steps: seq<Step>)
    ensures Built(steps) && |steps| == |manifest| + 1
    ensures forall i | 0 <= i < |manifest| :: steps[i].path == projectDir + "/" + manifest[i].path
    ensures WritePaths(steps) == seq(|manifest|, i requires 0 <= i < |manifest| => projectDir + "/" + manifest[i].path)
  {
    steps := [];
    for i := 0 to |manifest|
      invariant |steps| == i
      invariant forall k | 0 <= k < i ::
        steps[k].kind == WriteFile && steps[k].path == projectDir + "/" + manifest[k].path
    {
      steps := steps + [Step(WriteFile, projectDir + "/" + manifest[i].path, manifest[i].flat, manifest[i].allowed)];
    }
    AllWrites(steps);
    WritePathsAppend(steps, Step(Validate, projectDir, listFlat, listAllowed));
    steps := steps + [Step(Validate, projectDir, listFlat, listAllowed)];
  }

  /** The paths that a plan writes, in order. */
  function WritePaths(steps: seq<Step>): seq<string> {
    if steps == [] then []
    else
      var prior, last := WritePaths(steps[..|steps| - 1]), steps[|steps| - 1];
      if last.kind == WriteFile then prior + [last.path] else prior
  }

  lemma {:induction false} WritePathsAppend(steps: seq<Step>, step: Step)
    ensures WritePaths(steps + [step]) == if step.kind == WriteFile then WritePaths(steps) + [step.path] else WritePaths(steps)
  {
    assert (steps + [step])[..|steps|] == steps;
  }

  lemma {:induction false} AllWrites(steps: seq<Step>)
    requires forall i | 0 <= i < |steps| :: steps[i].kind == WriteFile
    ensures |WritePaths(steps)| == |steps| && forall i | 0 <= i < |steps| :: WritePaths(steps)[i] == steps[i].path
  {
    if steps != [] {
      AllWrites(steps[..|steps| - 1]);
    }
  }

  // ---- the safety gate ----

  predicate Contains(text: string, part: string) {
    part <= text || (text != [] && Contains(text[1..], part))
  }

  /** No blocked pattern anywhere in the payload, and no way up in the path. */
  predicate IsPayloadSafe(blocked: seq<string>, step: Step) {
    (forall k | 0 <= k < |blocked| :: !Contains(step.flat, blocked[k])) && !Contains(step.path, "..")
  }

  // ---- execution ----

  /** What the k-th write leaves: whether it reported success, and the content now at the path. */
  datatype Written = Written(ok: bool, content: Option<string>)

  /** Everything that is outside: the content generator (which may raise), the file tool, other
    * tools, which contents are well-formed for a path, and the blocked patterns. */
  datatype Env = Env(
    generate: nat -> Option<string>,
    write: (nat, string) -> Written,
    readable: nat -> bool,
    other: nat -> (bool, map<string, string>),
    wellFormed: (string, string) -> bool,
    blocked: seq<string>)

  predicate Gated(env: Env, step: Step) {
    step.allowed && IsPayloadSafe(env.blocked, step)
  }

  /** An execution in progress: the files, how often the outside was asked, and the report. */
  datatype Exec = Exec(
    fs: map<string, string>, generations: nat, writes: nat, validations: nat, calls: nat,
    statuses: seq<StepStatus>, files: seq<string>, repairs: seq<string>, missing: seq<string>, error: bool)

  /** The file is there, and its content is well-formed. */
  predicate Valid(env: Env, fs: map<string, string>, path: string) {
    path in fs && env.wellFormed(path, fs[path])
  }

  function ReadBack(env: Env, x: Exec, path: string): (Exec, bool) {
    (x.(validations := x.validations + 1), env.readable(x.validations) && Valid(env, x.fs, path))
  }

  datatype Try = Raised | Rejected | Accepted

  /** Generate, write and read back one file. */
  function AttemptOnce(env: Env, x: Exec, path: string): (r: (Exec, Try))
    ensures r.0.statuses == x.statuses
  {
    var content := env.generate(x.generations);
    var x1 := x.(generations := x.generations + 1);
    if content.None? then (x1, Raised)
    else
      var written := env.write(x.writes, content.value);
      var x2 := x1.(writes := x.writes + 1,
                    fs := if written.content.Some? then x.fs[path := written.content.value] else x.fs);
      if !written.ok then (x2, Rejected)
      else
        var (x3, ok) := ReadBack(env, x2, path);
        (x3, if ok then Accepted else Rejected)
  }

  /** One attempt, and a repair unless it was accepted or its generation raised. */
  function WriteOnce(env: Env, x: Exec, path: string, k: nat): (r: (Exec, bool))
    requires k < |x.statuses|
    ensures |r.0.statuses| == |x.statuses|
  {
    var (x1, first) := AttemptOnce(env, x, path);
    if first == Accepted then (x1.(files := x1.files + [path]), true)
    else if first == Raised then (x1, false)
    else
      var (x2, second) := AttemptOnce(env, x1, path);
      if second != Accepted then (x2, false)
      else (x2.(files := x2.files + [path], statuses := x2.statuses[k := Repaired], repairs := x2.repairs + [path]), true)
  }

  /** The paths are read back in order; `missing` collects those that do not pass. */
  function ValidateAll(env: Env, x: Exec, paths: seq<string>): (r: Exec)
    ensures r.statuses == x.statuses
  {
    if paths == [] then x.(missing := [])
    else
      var path := paths[|paths| - 1];
      var (prior, ok) := ReadBack(env, ValidateAll(env, x, paths[..|paths| - 1]), path);
      if ok then prior else prior.(missing := prior.missing + [path])
  }

  function RunGated(env: Env, x: Exec, steps: seq<Step>, n: nat): (r: (Exec, bool))
    requires n < |steps| == |x.statuses|
    ensures |r.0.statuses| == |x.statuses|
  {
    match steps[n].kind
    case WriteFile => WriteOnce(env, x, steps[n].path, n)
    case Validate =>
      var x1 := ValidateAll(env, x, WritePaths(steps));
      (x1, x1.missing == [])
    case OtherTool =>
      (x.(calls := x.calls + 1, fs := env.other(x.calls).1), env.other(x.calls).0)
  }

  function RunStep(env: Env, x: Exec, steps: seq<Step>, n: nat): (r: Exec)
    requires n < |steps| == |x.statuses|
    ensures |r.statuses| == |x.statuses|
  {
    if !Gated(env, steps[n]) then x.(statuses := x.statuses[n := Failed], error := true)
    else
      var (x1, ok) := RunGated(env, x.(statuses := x.statuses[n := Executing]), steps, n);
      if !ok then x1.(statuses := x1.statuses[n := Failed], error := true)
      else if x1.statuses[n] != Repaired then x1.(statuses := x1.statuses[n := Completed])
      else x1
  }

  /** The execution from step `n` on; an error ends it. */
  function Executed(env: Env, x: Exec, steps: seq<Step>, n: nat): (r: Exec)
    requires n <= |steps| == |x.statuses|
    ensures |r.statuses| == |x.statuses|
    decreases |steps| - n
  {
    if n == |steps| || x.error then x else Executed(env, RunStep(env, x, steps, n), steps, n + 1)
  }

  function Start(fs: map<string, string>, steps: seq<Step>): Exec {
    Exec(fs, 0, 0, 0, 0, seq(|steps|, i => Pending), [], [], [], false)
  }

  /** Completion takes evidence: no error, and at least one file written. */
  predicate Complete(x: Exec) {
    !x.error && x.files != []
  }

  class Executor {
    const env: Env
    var x: Exec

    constructor (env: Env, fs: map<string, string>, steps: seq<Step>)
      ensures this.env == env && x == Start(fs, steps)
    {
      this.env := env;
      x := Exec(fs, 0, 0, 0, 0, seq(|steps|, i => Pending), [], [], [], false);
    }

    method ValidateWrittenFile(path: string) returns (ok: bool)
      modifies this
      ensures (x, ok) == ReadBack(env, old(x), path)
    {
      var readable := env.readable(x.validations);
      x := x.(validations := x.validations + 1);
      ok := readable && path in x.fs && env.wellFormed(path, x.fs[path]);
    }

    method Attempt(path: string) returns (outcome: Try)
      modifies this
      ensures (x, outcome) == AttemptOnce(env, old(x), path)
    {
      var content := env.generate(x.generations);
      x := x.(generations := x.generations + 1);
      if content.None? {
        return Raised;
      }
      var written := env.write(x.writes, content.value);
      x := x.(writes := x.writes + 1);
      if written.content.Some? {
        x := x.(fs := x.fs[path := written.content.value]);
      }
      outcome := Rejected;
      if written.ok {
        var valid := ValidateWrittenFile(path);
        if valid {
          outcome := Accepted;
        }
      }
    }

    method RunWriteStep(path: string, k: nat) returns (ok: bool)
      requires k < |x.statuses|
      modifies this
      ensures (x, ok) == WriteOnce(env, old(x), path, k)
    {
      var attempt := 0;
      while attempt < 2
        invariant 0 <= attempt <= 2
        invariant attempt == 0 ==> x == old(x)
        invariant attempt >= 1 ==> AttemptOnce(env, old(x), path).1 == Rejected
        invariant attempt == 1 ==> x == AttemptOnce(env, old(x), path).0
        invariant attempt == 2 ==> (x, Rejected) == AttemptOnce(env, AttemptOnce(env, old(x), path).0, path)
      {
        var outcome := Attempt(path);
        if outcome == Raised {
          return false;
        }
        if outcome == Accepted {
          x := x.(files := x.files + [path]);
          if attempt > 0 {
            x := x.(statuses := x.statuses[k := Repaired], repairs := x.repairs + [path]);
          }
          return true;
        }
        attempt := attempt + 1;
      }
      ok := false;
    }

    method RunValidateStep(steps: seq<Step>) returns (ok: bool)
      modifies this
      ensures x == ValidateAll(env, old(x), WritePaths(steps)) && ok == (x.missing == [])
    {
      var expected := WritePaths(steps);
      ghost var before := x;
      x := x.(missing := []);
      for i := 0 to |expected|
        invariant x == ValidateAll(env, before, expected[..i])
      {
        assert expected[..i + 1][..i] == expected[..i];
        var valid := ValidateWrittenFile(expected[i]);
        if !valid {
          x := x.(missing := x.missing + [expected[i]]);
        }
      }
      assert expected[..|expected|] == expected;
      ok := x.missing == [];
    }

    /** The step loop; a failing step ends it. */
    method ExecutePlan(steps: seq<Step>) returns (completed: bool)
      requires |x.statuses| == |steps| && !x.error
      modifies this
      ensures x == Executed(env, old(x), steps, 0) && completed == Complete(x)
    {
      var n := 0;
      while n < |steps| && !x.error
        invariant 0 <= n <= |steps| == |x.statuses|
        invariant Executed(env, x, steps, n) == Executed(env, old(x), steps, 0)
      {
        Execute(steps, n);
        n := n + 1;
      }
      completed := !x.error && x.files != [];
    }

    /** The safety gate, the step, and its status. */
    method Execute(steps: seq<Step>, n: nat)
      requires n < |steps| == |x.statuses|
      modifies this
      ensures x == RunStep(env, old(x), steps, n)
    {
      if !Gated(env, steps[n]) {
        x := x.(statuses := x.statuses[n := Failed], error := true);
        return;
      }
      x := x.(statuses := x.statuses[n := Executing]);
      var ok;
      match steps[n].kind {
        case WriteFile =>
          ok := RunWriteStep(steps[n].path, n);
        case Validate =>
          ok := RunValidateStep(steps);
        case OtherTool =>
          var (success, left) := env.other(x.calls);
          x := x.(calls := x.calls + 1, fs := left);
          ok := success;
      }
      if !ok {
        x := x.(statuses := x.statuses[n := Failed], error := true);
      } else if x.statuses[n] != Repaired {
        x := x.(statuses := x.statuses[n := Completed]);
      }
    }
  }

  // ---- what the gate lets through ----

  predicate OccursAt(text: string, part: string, i: nat) {
    i + |part| <= |text| && text[i..i + |part|] == part
  }

  /** The part is found in the text at some position. */
  predicate Occurs(text: string, part: string) {
    exists i :: 0 <= i <= |text| && OccursAt(text, part, i)
  }

  lemma {:induction false} OccursInRest(text: string, part: string, i: nat)
    requires text != []
    ensures OccursAt(text[1..], part, i) <==> OccursAt(text, part, i + 1)
  {
    if i + 1 + |part| <= |text| {
      assert text[1..][i..i + |part|] == text[i + 1..i + 1 + |part|];
    }
  }

  lemma {:induction false} ContainsIff(text: string, part: string)
    ensures Contains(text, part) <==> Occurs(text, part)
  {
    assert part <= text <==> OccursAt(text, part, 0);
    if !(part <= text) && text != [] {
      ContainsIff(text[1..], part);
      if i :| 0 <= i <= |text[1..]| && OccursAt(text[1..], part, i) {
        OccursInRest(text, part, i);
        assert OccursAt(text, part, i + 1);
      }
      if i :| 0 <= i <= |text| && OccursAt(text, part, i) {
        OccursInRest(text, part, i - 1);
        assert OccursAt(text[1..], part, i - 1);
      }
    }
  }

  /** Two dots in a row. */
  predicate Climbs(path: string) {
    exists i :: 0 < i < |path| && path[i - 1] == '.' && path[i] == '.'
  }

  lemma {:induction false} ClimbsIff(path: string)
    ensures Climbs(path) <==> Occurs(path, "..")
  {
    if Climbs(path) {
      var i :| 0 < i < |path| && path[i - 1] == '.' && path[i] == '.';
      assert path[i - 1..i + 1] == [path[i - 1], path[i]];
      assert OccursAt(path, "..", i - 1);
    }
    if Occurs(path, "..") {
      var i :| 0 <= i <= |path| && OccursAt(path, "..", i);
      assert path[i..i + 2][0] == path[i] && path[i..i + 2][1] == path[i + 1];
    }
  }

  /** The registry allows the step, no blocked text occurs in its payload, and its path has no
    * two dots in a row. */
  predicate MayRun(env: Env, step: Step) {
    && step.allowed && !Climbs(step.path)
    && forall k | 0 <= k < |env.blocked| :: !Occurs(step.flat, env.blocked[k])
  }

  lemma {:induction false} GateIff(env: Env, step: Step)
    ensures Gated(env, step) <==> MayRun(env, step)
  {
    ContainsIff(step.path, "..");
    ClimbsIff(step.path);
    forall k | 0 <= k < |env.blocked| ensures Contains(step.flat, env.blocked[k]) <==> Occurs(step.flat, env.blocked[k]) {
      ContainsIff(step.flat, env.blocked[k]);
    }
  }

  /** A step that may not run fails at the gate: nothing is generated, written or called. */
  lemma {:induction false} GateStops(env: Env, x: Exec, steps: seq<Step>, n: nat)
    requires n < |steps| == |x.statuses| && !MayRun(env, steps[n])
    ensures RunStep(env, x, steps, n) == x.(statuses := x.statuses[n := Failed], error := true)
  {
    GateIff(env, steps[n]);
  }

  // ---- what one step does ----

  /** Path `i` can be read back in its turn, and is valid. */
  predicate ReadsBack(env: Env, x: Exec, paths: seq<string>, i: nat)
    requires i < |paths|
  {
    env.readable(x.validations + i) && Valid(env, x.fs, paths[i])
  }

  /** The validation finds nothing missing exactly when every planned file can be read back, in
    * order, and is valid. */
  lemma {:induction false} NothingMissingIff(env: Env, x: Exec, paths: seq<string>)
    ensures var r := ValidateAll(env, x, paths);
      && r.validations == x.validations + |paths|
      && (r.missing == [] <==> forall i | 0 <= i < |paths| :: ReadsBack(env, x, paths, i))
  {
    if paths != [] {
      var n := |paths| - 1;
      NothingMissingIff(env, x, paths[..n]);
      ValidationTells(env, x, paths[..n]);
      assert ReadBack(env, ValidateAll(env, x, paths[..n]), paths[n]).1 == ReadsBack(env, x, paths, n);
      forall i | 0 <= i < n ensures ReadsBack(env, x, paths[..n], i) == ReadsBack(env, x, paths, i) {
        assert paths[..n][i] == paths[i];
      }
      assert ValidateAll(env, x, paths[..n]).missing == [] <==> forall i | 0 <= i < n :: ReadsBack(env, x, paths, i);
    }
  }

  lemma {:induction false} ValidationTells(env: Env, x: Exec, paths: seq<string>)
    ensures var r := ValidateAll(env, x, paths);
      && r == x.(validations := r.validations, missing := r.missing)
      && (r.missing == [] ==> forall p | p in paths :: Valid(env, x.fs, p))
      && (forall p | p in paths && !Valid(env, x.fs, p) :: p in r.missing)
      && (forall p | p in r.missing :: p in paths)
  {
    if paths != [] {
      ValidationTells(env, x, paths[..|paths| - 1]);
      assert paths == paths[..|paths| - 1] + [paths[|paths| - 1]];
    }
  }

  /** The missing files are named in the plan's order: what the first paths miss comes first. */
  lemma {:induction false} MissingInPlanOrder(env: Env, x: Exec, paths: seq<string>, m: nat)
    requires m <= |paths|
    ensures ValidateAll(env, x, paths[..m]).missing <= ValidateAll(env, x, paths).missing
  {
    if m == |paths| {
      assert paths[..m] == paths;
    } else {
      var n := |paths| - 1;
      assert paths[..n][..m] == paths[..m];
      MissingInPlanOrder(env, x, paths[..n], m);
    }
  }

  /** One attempt generates once and writes what was generated, if anything, to its file and no
    * other. It is accepted exactly when the write reports success and the file can be read back
    * and is valid, and it raises exactly when nothing was generated. */
  lemma {:induction false} AttemptTells(env: Env, x: Exec, path: string)
    ensures var (r, outcome) := AttemptOnce(env, x, path);
      var content := env.generate(x.generations);
      && r == x.(fs := r.fs, generations := x.generations + 1, writes := r.writes, validations := r.validations)
      && (outcome == Raised <==> content.None?)
      && r.fs - {path} == x.fs - {path}
      && (content.None? ==> r.fs == x.fs)
      && (content.Some? ==>
        var written := env.write(x.writes, content.value);
        && (if written.content.Some? then path in r.fs && r.fs[path] == written.content.value else r.fs == x.fs)
        && (outcome == Accepted <==> written.ok && env.readable(x.validations) && Valid(env, r.fs, path)))
  {
  }

  /** A write step generates once or twice, touches no other file, and reports a file only
    * when it is left valid; it counts as repaired exactly when it took two generations. */
  lemma {:induction false} WriteTells(env: Env, x: Exec, path: string, k: nat)
    requires k < |x.statuses|
    ensures var (r, ok) := WriteOnce(env, x, path, k);
      && x.generations < r.generations <= x.generations + 2
      && r.fs - {path} == x.fs - {path}
      && (ok ==> Valid(env, r.fs, path))
      && r.files == (if ok then x.files + [path] else x.files)
      && (ok && r.generations == x.generations + 2 ==> r.statuses == x.statuses[k := Repaired])
      && (!ok || r.generations == x.generations + 1 ==> r.statuses == x.statuses)
      && r.repairs == (if ok && r.generations == x.generations + 2 then x.repairs + [path] else x.repairs)
      && r.error == x.error
  {
    AttemptTells(env, x, path);
    AttemptTells(env, AttemptOnce(env, x, path).0, path);
  }

  lemma {:induction false} GatedKeepsShape(env: Env, x: Exec, steps: seq<Step>, n: nat)
    requires n < |steps| == |x.statuses|
    ensures var (r, ok) := RunGated(env, x, steps, n);
      && |r.statuses| == |x.statuses|
      && (forall i | 0 <= i < |steps| && i != n :: r.statuses[i] == x.statuses[i])
      && (r.statuses[n] == x.statuses[n] || r.statuses[n] == Repaired)
      && r.error == x.error
      && r.files == (if ok && steps[n].kind == WriteFile then x.files + [steps[n].path] else x.files)
      && r.generations <= x.generations + (if steps[n].kind == WriteFile then 2 else 0)
      && (ok && steps[n].kind == Validate ==> forall p | p in WritePaths(steps) :: Valid(env, r.fs, p))
  {
    if steps[n].kind == WriteFile {
      WriteTells(env, x, steps[n].path, n);
    } else if steps[n].kind == Validate {
      ValidationTells(env, x, WritePaths(steps));
    }
  }

  /** What a step leaves: its own status, and its part of the report. */
  predicate StepOk(env: Env, x: Exec, r: Exec, steps: seq<Step>, n: nat)
    requires n < |steps| == |x.statuses| == |r.statuses|
  {
    && (forall i | 0 <= i < |steps| && i != n :: r.statuses[i] == x.statuses[i])
    && (if r.error then r.statuses[n] == Failed else Done(r.statuses[n]) && Gated(env, steps[n]))
    && r.files == (if !r.error && steps[n].kind == WriteFile then x.files + [steps[n].path] else x.files)
    && r.generations <= x.generations + (if steps[n].kind == WriteFile then 2 else 0)
    && (!r.error && steps[n].kind == Validate ==> forall p | p in WritePaths(steps) :: Valid(env, r.fs, p))
  }

  lemma {:induction false} StepTells(env: Env, x: Exec, steps: seq<Step>, n: nat)
    requires n < |steps| == |x.statuses| && !x.error
    ensures StepOk(env, x, RunStep(env, x, steps, n), steps, n)
  {
    GatedKeepsShape(env, x.(statuses := x.statuses[n := Executing]), steps, n);
  }

  /** Two generations were made, or the last one raised. */
  predicate GaveUp(env: Env, before: nat, after: nat) {
    after == before + 2 || (after == before + 1 && env.generate(before).None?)
  }

  /** A step fails only for a cause: the gate, a generation that raised or two that did not
    * pass, a planned file that did not read back as valid, or the tool itself. */
  lemma {:induction false} FailureHasCause(env: Env, x: Exec, steps: seq<Step>, n: nat)
    requires n < |steps| == |x.statuses| && !x.error && RunStep(env, x, steps, n).error
    ensures MayRun(env, steps[n]) && steps[n].kind == WriteFile ==>
      GaveUp(env, x.generations, RunStep(env, x, steps, n).generations)
    ensures MayRun(env, steps[n]) && steps[n].kind == Validate ==>
      RunStep(env, x, steps, n).missing != [] && RunStep(env, x, steps, n).missing[0] in WritePaths(steps)
    ensures MayRun(env, steps[n]) && steps[n].kind == OtherTool ==> !env.other(x.calls).0
  {
    GateIff(env, steps[n]);
    ValidationTells(env, x.(statuses := x.statuses[n := Executing]), WritePaths(steps));
  }

  // ---- what a whole execution is evidence of ----

  /** Without an error, the first `n` steps are done, the rest wait, and the report lists the
    * files of those done; after one, the run stands at the step that failed. */
  predicate Progress(env: Env, x: Exec, steps: seq<Step>, n: nat)
    requires n <= |steps| == |x.statuses|
  {
    && x.generations <= 2 * |WritePaths(steps[..n])|
    && (x.error ==> Stopped(x.statuses))
    && (!x.error ==>
          && (forall i | 0 <= i < n :: Done(x.statuses[i]) && Gated(env, steps[i]))
          && (forall i | n <= i < |steps| :: x.statuses[i] == Pending)
          && x.files == WritePaths(steps[..n])
          && (n > 0 && steps[n - 1].kind == Validate ==> forall p | p in WritePaths(steps) :: Valid(env, x.fs, p)))
  }

  lemma {:induction false} StepPasses(env: Env, x: Exec, r: Exec, steps: seq<Step>, n: nat)
    requires n < |steps| == |x.statuses| == |r.statuses| && !x.error && !r.error
    requires Progress(env, x, steps, n) && StepOk(env, x, r, steps, n)
    ensures Progress(env, r, steps, n + 1)
  {
    assert steps[..n + 1] == steps[..n] + [steps[n]];
    WritePathsAppend(steps[..n], steps[n]);
  }

  lemma {:induction false} StepStops(env: Env, x: Exec, r: Exec, steps: seq<Step>, n: nat)
    requires n < |steps| == |x.statuses| == |r.statuses| && !x.error && r.error
    requires Progress(env, x, steps, n) && StepOk(env, x, r, steps, n)
    ensures Progress(env, r, steps, n + 1)
  {
    assert steps[..n + 1] == steps[..n] + [steps[n]];
    WritePathsAppend(steps[..n], steps[n]);
    assert StoppedAt(r.statuses, n);
  }

  lemma {:induction false} StepProgresses(env: Env, x: Exec, r: Exec, steps: seq<Step>, n: nat)
    requires n < |steps| == |x.statuses| == |r.statuses| && !x.error
    requires Progress(env, x, steps, n) && StepOk(env, x, r, steps, n)
    ensures Progress(env, r, steps, n + 1)
  {
    if r.error {
      StepStops(env, x, r, steps, n);
    } else {
      StepPasses(env, x, r, steps, n);
    }
  }

  lemma {:induction false} ExecutionProgresses(env: Env, x: Exec, steps: seq<Step>, n: nat) returns (m: nat)
    requires n <= |steps| == |x.statuses| && Progress(env, x, steps, n)
    ensures n <= m <= |steps| && Progress(env, Executed(env, x, steps, n), steps, m)
    ensures !Executed(env, x, steps, n).error ==> m == |steps|
    decreases |steps| - n
  {
    m := n;
    if n < |steps| && !x.error {
      StepTells(env, x, steps, n);
      StepProgresses(env, x, RunStep(env, x, steps, n), steps, n);
      m := ExecutionProgresses(env, RunStep(env, x, steps, n), steps, n + 1);
    }
  }

  function Outcome(env: Env, fs: map<string, string>, steps: seq<Step>): Exec {
    Executed(env, Start(fs, steps), steps, 0)
  }

  lemma {:induction false} OutcomeProgresses(env: Env, fs: map<string, string>, steps: seq<Step>) returns (m: nat)
    ensures m <= |steps| == |Outcome(env, fs, steps).statuses| && Progress(env, Outcome(env, fs, steps), steps, m)
    ensures !Outcome(env, fs, steps).error ==> m == |steps|
  {
    m := ExecutionProgresses(env, Start(fs, steps), steps, 0);
  }

  /** Completed means evidence: for any plan, every step passed the gate and is done, and the
    * files reported are the planned ones, of which there is one at least. */
  lemma {:induction false} CompletedMeansDone(env: Env, fs: map<string, string>, steps: seq<Step>)
    requires Complete(Outcome(env, fs, steps))
    ensures var r := Outcome(env, fs, steps);
      && r.files == WritePaths(steps) != [] && |r.statuses| == |steps|
      && forall i | 0 <= i < |steps| :: Done(r.statuses[i]) && MayRun(env, steps[i])
  {
    var m := OutcomeProgresses(env, fs, steps);
    assert steps[..m] == steps;
    forall i | 0 <= i < |steps| ensures MayRun(env, steps[i]) {
      GateIff(env, steps[i]);
    }
  }

  /** A plan as it is built completes only with every planned path valid in the final files. */
  lemma {:induction false} CompletedMeansValid(env: Env, fs: map<string, string>, steps: seq<Step>)
    requires Built(steps) && Complete(Outcome(env, fs, steps))
    ensures forall p | p in WritePaths(steps) :: Valid(env, Outcome(env, fs, steps).fs, p)
  {
    var m := OutcomeProgresses(env, fs, steps);
  }

  /** An execution that does not complete stopped at one failed step, or had no file to write. */
  lemma {:induction false} IncompleteStops(env: Env, fs: map<string, string>, steps: seq<Step>)
    requires !Complete(Outcome(env, fs, steps))
    ensures Stopped(Outcome(env, fs, steps).statuses) || WritePaths(steps) == []
  {
    var m := OutcomeProgresses(env, fs, steps);
    assert m == |steps| ==> steps[..m] == steps;
  }

  /** No write step makes more than two generations. */
  lemma {:induction false} TwoGenerationsEach(env: Env, fs: map<string, string>, steps: seq<Step>)
    ensures Outcome(env, fs, steps).generations <= 2 * |WritePaths(steps)|
  {
    var m := OutcomeProgresses(env, fs, steps);
    MoreWritePaths(steps, m);
  }

  lemma {:induction false} MoreWritePaths(steps: seq<Step>, n: nat)
    requires n <= |steps|
    ensures |WritePaths(steps[..n])| <= |WritePaths(steps)|
    decreases |steps| - n
  {
    if n == |steps| {
      assert steps[..n] == steps;
    } else {
      assert steps[..n + 1][..n] == steps[..n];
      MoreWritePaths(steps, n + 1);
    }
  }
}
