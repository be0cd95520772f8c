/** Where the stored outcome of a job comes from: a handler ended so, or the queue says why it
  * did not run. */
module QueueResults {
  import opened Wrappers
  import opened JobPolicy
  import opened JobTable
  import opened QueueProtocol

  /** Some handler of the run ended so. */
  predicate Ended(steps: seq<Step>, end: HandlerEnd) {
    exists k :: 0 <= k < |steps| && steps[k].HandlerStops? && steps[k].end == end
  }

  /** A stored value was returned, a stored error raised, and a missing handler is missing. */
  predicate Sourced(c: Config, steps: seq<Step>, result: Result) {
    match result
    case NoResult => true
    case CanceledMarker => true
    case Value(value) => Ended(steps, Returns(value))
    case HandlerError(error) => Ended(steps, Raises(error))
    case NoHandler(kind) => kind !in c.handlers
  }

  predicate PcSourced(c: Config, steps: seq<Step>, pc: Pc) {
    match pc
    case Returned(_, value) => Ended(steps, Returns(value))
    case Raised(_, error) => Ended(steps, Raises(error))
    case Rechecking(_, error) => Ended(steps, Raises(error))
    case Finishing(_, _, result) => result.Some? ==> Sourced(c, steps, result.value)
    case _ => true
  }

  predicate AllSourced(c: Config, steps: seq<Step>, s: State) {
    && (forall i | 0 <= i < |s.jobs| :: Sourced(c, steps, s.jobs[i].result))
    && (forall w | 0 <= w < |s.workers| :: PcSourced(c, steps, s.workers[w]))
  }

  lemma {:induction false} EndedStays(steps: seq<Step>, step: Step, end: HandlerEnd)
    ensures Ended(steps, end) ==> Ended(steps + [step], end)
    ensures step.HandlerStops? && step.end == end ==> Ended(steps + [step], end)
  {
    if Ended(steps, end) {
      var k :| 0 <= k < |steps| && steps[k].HandlerStops? && steps[k].end == end;
      assert (steps + [step])[k] == steps[k];
    }
    assert (steps + [step])[|steps|] == step;
  }

  lemma {:induction false} SourcedStays(c: Config, steps: seq<Step>, step: Step, result: Result)
    requires Sourced(c, steps, result)
    ensures Sourced(c, steps + [step], result)
  {
    match result
    case Value(value) => EndedStays(steps, step, Returns(value));
    case HandlerError(error) => EndedStays(steps, step, Raises(error));
    case _ =>
  }

  lemma {:induction false} PcStays(c: Config, steps: seq<Step>, step: Step, pc: Pc)
    requires PcSourced(c, steps, pc)
    ensures PcSourced(c, steps + [step], pc)
  {
    match pc
    case Returned(_, value) => EndedStays(steps, step, Returns(value));
    case Raised(_, error) => EndedStays(steps, step, Raises(error));
    case Rechecking(_, error) => EndedStays(steps, step, Raises(error));
    case Finishing(_, _, Some(result)) => SourcedStays(c, steps, step, result);
    case _ =>
  }

  /** A worker moves on with what it had, or with what its handler just ended with. */
  lemma {:induction false} PcMoves(c: Config, s: State, steps: seq<Step>, step: Step, w: nat)
    requires w < |s.workers| && AllSourced(c, steps, s)
    ensures |Apply(c, s, step).workers| == |s.workers| && PcSourced(c, steps + [step], Apply(c, s, step).workers[w])
  {
    var pc, pc' := s.workers[w], Apply(c, s, step).workers[w];
    PcStays(c, steps, step, pc);
    if step.HandlerStops? {
      EndedStays(steps, step, step.end);
    }
  }

  /** A row has the result that it had, or the one that a finishing worker carried. */
  lemma {:induction false} ResultMoves(c: Config, s: State, step: Step, i: nat)
    requires i < |Apply(c, s, step).jobs|
    ensures var result := Apply(c, s, step).jobs[i].result;
      || (i < |s.jobs| && result == s.jobs[i].result)
      || result == NoResult
      || (step.Finish? && step.w < |s.workers| && s.workers[step.w].Finishing? && s.workers[step.w].result == Some(result))
  {
  }

  lemma {:induction false} StepKeepsSources(c: Config, s: State, steps: seq<Step>, step: Step)
    requires AllSourced(c, steps, s)
    ensures AllSourced(c, steps + [step], Apply(c, s, step))
  {
    var s' := Apply(c, s, step);
    forall w | 0 <= w < |s'.workers| ensures PcSourced(c, steps + [step], s'.workers[w]) {
      WorkersStay(c, s, step);
      PcMoves(c, s, steps, step, w);
    }
    forall i | 0 <= i < |s'.jobs| ensures Sourced(c, steps + [step], s'.jobs[i].result) {
      ResultMoves(c, s, step, i);
      if i < |s.jobs| {
        SourcedStays(c, steps, step, s.jobs[i].result);
      }
      if step.Finish? && step.w < |s.workers| {
        PcStays(c, steps, step, s.workers[step.w]);
      }
    }
  }

  lemma {:induction false} WorkersStay(c: Config, s: State, step: Step)
    ensures |Apply(c, s, step).workers| == |s.workers|
  {
  }

  lemma {:induction false} RunIsSourced(c: Config, start: State, steps: seq<Step>)
    requires Initial(start)
    ensures AllSourced(c, steps, Run(c, start, steps))
  {
    if steps != [] {
      var n := |steps| - 1;
      RunIsSourced(c, start, steps[..n]);
      StepKeepsSources(c, Run(c, start, steps[..n]), steps[..n], steps[n]);
      assert steps[..n] + [steps[n]] == steps;
    }
  }

  /** In every run, a completed job holds a value that a handler returned; a failed one holds an
    * error that a handler raised, or says that its kind has no handler, which is so; and a job
    * that has not ended, or was canceled, holds neither. */
  lemma {:induction false} OutcomesHaveSources(c: Config, start: State, steps: seq<Step>, id: nat)
    requires Initial(start) && id < |Run(c, start, steps).jobs|
    ensures var j := Run(c, start, steps).jobs[id];
      match j.status
      case Completed => j.result.Value? && Ended(steps, Returns(j.result.value))
      case Failed =>
        || (j.result.HandlerError? && Ended(steps, Raises(j.result.error)))
        || (j.result == NoHandler(j.kind) && j.kind !in c.handlers)
      case _ => j.result == NoResult || j.result == CanceledMarker
  {
    RunIsSourced(c, start, steps);
    RunKeepsInv(c, start, steps);
    assert RowOk(Run(c, start, steps).jobs[id], MaxAttempts(c.cfg));
    assert Sourced(c, steps, Run(c, start, steps).jobs[id].result);
  }
}
