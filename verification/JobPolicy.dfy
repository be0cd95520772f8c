/** Scheduling policy of the durable queue: execution classes, their priorities,
  * and the caps that keep one class or one owner from taking every worker. */
module JobPolicy {
  import opened Wrappers

  datatype ExecClass = Interactive | Artifact | Validation | Maintenance

  datatype Origin = Original | Retry | Replay

  /** The operator settings the queue reads. `overrides` holds the per-class caps an
    * operator set; a class without one uses its default. */
  datatype Settings = Settings(
    maxAttempts: int,
    schedulingEnabled: bool,
    overrides: map<ExecClass, int>,
    ownerCap: int)

  const CLASSES: seq<ExecClass> := [Interactive, Artifact, Validation, Maintenance]

  function Priority(c: ExecClass): int {
    match c
    case Interactive => 100
    case Artifact => 50
    case Validation => 40
    case Maintenance => 10
  }

  function DefaultConcurrency(c: ExecClass): int {
    match c
    case Interactive => 0
    case Artifact => 2
    case Validation => 1
    case Maintenance => 1
  }

  function ClassFor(kind: string, origin: Origin): ExecClass {
    if origin == Replay then Maintenance
    else if kind == "artifact" then Artifact
    else if kind == "startup_validation" || kind == "runtime_validation" then Validation
    else Interactive
  }

  /** Zero means unbounded. */
  function ConcurrencyCap(c: ExecClass, cfg: Settings): nat {
    Max(0, if c in cfg.overrides then cfg.overrides[c] else DefaultConcurrency(c))
  }

  function PerOwnerCap(cfg: Settings): nat {
    Max(1, cfg.ownerCap)
  }

  /** The retry budget, never below one run. */
  function MaxAttempts(cfg: Settings): nat {
    Max(1, cfg.maxAttempts)
  }

  function CountOf<K>(counts: map<K, nat>, key: K): nat {
    if key in counts then counts[key] else 0
  }

  method BlockedClasses(counts: map<Option<ExecClass>, nat>, cfg: Settings) returns (blocked: set<ExecClass>)
    ensures forall c :: c in blocked <==>
      ConcurrencyCap(c, cfg) > 0 && CountOf(counts, Some(c)) >= ConcurrencyCap(c, cfg)
  {
    blocked := {};
    for i := 0 to |CLASSES|
      invariant forall c :: c in blocked <==>
        c in CLASSES[..i] && ConcurrencyCap(c, cfg) > 0 && CountOf(counts, Some(c)) >= ConcurrencyCap(c, cfg)
    {
      var c := CLASSES[i];
      var cap := ConcurrencyCap(c, cfg);
      if cap > 0 && CountOf(counts, Some(c)) >= cap {
        blocked := blocked + {c};
      }
    }
    assert CLASSES[..|CLASSES|] == CLASSES;
    AllClassesListed();
  }

  lemma {:induction false} AllClassesListed()
    ensures forall c: ExecClass :: c in CLASSES
  {
    forall c: ExecClass ensures c in CLASSES {
      match c
      case Interactive => assert CLASSES[0] == c;
      case Artifact => assert CLASSES[1] == c;
      case Validation => assert CLASSES[2] == c;
      case Maintenance => assert CLASSES[3] == c;
    }
  }

  function BlockedOwners(counts: map<string, nat>, cfg: Settings): set<string> {
    set owner | owner in counts && counts[owner] >= PerOwnerCap(cfg)
  }
}
