/**
  The safety monitor (axis/safety.py): which proposals pass review, and an audit log that only grows.
 */
module Safety {
  import opened Wrappers
  import opened PlanTypes
  import opened Reals
  import opened Windows
  import Telemetry
  import opened Adaptation
  import opened Diagnosis

  datatype Violation = BoundedAutonomy | BlastRadius | AlignmentStability | Corrigibility

  datatype AuditEntry = AuditEntry(kind: string, detail: string)

  /** `DEFAULT_OBJECTIVE_STACK` */
  const DEFAULT_OBJECTIVES: map<string, real> := map[
    "truthfulness" := 0.30, "task_success" := 0.25, "calibration" := 0.15, "helpfulness" := 0.10,
    "efficiency" := 0.08, "latency" := 0.05, "robustness" := 0.04, "originality" := 0.02, "learning_value" := 0.01]

  const FORBIDDEN: set<string> := {"scheduler_hard_ceiling", "access_matrix", "audit_log"}

  /** A weight below the sealed floor of its objective; an unknown objective has floor 0. */
  predicate BelowFloor(floors: map<string, real>, key: string, weight: real) {
    weight < if key in floors then floors[key] else 0.0
  }

  /** What the invariants ask of a proposal. */
  ghost predicate Acceptable(p: Proposal, floors: map<string, real>) {
    && p.changeClass != Parameter
    && (p.changeClass == Policy ==> p.affected != [] && p.rollbackTrigger.Some?)
    && ("objective_weights" in p.payload ==>
          forall k :: k in p.objectiveWeights ==> !BelowFloor(floors, k, p.objectiveWeights[k]))
    && p.payload !! FORBIDDEN
  }

  /** The invariant an unacceptable proposal breaks first, in the order they are checked. */
  ghost function FirstViolation(p: Proposal, floors: map<string, real>): Violation {
    if p.changeClass == Parameter then BoundedAutonomy
    else if p.changeClass == Policy && (p.affected == [] || p.rollbackTrigger.None?) then BlastRadius
    else if "objective_weights" in p.payload && exists k :: k in p.objectiveWeights && BelowFloor(floors, k, p.objectiveWeights[k])
    then AlignmentStability
    else BoundedAutonomy
  }

  /** What the audit log says of an accepted proposal. */
  function AuditLine(p: Proposal): string {
    p.proposalId + " " + ClassName(p.changeClass) + " " + p.description
  }

  class SafetyMonitor {
    const floors: map<string, real>
    var auditLog: seq<AuditEntry>

    /** Whether an override callback has been registered. */
    var overrideSet: bool

    /**
      The floors are sealed at construction: a fixed fraction of each default weight. No weights, or
      an empty dictionary of them, means the built-in stack.
     */
    constructor (weights: Option<map<string, real>>, floorFraction: real)
      ensures var defaults := if weights.Some? && weights.value != map[] then weights.value else DEFAULT_OBJECTIVES;
        floors == map k | k in defaults :: defaults[k] * floorFraction
      ensures auditLog == [] && !overrideSet
    {
      var defaults := if weights.Some? && weights.value != map[] then weights.value else DEFAULT_OBJECTIVES;
      floors := map k | k in defaults :: defaults[k] * floorFraction;
      auditLog, overrideSet := [], false;
    }

    method Audit(kind: string, detail: string)
      modifies this`auditLog
      ensures auditLog == old(auditLog) + [AuditEntry(kind, detail)]
    {
      auditLog := auditLog + [AuditEntry(kind, detail)];
    }

    method CheckWeights(weights: map<string, real>) returns (ok: bool)
      ensures ok <==> forall k :: k in weights ==> !BelowFloor(floors, k, weights[k])
    {
      var keys := weights.Keys;
      while keys != {}
        invariant keys <= weights.Keys
        invariant forall k :: k in weights && k !in keys ==> !BelowFloor(floors, k, weights[k])
        decreases |keys|
      {
        var k :| k in keys;
        if BelowFloor(floors, k, weights[k]) { return false; }
        keys := keys - {k};
      }
      ok := true;
    }

    /** `review_proposal` accepts exactly the acceptable proposals, each with one audit entry; a refusal leaves no trace. */
    method ReviewProposal(p: Proposal) returns (r: Result<(), Violation>)
      modifies this`auditLog
      ensures r.Ok? <==> Acceptable(p, floors)
      ensures r.Err? ==> r.error == FirstViolation(p, floors)
      ensures auditLog == old(auditLog) + if r.Ok? then [AuditEntry("proposal_reviewed", AuditLine(p))] else []
    {
      if p.changeClass == Parameter { return Err(BoundedAutonomy); }
      if p.changeClass == Policy {
        if p.affected == [] { return Err(BlastRadius); }
        if p.rollbackTrigger.None? { return Err(BlastRadius); }
      }
      if "objective_weights" in p.payload {
        var ok := CheckWeights(p.objectiveWeights);
        if !ok { return Err(AlignmentStability); }
      }
      if !(p.payload !! FORBIDDEN) { return Err(BoundedAutonomy); }
      Audit("proposal_reviewed", AuditLine(p));
      r := Ok(());
    }

    /**
      The override channel can be set once; a second attempt is refused and changes nothing. Setting
      it to `None` is audited like any other and leaves the channel open.
     */
    method SetOverride(callback: bool) returns (r: Result<(), Violation>)
      modifies this
      ensures r.Ok? <==> !old(overrideSet)
      ensures overrideSet <==> old(overrideSet) || callback
      ensures r.Err? ==> r.error == Corrigibility && auditLog == old(auditLog)
      ensures r.Ok? ==> auditLog == old(auditLog) + [AuditEntry("override_set", "external override callback registered")]
    {
      if overrideSet { return Err(Corrigibility); }
      overrideSet := callback;
      Audit("override_set", "external override callback registered");
      r := Ok(());
    }
  }

  /**
    Alignment stability: a change that passes review, once its objective weights are laid over the
    defaults, leaves every default objective its sealed share and no other objective below zero.
   */
  lemma AcceptedKeepsFloors(p: Proposal, defaults: map<string, real>, floorFraction: real, k: string)
    requires 0.0 <= floorFraction <= 1.0 && forall j :: j in defaults ==> defaults[j] >= 0.0
    requires Acceptable(p, map j | j in defaults :: defaults[j] * floorFraction)
    requires "objective_weights" in p.payload && (k in defaults || k in p.objectiveWeights)
    ensures (defaults + p.objectiveWeights)[k] >= if k in defaults then defaults[k] * floorFraction else 0.0
  {
    if k in defaults { MulMonotone(floorFraction, 1.0, defaults[k]); }
    if k in p.objectiveWeights {
      var floors := map j | j in defaults :: defaults[j] * floorFraction;
      assert !BelowFloor(floors, k, p.objectiveWeights[k]);
    }
  }

  /** What never passes review: parameter updates, undeclared or irrevocable policy changes, sealed configuration. */
  lemma NeverAccepted(p: Proposal, floors: map<string, real>)
    ensures p.changeClass == Parameter ==> !Acceptable(p, floors)
    ensures p.changeClass == Policy && (p.affected == [] || p.rollbackTrigger == None) ==> !Acceptable(p, floors)
    ensures "scheduler_hard_ceiling" in p.payload || "access_matrix" in p.payload || "audit_log" in p.payload ==>
      !Acceptable(p, floors)
  {
  }

  /** Every proposal the Adaptation Manager makes passes review, whatever the floors and in either mode. */
  lemma ProposalsAreAcceptable(
    l: Ledger, f: Finding, id: Id, classes: set<string>, records: nat, threshold: real, window: int, floors: map<string, real>)
    requires Propose(l, f, id, classes, records, threshold, window).Some?
    ensures Acceptable(Propose(l, f, id, classes, records, threshold, window).value, floors)
  {
    DistinctKeys();
  }

  lemma DistinctKeys()
    ensures forall c :: Remedy(c).0 !! FORBIDDEN && "objective_weights" !in Remedy(c).0
  {
    assert |"policy"| == 6 && |"task_class"| == 10 && |"set"| == 3 && |"procedural_template"| == 19 && |"annotation"| == 10;
    assert |"objective_weights"| == 17 && |"scheduler_hard_ceiling"| == 22 && |"access_matrix"| == 13 && |"audit_log"| == 9;
  }

  /** Propose from the manager's own state and review: a proposal is always accepted, and the log names it. */
  method ProposeAndReview(
    monitor: SafetyMonitor, manager: AdaptationManager, f: Finding, id: Id, threshold: real, window: int)
    returns (r: Option<Proposal>)
    requires manager.observer.Valid()
    modifies monitor
    ensures var records := LastN(manager.observer.history, manager.observer.limits.strategyBias);
      r == Propose(manager.View(), f, id, ClassesOf(records), CountClass(records, f.taskClass), threshold, window)
    ensures Conservative(manager.View()) && r.Some? ==> r.value.changeClass != Policy
    ensures r.None? ==> Conservative(manager.View())
    ensures monitor.auditLog == old(monitor.auditLog) +
      if r.Some? then [AuditEntry("proposal_reviewed", AuditLine(r.value))] else []
  {
    hide Telemetry.TelemetryObserver.KeyedBuffers, Acceptable, AuditLine;
    r := ProposeFrom(manager, f, id, threshold, window);
    if r.Some? {
      ghost var o := manager.observer;
      ghost var records := LastN(o.history, o.limits.strategyBias);
      ProposalsAreAcceptable(manager.View(), f, id, ClassesOf(records), CountClass(records, f.taskClass),
                             threshold, window, monitor.floors);
      var reviewed := monitor.ReviewProposal(r.value);
      assert reviewed.Ok?;
    }
  }
}
