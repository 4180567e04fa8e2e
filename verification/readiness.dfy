/** Readiness of a Kubernetes apps/v1 Deployment owned by a
    DynamoNimDeployment: the `IsDeploymentReady` check the reconciler runs
    on every pass, modelled over an immutable snapshot of the Deployment. */
module Readiness {
  import opened Wrappers
  import opened GoInts

  /** Kubernetes' tri-state `corev1.ConditionStatus`. */
  datatype ConditionStatus = ConditionTrue | ConditionFalse | ConditionUnknown

  /** The condition types a Deployment's status reports. */
  datatype DeploymentConditionType = DeploymentAvailable | DeploymentProgressing | DeploymentReplicaFailure

  datatype DeploymentCondition = DeploymentCondition(conditionType: DeploymentConditionType, status: ConditionStatus)

  /** `replicas` is a pointer in Go: `None` when the field is unset. */
  datatype DeploymentSpec = DeploymentSpec(replicas: Option<Int32>, paused: bool)

  datatype DeploymentStatus = DeploymentStatus(
    observedGeneration: Int64,
    updatedReplicas: Int32,
    availableReplicas: Int32,
    conditions: seq<DeploymentCondition>)

  /** The parts of an `appsv1.Deployment` readiness reads; `generation` is
      the object metadata's generation. */
  datatype Deployment = Deployment(generation: Int64, spec: DeploymentSpec, status: DeploymentStatus)

  /** Go zero values of the spec and status structs. */
  const EmptySpec := DeploymentSpec(None, false)
  const EmptyStatus := DeploymentStatus(0, 0, 0, [])

  /** Replica count the Deployment asks for; an unset field means one replica. */
  function DesiredReplicas(spec: DeploymentSpec): Int32 {
    spec.replicas.GetOr(1)
  }

  /** The status reports the Available condition as explicitly True. */
  predicate AvailableConditionTrue(conditions: seq<DeploymentCondition>) {
    exists i :: 0 <= i < |conditions| && conditions[i] == DeploymentCondition(DeploymentAvailable, ConditionTrue)
  }

  /** The controller has observed the current generation and the rollout
      has updated and made available at least the desired replicas. */
  predicate RolledOut(d: Deployment) {
    var desired := DesiredReplicas(d.spec);
    && d.status.observedGeneration == d.generation
    && d.status.updatedReplicas >= desired
    && d.status.availableReplicas >= desired
    && AvailableConditionTrue(d.status.conditions)
  }

  /** Reference definition of readiness: a Deployment exists, is not paused,
      and either scales to zero or has rolled out. */
  predicate DeploymentReady(d: Option<Deployment>) {
    && d.Some?
    && !d.value.spec.paused
    && (DesiredReplicas(d.value.spec) == 0 || RolledOut(d.value))
  }

  /** The check as the reconciler runs it: early exits for a missing or
      paused Deployment and for scale-to-zero, the counters, then a scan of
      the conditions for Available=True. */
  method IsDeploymentReady(d: Option<Deployment>) returns (ready: bool)
    ensures ready <==> DeploymentReady(d)
  {
    if d.None? {
      return false;
    }
    var deployment := d.value;
    if deployment.spec.paused {
      return false;
    }
    var desired := DesiredReplicas(deployment.spec);
    if desired == 0 {
      return true;
    }
    var status := deployment.status;
    if status.observedGeneration != deployment.generation
       || status.updatedReplicas < desired
       || status.availableReplicas < desired
    {
      return false;
    }
    ready := false;
    var i := 0;
    while i < |status.conditions|
      invariant 0 <= i <= |status.conditions|
      invariant !ready
      invariant forall j :: 0 <= j < i ==> status.conditions[j] != DeploymentCondition(DeploymentAvailable, ConditionTrue)
    {
      var condition := status.conditions[i];
      if condition.conditionType == DeploymentAvailable && condition.status == ConditionTrue {
        ready := true;
        break;
      }
      i := i + 1;
    }
  }

  // ----- the table of TestIsDeploymentReady, one lemma per row -----

  lemma NilDeploymentNotReady()
    ensures !DeploymentReady(None)
  {
  }

  lemma DefaultReplicasAvailableFalseNotReady()
    ensures !DeploymentReady(Some(Deployment(0, EmptySpec,
              EmptyStatus.(conditions := [DeploymentCondition(DeploymentAvailable, ConditionFalse)]))))
  {
  }

  lemma PausedDeploymentNotReady()
    ensures !DeploymentReady(Some(Deployment(0, EmptySpec.(paused := true), EmptyStatus)))
  {
  }

  lemma RolledOutDeploymentReady()
    ensures DeploymentReady(Some(Deployment(1, EmptySpec.(replicas := Some(1)),
              DeploymentStatus(1, 1, 1, [DeploymentCondition(DeploymentAvailable, ConditionTrue)]))))
  {
    var conditions := [DeploymentCondition(DeploymentAvailable, ConditionTrue)];
    assert conditions[0] == DeploymentCondition(DeploymentAvailable, ConditionTrue);
  }

  lemma ZeroReplicasReady()
    ensures DeploymentReady(Some(Deployment(1, EmptySpec.(replicas := Some(0)), EmptyStatus)))
  {
  }

  lemma AvailableFalseNotReady()
    ensures !DeploymentReady(Some(Deployment(1, EmptySpec.(replicas := Some(1)),
              DeploymentStatus(1, 1, 1, [DeploymentCondition(DeploymentAvailable, ConditionFalse)]))))
  {
  }

  // ----- properties over all snapshots -----

  /** A paused Deployment is never ready, whatever its status says. */
  lemma PausedNeverReady(d: Deployment)
    requires d.spec.paused
    ensures !DeploymentReady(Some(d))
  {
  }

  /** Scale-to-zero is ready as soon as the Deployment is not paused: the
      generations and the status are not consulted. */
  lemma ScaleToZeroAlwaysReady(d: Deployment)
    requires !d.spec.paused && d.spec.replicas == Some(0)
    ensures DeploymentReady(Some(d))
  {
  }

  /** With a non-zero desired count, each of the four requirements is
      necessary: breaking any one makes a ready Deployment not ready. */
  lemma EachRequirementNecessary(d: Deployment, generation: Int64, updated: Int32, available: Int32,
                                 conditions: seq<DeploymentCondition>)
    requires DesiredReplicas(d.spec) != 0
    ensures generation != d.status.observedGeneration
            ==> !DeploymentReady(Some(d.(generation := generation)))
    ensures updated < DesiredReplicas(d.spec)
            ==> !DeploymentReady(Some(d.(status := d.status.(updatedReplicas := updated))))
    ensures available < DesiredReplicas(d.spec)
            ==> !DeploymentReady(Some(d.(status := d.status.(availableReplicas := available))))
    ensures (forall i :: 0 <= i < |conditions| ==>
               conditions[i].conditionType != DeploymentAvailable || conditions[i].status != ConditionTrue)
            ==> !DeploymentReady(Some(d.(status := d.status.(conditions := conditions))))
  {
  }

  /** A ready Deployment stays ready when more replicas become updated or
      available and more conditions are reported. */
  lemma {:induction false} ReadyIsMonotone(d: Deployment, updated: Int32, available: Int32,
                                           extra: seq<DeploymentCondition>, k: nat)
    requires DeploymentReady(Some(d))
    requires updated >= d.status.updatedReplicas && available >= d.status.availableReplicas
    requires k <= |d.status.conditions|
    ensures DeploymentReady(Some(d.(status := d.status.(
              updatedReplicas := updated,
              availableReplicas := available,
              conditions := d.status.conditions[..k] + extra + d.status.conditions[k..]))))
  {
    var conditions := d.status.conditions;
    var grown := conditions[..k] + extra + conditions[k..];
    if DesiredReplicas(d.spec) != 0 {
      var i :| 0 <= i < |conditions| && conditions[i] == DeploymentCondition(DeploymentAvailable, ConditionTrue);
      var j := if i < k then i else i + |extra|;
      assert grown[j] == conditions[i];
    }
  }

  /** Readiness depends on which conditions are reported, not their order. */
  lemma ConditionOrderIrrelevant(d: Deployment, conditions: seq<DeploymentCondition>)
    requires multiset(conditions) == multiset(d.status.conditions)
    ensures DeploymentReady(Some(d.(status := d.status.(conditions := conditions))))
            == DeploymentReady(Some(d))
  {
    var available := DeploymentCondition(DeploymentAvailable, ConditionTrue);
    assert available in conditions <==> available in multiset(conditions);
    assert available in d.status.conditions <==> available in multiset(d.status.conditions);
  }
}
