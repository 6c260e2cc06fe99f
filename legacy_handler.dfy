/**
 * The SDK v2 snapshot of the handler. Tag lookup, the register planner and the record-set
 * predicates are the same code as in the SDK v3 version and are shared; unregister reads
 * `data.ResourceRecordSets` without a default, so an absent listing makes `.filter` throw and
 * the invocation fails after the listing call.
 */
module LegacyHandler {
  import opened Wrappers
  import opened Records
  import opened Tags
  import opened RegisterPlanner
  import opened UnregisterPlanner
  import opened Handler

  /** The error an absent `ResourceRecordSets` raises at `sets.filter`. */
  const MissingListing: string := "TypeError: Cannot read properties of undefined (reading 'filter')"

  /** unregister without the `|| []` default: an absent listing fails, a present one is planned as
      in the SDK v3 version. */
  function LegacyUnregister(instanceId: string, zoneName: string, listing: Option<seq<RecordSet>>): (r: Result<seq<Change>>)
    ensures listing.None? <==> r.Failure?
    ensures listing.Some? ==> r.value == Unregister(instanceId, zoneName, listing)
  {
    match listing
    case None => Failure(MissingListing)
    case Some(_) => Success(Unregister(instanceId, zoneName, listing))
  }

  /** With a listing present, the SDK v2 unregister deletes exactly the doomed listed sets, each
      unchanged, and in listing order. */
  lemma LegacyUnregisterMembers(instanceId: string, zoneName: string, sets: seq<RecordSet>, c: Change)
    ensures LegacyUnregister(instanceId, zoneName, Some(sets)).Success?
    ensures c in LegacyUnregister(instanceId, zoneName, Some(sets)).value <==>
      c.action == Delete && c.recordSet in sets && Doomed(CanonicalName(instanceId, zoneName), c.recordSet)
    ensures LegacyUnregister(instanceId, zoneName, Some(sets)).value ==
      Deletes(Filter(sets, s => Doomed(CanonicalName(instanceId, zoneName), s)))
  {
    UnregisterMembers(instanceId, zoneName, Some(sets), c);
    UnregisterIsFilter(instanceId, zoneName, sets);
  }

  /** What the selected planner of the SDK v2 snapshot returns. */
  function LegacyPlan(task: Task, instance: Instance, zone: HostedZone, env: Collaborators): Result<seq<Change>> {
    match task
    case RegisterTask => Success(RegisterPlan(instance, zone, env.toAscii))
    case UnregisterTask => LegacyUnregister(instance.instanceId, zone.name, env.listResourceRecordSets(zone.id))
  }

  /** The SDK v2 steps after the zone tag is read. A failed unregister plan ends the invocation
      after the listing call, without a batch. */
  method Reconcile(task: Task, instance: Instance, zoneId: string, env: Collaborators)
    returns (outcome: Outcome, calls: seq<Call>)
    ensures var plan := LegacyPlan(task, instance, ResolvedZone(env, zoneId), env);
      (plan.Failure? ==>
        task == UnregisterTask && outcome == Rejected(plan.error) &&
        calls == [GetHostedZone(zoneId), ListResourceRecordSets(zoneId)]) &&
      (plan.Success? ==>
        outcome == (if plan.value == [] then NoChanges else Applied(plan.value)) &&
        calls == ZoneCalls(task, zoneId, plan.value))
    ensures |calls| >= 1 && calls[0] == GetHostedZone(zoneId)
    ensures OneBatchAtEnd(outcome, calls)
  {
    calls := [GetHostedZone(zoneId)];
    var hostedZone := ResolvedZone(env, zoneId);

    var changes: seq<Change>;
    if task == RegisterTask {
      changes := Register(instance, hostedZone, env.toAscii);
    } else {
      calls := calls + [ListResourceRecordSets(hostedZone.id)];
      var planned := LegacyUnregister(instance.instanceId, hostedZone.name, env.listResourceRecordSets(hostedZone.id));
      if planned.Failure? {
        return Rejected(planned.error), calls;
      }
      changes := planned.value;
    }
    if |changes| == 0 {
      return NoChanges, calls;
    }

    calls := calls + [ChangeResourceRecordSets(zoneId, changes)];
    outcome := Applied(changes);
  }

  /** handler of the SDK v2 snapshot: the same early exits as the SDK v3 version, and a failed
      plan propagates as a rejected invocation without a batch. */
  method Handle(event: Event, env: Collaborators) returns (outcome: Outcome, calls: seq<Call>)
    ensures TaskFor(event.state).None? <==> outcome == Ignored
    ensures outcome == Ignored ==> calls == []
    ensures outcome != Ignored ==> |calls| >= 1 && calls[0] == DescribeInstances(event.instanceId, HostedZoneKey)
    ensures outcome == NoMatchingInstance <==>
      TaskFor(event.state).Some? && FirstInstance(env.describeInstances(event.instanceId)).None?
    ensures outcome == NoHostedZone <==>
      TaskFor(event.state).Some? && FirstInstance(env.describeInstances(event.instanceId)).Some? &&
      !Truthy(TagValue(FirstInstance(env.describeInstances(event.instanceId)).value.tags, HostedZoneKey))
    ensures outcome == NoMatchingInstance || outcome == NoHostedZone ==> |calls| == 1
    ensures outcome == NoChanges || outcome.Applied? || outcome.Rejected? ==>
      TaskFor(event.state).Some? && FirstInstance(env.describeInstances(event.instanceId)).Some? &&
      var instance := FirstInstance(env.describeInstances(event.instanceId)).value;
      Truthy(TagValue(instance.tags, HostedZoneKey)) &&
      var zoneId := TagValue(instance.tags, HostedZoneKey).value;
      var plan := LegacyPlan(TaskFor(event.state).value, instance, ResolvedZone(env, zoneId), env);
      var describe := DescribeInstances(event.instanceId, HostedZoneKey);
      (plan.Failure? ==>
        TaskFor(event.state) == Some(UnregisterTask) && outcome == Rejected(plan.error) &&
        calls == [describe, GetHostedZone(zoneId), ListResourceRecordSets(zoneId)]) &&
      (plan.Success? ==>
        outcome == (if plan.value == [] then NoChanges else Applied(plan.value)) &&
        calls == [describe] + ZoneCalls(TaskFor(event.state).value, zoneId, plan.value))
    ensures OneBatchAtEnd(outcome, calls)
  {
    var task := TaskFor(event.state);
    if task.None? {
      return Ignored, [];
    }

    calls := [DescribeInstances(event.instanceId, HostedZoneKey)];
    var found := FirstInstance(env.describeInstances(event.instanceId));
    if found.None? {
      return NoMatchingInstance, calls;
    }
    var instance := found.value;

    var zoneId := GetTagValue(instance, HostedZoneKey);
    if !Truthy(zoneId) {
      return NoHostedZone, calls;
    }

    var zoneCalls;
    outcome, zoneCalls := Reconcile(task.value, instance, zoneId.value, env);
    calls := calls + zoneCalls;
  }
}
