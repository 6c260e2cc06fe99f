/**
 * The Lambda handler of the SDK v3 version: classify the event, find the instance, read its
 * zone tag, fetch the zone, plan, and submit the plan as one change batch, stopping at the first
 * missing piece. The AWS calls are the fields of `Collaborators`; the calls made are returned as
 * a trace beside the outcome.
 */
module Handler {
  import opened Wrappers
  import opened Records
  import opened Tags
  import opened RegisterPlanner
  import opened UnregisterPlanner

  /** The parts of the EventBridge event the handler reads: `detail['instance-id']`, `detail.state`. */
  datatype Event = Event(instanceId: string, state: string)

  /** Which planner an event selects. */
  datatype Task = RegisterTask | UnregisterTask

  /** The `switch` on the event's state; `None` is the `default: return`. */
  function TaskFor(state: string): Option<Task> {
    if state == "running" then Some(RegisterTask)
    else if state == "stopped" || state == "terminated" then Some(UnregisterTask)
    else None
  }

  /** One reservation of a `DescribeInstances` response. */
  datatype Reservation = Reservation(instances: Option<seq<Instance>>)

  /** `flatMap((r) => r.Instances)`: a reservation without an instance list contributes one
      `undefined` element, since `flatMap` keeps a non-array result as it is. */
  function Flattened(rs: seq<Reservation>): seq<Option<Instance>>
    decreases |rs|
  {
    if rs == [] then []
    else
      var head := match rs[0].instances
        case None => [None]
        case Some(xs) => seq(|xs|, i requires 0 <= i < |xs| => Some(xs[i]));
      head + Flattened(rs[1..])
  }

  /** `data.Reservations?.flatMap((r) => r.Instances)[0]` */
  function FirstInstance(reservations: Option<seq<Reservation>>): Option<Instance> {
    match reservations
    case None => None
    case Some(rs) => var flat := Flattened(rs); if flat == [] then None else flat[0]
  }

  /** The instance used is the first instance of the first reservation with a non-empty list,
      provided every reservation before it has an empty list; a reservation before it with no list
      at all yields nothing. */
  lemma {:induction false} FirstInstanceFound(rs: seq<Reservation>, k: nat)
    requires k < |rs|
    requires forall j :: 0 <= j < k ==> rs[j].instances == Some([])
    ensures rs[k].instances.None? ==> FirstInstance(Some(rs)) == None
    ensures rs[k].instances.Some? && rs[k].instances.value != [] ==>
      FirstInstance(Some(rs)) == Some(rs[k].instances.value[0])
    decreases k
  {
    if k > 0 {
      assert rs[0].instances == Some([]);
      assert Flattened(rs) == [] + Flattened(rs[1..]);
      forall j | 0 <= j < k - 1 ensures rs[1..][j].instances == Some([]) {
        assert rs[1..][j] == rs[j + 1];
      }
      FirstInstanceFound(rs[1..], k - 1);
    }
  }

  /** No reservation, or only empty instance lists: no instance. */
  lemma {:induction false} FirstInstanceNone(rs: seq<Reservation>)
    requires forall j :: 0 <= j < |rs| ==> rs[j].instances == Some([])
    ensures FirstInstance(Some(rs)) == None
    decreases |rs|
  {
    if rs != [] {
      assert Flattened(rs) == [] + Flattened(rs[1..]);
      forall j | 0 <= j < |rs| - 1 ensures rs[1..][j].instances == Some([]) {
        assert rs[1..][j] == rs[j + 1];
      }
      FirstInstanceNone(rs[1..]);
    }
  }

  /** The AWS calls, as functions of their arguments, and `punycode.toASCII`. */
  datatype Collaborators = Collaborators(
    describeInstances: string -> Option<seq<Reservation>>,   // `Reservations` of DescribeInstances
    getHostedZone: string -> HostedZone,                      // `HostedZone` of GetHostedZone
    listResourceRecordSets: string -> Option<seq<RecordSet>>, // `ResourceRecordSets` of ListResourceRecordSets
    toAscii: string -> string)

  /** A call the handler makes to EC2 or Route 53. */
  datatype Call =
    | DescribeInstances(instanceId: string, tagKeyFilter: string)
    | GetHostedZone(zoneId: string)
    | ListResourceRecordSets(zoneId: string)
    | ChangeResourceRecordSets(zoneId: string, changes: seq<Change>)

  /** How an invocation ends. `Rejected` is an uncaught error, which only the SDK v2 snapshot raises. */
  datatype Outcome =
    | Ignored
    | NoMatchingInstance
    | NoHostedZone
    | NoChanges
    | Applied(changes: seq<Change>)
    | Rejected(error: string)

  /** The zone handed to the planner: the fetched zone with its `Id` set to the tag's value. */
  function ResolvedZone(env: Collaborators, zoneId: string): HostedZone {
    env.getHostedZone(zoneId).(id := zoneId)
  }

  /** What the selected planner returns for the instance and the resolved zone. */
  function Plan(task: Task, instance: Instance, zone: HostedZone, env: Collaborators): seq<Change> {
    match task
    case RegisterTask => RegisterPlan(instance, zone, env.toAscii)
    case UnregisterTask => Unregister(instance.instanceId, zone.name, env.listResourceRecordSets(zone.id))
  }

  /** The calls made once the zone id is known: the zone lookup, the listing when unregistering,
      and the batch when the plan is not empty. */
  function ZoneCalls(task: Task, zoneId: string, plan: seq<Change>): seq<Call> {
    [GetHostedZone(zoneId)]
    + (if task == UnregisterTask then [ListResourceRecordSets(zoneId)] else [])
    + (if plan == [] then [] else [ChangeResourceRecordSets(zoneId, plan)])
  }

  /** At most one batch, as the last call, carrying the whole non-empty plan. */
  predicate OneBatchAtEnd(outcome: Outcome, calls: seq<Call>) {
    forall i :: 0 <= i < |calls| && calls[i].ChangeResourceRecordSets? ==>
      i == |calls| - 1 && calls[i].changes != [] && outcome == Applied(calls[i].changes)
  }

  /** The steps after the zone tag is read: fetch the zone (its `Id` set to the tag's value), run
      the selected planner, and send a non-empty plan to that zone as one batch. */
  method Reconcile(task: Task, instance: Instance, zoneId: string, env: Collaborators)
    returns (outcome: Outcome, calls: seq<Call>)
    ensures var plan := Plan(task, instance, ResolvedZone(env, zoneId), env);
      outcome == (if plan == [] then NoChanges else Applied(plan)) &&
      calls == ZoneCalls(task, zoneId, plan)
    ensures |calls| >= 1 && calls[0] == GetHostedZone(zoneId)
    ensures OneBatchAtEnd(outcome, calls)
  {
    calls := [GetHostedZone(zoneId)];
    var hostedZone := ResolvedZone(env, zoneId);

    var changes: seq<Change>;
    if task == RegisterTask {
      changes := Register(instance, hostedZone, env.toAscii);
    } else {
      calls := calls + [ListResourceRecordSets(hostedZone.id)];
      changes := Unregister(instance.instanceId, hostedZone.name, env.listResourceRecordSets(hostedZone.id));
    }
    if |changes| == 0 {
      return NoChanges, calls;
    }

    calls := calls + [ChangeResourceRecordSets(zoneId, changes)];
    outcome := Applied(changes);
  }

  /** handler: the driver, terminal at the first unmet precondition. */
  method Handle(event: Event, env: Collaborators) returns (outcome: Outcome, calls: seq<Call>)
    // Any state other than running, stopped and terminated is ignored before any call.
    ensures TaskFor(event.state).None? <==> outcome == Ignored
    ensures outcome == Ignored ==> calls == []
    // Otherwise the instance is looked up first, filtered on the zone tag key.
    ensures outcome != Ignored ==> |calls| >= 1 && calls[0] == DescribeInstances(event.instanceId, HostedZoneKey)
    // No instance, or no truthy zone tag: stop before the zone lookup.
    ensures outcome == NoMatchingInstance <==>
      TaskFor(event.state).Some? && FirstInstance(env.describeInstances(event.instanceId)).None?
    ensures outcome == NoHostedZone <==>
      TaskFor(event.state).Some? && FirstInstance(env.describeInstances(event.instanceId)).Some? &&
      !Truthy(TagValue(FirstInstance(env.describeInstances(event.instanceId)).value.tags, HostedZoneKey))
    ensures outcome == NoMatchingInstance || outcome == NoHostedZone ==> |calls| == 1
    // Otherwise the zone named by the tag is fetched, the plan made, and a non-empty plan sent as one batch.
    ensures outcome == NoChanges || outcome.Applied? ==>
      TaskFor(event.state).Some? && FirstInstance(env.describeInstances(event.instanceId)).Some? &&
      var instance := FirstInstance(env.describeInstances(event.instanceId)).value;
      Truthy(TagValue(instance.tags, HostedZoneKey)) &&
      var zoneId := TagValue(instance.tags, HostedZoneKey).value;
      var plan := Plan(TaskFor(event.state).value, instance, ResolvedZone(env, zoneId), env);
      outcome == (if plan == [] then NoChanges else Applied(plan)) &&
      calls == [DescribeInstances(event.instanceId, HostedZoneKey)] + ZoneCalls(TaskFor(event.state).value, zoneId, plan)
    ensures !outcome.Rejected?
    // At most one batch is sent, as the last call, and only with a non-empty plan.
    ensures OneBatchAtEnd(outcome, calls)
  {
    var task := TaskFor(event.state);
    if task.None? {
      return Ignored, [];
    }

    calls := [DescribeInstances(event.instanceId, HostedZoneKey)];
    var found := FirstInstance(env.describeInstances(event.instanceId));
    if found.None? {
      return NoMatchingInstance, calls;
    }
    var instance := found.value;

    var zoneId := GetTagValue(instance, HostedZoneKey);
    if !Truthy(zoneId) {
      return NoHostedZone, calls;
    }

    var zoneCalls;
    outcome, zoneCalls := Reconcile(task.value, instance, zoneId.value, env);
    calls := calls + zoneCalls;
  }
}
