/** The resource aggregator of `ecsctl/ecs_controller.py`: it joins the answers of
    the ECS, EC2 and SSM list and describe calls into flat rows. */
module EcsController {
  import opened Wrappers
  import opened Lists
  import opened Text
  import opened Aws

  /** `ECSCommandError`: how every aggregator operation reports a failure. */
  datatype Error = CommandError(message: string)

  const InitFailed := "Failed to initialize AWS clients: "
  const ClustersFailed := "Failed to get clusters: "
  const Ec2Failed := "Failed to get EC2 instances: "
  const ContainersFailed := "Failed to get containers: "
  const DetailsFailed := "Failed to get instance details: "
  const ServicesFailed := "Failed to get services: "
  const TaskDefinitionsFailed := "Failed to get task definitions: "

  /** The placeholder for a missing cpu, memory or host. */
  const NotApplicable := "N/A"

  /** The SSM ping status of a reachable agent. */
  const Online := "Online"

  /** The most services one `describe_services` request may name. */
  const DescribeServicesLimit := 10

  /** An initialised `ECSController`: the APIs its clients reach, and the profile and
      region its `AWSClient` settled on. */
  datatype Controller = Controller(aws: Account, profileName: Option<string>, region: string)

  /** `except Exception as e: raise ECSCommandError(f"{prefix}{e}")`. */
  function Wrap<T>(r: Result<T, string>, prefix: string): (w: Result<T, Error>)
    ensures w.Ok? <==> r.Ok?
    ensures r.Ok? ==> w.value == r.value
    ensures r.Err? ==> w.error.message == prefix + r.error
  {
    match r
    case Ok(v) => Ok(v)
    case Err(cause) => Err(CommandError(prefix + cause))
  }

  /** `ECSController()`: whatever setting up the clients raised becomes an ECSCommandError. */
  function Initialize(clients: Result<Controller, string>): (r: Result<Controller, Error>)
    ensures r.Ok? <==> clients.Ok?
    ensures r.Ok? ==> r.value == clients.value
    ensures r.Err? ==> r.error.message == InitFailed + clients.error
  {
    Wrap(clients, InitFailed)
  }

  // ---------------------------------------------------------------- clusters

  /** `get_clusters`: the name of each listed cluster, in list order. */
  function GetClusters(aws: Account): (r: Result<seq<string>, Error>)
    ensures r.Ok? <==> aws.clusterArns.Some?
    ensures r.Ok? ==> |r.value| == |aws.clusterArns.value|
    ensures r.Ok? ==> forall k :: 0 <= k < |r.value| ==>
      r.value[k] == LastSegment(aws.clusterArns.value[k], '/')
    ensures r.Err? ==> r.error.message == ClustersFailed + Failure(ListClusters)
  {
    match aws.clusterArns
    case None => Err(CommandError(ClustersFailed + Failure(ListClusters)))
    case Some(arns) => Ok(seq(|arns|, k requires 0 <= k < |arns| => LastSegment(arns[k], '/')))
  }

  /** The names of the clusters listed as `arn:...:cluster/<name>` ARNs are those names. */
  lemma {:induction false} GetClustersNames(aws: Account, prefixes: seq<string>, names: seq<string>)
    requires |prefixes| == |names|
    requires forall k :: 0 <= k < |names| ==> '/' !in names[k]
    requires aws.clusterArns == Some(seq(|names|, k requires 0 <= k < |names| => prefixes[k] + "/" + names[k]))
    ensures GetClusters(aws) == Ok(names)
  {
    var arns := aws.clusterArns.value;
    var r := GetClusters(aws).value;
    assert |r| == |names|;
    forall k | 0 <= k < |names|
      ensures r[k] == names[k]
    {
      assert arns[k] == prefixes[k] + ['/'] + names[k];
      LastSegmentAfter(prefixes[k], '/', names[k]);
    }
    assert r == names;
  }

  // ---------------------------------------------------------- EC2 instances

  /** A row of `get_ec2_instances`. */
  datatype Ec2Row = Ec2Row(instanceId: string, instanceType: string, state: string, status: string, runningTasks: int)

  /** `describe_instances(InstanceIds=[id])['Reservations'][0]['Instances'][0]`. */
  function FirstInstance(aws: Account, id: string): Result<Ec2Instance, string>
  {
    if [id] !in aws.reservations then Err(Failure(DescribeInstances([id])))
    else
      var reservations := aws.reservations[[id]];
      if reservations == [] || reservations[0].instances == [] then Err(IndexOutOfRange)
      else Ok(reservations[0].instances[0])
  }

  /** The row of one described container instance, joined with its EC2 instance. */
  function Ec2RowOf(ci: ContainerInstance, ec2: Ec2Instance): Ec2Row
  {
    Ec2Row(ci.ec2InstanceId, ec2.instanceType, ec2.stateName, ci.status, ci.runningTasksCount)
  }

  /** The rows the loop over the described container instances builds, or the first failure. */
  function Ec2RowsFrom(aws: Account, described: seq<ContainerInstance>): Result<seq<Ec2Row>, string>
    decreases |described|
  {
    if described == [] then Ok([])
    else
      match FirstInstance(aws, described[0].ec2InstanceId)
      case Err(e) => Err(e)
      case Ok(ec2) => Prepend([Ec2RowOf(described[0], ec2)], Ec2RowsFrom(aws, described[1..]))
  }

  /** What `get_ec2_instances` computes, before its failure is wrapped. */
  function Ec2RowsOf(aws: Account, cluster: string): Result<seq<Ec2Row>, string>
  {
    if cluster !in aws.containerInstanceArns then Err(Failure(ListContainerInstances(cluster)))
    else
      var listed := aws.containerInstanceArns[cluster];
      if listed == [] then Ok([])
      else if (cluster, listed) !in aws.containerInstances then Err(Failure(DescribeContainerInstances(cluster, listed)))
      else Ec2RowsFrom(aws, aws.containerInstances[(cluster, listed)])
  }

  /** The EC2 rows are one per described container instance, in response order, each
      joined with the first instance of its first reservation; they exist exactly when
      every instance can be looked up, and a failure is the failure of one lookup. */
  lemma {:induction false} Ec2RowsJoined(aws: Account, described: seq<ContainerInstance>)
    ensures Ec2RowsFrom(aws, described).Ok? <==>
      forall k :: 0 <= k < |described| ==> FirstInstance(aws, described[k].ec2InstanceId).Ok?
    ensures Ec2RowsFrom(aws, described).Ok? ==>
      var rows := Ec2RowsFrom(aws, described).value;
      && |rows| == |described|
      && forall k :: 0 <= k < |described| ==>
           rows[k] == Ec2RowOf(described[k], FirstInstance(aws, described[k].ec2InstanceId).value)
    ensures Ec2RowsFrom(aws, described).Err? ==>
      exists k :: (0 <= k < |described| && FirstInstance(aws, described[k].ec2InstanceId).Err? &&
        Ec2RowsFrom(aws, described).error == FirstInstance(aws, described[k].ec2InstanceId).error)
    decreases |described|
  {
    if described != [] {
      Ec2RowsJoined(aws, described[1..]);
      assert forall k :: 1 <= k < |described| ==> described[1..][k - 1] == described[k];
      if FirstInstance(aws, described[0].ec2InstanceId).Ok? && Ec2RowsFrom(aws, described[1..]).Err? {
        var k :| (0 <= k < |described[1..]| && FirstInstance(aws, described[1..][k].ec2InstanceId).Err? &&
          Ec2RowsFrom(aws, described[1..]).error == FirstInstance(aws, described[1..][k].ec2InstanceId).error);
        assert described[1..][k] == described[k + 1];
      }
    }
  }

  /** `get_ec2_instances`: one row per described container instance, in the order of the
      describe response, joined with its EC2 instance; no describe call for an empty list. */
  method GetEc2Instances(aws: Account, cluster: string) returns (r: Result<seq<Ec2Row>, Error>, calls: seq<Call>)
    ensures r == Wrap(Ec2RowsOf(aws, cluster), Ec2Failed)
    ensures |calls| >= 1 && calls[0] == ListContainerInstances(cluster)
    ensures cluster !in aws.containerInstanceArns ==>
      && r == Err(CommandError(Ec2Failed + Failure(ListContainerInstances(cluster))))
      && calls == [ListContainerInstances(cluster)]
    ensures cluster in aws.containerInstanceArns && aws.containerInstanceArns[cluster] == [] ==>
      r == Ok([]) && calls == [ListContainerInstances(cluster)]
    ensures cluster in aws.containerInstanceArns && aws.containerInstanceArns[cluster] != [] ==>
      var listed := aws.containerInstanceArns[cluster];
      && |calls| >= 2 && calls[1] == DescribeContainerInstances(cluster, listed)
      && ((cluster, listed) !in aws.containerInstances ==>
            r == Err(CommandError(Ec2Failed + Failure(DescribeContainerInstances(cluster, listed)))))
    ensures cluster in aws.containerInstanceArns && aws.containerInstanceArns[cluster] != [] &&
            (cluster, aws.containerInstanceArns[cluster]) in aws.containerInstances ==>
      var listed := aws.containerInstanceArns[cluster];
      var described := aws.containerInstances[(cluster, listed)];
      && (r.Ok? <==> forall k :: 0 <= k < |described| ==> FirstInstance(aws, described[k].ec2InstanceId).Ok?)
      && (r.Ok? ==> |r.value| == |described|)
      && (r.Ok? ==> forall k :: 0 <= k < |described| ==>
            var ec2 := FirstInstance(aws, described[k].ec2InstanceId).value;
            && r.value[k].instanceId == described[k].ec2InstanceId
            && r.value[k].status == described[k].status
            && r.value[k].runningTasks == described[k].runningTasksCount
            && r.value[k].instanceType == ec2.instanceType
            && r.value[k].state == ec2.stateName)
      && (r.Ok? ==>
            calls == [ListContainerInstances(cluster), DescribeContainerInstances(cluster, listed)] +
                      seq(|described|, k requires 0 <= k < |described| => DescribeInstances([described[k].ec2InstanceId])))
      && (r.Err? ==> exists k :: (0 <= k < |described| && FirstInstance(aws, described[k].ec2InstanceId).Err? &&
            r.error.message == Ec2Failed + FirstInstance(aws, described[k].ec2InstanceId).error))
  {
    calls := [ListContainerInstances(cluster)];
    if cluster !in aws.containerInstanceArns {
      return Err(CommandError(Ec2Failed + Failure(ListContainerInstances(cluster)))), calls;
    }
    var containerInstances := aws.containerInstanceArns[cluster];
    if containerInstances == [] {
      return Ok([]), calls;
    }
    calls := calls + [DescribeContainerInstances(cluster, containerInstances)];
    if (cluster, containerInstances) !in aws.containerInstances {
      return Err(CommandError(Ec2Failed + Failure(DescribeContainerInstances(cluster, containerInstances)))), calls;
    }
    var response := aws.containerInstances[(cluster, containerInstances)];
    Ec2RowsJoined(aws, response);
    var rows;
    rows, calls := JoinInstances(aws, response, calls);
    r := Wrap(rows, Ec2Failed);
  }

  /** The loop over the described container instances, one EC2 lookup each. */
  method JoinInstances(aws: Account, response: seq<ContainerInstance>, before: seq<Call>)
    returns (r: Result<seq<Ec2Row>, string>, calls: seq<Call>)
    ensures r == Ec2RowsFrom(aws, response)
    ensures |calls| >= |before| && calls[..|before|] == before
    ensures r.Ok? ==>
      calls == before + seq(|response|, k requires 0 <= k < |response| => DescribeInstances([response[k].ec2InstanceId]))
  {
    calls := before;
    var instances: seq<Ec2Row> := [];
    assert response[0..] == response;
    PrependEmpty(Ec2RowsFrom(aws, response));
    for k := 0 to |response|
      invariant Ec2RowsFrom(aws, response) == Prepend(instances, Ec2RowsFrom(aws, response[k..]))
      invariant calls == before + seq(k, j requires 0 <= j < k => DescribeInstances([response[j].ec2InstanceId]))
    {
      var instance := response[k];
      assert response[k..][1..] == response[k + 1..];
      calls := calls + [DescribeInstances([instance.ec2InstanceId])];
      var ec2 := FirstInstance(aws, instance.ec2InstanceId);
      if ec2.Err? {
        return Err(ec2.error), calls;
      }
      PrependTwice(instances, [Ec2RowOf(instance, ec2.value)], Ec2RowsFrom(aws, response[k + 1..]));
      instances := instances + [Ec2RowOf(instance, ec2.value)];
    }
    assert response[|response|..] == [];
    assert instances + [] == instances;
    return Ok(instances), calls;
  }

  /** The row `next(...)` picks: the first whose instance id is `id`, or `None`. */
  function FirstMatch(rows: seq<Ec2Row>, id: string): (r: Option<Ec2Row>)
    ensures r.None? <==> forall k :: 0 <= k < |rows| ==> rows[k].instanceId != id
    ensures r.Some? ==> exists k :: (0 <= k < |rows| && rows[k] == r.value && r.value.instanceId == id &&
      forall j :: 0 <= j < k ==> rows[j].instanceId != id)
  {
    if rows == [] then None
    else if rows[0].instanceId == id then Some(rows[0])
    else FirstMatch(rows[1..], id)
  }

  /** `id` is the EC2 instance of one of the container instances the cluster lists. */
  predicate InCluster(aws: Account, cluster: string, id: string)
  {
    && cluster in aws.containerInstanceArns
    && aws.containerInstanceArns[cluster] != []
    && (cluster, aws.containerInstanceArns[cluster]) in aws.containerInstances
    && exists ci :: ci in aws.containerInstances[(cluster, aws.containerInstanceArns[cluster])] && ci.ec2InstanceId == id
  }

  /** `get_instance_details`: the instance with id `id` among the cluster's rows, `None`
      exactly when the cluster has no such instance; a failure of the listing is reported
      under this operation's own prefix. */
  method GetInstanceDetails(aws: Account, cluster: string, id: string)
    returns (r: Result<Option<Ec2Row>, Error>, calls: seq<Call>)
    ensures |calls| >= 1 && calls[0] == ListContainerInstances(cluster)
    ensures Ec2RowsOf(aws, cluster).Ok? ==> r == Ok(FirstMatch(Ec2RowsOf(aws, cluster).value, id))
    ensures Ec2RowsOf(aws, cluster).Err? ==>
      r == Err(CommandError(DetailsFailed + Ec2Failed + Ec2RowsOf(aws, cluster).error))
    ensures cluster in aws.containerInstanceArns && aws.containerInstanceArns[cluster] == [] ==> r == Ok(None)
    ensures r.Ok? ==> (r.value.Some? <==> InCluster(aws, cluster, id))
    ensures r.Ok? && r.value.Some? ==> r.value.value.instanceId == id
    ensures r.Err? ==> exists cause :: r.error.message == DetailsFailed + Ec2Failed + cause
  {
    var rows;
    rows, calls := GetEc2Instances(aws, cluster);
    match rows
    case Err(e) =>
      r := Err(CommandError(DetailsFailed + e.message));
      assert r.error.message == DetailsFailed + Ec2Failed + Ec2RowsOf(aws, cluster).error;
    case Ok(instances) =>
      r := Ok(FirstMatch(instances, id));
      if InCluster(aws, cluster, id) {
        var described := aws.containerInstances[(cluster, aws.containerInstanceArns[cluster])];
        var ci :| ci in described && ci.ec2InstanceId == id;
        var k :| 0 <= k < |described| && described[k] == ci;
        assert instances[k].instanceId == id;
      }
  }

  // ------------------------------------------------------------- containers

  /** A row of `get_containers`. */
  datatype ContainerRow = ContainerRow(
    name: string, status: string, taskId: string, cpu: string, memory: string,
    ec2Instance: string, created: string)

  /** `if container_instance_arn:`: the task names a (non-empty) container instance ARN. */
  predicate Placed(t: Task)
  {
    t.containerInstanceArn.Some? && t.containerInstanceArn.value != ""
  }

  /** `describe_container_instances(cluster, [arn])['containerInstances'][0]['ec2InstanceId']`. */
  function HostId(aws: Account, cluster: string, arn: Arn): Result<string, string>
  {
    if (cluster, [arn]) !in aws.containerInstances then Err(Failure(DescribeContainerInstances(cluster, [arn])))
    else
      var found := aws.containerInstances[(cluster, [arn])];
      if found == [] then Err(IndexOutOfRange) else Ok(found[0].ec2InstanceId)
  }

  /** The EC2 column of a task's containers: its host's id, or 'N/A' when it is not placed. */
  function HostLabel(aws: Account, cluster: string, t: Task): Result<string, string>
  {
    if Placed(t) then HostId(aws, cluster, t.containerInstanceArn.value) else Ok(NotApplicable)
  }

  /** The rows of one task's containers, in container order, on host `host`. */
  function TaskRows(t: Task, host: string): (rows: seq<ContainerRow>)
    ensures |rows| == |t.containers|
    ensures forall j :: 0 <= j < |rows| ==>
      && rows[j].name == t.containers[j].name
      && rows[j].status == t.containers[j].lastStatus
      && rows[j].taskId == LastSegment(t.taskArn, '/')
      && rows[j].cpu == t.containers[j].cpu.GetOr(NotApplicable)
      && rows[j].memory == t.containers[j].memory.GetOr(NotApplicable)
      && rows[j].ec2Instance == host
      && rows[j].created == t.createdAt
  {
    seq(|t.containers|, j requires 0 <= j < |t.containers| =>
      var c := t.containers[j];
      ContainerRow(c.name, c.lastStatus, LastSegment(t.taskArn, '/'),
                   c.cpu.GetOr(NotApplicable), c.memory.GetOr(NotApplicable), host, t.createdAt))
  }

  /** The rows the loop over the described tasks builds, or the first failure. */
  function ContainerRowsOf(aws: Account, cluster: string, tasks: seq<Task>): Result<seq<ContainerRow>, string>
    decreases |tasks|
  {
    if tasks == [] then Ok([])
    else
      match HostLabel(aws, cluster, tasks[0])
      case Err(e) => Err(e)
      case Ok(host) => Prepend(TaskRows(tasks[0], host), ContainerRowsOf(aws, cluster, tasks[1..]))
  }

  /** What `get_containers` computes, before its failure is wrapped. */
  function ContainersOf(aws: Account, cluster: string): Result<seq<ContainerRow>, string>
  {
    var filter := TaskFilter(cluster, None);
    if filter !in aws.taskArns then Err(Failure(ListTasks(filter)))
    else
      var arns := aws.taskArns[filter];
      if arns == [] then Ok([])
      else if (cluster, arns) !in aws.tasks then Err(Failure(DescribeTasks(cluster, arns)))
      else ContainerRowsOf(aws, cluster, aws.tasks[(cluster, arns)])
  }

  /** The container rows are the rows of each task in task order, and they exist exactly
      when the host of every placed task can be described. */
  lemma {:induction false} ContainerRowsByTask(aws: Account, cluster: string, tasks: seq<Task>)
    ensures ContainerRowsOf(aws, cluster, tasks).Ok? <==>
      forall k :: 0 <= k < |tasks| ==> HostLabel(aws, cluster, tasks[k]).Ok?
    ensures ContainerRowsOf(aws, cluster, tasks).Ok? ==>
      && (forall k :: 0 <= k < |tasks| ==> HostLabel(aws, cluster, tasks[k]).Ok?)
      && ContainerRowsOf(aws, cluster, tasks).value ==
         Concat(seq(|tasks|, k requires 0 <= k < |tasks| && HostLabel(aws, cluster, tasks[k]).Ok? =>
           TaskRows(tasks[k], HostLabel(aws, cluster, tasks[k]).value)))
    decreases |tasks|
  {
    if tasks != [] {
      ContainerRowsByTask(aws, cluster, tasks[1..]);
      assert forall k :: 1 <= k < |tasks| ==> tasks[1..][k - 1] == tasks[k];
      if ContainerRowsOf(aws, cluster, tasks).Ok? {
        var all := seq(|tasks|, k requires 0 <= k < |tasks| && HostLabel(aws, cluster, tasks[k]).Ok? =>
          TaskRows(tasks[k], HostLabel(aws, cluster, tasks[k]).value));
        var rest := seq(|tasks| - 1, k requires 0 <= k < |tasks| - 1 && HostLabel(aws, cluster, tasks[1..][k]).Ok? =>
          TaskRows(tasks[1..][k], HostLabel(aws, cluster, tasks[1..][k]).value));
        assert all[1..] == rest;
      }
    }
  }

  /** `get_containers`: the rows of every container of every task of the cluster. */
  method GetContainers(aws: Account, cluster: string) returns (r: Result<seq<ContainerRow>, Error>, calls: seq<Call>)
    ensures r == Wrap(ContainersOf(aws, cluster), ContainersFailed)
    ensures |calls| >= 1 && calls[0] == ListTasks(TaskFilter(cluster, None))
    ensures TaskFilter(cluster, None) in aws.taskArns && aws.taskArns[TaskFilter(cluster, None)] == [] ==>
      calls == [ListTasks(TaskFilter(cluster, None))]
  {
    var filter := TaskFilter(cluster, None);
    calls := [ListTasks(filter)];
    if filter !in aws.taskArns {
      return Err(CommandError(ContainersFailed + Failure(ListTasks(filter)))), calls;
    }
    var tasks := aws.taskArns[filter];
    var containers: seq<ContainerRow> := [];
    if tasks != [] {
      calls := calls + [DescribeTasks(cluster, tasks)];
      if (cluster, tasks) !in aws.tasks {
        return Err(CommandError(ContainersFailed + Failure(DescribeTasks(cluster, tasks)))), calls;
      }
      var response := aws.tasks[(cluster, tasks)];
      assert response[0..] == response;
      PrependEmpty(ContainerRowsOf(aws, cluster, response));
      for k := 0 to |response|
        invariant ContainerRowsOf(aws, cluster, response) ==
          Prepend(containers, ContainerRowsOf(aws, cluster, response[k..]))
        invariant |calls| >= 1 && calls[0] == ListTasks(filter)
      {
        var task := response[k];
        assert response[k..][1..] == response[k + 1..];
        var ec2InstanceId := NotApplicable;
        if Placed(task) {
          calls := calls + [DescribeContainerInstances(cluster, [task.containerInstanceArn.value])];
          var host := HostId(aws, cluster, task.containerInstanceArn.value);
          if host.Err? {
            return Err(CommandError(ContainersFailed + host.error)), calls;
          }
          ec2InstanceId := host.value;
        }
        ghost var before := containers;
        for j := 0 to |task.containers|
          invariant containers == before + TaskRows(task, ec2InstanceId)[..j]
        {
          var container := task.containers[j];
          containers := containers + [ContainerRow(
            container.name, container.lastStatus, LastSegment(task.taskArn, '/'),
            container.cpu.GetOr(NotApplicable), container.memory.GetOr(NotApplicable),
            ec2InstanceId, task.createdAt)];
          assert TaskRows(task, ec2InstanceId)[..j + 1] == TaskRows(task, ec2InstanceId)[..j] + [TaskRows(task, ec2InstanceId)[j]];
        }
        assert TaskRows(task, ec2InstanceId)[..|task.containers|] == TaskRows(task, ec2InstanceId);
        PrependTwice(before, TaskRows(task, ec2InstanceId), ContainerRowsOf(aws, cluster, response[k + 1..]));
      }
      assert response[|response|..] == [];
      assert containers + [] == containers;
    }
    return Ok(containers), calls;
  }

  // --------------------------------------------------------------- services

  /** A row of `get_services`; `ec2Instances` is the `', '`-joined set of host ids. */
  datatype ServiceRow = ServiceRow(
    serviceName: string, status: string, taskDefinition: Arn,
    desiredCount: int, runningCount: int, pendingCount: int, ec2Instances: string)

  /** `ec2_instance_ids.add(id)`, the set kept in first-insertion order. */
  function AddId(ids: seq<string>, id: string): seq<string>
  {
    if id in ids then ids else ids + [id]
  }

  /** The set the loop over a service's tasks builds, starting from `ids`, or the first failure. */
  function HostIds(aws: Account, cluster: string, tasks: seq<Task>, ids: seq<string>): Result<seq<string>, string>
    decreases |tasks|
  {
    if tasks == [] then Ok(ids)
    else if !Placed(tasks[0]) then HostIds(aws, cluster, tasks[1..], ids)
    else
      match HostId(aws, cluster, tasks[0].containerInstanceArn.value)
      case Err(e) => Err(e)
      case Ok(id) => HostIds(aws, cluster, tasks[1..], AddId(ids, id))
  }

  /** `id` is the host of one of the placed tasks among `tasks`. */
  predicate HostOfSome(aws: Account, cluster: string, tasks: seq<Task>, id: string)
  {
    exists k :: 0 <= k < |tasks| && Placed(tasks[k]) && HostId(aws, cluster, tasks[k].containerInstanceArn.value) == Ok(id)
  }

  /** Collecting hosts succeeds exactly when every placed task's host can be described; the
      result then holds each id once, and exactly the ids of `ids` and of the placed tasks. */
  lemma {:induction false} HostIdsSet(aws: Account, cluster: string, tasks: seq<Task>, ids: seq<string>)
    requires NoDup(ids)
    ensures HostIds(aws, cluster, tasks, ids).Ok? <==>
      forall k :: 0 <= k < |tasks| && Placed(tasks[k]) ==> HostId(aws, cluster, tasks[k].containerInstanceArn.value).Ok?
    ensures HostIds(aws, cluster, tasks, ids).Ok? ==>
      var r := HostIds(aws, cluster, tasks, ids).value;
      && NoDup(r)
      && forall id :: id in r <==> id in ids || HostOfSome(aws, cluster, tasks, id)
    decreases |tasks|
  {
    if tasks != [] {
      var t := tasks[0];
      assert forall k :: 1 <= k < |tasks| ==> tasks[1..][k - 1] == tasks[k];
      if !Placed(t) {
        HostIdsSet(aws, cluster, tasks[1..], ids);
        forall id | HostOfSome(aws, cluster, tasks, id)
          ensures HostOfSome(aws, cluster, tasks[1..], id)
        {
          var k :| 0 <= k < |tasks| && Placed(tasks[k]) && HostId(aws, cluster, tasks[k].containerInstanceArn.value) == Ok(id);
          assert tasks[1..][k - 1] == tasks[k];
        }
      } else {
        match HostId(aws, cluster, t.containerInstanceArn.value)
        case Err(_) =>
        case Ok(id0) =>
          var ids' := AddId(ids, id0);
          assert NoDup(ids');
          HostIdsSet(aws, cluster, tasks[1..], ids');
          forall id | HostOfSome(aws, cluster, tasks, id)
            ensures id == id0 || HostOfSome(aws, cluster, tasks[1..], id)
          {
            var k :| 0 <= k < |tasks| && Placed(tasks[k]) && HostId(aws, cluster, tasks[k].containerInstanceArn.value) == Ok(id);
            if k > 0 {
              assert tasks[1..][k - 1] == tasks[k];
            }
          }
          assert HostOfSome(aws, cluster, tasks, id0);
          forall id | HostOfSome(aws, cluster, tasks[1..], id)
            ensures HostOfSome(aws, cluster, tasks, id)
          {
            var k :| 0 <= k < |tasks[1..]| && Placed(tasks[1..][k]) && HostId(aws, cluster, tasks[1..][k].containerInstanceArn.value) == Ok(id);
            assert tasks[k + 1] == tasks[1..][k];
          }
      }
    }
  }

  /** The tasks `describe_tasks` returns for a service, `[]` when it lists none. */
  function ServiceTasks(aws: Account, cluster: string, s: Service): Result<seq<Task>, string>
  {
    var filter := TaskFilter(cluster, Some(s.serviceName));
    if filter !in aws.taskArns then Err(Failure(ListTasks(filter)))
    else
      var arns := aws.taskArns[filter];
      if arns == [] then Ok([])
      else if (cluster, arns) !in aws.tasks then Err(Failure(DescribeTasks(cluster, arns)))
      else Ok(aws.tasks[(cluster, arns)])
  }

  /** The host ids of one service's tasks. */
  function ServiceHostIds(aws: Account, cluster: string, s: Service): Result<seq<string>, string>
  {
    match ServiceTasks(aws, cluster, s)
    case Err(e) => Err(e)
    case Ok(tasks) => HostIds(aws, cluster, tasks, [])
  }

  /** The row of a service whose hosts are `ids`. */
  function ServiceRowOf(s: Service, ids: seq<string>): ServiceRow
  {
    ServiceRow(s.serviceName, s.status, s.taskDefinition, s.desiredCount, s.runningCount, s.pendingCount,
               Join(ids, ", "))
  }

  /** The rows of the services of one describe response. */
  function ServiceRowsOf(aws: Account, cluster: string, services: seq<Service>): Result<seq<ServiceRow>, string>
    decreases |services|
  {
    if services == [] then Ok([])
    else
      match ServiceHostIds(aws, cluster, services[0])
      case Err(e) => Err(e)
      case Ok(ids) => Prepend([ServiceRowOf(services[0], ids)], ServiceRowsOf(aws, cluster, services[1..]))
  }

  /** The rows of one batch: describe it, then build its services' rows. */
  function BatchRows(aws: Account, cluster: string, batch: seq<Arn>): Result<seq<ServiceRow>, string>
  {
    if (cluster, batch) !in aws.services then Err(Failure(DescribeServices(cluster, batch)))
    else ServiceRowsOf(aws, cluster, aws.services[(cluster, batch)])
  }

  /** The rows of `arns`, described `DescribeServicesLimit` at a time. */
  function RowsFrom(aws: Account, cluster: string, arns: seq<Arn>): Result<seq<ServiceRow>, string>
    decreases |arns|
  {
    if arns == [] then Ok([])
    else
      var k := Min(DescribeServicesLimit, |arns|);
      Then(BatchRows(aws, cluster, arns[..k]), RowsFrom(aws, cluster, arns[k..]))
  }

  /** What `get_services` computes, before its failure is wrapped. */
  function ServicesOf(aws: Account, cluster: string): Result<seq<ServiceRow>, string>
  {
    if cluster !in aws.serviceArns then Err(Failure(ListServices(cluster)))
    else RowsFrom(aws, cluster, aws.serviceArns[cluster])
  }

  /** A service's `EC2Instances` names each host once: exactly the hosts of its placed tasks,
      and it is empty when the service has no tasks or none of them is placed. */
  lemma ServiceHostIdsSet(aws: Account, cluster: string, s: Service)
    requires ServiceHostIds(aws, cluster, s).Ok?
    ensures ServiceTasks(aws, cluster, s).Ok?
    ensures var tasks := ServiceTasks(aws, cluster, s).value;
      var ids := ServiceHostIds(aws, cluster, s).value;
      && NoDup(ids)
      && (forall id :: id in ids <==> HostOfSome(aws, cluster, tasks, id))
      && (ids == [] <==> forall k :: 0 <= k < |tasks| ==> !Placed(tasks[k]))
      && (ids == [] ==> ServiceRowOf(s, ids).ec2Instances == "")
  {
    var tasks := ServiceTasks(aws, cluster, s).value;
    HostIdsSet(aws, cluster, tasks, []);
    var ids := ServiceHostIds(aws, cluster, s).value;
    if ids == [] {
      forall k | 0 <= k < |tasks|
        ensures !Placed(tasks[k])
      {
        if Placed(tasks[k]) {
          var id := HostId(aws, cluster, tasks[k].containerInstanceArn.value).value;
          assert HostOfSome(aws, cluster, tasks, id);
        }
      }
    } else {
      assert HostOfSome(aws, cluster, tasks, ids[0]);
    }
  }

  /** The batches among the requests: the `services` argument of each `describe_services`. */
  function DescribedBatches(calls: seq<Call>): seq<seq<Arn>>
  {
    if calls == [] then []
    else (if calls[0].DescribeServices? then [calls[0].serviceArns] else []) + DescribedBatches(calls[1..])
  }

  lemma {:induction false} DescribedBatchesAppend(a: seq<Call>, b: seq<Call>)
    ensures DescribedBatches(a + b) == DescribedBatches(a) + DescribedBatches(b)
  {
    if a != [] {
      DescribedBatchesAppend(a[1..], b);
      assert (a + b)[1..] == a[1..] + b;
    } else {
      assert a + b == b;
    }
  }

  lemma {:induction false} DescribedBatchesNone(calls: seq<Call>)
    requires forall c :: c in calls ==> !c.DescribeServices?
    ensures DescribedBatches(calls) == []
  {
    if calls != [] {
      DescribedBatchesNone(calls[1..]);
    }
  }

  /** The `describe_services` batches of a listing: ceil(N/10) of them, each of 1 to 10
      services, and together exactly the listed services in order. */
  lemma ServiceBatches(listed: seq<Arn>)
    ensures |Chunks(listed, DescribeServicesLimit)| == (|listed| + 9) / 10
    ensures forall b :: b in Chunks(listed, DescribeServicesLimit) ==> 1 <= |b| <= DescribeServicesLimit
    ensures Concat(Chunks(listed, DescribeServicesLimit)) == listed
  {
    ChunksCount(listed, DescribeServicesLimit);
    ChunksBounded(listed, DescribeServicesLimit);
    ChunksConcat(listed, DescribeServicesLimit);
  }

  /** The host ids of `tasks`: the loop over a service's tasks in `get_services`. */
  method CollectHostIds(aws: Account, cluster: string, tasks: seq<Task>)
    returns (r: Result<seq<string>, string>, calls: seq<Call>)
    ensures r == HostIds(aws, cluster, tasks, [])
    ensures forall c :: c in calls ==> c.DescribeContainerInstances?
  {
    var ec2InstanceIds: seq<string> := [];
    calls := [];
    for k := 0 to |tasks|
      invariant HostIds(aws, cluster, tasks, []) == HostIds(aws, cluster, tasks[k..], ec2InstanceIds)
      invariant forall c :: c in calls ==> c.DescribeContainerInstances?
    {
      var task := tasks[k];
      assert tasks[k..][1..] == tasks[k + 1..];
      if Placed(task) {
        calls := calls + [DescribeContainerInstances(cluster, [task.containerInstanceArn.value])];
        var host := HostId(aws, cluster, task.containerInstanceArn.value);
        if host.Err? {
          return Err(host.error), calls;
        }
        ec2InstanceIds := AddId(ec2InstanceIds, host.value);
      }
    }
    assert tasks[|tasks|..] == [];
    return Ok(ec2InstanceIds), calls;
  }

  /** One `describe_services` batch of `get_services` and the rows of the services it returns. */
  method DescribeBatch(aws: Account, cluster: string, batch: seq<Arn>)
    returns (r: Result<seq<ServiceRow>, string>, calls: seq<Call>)
    ensures r == BatchRows(aws, cluster, batch)
    ensures |calls| >= 1 && calls[0] == DescribeServices(cluster, batch)
    ensures forall c :: c in calls[1..] ==> !c.DescribeServices?
  {
    calls := [DescribeServices(cluster, batch)];
    if (cluster, batch) !in aws.services {
      return Err(Failure(DescribeServices(cluster, batch))), calls;
    }
    var response := aws.services[(cluster, batch)];
    var services: seq<ServiceRow> := [];
    assert response[0..] == response;
    PrependEmpty(ServiceRowsOf(aws, cluster, response));
    for j := 0 to |response|
      invariant ServiceRowsOf(aws, cluster, response) == Prepend(services, ServiceRowsOf(aws, cluster, response[j..]))
      invariant |calls| >= 1 && calls[0] == DescribeServices(cluster, batch)
      invariant forall c :: c in calls[1..] ==> !c.DescribeServices?
    {
      var service := response[j];
      assert response[j..][1..] == response[j + 1..];
      var filter := TaskFilter(cluster, Some(service.serviceName));
      assert (calls + [ListTasks(filter)])[1..] == calls[1..] + [ListTasks(filter)];
      calls := calls + [ListTasks(filter)];
      if filter !in aws.taskArns {
        return Err(Failure(ListTasks(filter))), calls;
      }
      var taskArns := aws.taskArns[filter];
      var ec2InstanceIds: Result<seq<string>, string> := Ok([]);
      if taskArns != [] {
        assert (calls + [DescribeTasks(cluster, taskArns)])[1..] == calls[1..] + [DescribeTasks(cluster, taskArns)];
        calls := calls + [DescribeTasks(cluster, taskArns)];
        if (cluster, taskArns) !in aws.tasks {
          return Err(Failure(DescribeTasks(cluster, taskArns))), calls;
        }
        var more;
        ec2InstanceIds, more := CollectHostIds(aws, cluster, aws.tasks[(cluster, taskArns)]);
        assert (calls + more)[1..] == calls[1..] + more;
        assert calls + more == [calls[0]] + (calls[1..] + more);
        calls := calls + more;
      }
      assert ec2InstanceIds == ServiceHostIds(aws, cluster, service);
      if ec2InstanceIds.Err? {
        return Err(ec2InstanceIds.error), calls;
      }
      PrependTwice(services, [ServiceRowOf(service, ec2InstanceIds.value)], ServiceRowsOf(aws, cluster, response[j + 1..]));
      services := services + [ServiceRowOf(service, ec2InstanceIds.value)];
    }
    assert response[|response|..] == [];
    assert services + [] == services;
    return Ok(services), calls;
  }

  /** Every `describe_services` request among `calls` names 1 to `DescribeServicesLimit` services. */
  predicate SmallBatches(calls: seq<Call>)
  {
    forall c :: c in calls && c.DescribeServices? ==> 1 <= |c.serviceArns| <= DescribeServicesLimit
  }

  /** `get_services`: the listed services described in consecutive batches of at most
      `DescribeServicesLimit`, one row per described service. */
  method GetServices(aws: Account, cluster: string) returns (r: Result<seq<ServiceRow>, Error>, calls: seq<Call>)
    ensures r == Wrap(ServicesOf(aws, cluster), ServicesFailed)
    ensures |calls| >= 1 && calls[0] == ListServices(cluster)
    ensures SmallBatches(calls)
    ensures r.Ok? ==> DescribedBatches(calls) == Chunks(aws.serviceArns[cluster], DescribeServicesLimit)
  {
    calls := [ListServices(cluster)];
    if cluster !in aws.serviceArns {
      return Err(CommandError(ServicesFailed + Failure(ListServices(cluster)))), calls;
    }
    var servicesList := aws.serviceArns[cluster];
    var services: seq<ServiceRow> := [];
    assert DescribedBatches(calls) == [];
    if servicesList != [] {
      var i := 0;
      ghost var done := 0;
      PrependEmpty(RowsFrom(aws, cluster, servicesList));
      while i < |servicesList|
        invariant 0 <= i && done == Min(i, |servicesList|)
        invariant RowsFrom(aws, cluster, servicesList) == Prepend(services, RowsFrom(aws, cluster, servicesList[done..]))
        invariant Chunks(servicesList, DescribeServicesLimit) ==
          DescribedBatches(calls) + Chunks(servicesList[done..], DescribeServicesLimit)
        invariant |calls| >= 1 && calls[0] == ListServices(cluster)
        invariant SmallBatches(calls)
        decreases |servicesList| - i
      {
        var hi := Min(i + DescribeServicesLimit, |servicesList|);
        var batch := servicesList[i..hi];
        BatchAt(aws, cluster, servicesList, i);
        var rows, more := DescribeBatch(aws, cluster, batch);
        BatchCalls(calls, more, cluster, batch, Chunks(servicesList[hi..], DescribeServicesLimit));
        calls := calls + more;
        if rows.Err? {
          return Err(CommandError(ServicesFailed + rows.error)), calls;
        }
        PrependTwice(services, rows.value, RowsFrom(aws, cluster, servicesList[hi..]));
        services := services + rows.value;
        i := i + DescribeServicesLimit;
        done := hi;
      }
      assert servicesList[done..] == [];
      assert services + [] == services;
    }
    return Ok(services), calls;
  }

  /** One turn of the batching loop: the batch starting at `i` is the first chunk of what is left. */
  lemma BatchAt(aws: Account, cluster: string, listed: seq<Arn>, i: nat)
    requires i < |listed|
    ensures var hi := Min(i + DescribeServicesLimit, |listed|);
      && RowsFrom(aws, cluster, listed[i..]) == Then(BatchRows(aws, cluster, listed[i..hi]), RowsFrom(aws, cluster, listed[hi..]))
      && Chunks(listed[i..], DescribeServicesLimit) == [listed[i..hi]] + Chunks(listed[hi..], DescribeServicesLimit)
      && 1 <= |listed[i..hi]| <= DescribeServicesLimit
  {
    var rest := listed[i..];
    var hi := Min(i + DescribeServicesLimit, |listed|);
    assert rest[..Min(DescribeServicesLimit, |rest|)] == listed[i..hi];
    assert rest[Min(DescribeServicesLimit, |rest|)..] == listed[hi..];
  }

  /** The requests of one batch add that batch, and nothing else, to the described batches. */
  lemma BatchCalls(calls: seq<Call>, more: seq<Call>, cluster: string, batch: seq<Arn>, after: seq<seq<Arn>>)
    requires |more| >= 1 && more[0] == DescribeServices(cluster, batch)
    requires forall c :: c in more[1..] ==> !c.DescribeServices?
    requires SmallBatches(calls) && 1 <= |batch| <= DescribeServicesLimit
    ensures DescribedBatches(calls) + ([batch] + after) == DescribedBatches(calls + more) + after
    ensures SmallBatches(calls + more)
    ensures |calls| >= 1 ==> (calls + more)[0] == calls[0]
  {
    BatchAdded(calls, more, cluster, batch);
    BatchesStaySmall(calls, more, cluster, batch);
  }

  lemma BatchAdded(calls: seq<Call>, more: seq<Call>, cluster: string, batch: seq<Arn>)
    requires |more| >= 1 && more[0] == DescribeServices(cluster, batch)
    requires forall c :: c in more[1..] ==> !c.DescribeServices?
    ensures DescribedBatches(calls + more) == DescribedBatches(calls) + [batch]
  {
    assert more == [more[0]] + more[1..];
    DescribedBatchesNone(more[1..]);
    DescribedBatchesAppend([more[0]], more[1..]);
    DescribedBatchesAppend(calls, more);
  }

  lemma BatchesStaySmall(calls: seq<Call>, more: seq<Call>, cluster: string, batch: seq<Arn>)
    requires |more| >= 1 && more[0] == DescribeServices(cluster, batch)
    requires forall c :: c in more[1..] ==> !c.DescribeServices?
    requires SmallBatches(calls) && 1 <= |batch| <= DescribeServicesLimit
    ensures SmallBatches(calls + more)
  {
    assert forall j :: 1 <= j < |more| ==> !more[j].DescribeServices? by {
      forall j | 1 <= j < |more|
        ensures !more[j].DescribeServices?
      {
        assert more[1..][j - 1] == more[j];
      }
    }
    forall c | c in calls + more && c.DescribeServices?
      ensures 1 <= |c.serviceArns| <= DescribeServicesLimit
    {
      if c !in calls {
        var k :| 0 <= k < |more| && more[k] == c;
      }
    }
  }

  // ------------------------------------------------------- task definitions

  /** A row of `get_task_definitions`. */
  datatype TaskDefinitionRow = TaskDefinitionRow(
    family: string, revision: int, status: string, cpu: string, memory: string, lastUpdated: string)

  /** The `familyPrefix` argument: passed only for a family that is given and not empty. */
  function FamilyPrefix(family: Option<string>): (prefix: Option<string>)
    ensures prefix.Some? <==> family.Some? && family.value != ""
    ensures prefix.Some? ==> prefix == family
  {
    if family.Some? && family.value != "" then family else None
  }

  /** `get_task_definitions`: one row per listed ARN, in list order, each from its own
      `describe_task_definition` call, with 'N/A' for an absent cpu or memory. */
  method GetTaskDefinitions(aws: Account, family: Option<string>)
    returns (r: Result<seq<TaskDefinitionRow>, Error>, calls: seq<Call>)
    ensures |calls| >= 1 && calls[0] == ListTaskDefinitions(FamilyPrefix(family))
    ensures FamilyPrefix(family) !in aws.taskDefinitionArns ==>
      r == Err(CommandError(TaskDefinitionsFailed + Failure(ListTaskDefinitions(FamilyPrefix(family)))))
    ensures FamilyPrefix(family) in aws.taskDefinitionArns ==>
      var arns := aws.taskDefinitionArns[FamilyPrefix(family)];
      && (r.Ok? <==> forall k :: 0 <= k < |arns| ==> arns[k] in aws.taskDefinitions)
      && (r.Ok? ==> |r.value| == |arns|)
      && (r.Ok? ==> forall k :: 0 <= k < |arns| ==>
            var td := aws.taskDefinitions[arns[k]];
            && r.value[k].family == td.family
            && r.value[k].revision == td.revision
            && r.value[k].status == td.status
            && r.value[k].cpu == td.cpu.GetOr(NotApplicable)
            && r.value[k].memory == td.memory.GetOr(NotApplicable)
            && r.value[k].lastUpdated == td.registeredAt)
      && (r.Ok? ==>
            calls == [ListTaskDefinitions(FamilyPrefix(family))] +
                      seq(|arns|, k requires 0 <= k < |arns| => DescribeTaskDefinition(arns[k])))
      && (r.Err? ==> exists k :: (0 <= k < |arns| && arns[k] !in aws.taskDefinitions &&
            r.error.message == TaskDefinitionsFailed + Failure(DescribeTaskDefinition(arns[k]))))
  {
    var prefix := FamilyPrefix(family);
    calls := [ListTaskDefinitions(prefix)];
    if prefix !in aws.taskDefinitionArns {
      return Err(CommandError(TaskDefinitionsFailed + Failure(ListTaskDefinitions(prefix)))), calls;
    }
    var taskDefArns := aws.taskDefinitionArns[prefix];
    var taskDefinitions: seq<TaskDefinitionRow> := [];
    for k := 0 to |taskDefArns|
      invariant calls == [ListTaskDefinitions(prefix)]
        + seq(k, j requires 0 <= j < k => DescribeTaskDefinition(taskDefArns[j]))
      invariant forall j :: 0 <= j < k ==> taskDefArns[j] in aws.taskDefinitions
      invariant |taskDefinitions| == k
      invariant forall j :: 0 <= j < k ==>
        var td := aws.taskDefinitions[taskDefArns[j]];
        taskDefinitions[j] == TaskDefinitionRow(td.family, td.revision, td.status,
          td.cpu.GetOr(NotApplicable), td.memory.GetOr(NotApplicable), td.registeredAt)
    {
      var arn := taskDefArns[k];
      calls := calls + [DescribeTaskDefinition(arn)];
      if arn !in aws.taskDefinitions {
        return Err(CommandError(TaskDefinitionsFailed + Failure(DescribeTaskDefinition(arn)))), calls;
      }
      var td := aws.taskDefinitions[arn];
      var cpu := td.cpu.GetOr(NotApplicable);
      var memory := td.memory.GetOr(NotApplicable);
      taskDefinitions := taskDefinitions + [TaskDefinitionRow(td.family, td.revision, td.status, cpu, memory, td.registeredAt)];
    }
    return Ok(taskDefinitions), calls;
  }

  // -------------------------------------------------------------------- SSM

  /** `check_ssm_status`: the agent is available iff the inventory lookup succeeds, lists the
      instance, and the first entry's ping status is 'Online'; a failing lookup is `false`. */
  function CheckSsmStatus(aws: Account, instanceId: string): (online: bool)
    ensures online ==> [instanceId] in aws.instanceInformation
    ensures online <==>
      && [instanceId] in aws.instanceInformation
      && |aws.instanceInformation[[instanceId]]| > 0
      && aws.instanceInformation[[instanceId]][0].pingStatus == Online
  {
    if [instanceId] !in aws.instanceInformation then false
    else
      var list := aws.instanceInformation[[instanceId]];
      |list| > 0 && list[0].pingStatus == Online
  }
}
