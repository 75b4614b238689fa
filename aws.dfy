/** What the ECS, EC2 and SSM APIs answer, as data.

    Every API operation the aggregator calls is a map from the request it is given
    to the response it returns; a request that is not in the map stands for a call
    that raised (an unknown cluster, a throttled or denied call, a network failure).
    Nothing is assumed about how the answers of different operations agree. */
module Aws {
  import opened Wrappers

  type Arn = string

  /** An element of `describe_container_instances(...)['containerInstances']`. */
  datatype ContainerInstance = ContainerInstance(ec2InstanceId: string, status: string, runningTasksCount: int)

  /** An element of `Reservations[i]['Instances']` from EC2 `describe_instances`. */
  datatype Ec2Instance = Ec2Instance(instanceType: string, stateName: string)

  datatype Reservation = Reservation(instances: seq<Ec2Instance>)

  /** A container of a task; `cpu` and `memory` are absent when the task does not set them. */
  datatype Container = Container(name: string, lastStatus: string, cpu: Option<string>, memory: Option<string>)

  /** An element of `describe_tasks(...)['tasks']`; `containerInstanceArn` is absent
      for a task that is not placed on a container instance. */
  datatype Task = Task(taskArn: Arn, containerInstanceArn: Option<Arn>, containers: seq<Container>, createdAt: string)

  /** An element of `describe_services(...)['services']`. */
  datatype Service = Service(
    serviceName: string, status: string, taskDefinition: Arn,
    desiredCount: int, runningCount: int, pendingCount: int)

  /** `describe_task_definition(...)['taskDefinition']`; `registeredAt` is already formatted. */
  datatype TaskDefinition = TaskDefinition(
    family: string, revision: int, status: string,
    cpu: Option<string>, memory: Option<string>, registeredAt: string)

  /** An element of SSM `describe_instance_information(...)['InstanceInformationList']`. */
  datatype InstanceInformation = InstanceInformation(pingStatus: string)

  /** The arguments of `list_tasks`: a cluster and, from `get_services`, a service name. */
  datatype TaskFilter = TaskFilter(cluster: string, serviceName: Option<string>)

  /** The answers of the account's APIs, keyed by request. */
  datatype Account = Account(
    clusterArns: Option<seq<Arn>>,
    containerInstanceArns: map<string, seq<Arn>>,
    containerInstances: map<(string, seq<Arn>), seq<ContainerInstance>>,
    reservations: map<seq<string>, seq<Reservation>>,
    serviceArns: map<string, seq<Arn>>,
    services: map<(string, seq<Arn>), seq<Service>>,
    taskArns: map<TaskFilter, seq<Arn>>,
    tasks: map<(string, seq<Arn>), seq<Task>>,
    taskDefinitionArns: map<Option<string>, seq<Arn>>,
    taskDefinitions: map<Arn, TaskDefinition>,
    instanceInformation: map<seq<string>, seq<InstanceInformation>>)

  /** One API request, as it appears in the log of requests an operation sends. */
  datatype Call =
    | ListClusters
    | ListContainerInstances(cluster: string)
    | DescribeContainerInstances(cluster: string, containerInstances: seq<Arn>)
    | DescribeInstances(instanceIds: seq<string>)
    | ListServices(cluster: string)
    | DescribeServices(cluster: string, serviceArns: seq<Arn>)
    | ListTasks(filter: TaskFilter)
    | DescribeTasks(cluster: string, taskArns: seq<Arn>)
    | ListTaskDefinitions(familyPrefix: Option<string>)
    | DescribeTaskDefinition(taskDefinition: Arn)
    | DescribeInstanceInformation(instanceIds: seq<string>)

  /** The text of the exception a failing request raises. */
  function Failure(c: Call): string
  {
    "An error occurred calling " +
    match c
    case ListClusters => "ListClusters"
    case ListContainerInstances(_) => "ListContainerInstances"
    case DescribeContainerInstances(_, _) => "DescribeContainerInstances"
    case DescribeInstances(_) => "DescribeInstances"
    case ListServices(_) => "ListServices"
    case DescribeServices(_, _) => "DescribeServices"
    case ListTasks(_) => "ListTasks"
    case DescribeTasks(_, _) => "DescribeTasks"
    case ListTaskDefinitions(_) => "ListTaskDefinitions"
    case DescribeTaskDefinition(_) => "DescribeTaskDefinition"
    case DescribeInstanceInformation(_) => "DescribeInstanceInformation"
  }

  /** The text of Python's `IndexError` for `[0]` on an empty list. */
  const IndexOutOfRange := "list index out of range"
}
