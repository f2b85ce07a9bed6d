/** The three remote services AWSUtils talks to, seen only through the data they return
    and the calls they receive.

    - ECS: describeTasks, describeContainerInstances, stopTask.
    - EC2: describeInstances.
    - Docker daemon of a container host: list containers, wait for a container to exit,
      remove a container.

    Every outgoing call is appended to the log of a `Cloud`. A reply may depend on the
    request and on the moment it is asked, measured as the number of calls already in the
    log, so a task can change state between two polls. */
module Remote {
  import opened Results

  // ---------------------------------------------------------------- ECS

  datatype NetworkBinding = NetworkBinding(bindIP: string, containerPort: int, hostPort: int)

  datatype Container = Container(name: string, lastStatus: string, networkBindings: seq<NetworkBinding>)

  datatype Task = Task(taskArn: string, containerInstanceArn: string, containers: seq<Container>)

  /** `cluster == None` is a request whose cluster was never set (ECS then uses the default cluster). */
  datatype DescribeTasksRequest = DescribeTasksRequest(cluster: Option<string>, tasks: seq<string>)

  datatype DescribeTasksResult = DescribeTasksResult(tasks: seq<Task>)

  datatype ContainerInstance = ContainerInstance(containerInstanceArn: string, ec2InstanceId: string)

  datatype DescribeContainerInstancesRequest =
    DescribeContainerInstancesRequest(cluster: Option<string>, containerInstances: seq<string>)

  datatype DescribeContainerInstancesResult =
    DescribeContainerInstancesResult(containerInstances: seq<ContainerInstance>)

  datatype StopTaskRequest = StopTaskRequest(cluster: Option<string>, task: string)

  datatype RunTaskResult = RunTaskResult(tasks: seq<Task>)

  // ---------------------------------------------------------------- EC2

  /** Either address may be unset (null in the SDK), e.g. an instance without a public IP. */
  datatype Instance = Instance(instanceId: string, privateIpAddress: Option<string>, publicIpAddress: Option<string>)

  datatype Reservation = Reservation(instances: seq<Instance>)

  datatype DescribeInstancesRequest = DescribeInstancesRequest(instanceIds: seq<string>)

  datatype DescribeInstancesResult = DescribeInstancesResult(reservations: seq<Reservation>)

  // ---------------------------------------------------------------- Docker

  datatype Port = Port(privatePort: int, publicPort: int)

  datatype DockerContainer = DockerContainer(id: string, status: string, ports: seq<Port>)

  // ---------------------------------------------------------------- effects

  /** One outgoing call, as recorded in the effect log. */
  datatype Call =
    | EcsDescribeTasks(tasksRequest: DescribeTasksRequest)
    | EcsDescribeContainerInstances(instancesRequest: DescribeContainerInstancesRequest)
    | Ec2DescribeInstances(ec2Request: DescribeInstancesRequest)
    | EcsStopTask(stopRequest: StopTaskRequest)
    | Sleep(millis: nat)
    | DockerListContainers(host: Option<string>)
    | DockerWaitForExit(host: Option<string>, containerId: string)
    | DockerRemoveContainer(host: Option<string>, containerId: string, force: bool)
  {
    /** A call that only reads the state of ECS or EC2. */
    predicate IsLookup() {
      EcsDescribeTasks? || EcsDescribeContainerInstances? || Ec2DescribeInstances?
    }
  }

  datatype CallKind = TasksQuery | InstancesQuery | Ec2Query | Stop | Pause | Listing | ExitWait | Removal

  function KindOf(c: Call): CallKind {
    match c
    case EcsDescribeTasks(_) => TasksQuery
    case EcsDescribeContainerInstances(_) => InstancesQuery
    case Ec2DescribeInstances(_) => Ec2Query
    case EcsStopTask(_) => Stop
    case Sleep(_) => Pause
    case DockerListContainers(_) => Listing
    case DockerWaitForExit(_, _) => ExitWait
    case DockerRemoveContainer(_, _, _) => Removal
  }

  /** Number of calls of one kind in a log. */
  function Count(log: seq<Call>, kind: CallKind): (n: nat)
    ensures n <= |log|
  {
    if log == [] then 0
    else (if KindOf(log[0]) == kind then 1 else 0) + Count(log[1..], kind)
  }

  /** A kind is counted zero times exactly when no call of the log has it. */
  lemma {:induction false} CountZero(log: seq<Call>, kind: CallKind)
    ensures Count(log, kind) == 0 <==> forall i :: 0 <= i < |log| ==> KindOf(log[i]) != kind
  {
    if log != [] {
      CountZero(log[1..], kind);
      if forall i :: 0 <= i < |log[1..]| ==> KindOf(log[1..][i]) != kind {
        if KindOf(log[0]) != kind {
          forall i | 0 <= i < |log|
            ensures KindOf(log[i]) != kind
          {
            if i > 0 {
              assert log[i] == log[1..][i - 1];
            }
          }
        }
      } else {
        var i :| 0 <= i < |log[1..]| && KindOf(log[1..][i]) == kind;
        assert log[i + 1] == log[1..][i];
      }
    }
  }

  lemma {:induction false} CountAppend(a: seq<Call>, b: seq<Call>, kind: CallKind)
    ensures Count(a + b, kind) == Count(a, kind) + Count(b, kind)
  {
    if a == [] {
      assert a + b == b;
    } else {
      assert (a + b)[0] == a[0];
      assert (a + b)[1..] == a[1..] + b;
      CountAppend(a[1..], b, kind);
    }
  }

  /** Every way a Java method of AWSUtils can end with an exception. */
  datatype Error =
    | NoContainerFound(taskArn: string)          // no task, or a task without containers
    | NoSshPortMapping                           // no binding of the SSH container port
    | NoTaskFound(taskArn: string)
    | NoContainerInstancesFound(taskArn: string)
    | NoEc2InstanceFound(taskArn: string)
    | DockerUnreachable(host: Option<string>)    // the Docker daemon could not be listed
    | Rejected(call: Call)                       // a remote command threw

  /** What the remote services answer. `containers` is None when the Docker daemon of a
      host cannot be reached; `accepts` says whether a command (ECS stopTask, Docker
      remove) completes or throws. */
  datatype Services = Services(
    tasks: (DescribeTasksRequest, nat) -> DescribeTasksResult,
    containerInstances: (DescribeContainerInstancesRequest, nat) -> DescribeContainerInstancesResult,
    instances: (DescribeInstancesRequest, nat) -> DescribeInstancesResult,
    containers: (Option<string>, nat) -> Option<seq<DockerContainer>>,
    accepts: (Call, nat) -> bool)

  /** The plugin's handle on the cloud (AwsCloud with its ECS and EC2 clients, plus the
      Docker clients it opens), with the log of every call made through it. */
  class Cloud {
    const services: Services
    var log: seq<Call>

    constructor (services: Services)
      ensures this.services == services && log == []
    {
      this.services := services;
      log := [];
    }

    method DescribeTasks(request: DescribeTasksRequest) returns (r: DescribeTasksResult)
      modifies this
      ensures log == old(log) + [EcsDescribeTasks(request)]
      ensures r == services.tasks(request, |old(log)|)
    {
      r := services.tasks(request, |log|);
      log := log + [EcsDescribeTasks(request)];
    }

    method DescribeContainerInstances(request: DescribeContainerInstancesRequest)
      returns (r: DescribeContainerInstancesResult)
      modifies this
      ensures log == old(log) + [EcsDescribeContainerInstances(request)]
      ensures r == services.containerInstances(request, |old(log)|)
    {
      r := services.containerInstances(request, |log|);
      log := log + [EcsDescribeContainerInstances(request)];
    }

    method DescribeInstances(request: DescribeInstancesRequest) returns (r: DescribeInstancesResult)
      modifies this
      ensures log == old(log) + [Ec2DescribeInstances(request)]
      ensures r == services.instances(request, |old(log)|)
    {
      r := services.instances(request, |log|);
      log := log + [Ec2DescribeInstances(request)];
    }

    /** Returns false when ECS throws instead of acknowledging the stop. */
    method StopTask(request: StopTaskRequest) returns (ok: bool)
      modifies this
      ensures log == old(log) + [EcsStopTask(request)]
      ensures ok == services.accepts(EcsStopTask(request), |old(log)|)
    {
      ok := services.accepts(EcsStopTask(request), |log|);
      log := log + [EcsStopTask(request)];
    }

    method Sleep(millis: nat)
      modifies this
      ensures log == old(log) + [Call.Sleep(millis)]
    {
      log := log + [Call.Sleep(millis)];
    }

    /** Connects to the Docker daemon of `host` and lists its containers; None when that fails. */
    method ListContainers(host: Option<string>) returns (r: Option<seq<DockerContainer>>)
      modifies this
      ensures log == old(log) + [DockerListContainers(host)]
      ensures r == services.containers(host, |old(log)|)
    {
      r := services.containers(host, |log|);
      log := log + [DockerListContainers(host)];
    }

    method WaitForExit(host: Option<string>, containerId: string)
      modifies this
      ensures log == old(log) + [DockerWaitForExit(host, containerId)]
    {
      log := log + [DockerWaitForExit(host, containerId)];
    }

    /** Returns false when the Docker daemon throws instead of removing the container. */
    method RemoveContainer(host: Option<string>, containerId: string, force: bool) returns (ok: bool)
      modifies this
      ensures log == old(log) + [DockerRemoveContainer(host, containerId, force)]
      ensures ok == services.accepts(DockerRemoveContainer(host, containerId, force), |old(log)|)
    {
      ok := services.accepts(DockerRemoveContainer(host, containerId, force), |log|);
      log := log + [DockerRemoveContainer(host, containerId, force)];
    }
  }
}
