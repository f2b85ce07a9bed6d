/** AWSUtils: resolve an ECS task to the host and port of its container, wait for it to run,
    and stop it and clean up after it.

    Each Java method is a method on a `Cloud` whose postcondition ties its result and the
    calls it appends to the log to a `...Run` function of the services' replies and of the
    time the method starts at (the length of the log). The properties the code promises are
    proved about those functions, in module AWSUtilsProperties. */
module AWSUtils {
  import opened Results
  import opened Constants
  import opened Remote

  /** What a Java method returns or throws, with the calls it makes, in order. */
  datatype Run<+T> = Run(result: Result<T, Error>, effects: seq<Call>)

  // ------------------------------------------------------------ request building

  /** Guava's Strings.isNullOrEmpty. */
  predicate IsNullOrEmpty(s: Option<string>) {
    s == None || s.value == ""
  }

  /** The request describeTasks sends. */
  function TasksRequest(cluster: Option<string>, tasksArn: seq<string>): (request: DescribeTasksRequest)
    ensures request.tasks == tasksArn
    ensures request.cluster.Some? <==> cluster.Some? && cluster.value != ""
    ensures request.cluster.Some? ==> request.cluster == cluster
  {
    DescribeTasksRequest(if IsNullOrEmpty(cluster) then None else cluster, tasksArn)
  }

  /** Copies the vararg array into a fresh list, element by element. */
  method CopyArgs(args: seq<string>) returns (list: seq<string>)
    ensures list == args
  {
    list := [];
    for i := 0 to |args|
      invariant list == args[..i]
    {
      list := list + [args[i]];
    }
  }

  method DescribeTasks(cloud: Cloud, cluster: Option<string>, tasksArn: seq<string>)
    returns (r: DescribeTasksResult)
    modifies cloud
    ensures cloud.log == old(cloud.log) + [EcsDescribeTasks(TasksRequest(cluster, tasksArn))]
    ensures r == cloud.services.tasks(TasksRequest(cluster, tasksArn), |old(cloud.log)|)
  {
    var requestCluster: Option<string> := None;
    if !IsNullOrEmpty(cluster) {
      requestCluster := cluster;
    }
    var taskArnList := CopyArgs(tasksArn);
    r := cloud.DescribeTasks(DescribeTasksRequest(requestCluster, taskArnList));
  }

  method DescribeContainerInstances(cloud: Cloud, cluster: Option<string>, containerInstancesArn: seq<string>)
    returns (r: DescribeContainerInstancesResult)
    modifies cloud
    ensures cloud.log == old(cloud.log) +
      [EcsDescribeContainerInstances(DescribeContainerInstancesRequest(cluster, containerInstancesArn))]
    ensures r == cloud.services.containerInstances(
      DescribeContainerInstancesRequest(cluster, containerInstancesArn), |old(cloud.log)|)
  {
    var containerInstanceArnList := CopyArgs(containerInstancesArn);
    r := cloud.DescribeContainerInstances(DescribeContainerInstancesRequest(cluster, containerInstanceArnList));
  }

  method DescribeInstances(cloud: Cloud, ec2InstanceIds: seq<string>) returns (r: DescribeInstancesResult)
    modifies cloud
    ensures cloud.log == old(cloud.log) + [Ec2DescribeInstances(DescribeInstancesRequest(ec2InstanceIds))]
    ensures r == cloud.services.instances(DescribeInstancesRequest(ec2InstanceIds), |old(cloud.log)|)
  {
    var ec2InstanceIdList := CopyArgs(ec2InstanceIds);
    r := cloud.DescribeInstances(DescribeInstancesRequest(ec2InstanceIdList));
  }

  // ------------------------------------------------------------ container status

  /** Upper-case mapping of a character, for ASCII letters only: Java's Character.toUpperCase
      also maps other letters, among them the dotless i (U+0131) to 'I'. */
  function UpperCase(c: char): char {
    if 'a' <= c <= 'z' then (c as int - 32) as char else c
  }

  function UpperCaseAll(s: string): string {
    seq(|s|, i requires 0 <= i < |s| => UpperCase(s[i]))
  }

  /** Java's String.equalsIgnoreCase, restricted to ASCII: same length, and each pair of
      characters is equal or has the same upper-case form. Java also accepts a pair whose
      upper-case forms have the same lower-case form (which lets U+0130 match 'I'); on ASCII
      letters that second step never adds a match, so it is not written out. */
  predicate EqualsIgnoreCase(s: string, t: string) {
    |s| == |t| && forall i :: 0 <= i < |s| ==> s[i] == t[i] || UpperCase(s[i]) == UpperCase(t[i])
  }

  predicate IsRunning(lastStatus: string) {
    EqualsIgnoreCase(lastStatus, "RUNNING")
  }

  /** The reply names a task that has at least one container. */
  predicate HasContainer(dtrr: DescribeTasksResult) {
    |dtrr.tasks| > 0 && |dtrr.tasks[0].containers| > 0
  }

  /** The container AWSUtils looks at: the first container of the first task. */
  function FirstContainer(dtrr: DescribeTasksResult): Container
    requires HasContainer(dtrr)
  {
    dtrr.tasks[0].containers[0]
  }

  // ------------------------------------------------------------ readiness wait

  /** One unsuccessful attempt of the wait: a poll and a pause. */
  function Cycles(request: DescribeTasksRequest, n: nat): seq<Call> {
    if n == 0 then [] else [EcsDescribeTasks(request), Sleep(WAIT_TIME_MS)] + Cycles(request, n - 1)
  }

  /** waitForContainer from attempt `i` on, starting at time `t`. */
  function WaitRun(services: Services, cluster: Option<string>, taskArn: string, t: nat, i: nat): (run: Run<Container>)
    requires i < RETRIES
    decreases RETRIES - i
  {
    var request := TasksRequest(cluster, [taskArn]);
    var poll := [EcsDescribeTasks(request)];
    var dtrr := services.tasks(request, t);
    if !HasContainer(dtrr) then
      Run(Fail(NoContainerFound(taskArn)), poll)
    else if IsRunning(FirstContainer(dtrr).lastStatus) then
      Run(Ok(FirstContainer(dtrr)), poll)
    else if i + 1 < RETRIES then
      var rest := WaitRun(services, cluster, taskArn, t + 2, i + 1);
      Run(rest.result, Cycles(request, 1) + rest.effects)
    else
      Run(Ok(FirstContainer(dtrr)), Cycles(request, 1))
  }

  method WaitForContainer(cloud: Cloud, cluster: Option<string>, taskArn: string) returns (r: Result<Container, Error>)
    modifies cloud
    ensures r == WaitRun(cloud.services, cluster, taskArn, |old(cloud.log)|, 0).result
    ensures cloud.log == old(cloud.log) + WaitRun(cloud.services, cluster, taskArn, |old(cloud.log)|, 0).effects
  {
    ghost var whole := WaitRun(cloud.services, cluster, taskArn, |cloud.log|, 0);
    ghost var request := TasksRequest(cluster, [taskArn]);
    var i := 0;
    while true
      invariant i < RETRIES
      invariant whole.result == WaitRun(cloud.services, cluster, taskArn, |cloud.log|, i).result
      invariant old(cloud.log) + whole.effects == cloud.log + WaitRun(cloud.services, cluster, taskArn, |cloud.log|, i).effects
      decreases RETRIES - i
    {
      ghost var before := cloud.log;
      ghost var here := WaitRun(cloud.services, cluster, taskArn, |before|, i);
      var dtrr := DescribeTasks(cloud, cluster, [taskArn]);
      if |dtrr.tasks| == 0 || |dtrr.tasks[0].containers| == 0 {
        WaitRunSettles(cloud.services, cluster, taskArn, |before|, i);
        return Fail(NoContainerFound(taskArn));
      }
      var ctn := dtrr.tasks[0].containers[0];
      if IsRunning(ctn.lastStatus) {
        WaitRunSettles(cloud.services, cluster, taskArn, |before|, i);
        return Ok(ctn);
      }
      cloud.Sleep(WAIT_TIME_MS);
      assert cloud.log == before + Cycles(request, 1);
      WaitRunPending(cloud.services, cluster, taskArn, |before|, i);
      i := i + 1;
      if !(i < RETRIES) {
        return Ok(ctn);
      }
      AppendAssoc(before, Cycles(request, 1), WaitRun(cloud.services, cluster, taskArn, |cloud.log|, i).effects);
    }
  }

  lemma AppendAssoc(a: seq<Call>, b: seq<Call>, c: seq<Call>)
    ensures a + (b + c) == a + b + c
  {
  }

  /** One poll of the wait that ends it: no container, or a running one. */
  lemma WaitRunSettles(services: Services, cluster: Option<string>, taskArn: string, t: nat, i: nat)
    requires i < RETRIES
    requires var dtrr := services.tasks(TasksRequest(cluster, [taskArn]), t);
      !HasContainer(dtrr) || IsRunning(FirstContainer(dtrr).lastStatus)
    ensures var dtrr := services.tasks(TasksRequest(cluster, [taskArn]), t);
      WaitRun(services, cluster, taskArn, t, i) ==
      Run(if HasContainer(dtrr) then Ok(FirstContainer(dtrr)) else Fail(NoContainerFound(taskArn)),
          [EcsDescribeTasks(TasksRequest(cluster, [taskArn]))])
  {
  }

  /** One poll of the wait that finds the container not yet running. */
  lemma WaitRunPending(services: Services, cluster: Option<string>, taskArn: string, t: nat, i: nat)
    requires i < RETRIES
    requires var dtrr := services.tasks(TasksRequest(cluster, [taskArn]), t);
      HasContainer(dtrr) && !IsRunning(FirstContainer(dtrr).lastStatus)
    ensures var dtrr := services.tasks(TasksRequest(cluster, [taskArn]), t);
      var request := TasksRequest(cluster, [taskArn]);
      WaitRun(services, cluster, taskArn, t, i) ==
      if i + 1 < RETRIES then
        Run(WaitRun(services, cluster, taskArn, t + 2, i + 1).result,
            Cycles(request, 1) + WaitRun(services, cluster, taskArn, t + 2, i + 1).effects)
      else Run(Ok(FirstContainer(dtrr)), Cycles(request, 1))
  {
  }

  // ------------------------------------------------------------ SSH port

  /** Host port of the first binding, in list order, of the SSH container port. */
  function FirstSshHostPort(nbs: seq<NetworkBinding>): Option<int> {
    if nbs == [] then None
    else if nbs[0].containerPort == SSH_PORT then Some(nbs[0].hostPort)
    else FirstSshHostPort(nbs[1..])
  }

  /** The port scan of getContainerExternalSSHPort: -1 when no binding matches. */
  method ScanSshPort(nbs: seq<NetworkBinding>) returns (port: int)
    ensures port == match FirstSshHostPort(nbs) case Some(p) => p case None => -1
  {
    port := -1;
    var i := 0;
    while i < |nbs|
      invariant 0 <= i <= |nbs|
      invariant port == -1
      invariant FirstSshHostPort(nbs) == FirstSshHostPort(nbs[i..])
    {
      assert nbs[i..][1..] == nbs[i + 1..];
      if nbs[i].containerPort == SSH_PORT {
        port := nbs[i].hostPort;
        break;
      }
      i := i + 1;
    }
  }

  /** What getContainerExternalSSHPort makes of a describeTasks reply. A binding whose host
      port is -1 is taken for "not found", as the code uses -1 as its sentinel. */
  function SshPortOf(dtrr: DescribeTasksResult, taskArn: string): (port: Result<int, Error>) {
    if !HasContainer(dtrr) then Fail(NoContainerFound(taskArn))
    else
      match FirstSshHostPort(FirstContainer(dtrr).networkBindings)
      case None => Fail(NoSshPortMapping)
      case Some(port) => if port == -1 then Fail(NoSshPortMapping) else Ok(port)
  }

  function SshPortRun(services: Services, cluster: Option<string>, taskArn: string, t: nat): (run: Run<int>)
  {
    var request := TasksRequest(cluster, [taskArn]);
    Run(SshPortOf(services.tasks(request, t), taskArn), [EcsDescribeTasks(request)])
  }

  method GetContainerExternalSshPort(cloud: Cloud, cluster: Option<string>, taskArn: string) returns (r: Result<int, Error>)
    modifies cloud
    ensures r == SshPortRun(cloud.services, cluster, taskArn, |old(cloud.log)|).result
    ensures cloud.log == old(cloud.log) + SshPortRun(cloud.services, cluster, taskArn, |old(cloud.log)|).effects
  {
    var dtrr := DescribeTasks(cloud, cluster, [taskArn]);
    if |dtrr.tasks| == 0 || |dtrr.tasks[0].containers| == 0 {
      return Fail(NoContainerFound(taskArn));
    }
    var ctn := dtrr.tasks[0].containers[0];
    var port := ScanSshPort(ctn.networkBindings);
    if port == -1 {
      return Fail(NoSshPortMapping);
    }
    return Ok(port);
  }

  // ------------------------------------------------------------ task -> host address

  /** describeInstancesOfTask: task -> container instance -> EC2 instance. The container
      instance lookup passes the container-instance ARN where the cluster goes and no ARN in
      the list, as the Java varargs call does. */
  function InstancesOfTaskRun(services: Services, cluster: Option<string>, taskArn: string, t: nat)
    : (run: Run<DescribeInstancesResult>)
  {
    var tasksRequest := TasksRequest(cluster, [taskArn]);
    var dtrr := services.tasks(tasksRequest, t);
    var looked := [EcsDescribeTasks(tasksRequest)];
    if |dtrr.tasks| == 0 then Run(Fail(NoTaskFound(taskArn)), looked)
    else
      var instancesRequest := DescribeContainerInstancesRequest(Some(dtrr.tasks[0].containerInstanceArn), []);
      var dcirr := services.containerInstances(instancesRequest, t + 1);
      var looked' := looked + [EcsDescribeContainerInstances(instancesRequest)];
      if |dcirr.containerInstances| == 0 then Run(Fail(NoContainerInstancesFound(taskArn)), looked')
      else
        var ec2Request := DescribeInstancesRequest([dcirr.containerInstances[0].ec2InstanceId]);
        Run(Ok(services.instances(ec2Request, t + 2)), looked' + [Ec2DescribeInstances(ec2Request)])
  }

  method DescribeInstancesOfTask(cloud: Cloud, cluster: Option<string>, taskArn: string)
    returns (r: Result<DescribeInstancesResult, Error>)
    modifies cloud
    ensures r == InstancesOfTaskRun(cloud.services, cluster, taskArn, |old(cloud.log)|).result
    ensures cloud.log == old(cloud.log) + InstancesOfTaskRun(cloud.services, cluster, taskArn, |old(cloud.log)|).effects
  {
    var dtrr := DescribeTasks(cloud, cluster, [taskArn]);
    if |dtrr.tasks| == 0 {
      return Fail(NoTaskFound(taskArn));
    }
    var containerInstanceArn := dtrr.tasks[0].containerInstanceArn;
    var dcirr := DescribeContainerInstances(cloud, Some(containerInstanceArn), []);
    if |dcirr.containerInstances| == 0 {
      return Fail(NoContainerInstancesFound(taskArn));
    }
    var ec2InstanceId := dcirr.containerInstances[0].ec2InstanceId;
    var dirr := DescribeInstances(cloud, [ec2InstanceId]);
    return Ok(dirr);
  }

  /** The address field the getters read: the private one when `private`, else the public
      one, of the first instance of the first reservation, returned as it is (possibly unset). */
  function InstanceAddress(dirr: DescribeInstancesResult, taskArn: string, private: bool): Result<Option<string>, Error> {
    if |dirr.reservations| == 0 || |dirr.reservations[0].instances| == 0 then
      Fail(NoEc2InstanceFound(taskArn))
    else
      var instance := dirr.reservations[0].instances[0];
      Ok(if private then instance.privateIpAddress else instance.publicIpAddress)
  }

  function TaskAddressRun(services: Services, cluster: Option<string>, taskArn: string, private: bool, t: nat)
    : (run: Run<Option<string>>)
  {
    var instances := InstancesOfTaskRun(services, cluster, taskArn, t);
    match instances.result
    case Fail(e) => Run(Fail(e), instances.effects)
    case Ok(dirr) => Run(InstanceAddress(dirr, taskArn, private), instances.effects)
  }

  method GetTaskContainerPrivateAddress(cloud: Cloud, cluster: Option<string>, taskArn: string)
    returns (r: Result<Option<string>, Error>)
    modifies cloud
    ensures r == TaskAddressRun(cloud.services, cluster, taskArn, true, |old(cloud.log)|).result
    ensures cloud.log == old(cloud.log) + TaskAddressRun(cloud.services, cluster, taskArn, true, |old(cloud.log)|).effects
  {
    var dirr := DescribeInstancesOfTask(cloud, cluster, taskArn);
    if dirr.Fail? {
      return Fail(dirr.error);
    }
    if |dirr.value.reservations| == 0 || |dirr.value.reservations[0].instances| == 0 {
      return Fail(NoEc2InstanceFound(taskArn));
    }
    return Ok(dirr.value.reservations[0].instances[0].privateIpAddress);
  }

  method GetTaskContainerPublicAddress(cloud: Cloud, cluster: Option<string>, taskArn: string)
    returns (r: Result<Option<string>, Error>)
    modifies cloud
    ensures r == TaskAddressRun(cloud.services, cluster, taskArn, false, |old(cloud.log)|).result
    ensures cloud.log == old(cloud.log) + TaskAddressRun(cloud.services, cluster, taskArn, false, |old(cloud.log)|).effects
  {
    var dirr := DescribeInstancesOfTask(cloud, cluster, taskArn);
    if dirr.Fail? {
      return Fail(dirr.error);
    }
    if |dirr.value.reservations| == 0 || |dirr.value.reservations[0].instances| == 0 {
      return Fail(NoEc2InstanceFound(taskArn));
    }
    return Ok(dirr.value.reservations[0].instances[0].publicIpAddress);
  }

  // ------------------------------------------------------------ batch cleanup

  function StopCall(task: Task): Call {
    EcsStopTask(StopTaskRequest(None, task.taskArn))
  }

  /** One stop request per task, in list order, and nothing else. */
  function StopsFor(tasks: seq<Task>): (calls: seq<Call>)
    ensures |calls| == |tasks|
  {
    seq(|tasks|, j requires 0 <= j < |tasks| => StopCall(tasks[j]))
  }

  /** cleanUpTasks over `tasks` from time `t`: the first stop that throws ends the batch. */
  function CleanUpRun(services: Services, tasks: seq<Task>, t: nat): (run: Run<()>)
    decreases |tasks|
  {
    if tasks == [] then Run(Ok(()), [])
    else if !services.accepts(StopCall(tasks[0]), t) then Run(Fail(Rejected(StopCall(tasks[0]))), [StopCall(tasks[0])])
    else
      var rest := CleanUpRun(services, tasks[1..], t + 1);
      Run(rest.result, [StopCall(tasks[0])] + rest.effects)
  }

  method CleanUpTasks(cloud: Cloud, rtr: RunTaskResult) returns (r: Result<(), Error>)
    modifies cloud
    ensures r == CleanUpRun(cloud.services, rtr.tasks, |old(cloud.log)|).result
    ensures cloud.log == old(cloud.log) + CleanUpRun(cloud.services, rtr.tasks, |old(cloud.log)|).effects
  {
    ghost var whole := CleanUpRun(cloud.services, rtr.tasks, |cloud.log|);
    if |rtr.tasks| != 0 {
      var tasks := rtr.tasks;
      var i := 0;
      while i < |tasks|
        invariant 0 <= i <= |tasks|
        invariant whole.result == CleanUpRun(cloud.services, tasks[i..], |cloud.log|).result
        invariant old(cloud.log) + whole.effects == cloud.log + CleanUpRun(cloud.services, tasks[i..], |cloud.log|).effects
      {
        ghost var before := cloud.log;
        assert tasks[i..][0] == tasks[i] && tasks[i..][1..] == tasks[i + 1..];
        var str := StopTaskRequest(None, tasks[i].taskArn);
        var ok := cloud.StopTask(str);
        if !ok {
          return Fail(Rejected(EcsStopTask(str)));
        }
        i := i + 1;
        AppendAssoc(before, [StopCall(tasks[i - 1])], CleanUpRun(cloud.services, tasks[i..], |cloud.log|).effects);
      }
    }
    return Ok(());
  }

  // ------------------------------------------------------------ teardown

  predicate Publishes(c: DockerContainer, port: int) {
    exists k :: 0 <= k < |c.ports| && c.ports[k].publicPort == port
  }

  /** The container stopTask picks: the last one in listing order with a public port equal
      to `port` (its inner loop breaks, its outer loop does not). */
  function LastMatching(cs: seq<DockerContainer>, port: int): (m: Option<DockerContainer>)
    ensures m.Some? ==> m.value in cs && Publishes(m.value, port)
  {
    if cs == [] then None
    else if Publishes(cs[|cs| - 1], port) then Some(cs[|cs| - 1])
    else LastMatching(cs[..|cs| - 1], port)
  }

  /** The container-matching loops of stopTask. */
  method MatchContainer(ctnList: seq<DockerContainer>, externalPort: int) returns (ctn: Option<DockerContainer>)
    ensures ctn == LastMatching(ctnList, externalPort)
  {
    ctn := None;
    for i := 0 to |ctnList|
      invariant ctn == LastMatching(ctnList[..i], externalPort)
    {
      assert ctnList[..i + 1][..i] == ctnList[..i];
      var ports := ctnList[i].ports;
      var j := 0;
      while j < |ports|
        invariant 0 <= j <= |ports|
        invariant ctn == LastMatching(ctnList[..i], externalPort)
        invariant forall k :: 0 <= k < j ==> ports[k].publicPort != externalPort
      {
        if ports[j].publicPort == externalPort {
          ctn := Some(ctnList[i]);
          break;
        }
        j := j + 1;
      }
    }
    assert ctnList[..|ctnList|] == ctnList;
  }

  /** Where stopTask finds the task's container: the host address (private when `sameVpc`,
      else public) and the SSH host port. */
  datatype Endpoint = Endpoint(host: Option<string>, sshPort: int)

  function ResolveRun(services: Services, taskArn: string, cluster: Option<string>, sameVpc: bool, t: nat)
    : (run: Run<Endpoint>)
  {
    var host := TaskAddressRun(services, cluster, taskArn, sameVpc, t);
    match host.result
    case Fail(e) => Run(Fail(e), host.effects)
    case Ok(address) =>
      var port := SshPortRun(services, cluster, taskArn, t + |host.effects|);
      match port.result
      case Fail(e) => Run(Fail(e), host.effects + port.effects)
      case Ok(sshPort) => Run(Ok(Endpoint(address, sshPort)), host.effects + port.effects)
  }

  /** The Docker side once ECS has acknowledged the stop: wait for the matched container to
      exit, then force-remove it. */
  function RemovalRun(services: Services, host: Option<string>, ctn: Option<DockerContainer>, t: nat): (run: Run<()>) {
    match ctn
    case None => Run(Ok(()), [])
    case Some(c) =>
      var remove := DockerRemoveContainer(host, c.id, true);
      var effects := [DockerWaitForExit(host, c.id), remove];
      if services.accepts(remove, t + 1) then Run(Ok(()), effects) else Run(Fail(Rejected(remove)), effects)
  }

  /** stopTask once host and port are known: list the host's containers, stop the task in
      ECS, then remove the matching container, if any. */
  function StopAndRemoveRun(services: Services, taskArn: string, endpoint: Endpoint, t: nat): (run: Run<()>) {
    var listing := DockerListContainers(endpoint.host);
    match services.containers(endpoint.host, t)
    case None => Run(Fail(DockerUnreachable(endpoint.host)), [listing])
    case Some(ctnList) =>
      var stop := EcsStopTask(StopTaskRequest(None, taskArn));
      if !services.accepts(stop, t + 1) then
        Run(Fail(Rejected(stop)), [listing, stop])
      else
        var removal := RemovalRun(services, endpoint.host, LastMatching(ctnList, endpoint.sshPort), t + 2);
        Run(removal.result, [listing, stop] + removal.effects)
  }

  /** stopTask: resolve host and port, then tear down. */
  function StopTaskRun(services: Services, taskArn: string, cluster: Option<string>, sameVpc: bool, t: nat): (run: Run<()>) {
    AfterResolve(services, taskArn, ResolveRun(services, taskArn, cluster, sameVpc, t), t)
  }

  /** The rest of stopTask, given how the resolution that started at time `t` went. */
  function AfterResolve(services: Services, taskArn: string, resolved: Run<Endpoint>, t: nat): (run: Run<()>) {
    match resolved.result
    case Fail(e) => Run(Fail(e), resolved.effects)
    case Ok(endpoint) =>
      var rest := StopAndRemoveRun(services, taskArn, endpoint, t + |resolved.effects|);
      Run(rest.result, resolved.effects + rest.effects)
  }

  method StopTask(cloud: Cloud, taskArn: string, cluster: Option<string>, sameVpc: bool) returns (r: Result<(), Error>)
    modifies cloud
    ensures r == StopTaskRun(cloud.services, taskArn, cluster, sameVpc, |old(cloud.log)|).result
    ensures cloud.log == old(cloud.log) + StopTaskRun(cloud.services, taskArn, cluster, sameVpc, |old(cloud.log)|).effects
  {
    ghost var start := cloud.log;
    ghost var resolved := ResolveRun(cloud.services, taskArn, cluster, sameVpc, |start|);
    ghost var hostRun := TaskAddressRun(cloud.services, cluster, taskArn, sameVpc, |start|);
    var host: Result<Option<string>, Error>;
    if sameVpc {
      host := GetTaskContainerPrivateAddress(cloud, cluster, taskArn);
    } else {
      host := GetTaskContainerPublicAddress(cloud, cluster, taskArn);
    }
    if host.Fail? {
      return Fail(host.error);
    }
    ghost var portRun := SshPortRun(cloud.services, cluster, taskArn, |cloud.log|);
    var externalPort := GetContainerExternalSshPort(cloud, cluster, taskArn);
    AppendAssoc(start, hostRun.effects, portRun.effects);
    if externalPort.Fail? {
      return Fail(externalPort.error);
    }
    assert resolved == Run(Ok(Endpoint(host.value, externalPort.value)), hostRun.effects + portRun.effects);
    ghost var rest := StopAndRemoveRun(cloud.services, taskArn, resolved.result.value, |cloud.log|);
    r := StopAndRemove(cloud, taskArn, host.value, externalPort.value);
    AppendAssoc(start, resolved.effects, rest.effects);
  }

  /** The part of stopTask after the host and the port are resolved. */
  method StopAndRemove(cloud: Cloud, taskArn: string, host: Option<string>, externalPort: int) returns (r: Result<(), Error>)
    modifies cloud
    ensures r == StopAndRemoveRun(cloud.services, taskArn, Endpoint(host, externalPort), |old(cloud.log)|).result
    ensures cloud.log == old(cloud.log) + StopAndRemoveRun(cloud.services, taskArn, Endpoint(host, externalPort), |old(cloud.log)|).effects
  {
    var ctnList := cloud.ListContainers(host);
    if ctnList.None? {
      return Fail(DockerUnreachable(host));
    }
    var str := StopTaskRequest(None, taskArn);
    var stopped := cloud.StopTask(str);
    if !stopped {
      return Fail(Rejected(EcsStopTask(str)));
    }
    var ctn := MatchContainer(ctnList.value, externalPort);
    if ctn.Some? {
      cloud.WaitForExit(host, ctn.value.id);
      var removed := cloud.RemoveContainer(host, ctn.value.id, true);
      if !removed {
        return Fail(Rejected(DockerRemoveContainer(host, ctn.value.id, true)));
      }
    }
    return Ok(());
  }
}
