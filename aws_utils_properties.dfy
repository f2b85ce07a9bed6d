/** What AWSUtils promises, proved about the `...Run` functions that its methods are
    verified against. */
module AWSUtilsProperties {
  import opened Results
  import opened Constants
  import opened Remote
  import opened AWSUtils

  // ------------------------------------------------------------ container status

  /** Against an upper-case constant, equalsIgnoreCase is "upper-case the status, then compare". */
  lemma IgnoreCaseMatchesUpperCase(s: string, t: string)
    requires forall i :: 0 <= i < |t| ==> UpperCase(t[i]) == t[i]
    ensures EqualsIgnoreCase(s, t) <==> UpperCaseAll(s) == t
  {
    if EqualsIgnoreCase(s, t) {
      forall i | 0 <= i < |s|
        ensures UpperCaseAll(s)[i] == t[i]
      {
      }
    }
    if UpperCaseAll(s) == t {
      forall i | 0 <= i < |s|
        ensures s[i] == t[i] || UpperCase(s[i]) == UpperCase(t[i])
      {
        assert UpperCaseAll(s)[i] == UpperCase(s[i]);
      }
    }
  }

  lemma RunningIgnoresCase(status: string)
    ensures IsRunning(status) <==> UpperCaseAll(status) == "RUNNING"
  {
    IgnoreCaseMatchesUpperCase(status, "RUNNING");
  }

  /** A status reported in lower or mixed case still counts as running. */
  lemma RunningExamples()
    ensures IsRunning("running") && IsRunning("Running") && !IsRunning("PENDING")
  {
    forall i | 0 <= i < 7
      ensures UpperCase("running"[i]) == "RUNNING"[i] == UpperCase("RUNNING"[i])
      ensures UpperCase("Running"[i]) == "RUNNING"[i]
    {
      assert i == 0 || i == 1 || i == 2 || i == 3 || i == 4 || i == 5 || i == 6;
    }
    assert "PENDING"[0] == 'P' && "RUNNING"[0] == 'R';
  }

  // ------------------------------------------------------------ readiness wait

  /** The reply to the k-th poll of a wait that starts at time t0. */
  function Poll(services: Services, cluster: Option<string>, taskArn: string, t0: nat, k: nat): DescribeTasksResult {
    services.tasks(TasksRequest(cluster, [taskArn]), t0 + 2 * k)
  }

  /** A poll after which the wait goes on: the container exists and is not running yet. */
  predicate Pending(dtrr: DescribeTasksResult) {
    HasContainer(dtrr) && !IsRunning(FirstContainer(dtrr).lastStatus)
  }

  lemma CycleIsPollAndPause(request: DescribeTasksRequest)
    ensures Cycles(request, 1) == [EcsDescribeTasks(request), Sleep(WAIT_TIME_MS)]
  {
    assert Cycles(request, 0) == [];
  }

  lemma CyclesCons(request: DescribeTasksRequest, n: nat)
    ensures Cycles(request, n + 1) == Cycles(request, 1) + Cycles(request, n)
  {
    CycleIsPollAndPause(request);
  }

  lemma CountOnePoll(request: DescribeTasksRequest)
    ensures Count([EcsDescribeTasks(request)], TasksQuery) == 1
    ensures Count(Cycles(request, 1), TasksQuery) == 1
  {
    var poll := [EcsDescribeTasks(request)];
    assert poll[1..] == [];
    CycleIsPollAndPause(request);
    assert Cycles(request, 1) == poll + [Sleep(WAIT_TIME_MS)];
    assert [Sleep(WAIT_TIME_MS)][1..] == [];
    CountAppend(poll, [Sleep(WAIT_TIME_MS)], TasksQuery);
  }

  /** The wait polls the task at least once and at most RETRIES times. */
  lemma {:induction false} WaitPollBound(services: Services, cluster: Option<string>, taskArn: string, t: nat, i: nat)
    requires i < RETRIES
    ensures 1 <= Count(WaitRun(services, cluster, taskArn, t, i).effects, TasksQuery) <= RETRIES - i
    decreases RETRIES - i
  {
    if Pending(services.tasks(TasksRequest(cluster, [taskArn]), t)) && i + 1 < RETRIES {
      var polls := Count(WaitRun(services, cluster, taskArn, t, i).effects, TasksQuery);
      var later := Count(WaitRun(services, cluster, taskArn, t + 2, i + 1).effects, TasksQuery);
      WaitPollBound(services, cluster, taskArn, t + 2, i + 1);
      assert 1 <= later <= RETRIES - (i + 1);
      WaitPollsAgain(services, cluster, taskArn, t, i);
      assert polls == 1 + later;
    } else {
      WaitPollsOnce(services, cluster, taskArn, t, i);
    }
  }

  lemma WaitPollsAgain(services: Services, cluster: Option<string>, taskArn: string, t: nat, i: nat)
    requires i + 1 < RETRIES
    requires Pending(services.tasks(TasksRequest(cluster, [taskArn]), t))
    ensures Count(WaitRun(services, cluster, taskArn, t, i).effects, TasksQuery) ==
      1 + Count(WaitRun(services, cluster, taskArn, t + 2, i + 1).effects, TasksQuery)
  {
    var request := TasksRequest(cluster, [taskArn]);
    var rest := WaitRun(services, cluster, taskArn, t + 2, i + 1);
    CountOnePoll(request);
    WaitRunPending(services, cluster, taskArn, t, i);
    CountAppend(Cycles(request, 1), rest.effects, TasksQuery);
  }

  lemma WaitPollsOnce(services: Services, cluster: Option<string>, taskArn: string, t: nat, i: nat)
    requires i < RETRIES
    requires !Pending(services.tasks(TasksRequest(cluster, [taskArn]), t)) || i + 1 == RETRIES
    ensures Count(WaitRun(services, cluster, taskArn, t, i).effects, TasksQuery) == 1
  {
    var request := TasksRequest(cluster, [taskArn]);
    CountOnePoll(request);
    if Pending(services.tasks(request, t)) {
      WaitRunPending(services, cluster, taskArn, t, i);
    } else {
      WaitRunSettles(services, cluster, taskArn, t, i);
    }
  }

  predicate OnlyPollsAndPauses(effects: seq<Call>, request: DescribeTasksRequest) {
    forall j :: 0 <= j < |effects| ==> effects[j] == EcsDescribeTasks(request) || effects[j] == Sleep(WAIT_TIME_MS)
  }

  /** The wait does nothing but poll the task and pause for WAIT_TIME_MS. */
  lemma {:induction false} WaitOnlyPollsAndPauses(services: Services, cluster: Option<string>, taskArn: string, t: nat, i: nat)
    requires i < RETRIES
    ensures OnlyPollsAndPauses(WaitRun(services, cluster, taskArn, t, i).effects, TasksRequest(cluster, [taskArn]))
    decreases RETRIES - i
  {
    var request := TasksRequest(cluster, [taskArn]);
    CycleIsPollAndPause(request);
    if Pending(services.tasks(request, t)) && i + 1 < RETRIES {
      var rest := WaitRun(services, cluster, taskArn, t + 2, i + 1);
      WaitOnlyPollsAndPauses(services, cluster, taskArn, t + 2, i + 1);
      WaitRunPending(services, cluster, taskArn, t, i);
      PollsAndPausesAppend(Cycles(request, 1), rest.effects, request);
    } else if Pending(services.tasks(request, t)) {
      WaitRunPending(services, cluster, taskArn, t, i);
    } else {
      WaitRunSettles(services, cluster, taskArn, t, i);
    }
  }

  lemma PollsAndPausesAppend(a: seq<Call>, b: seq<Call>, request: DescribeTasksRequest)
    requires OnlyPollsAndPauses(a, request) && OnlyPollsAndPauses(b, request)
    ensures OnlyPollsAndPauses(a + b, request)
  {
    forall j | 0 <= j < |a + b|
      ensures (a + b)[j] == EcsDescribeTasks(request) || (a + b)[j] == Sleep(WAIT_TIME_MS)
    {
      if j >= |a| {
        assert (a + b)[j] == b[j - |a|];
      }
    }
  }

  /** The wait returns the first container it sees running, and polls no more. */
  lemma {:induction false} WaitReturnsFirstRunning(
    services: Services, cluster: Option<string>, taskArn: string, t0: nat, i: nat, k: nat)
    requires i <= k < RETRIES
    requires forall j :: i <= j < k ==> Pending(Poll(services, cluster, taskArn, t0, j))
    requires HasContainer(Poll(services, cluster, taskArn, t0, k))
    requires IsRunning(FirstContainer(Poll(services, cluster, taskArn, t0, k)).lastStatus)
    ensures WaitRun(services, cluster, taskArn, t0 + 2 * i, i) ==
      Run(Ok(FirstContainer(Poll(services, cluster, taskArn, t0, k))),
          Cycles(TasksRequest(cluster, [taskArn]), k - i) + [EcsDescribeTasks(TasksRequest(cluster, [taskArn]))])
    decreases k - i
  {
    var request := TasksRequest(cluster, [taskArn]);
    if i < k {
      assert Pending(Poll(services, cluster, taskArn, t0, i));
      WaitReturnsFirstRunning(services, cluster, taskArn, t0, i + 1, k);
      var before := Cycles(request, k - (i + 1));
      assert t0 + 2 * i + 2 == t0 + 2 * (i + 1);
      WaitRunPending(services, cluster, taskArn, t0 + 2 * i, i);
      CyclesCons(request, k - (i + 1));
      AppendAssoc(Cycles(request, 1), before, [EcsDescribeTasks(request)]);
    } else {
      WaitRunSettles(services, cluster, taskArn, t0 + 2 * i, i);
      assert Poll(services, cluster, taskArn, t0, k) == services.tasks(request, t0 + 2 * i);
      assert Cycles(request, k - i) == [];
    }
  }

  /** A poll without task or container ends the wait with an error at once, without retry. */
  lemma {:induction false} WaitFailsOnFirstEmpty(
    services: Services, cluster: Option<string>, taskArn: string, t0: nat, i: nat, k: nat)
    requires i <= k < RETRIES
    requires forall j :: i <= j < k ==> Pending(Poll(services, cluster, taskArn, t0, j))
    requires !HasContainer(Poll(services, cluster, taskArn, t0, k))
    ensures WaitRun(services, cluster, taskArn, t0 + 2 * i, i) ==
      Run(Fail(NoContainerFound(taskArn)),
          Cycles(TasksRequest(cluster, [taskArn]), k - i) + [EcsDescribeTasks(TasksRequest(cluster, [taskArn]))])
    decreases k - i
  {
    var request := TasksRequest(cluster, [taskArn]);
    if i < k {
      assert Pending(Poll(services, cluster, taskArn, t0, i));
      WaitFailsOnFirstEmpty(services, cluster, taskArn, t0, i + 1, k);
      var before := Cycles(request, k - (i + 1));
      assert t0 + 2 * i + 2 == t0 + 2 * (i + 1);
      WaitRunPending(services, cluster, taskArn, t0 + 2 * i, i);
      CyclesCons(request, k - (i + 1));
      AppendAssoc(Cycles(request, 1), before, [EcsDescribeTasks(request)]);
    } else {
      WaitRunSettles(services, cluster, taskArn, t0 + 2 * i, i);
      assert Poll(services, cluster, taskArn, t0, k) == services.tasks(request, t0 + 2 * i);
      assert Cycles(request, k - i) == [];
    }
  }

  /** When no poll sees the container running, the wait gives up after RETRIES polls and
      pauses and returns the last container it saw, without an error. */
  lemma {:induction false} WaitReturnsLastAfterRetries(
    services: Services, cluster: Option<string>, taskArn: string, t0: nat, i: nat)
    requires i < RETRIES
    requires forall j :: i <= j < RETRIES ==> Pending(Poll(services, cluster, taskArn, t0, j))
    ensures Pending(Poll(services, cluster, taskArn, t0, RETRIES - 1)) &&
      WaitRun(services, cluster, taskArn, t0 + 2 * i, i) ==
      Run(Ok(FirstContainer(Poll(services, cluster, taskArn, t0, RETRIES - 1))),
          Cycles(TasksRequest(cluster, [taskArn]), RETRIES - i))
    decreases RETRIES - i
  {
    var request := TasksRequest(cluster, [taskArn]);
    assert Pending(Poll(services, cluster, taskArn, t0, i));
    assert Pending(Poll(services, cluster, taskArn, t0, RETRIES - 1));
    WaitRunPending(services, cluster, taskArn, t0 + 2 * i, i);
    if i + 1 < RETRIES {
      assert t0 + 2 * i + 2 == t0 + 2 * (i + 1);
      WaitReturnsLastAfterRetries(services, cluster, taskArn, t0, i + 1);
      CyclesCons(request, RETRIES - (i + 1));
    }
  }

  // ------------------------------------------------------------ SSH port

  predicate IsFirstSshBinding(nbs: seq<NetworkBinding>, k: int) {
    0 <= k < |nbs| && nbs[k].containerPort == SSH_PORT &&
    forall j :: 0 <= j < k ==> nbs[j].containerPort != SSH_PORT
  }

  /** The scan finds nothing exactly when no binding is for the SSH port, and otherwise the
      host port of the first such binding in list order. */
  lemma {:induction false} FirstSshHostPortIsFirstMatch(nbs: seq<NetworkBinding>)
    ensures FirstSshHostPort(nbs).None? <==> forall k :: 0 <= k < |nbs| ==> nbs[k].containerPort != SSH_PORT
    ensures forall k :: IsFirstSshBinding(nbs, k) ==> FirstSshHostPort(nbs) == Some(nbs[k].hostPort)
    ensures FirstSshHostPort(nbs).Some? ==>
      exists k :: IsFirstSshBinding(nbs, k) && FirstSshHostPort(nbs) == Some(nbs[k].hostPort)
  {
    if nbs != [] && nbs[0].containerPort != SSH_PORT {
      FirstSshHostPortIsFirstMatch(nbs[1..]);
      forall k | IsFirstSshBinding(nbs, k)
        ensures FirstSshHostPort(nbs) == Some(nbs[k].hostPort)
      {
        assert IsFirstSshBinding(nbs[1..], k - 1);
      }
      if FirstSshHostPort(nbs).Some? {
        var k :| IsFirstSshBinding(nbs[1..], k) && FirstSshHostPort(nbs[1..]) == Some(nbs[1..][k].hostPort);
        assert IsFirstSshBinding(nbs, k + 1);
      }
      if forall k :: 0 <= k < |nbs[1..]| ==> nbs[1..][k].containerPort != SSH_PORT {
        forall k | 0 <= k < |nbs|
          ensures nbs[k].containerPort != SSH_PORT
        {
          if k > 0 {
            assert nbs[k] == nbs[1..][k - 1];
          }
        }
      }
    } else if nbs != [] {
      assert IsFirstSshBinding(nbs, 0);
    }
  }

  /** getContainerExternalSSHPort fails when the reply has no task or container, or when no
      binding is for the SSH port, and also when the first such binding has host port -1
      (the value the code uses for "not found"); otherwise it returns that binding's host port. */
  lemma SshPortOfOutcomes(dtrr: DescribeTasksResult, taskArn: string)
    ensures !HasContainer(dtrr) ==> SshPortOf(dtrr, taskArn) == Fail(NoContainerFound(taskArn))
    ensures HasContainer(dtrr) ==>
      var nbs := FirstContainer(dtrr).networkBindings;
      ((forall k :: 0 <= k < |nbs| ==> nbs[k].containerPort != SSH_PORT) ==>
        SshPortOf(dtrr, taskArn) == Fail(NoSshPortMapping)) &&
      forall k :: IsFirstSshBinding(nbs, k) ==>
        SshPortOf(dtrr, taskArn) == if nbs[k].hostPort == -1 then Fail(NoSshPortMapping) else Ok(nbs[k].hostPort)
  {
    if HasContainer(dtrr) {
      FirstSshHostPortIsFirstMatch(FirstContainer(dtrr).networkBindings);
    }
  }

  lemma SshPortExample(taskArn: string)
    ensures var ctn := Container("agent", "RUNNING",
        [NetworkBinding("0.0.0.0", 22, 50000), NetworkBinding("0.0.0.0", 80, 8080)]);
      SshPortOf(DescribeTasksResult([Task(taskArn, "instance", [ctn])]), taskArn) == Ok(50000)
  {
  }

  // ------------------------------------------------------------ task -> host address

  /** The three hops of describeInstancesOfTask, each with its own failure, and the
      requests they send: the container-instance lookup carries the container-instance ARN
      in its cluster field and no ARN in its list; EC2 is asked about exactly the first
      container instance's EC2 instance. */
  lemma InstancesOfTaskSteps(services: Services, cluster: Option<string>, taskArn: string, t: nat)
    ensures var run := InstancesOfTaskRun(services, cluster, taskArn, t);
      var tasksRequest := TasksRequest(cluster, [taskArn]);
      var dtrr := services.tasks(tasksRequest, t);
      run.effects[0] == EcsDescribeTasks(tasksRequest) &&
      (|dtrr.tasks| == 0 <==> run == Run(Fail(NoTaskFound(taskArn)), [EcsDescribeTasks(tasksRequest)])) &&
      (|dtrr.tasks| > 0 ==>
        var instancesRequest := DescribeContainerInstancesRequest(Some(dtrr.tasks[0].containerInstanceArn), []);
        var dcirr := services.containerInstances(instancesRequest, t + 1);
        |run.effects| >= 2 && run.effects[1] == EcsDescribeContainerInstances(instancesRequest) &&
        (|dcirr.containerInstances| == 0 <==> run.result == Fail(NoContainerInstancesFound(taskArn))) &&
        (|dcirr.containerInstances| > 0 ==>
          var ec2Request := DescribeInstancesRequest([dcirr.containerInstances[0].ec2InstanceId]);
          run == Run(Ok(services.instances(ec2Request, t + 2)),
                     [EcsDescribeTasks(tasksRequest), EcsDescribeContainerInstances(instancesRequest),
                      Ec2DescribeInstances(ec2Request)])))
  {
  }

  /** The two getters fail on the same replies; when an instance is found, the private one
      returns its private address even if it has a public one, the public one its public
      address, and an unset address is returned as such rather than as an error. */
  lemma InstanceAddressSelection(dirr: DescribeInstancesResult, taskArn: string)
    ensures InstanceAddress(dirr, taskArn, true).Fail? <==> InstanceAddress(dirr, taskArn, false).Fail?
    ensures InstanceAddress(dirr, taskArn, true).Fail? <==>
      |dirr.reservations| == 0 || |dirr.reservations[0].instances| == 0
    ensures InstanceAddress(dirr, taskArn, true).Fail? ==>
      InstanceAddress(dirr, taskArn, true).error == NoEc2InstanceFound(taskArn)
    ensures InstanceAddress(dirr, taskArn, true).Ok? ==>
      var instance := dirr.reservations[0].instances[0];
      InstanceAddress(dirr, taskArn, true).value == instance.privateIpAddress &&
      InstanceAddress(dirr, taskArn, false).value == instance.publicIpAddress
  {
  }

  /** stopTask contacts the Docker daemon at the private address exactly when sameVpc holds. */
  lemma ResolveUsesSelectedAddress(services: Services, taskArn: string, cluster: Option<string>, sameVpc: bool, t: nat)
    ensures var resolved := ResolveRun(services, taskArn, cluster, sameVpc, t);
      var instances := InstancesOfTaskRun(services, cluster, taskArn, t);
      resolved.result.Ok? ==>
        instances.result.Ok? &&
        var dirr := instances.result.value;
        |dirr.reservations| > 0 && |dirr.reservations[0].instances| > 0 &&
        resolved.result.value.host ==
          if sameVpc then dirr.reservations[0].instances[0].privateIpAddress
          else dirr.reservations[0].instances[0].publicIpAddress
  {
  }

  /** Resolving host and port only reads ECS and EC2. */
  lemma ResolveOnlyLooksUp(services: Services, taskArn: string, cluster: Option<string>, sameVpc: bool, t: nat)
    ensures OnlyLookups(ResolveRun(services, taskArn, cluster, sameVpc, t).effects)
  {
  }

  // ------------------------------------------------------------ teardown

  predicate IsLastPublisher(cs: seq<DockerContainer>, port: int, k: int) {
    0 <= k < |cs| && Publishes(cs[k], port) &&
    forall j :: k < j < |cs| ==> !Publishes(cs[j], port)
  }

  /** stopTask picks nothing exactly when no listed container publishes the port, and
      otherwise the last one in listing order that does. */
  lemma {:induction false} LastMatchingIsLast(cs: seq<DockerContainer>, port: int)
    ensures LastMatching(cs, port).None? <==> forall k :: 0 <= k < |cs| ==> !Publishes(cs[k], port)
    ensures forall k :: IsLastPublisher(cs, port, k) ==> LastMatching(cs, port) == Some(cs[k])
  {
    if cs != [] {
      var n := |cs| - 1;
      var init := cs[..n];
      if !Publishes(cs[n], port) {
        LastMatchingIsLast(init, port);
        forall k | IsLastPublisher(cs, port, k)
          ensures LastMatching(cs, port) == Some(cs[k])
        {
          assert IsLastPublisher(init, port, k);
        }
        if forall k :: 0 <= k < |init| ==> !Publishes(init[k], port) {
          forall k | 0 <= k < |cs|
            ensures !Publishes(cs[k], port)
          {
            if k < n {
              assert cs[k] == init[k];
            }
          }
        }
      }
    }
  }

  /** Two listed containers publish the same port: the second is the one removed. */
  lemma LastMatchWins()
    ensures var first := DockerContainer("first", "Up", [Port(22, 50000)]);
      var second := DockerContainer("second", "Up", [Port(22, 50000)]);
      LastMatching([first, second], 50000) == Some(second)
  {
    var second := DockerContainer("second", "Up", [Port(22, 50000)]);
    assert second.ports[0].publicPort == 50000;
  }

  /** Calls that only read ECS or EC2. */
  predicate OnlyLookups(effects: seq<Call>) {
    forall i :: 0 <= i < |effects| ==> effects[i].IsLookup()
  }

  lemma LookupsAreNotCommands(effects: seq<Call>)
    requires OnlyLookups(effects)
    ensures Count(effects, Stop) == 0 && Count(effects, Removal) == 0
  {
    CountZero(effects, Stop);
    CountZero(effects, Removal);
  }

  /** Once host and port are known: the containers of the host are listed first; when they
      cannot be, nothing else happens. Otherwise an ECS stop request for the task follows,
      with no cluster set, whether or not a container matches; when ECS rejects it, nothing
      is removed. */
  lemma StopAndRemoveSteps(services: Services, taskArn: string, endpoint: Endpoint, t: nat)
    ensures var run := StopAndRemoveRun(services, taskArn, endpoint, t);
      var listing := DockerListContainers(endpoint.host);
      var stop := EcsStopTask(StopTaskRequest(None, taskArn));
      |run.effects| >= 1 && run.effects[0] == listing &&
      (services.containers(endpoint.host, t).None? <==>
        run == Run(Fail(DockerUnreachable(endpoint.host)), [listing])) &&
      (services.containers(endpoint.host, t).Some? ==> |run.effects| >= 2 && run.effects[1] == stop) &&
      (services.containers(endpoint.host, t).Some? && !services.accepts(stop, t + 1) ==>
        run == Run(Fail(Rejected(stop)), [listing, stop]))
  {
  }

  /** The teardown issues exactly one stop request once the listing succeeded, none
      otherwise, and at most one removal. */
  lemma StopAndRemoveCommandsAtMostOnce(services: Services, taskArn: string, endpoint: Endpoint, t: nat)
    ensures var run := StopAndRemoveRun(services, taskArn, endpoint, t);
      Count(run.effects, Stop) == (if services.containers(endpoint.host, t).Some? then 1 else 0) &&
      Count(run.effects, Removal) <= 1
  {
    var run := StopAndRemoveRun(services, taskArn, endpoint, t);
    var listing := DockerListContainers(endpoint.host);
    var stop := EcsStopTask(StopTaskRequest(None, taskArn));
    if services.containers(endpoint.host, t).Some? {
      if services.accepts(stop, t + 1) {
        var removal := RemovalRun(services, endpoint.host,
          LastMatching(services.containers(endpoint.host, t).value, endpoint.sshPort), t + 2);
        assert run.effects == [listing, stop] + removal.effects;
        TeardownCounts(listing, stop, removal.effects);
      } else {
        assert run.effects == [listing, stop] + [];
        TeardownCounts(listing, stop, []);
      }
    } else {
      assert run.effects == [listing];
    }
  }

  lemma CountOne(c: Call, kind: CallKind)
    ensures Count([c], kind) == if KindOf(c) == kind then 1 else 0
  {
    assert [c][1..] == [];
  }

  lemma TeardownCounts(listing: Call, stop: Call, removal: seq<Call>)
    requires listing.DockerListContainers? && stop.EcsStopTask?
    requires removal == [] || (|removal| == 2 && removal[0].DockerWaitForExit? && removal[1].DockerRemoveContainer?)
    ensures Count([listing, stop] + removal, Stop) == 1
    ensures Count([listing, stop] + removal, Removal) <= 1
  {
    var issued := [listing, stop];
    assert issued == [listing] + [stop];
    CountOne(listing, Stop);
    CountOne(listing, Removal);
    CountOne(stop, Stop);
    CountOne(stop, Removal);
    CountAppend([listing], [stop], Stop);
    CountAppend([listing], [stop], Removal);
    if removal != [] {
      assert removal == [removal[0]] + [removal[1]];
      CountOne(removal[0], Stop);
      CountOne(removal[0], Removal);
      CountOne(removal[1], Stop);
      CountOne(removal[1], Removal);
      CountAppend([removal[0]], [removal[1]], Stop);
      CountAppend([removal[0]], [removal[1]], Removal);
    } else {
      assert issued + removal == issued;
    }
    CountAppend(issued, removal, Stop);
    CountAppend(issued, removal, Removal);
  }

  /** After ECS acknowledged the stop: with no listed container publishing the SSH port,
      nothing is removed and the teardown ends normally; otherwise the last such container is
      waited for and then force-removed, and the teardown fails only if that removal does. */
  lemma StopAndRemoveRemovesLastMatch(services: Services, taskArn: string, endpoint: Endpoint, t: nat)
    requires services.containers(endpoint.host, t).Some?
    requires services.accepts(EcsStopTask(StopTaskRequest(None, taskArn)), t + 1)
    ensures var ctnList := services.containers(endpoint.host, t).value;
      var run := StopAndRemoveRun(services, taskArn, endpoint, t);
      var issued := [DockerListContainers(endpoint.host), EcsStopTask(StopTaskRequest(None, taskArn))];
      ((forall k :: 0 <= k < |ctnList| ==> !Publishes(ctnList[k], endpoint.sshPort)) ==>
        run == Run(Ok(()), issued)) &&
      (forall k :: IsLastPublisher(ctnList, endpoint.sshPort, k) ==>
        var remove := DockerRemoveContainer(endpoint.host, ctnList[k].id, true);
        run.effects == issued + [DockerWaitForExit(endpoint.host, ctnList[k].id), remove] &&
        (run.result == Ok(()) <==> services.accepts(remove, t + 3)))
  {
    LastMatchingIsLast(services.containers(endpoint.host, t).value, endpoint.sshPort);
  }

  /** Whatever the replies, the rest of stopTask after a resolution that only looked things
      up issues at most one stop request and at most one removal, and neither when the
      resolution failed or the host's containers could not be listed. */
  lemma {:induction false} AfterResolveCommandsAtMostOnce(services: Services, taskArn: string, resolved: Run<Endpoint>, t: nat)
    requires OnlyLookups(resolved.effects)
    ensures var run := AfterResolve(services, taskArn, resolved, t);
      Count(run.effects, Stop) <= 1 && Count(run.effects, Removal) <= 1 &&
      (resolved.result.Fail? ==>
        run == Run(Fail(resolved.result.error), resolved.effects) &&
        Count(run.effects, Stop) == 0 && Count(run.effects, Removal) == 0) &&
      (resolved.result.Ok? && services.containers(resolved.result.value.host, t + |resolved.effects|).None? ==>
        run.result.Fail? && Count(run.effects, Stop) == 0 && Count(run.effects, Removal) == 0) &&
      (resolved.result.Ok? && services.containers(resolved.result.value.host, t + |resolved.effects|).Some? ==>
        Count(run.effects, Stop) == 1)
  {
    LookupsAreNotCommands(resolved.effects);
    if resolved.result.Ok? {
      var rest := StopAndRemoveRun(services, taskArn, resolved.result.value, t + |resolved.effects|);
      StopAndRemoveSteps(services, taskArn, resolved.result.value, t + |resolved.effects|);
      StopAndRemoveCommandsAtMostOnce(services, taskArn, resolved.result.value, t + |resolved.effects|);
      CountAppend(resolved.effects, rest.effects, Stop);
      CountAppend(resolved.effects, rest.effects, Removal);
    }
  }

  /** stopTask issues at most one stop request and at most one removal; none of either when
      the host address or the SSH port cannot be found, or the host's Docker daemon cannot be
      listed; exactly one stop request once the listing succeeded. */
  lemma StopTaskCommandsAtMostOnce(services: Services, taskArn: string, cluster: Option<string>, sameVpc: bool, t: nat)
    ensures var resolved := ResolveRun(services, taskArn, cluster, sameVpc, t);
      var run := StopTaskRun(services, taskArn, cluster, sameVpc, t);
      Count(run.effects, Stop) <= 1 && Count(run.effects, Removal) <= 1 &&
      (resolved.result.Fail? || services.containers(resolved.result.value.host, t + |resolved.effects|).None? ==>
        run.result.Fail? && Count(run.effects, Stop) == 0 && Count(run.effects, Removal) == 0) &&
      (resolved.result.Ok? && services.containers(resolved.result.value.host, t + |resolved.effects|).Some? ==>
        Count(run.effects, Stop) == 1)
  {
    ResolveOnlyLooksUp(services, taskArn, cluster, sameVpc, t);
    AfterResolveCommandsAtMostOnce(services, taskArn, ResolveRun(services, taskArn, cluster, sameVpc, t), t);
  }

  // ------------------------------------------------------------ batch cleanup

  /** When every stop is acknowledged, cleanUpTasks issues one stop request per task, in list
      order, each for that task's ARN, and nothing else (none at all for an empty list). */
  lemma {:induction false} CleanUpStopsEveryTask(services: Services, tasks: seq<Task>, t: nat)
    requires forall j :: 0 <= j < |tasks| ==> services.accepts(StopCall(tasks[j]), t + j)
    ensures CleanUpRun(services, tasks, t) == Run(Ok(()), StopsFor(tasks))
    decreases |tasks|
  {
    if tasks != [] {
      assert services.accepts(StopCall(tasks[0]), t + 0);
      forall j | 0 <= j < |tasks[1..]|
        ensures services.accepts(StopCall(tasks[1..][j]), t + 1 + j)
      {
        assert services.accepts(StopCall(tasks[j + 1]), t + (j + 1));
      }
      CleanUpStopsEveryTask(services, tasks[1..], t + 1);
      assert StopsFor(tasks) == [StopCall(tasks[0])] + StopsFor(tasks[1..]);
    }
  }

  /** A stop request that throws ends the batch: the tasks after it get no stop request and
      the exception reaches the caller. */
  lemma {:induction false} CleanUpHaltsAtFirstRejection(services: Services, tasks: seq<Task>, t: nat, k: nat)
    requires k < |tasks|
    requires forall j :: 0 <= j < k ==> services.accepts(StopCall(tasks[j]), t + j)
    requires !services.accepts(StopCall(tasks[k]), t + k)
    ensures CleanUpRun(services, tasks, t) == Run(Fail(Rejected(StopCall(tasks[k]))), StopsFor(tasks[..k + 1]))
    decreases k
  {
    if k == 0 {
      assert StopsFor(tasks[..1]) == [StopCall(tasks[0])];
    } else {
      assert services.accepts(StopCall(tasks[0]), t + 0);
      forall j | 0 <= j < k - 1
        ensures services.accepts(StopCall(tasks[1..][j]), t + 1 + j)
      {
        assert services.accepts(StopCall(tasks[j + 1]), t + (j + 1));
      }
      assert tasks[1..][k - 1] == tasks[k];
      CleanUpHaltsAtFirstRejection(services, tasks[1..], t + 1, k - 1);
      assert tasks[1..][..k] == tasks[1..k + 1];
      assert StopsFor(tasks[..k + 1]) == [StopCall(tasks[0])] + StopsFor(tasks[1..][..k]);
    }
  }
}
