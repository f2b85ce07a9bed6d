# AWSUtils of the Amazon ECS plugin, modelled in Dafny

`AWSUtils` takes an ECS task ARN and finds the host and SSH port where the task's container
can be reached. It also waits for that container to be running, stops the task and removes its
Docker container, and stops a batch of tasks. It talks to three services:

- ECS: describeTasks, describeContainerInstances and stopTask.
- EC2: describeInstances.
- The Docker daemon of the container host: list containers, wait for exit, and remove.

The model treats those services as data. `Remote.Services` holds one function per kind of
reply. Each function takes the request and the moment it is asked, so a task can change state
between two polls. The moment is the number of calls made so far. Every outgoing call is
appended to the `log` of a `Remote.Cloud` object. Ordering, "exactly once" and "nothing else"
are therefore statements about that log.

Each Java method is a Dafny method with the same loops and branches. Its postcondition ties
the method's result and the calls it appends to a pure `...Run` function:
`WaitRun`, `SshPortRun`, `InstancesOfTaskRun`, `TaskAddressRun`, `CleanUpRun`, `StopTaskRun`
and `StopAndRemoveRun`.

A Java `RuntimeException` is a `Fail(Error)`. A Java `null` is `None`. The constants
`RETRIES = 10`, `WAIT_TIME_MS = 500` and `SSH_PORT = 22`
(src/main/java/com/phuna/amazonecs/Constants.java:4-6) are in module `Constants`.

Files:

- `results.dfy`: the `Option` and `Result` types.
- `constants.dfy`: the three constants.
- `remote.dfy`: the replies, the call log, and the `Cloud` whose methods make one remote call each.
- `aws_utils.dfy`: the AWSUtils methods and the functions that specify them.
- `aws_utils_properties.dfy`: the properties of those functions.

Behaviour of the code that a caller may not expect (the model follows the code):

- **Last match wins.** stopTask removes the *last* listed container that publishes the SSH
  port, not the first. The inner `break` leaves only the port loop.
- **A stop can be skipped.** The ECS stop request is not unconditional. The Docker listing
  comes first, so a failed address lookup, port lookup or listing means no stop is sent.
- **A missing address is not an error.** When the selected IP address of the instance is
  unset, the getters return it unset (`Ok(None)`). They do not fail.
- **The container-instance lookup sends the wrong request.** `describeInstancesOfTask` calls
  `describeContainerInstances(cloud, containerInstanceArn)`. Because of varargs, the ARN is
  sent as the cluster and the list of ARNs is empty.
- **A rejected stop ends the batch.** In cleanUpTasks, a stop request that throws ends the
  loop. The exception reaches the caller and the remaining tasks get no stop request.
- **Stop requests name no cluster.** The stop requests of stopTask and cleanUpTasks never set
  a cluster, even when stopTask was given one.
- **A port of -1 means "not found".** The SSH port scan uses -1 as its "not found" value. A
  binding whose host port really is -1 is therefore reported as missing.

## Model

| member | source | states |
|---|---|---|
| AWSUtils.TasksRequest | src/main/java/com/phuna/amazonecs/AWSUtils.java:85-94 | the describeTasks request lists exactly the given ARNs; it carries a cluster exactly when the argument is non-null and non-empty, and then that cluster |
| AWSUtils.CopyArgs | src/main/java/com/phuna/amazonecs/AWSUtils.java:90-93 | the list filled in the loop equals the vararg array, element by element and in order |
| AWSUtils.DescribeTasks | src/main/java/com/phuna/amazonecs/AWSUtils.java:83-96 | sends exactly one describeTasks call carrying `TasksRequest(cluster, tasksArn)` and returns ECS's reply to it |
| AWSUtils.DescribeContainerInstances | src/main/java/com/phuna/amazonecs/AWSUtils.java:98-108 | always sets the cluster argument (even when it is null) and lists exactly the given ARNs; sends one call and returns its reply |
| AWSUtils.DescribeInstances | src/main/java/com/phuna/amazonecs/AWSUtils.java:110-120 | sends one describeInstances call listing exactly the given instance ids and returns its reply |
| AWSUtils.WaitForContainer | src/main/java/com/phuna/amazonecs/AWSUtils.java:29-54 | the do-while loop returns what `WaitRun` says and appends exactly the polls and pauses of `WaitRun` to the log |
| AWSUtils.ScanSshPort | src/main/java/com/phuna/amazonecs/AWSUtils.java:65-75 | the port loop yields the host port of the first binding for the SSH port, or -1 when there is none |
| AWSUtils.GetContainerExternalSshPort | src/main/java/com/phuna/amazonecs/AWSUtils.java:56-81 | one describeTasks call; result as `SshPortOf` on its reply |
| AWSUtils.DescribeInstancesOfTask | src/main/java/com/phuna/amazonecs/AWSUtils.java:122-142 | the three lookups, each guarded by its own failure, as `InstancesOfTaskRun` |
| AWSUtils.GetTaskContainerPrivateAddress | src/main/java/com/phuna/amazonecs/AWSUtils.java:144-155 | the three lookups, then the private address of the first instance (possibly unset), or a failure when no instance came back |
| AWSUtils.GetTaskContainerPublicAddress | src/main/java/com/phuna/amazonecs/AWSUtils.java:157-168 | the same with the public address |
| AWSUtils.CleanUpTasks | src/main/java/com/phuna/amazonecs/AWSUtils.java:170-182 | the stop loop appends exactly the stops of `CleanUpRun` and ends as it says |
| AWSUtils.StopTask | src/main/java/com/phuna/amazonecs/AWSUtils.java:184-226 | resolves the address (private when sameVpc) and the SSH port, then tears down; result and calls as `StopTaskRun` |
| AWSUtils.StopAndRemove | src/main/java/com/phuna/amazonecs/AWSUtils.java:196-225 | list the host's containers, stop the task in ECS, then wait for and force-remove the matched container; as `StopAndRemoveRun` |
| AWSUtils.MatchContainer | src/main/java/com/phuna/amazonecs/AWSUtils.java:206-215 | the nested loops select `LastMatching` of the listing |
| AWSUtils.LastMatching | src/main/java/com/phuna/amazonecs/AWSUtils.java:206-215 | a selected container is one of the listed containers and publishes the port |
| AWSUtils.StopsFor | src/main/java/com/phuna/amazonecs/AWSUtils.java:173-181 | one stop request per task |
| Remote.Cloud.DescribeTasks | src/main/java/com/phuna/amazonecs/AWSUtils.java:95 | appends the call to the log and returns ECS's reply at that moment |
| Remote.Cloud.DescribeContainerInstances | src/main/java/com/phuna/amazonecs/AWSUtils.java:107 | appends the call to the log and returns ECS's reply at that moment |
| Remote.Cloud.DescribeInstances | src/main/java/com/phuna/amazonecs/AWSUtils.java:119 | appends the call to the log and returns EC2's reply at that moment |
| Remote.Cloud.StopTask | src/main/java/com/phuna/amazonecs/AWSUtils.java:202-204 | appends the stop request to the log; reports whether ECS acknowledged it or threw |
| Remote.Cloud.Sleep | src/main/java/com/phuna/amazonecs/AWSUtils.java:46-50 | the pause is recorded in the log and changes nothing else |
| Remote.Cloud.ListContainers | src/main/java/com/phuna/amazonecs/AWSUtils.java:196-199 | appends the listing to the log; returns the containers, or None when the daemon cannot be reached |
| Remote.Cloud.WaitForExit | src/main/java/com/phuna/amazonecs/AWSUtils.java:220 | the wait for exit is recorded in the log |
| Remote.Cloud.RemoveContainer | src/main/java/com/phuna/amazonecs/AWSUtils.java:221 | appends the forced removal to the log; reports whether the daemon removed the container or threw |
| AWSUtilsProperties.IgnoreCaseMatchesUpperCase | src/main/java/com/phuna/amazonecs/AWSUtils.java:42 | against an upper-case constant, `equalsIgnoreCase` holds exactly when the upper-cased status equals it |
| AWSUtilsProperties.RunningIgnoresCase | src/main/java/com/phuna/amazonecs/AWSUtils.java:42 | a container counts as running exactly when its status upper-cases to "RUNNING" |
| AWSUtilsProperties.RunningExamples | src/main/java/com/phuna/amazonecs/AWSUtils.java:42 | "running" and "Running" count as running; "PENDING" does not |
| AWSUtilsProperties.WaitPollBound | src/main/java/com/phuna/amazonecs/AWSUtils.java:31-53 | the wait polls describeTasks at least once and at most RETRIES times |
| AWSUtilsProperties.WaitOnlyPollsAndPauses | src/main/java/com/phuna/amazonecs/AWSUtils.java:33-52 | the wait sends nothing but describeTasks for the one task and 500 ms pauses |
| AWSUtilsProperties.WaitReturnsFirstRunning | src/main/java/com/phuna/amazonecs/AWSUtils.java:41-44 | after pending polls, the first poll whose container is running ends the wait with that container; exactly those polls and a pause after each pending one |
| AWSUtilsProperties.WaitFailsOnFirstEmpty | src/main/java/com/phuna/amazonecs/AWSUtils.java:36-40 | a poll with no task or no container fails the wait at once, without retry |
| AWSUtilsProperties.WaitReturnsLastAfterRetries | src/main/java/com/phuna/amazonecs/AWSUtils.java:45-53 | when no poll sees it running, the wait returns the container of the RETRIES-th poll, without an error, after RETRIES polls and pauses |
| AWSUtilsProperties.FirstSshHostPortIsFirstMatch | src/main/java/com/phuna/amazonecs/AWSUtils.java:67-75 | the scan finds nothing exactly when no binding is for the SSH port, and otherwise the host port of the first such binding |
| AWSUtilsProperties.SshPortOfOutcomes | src/main/java/com/phuna/amazonecs/AWSUtils.java:58-80 | no task or container fails with NoContainerFound; no SSH binding, or a first SSH binding with host port -1, fails with NoSshPortMapping; otherwise the first SSH binding's host port |
| AWSUtilsProperties.SshPortExample | src/main/java/com/phuna/amazonecs/AWSUtils.java:67-80 | bindings (22→50000), (80→8080) give port 50000 |
| AWSUtilsProperties.InstancesOfTaskSteps | src/main/java/com/phuna/amazonecs/AWSUtils.java:124-141 | no task fails after one call; no container instance fails after two; the container-instance request carries the instance ARN as the cluster and no ARN; EC2 is asked about exactly the first container instance's EC2 id |
| AWSUtilsProperties.InstanceAddressSelection | src/main/java/com/phuna/amazonecs/AWSUtils.java:148-167 | both getters fail exactly when there is no reservation or no instance; otherwise private returns the private field and public the public field, unset or not |
| AWSUtilsProperties.ResolveUsesSelectedAddress | src/main/java/com/phuna/amazonecs/AWSUtils.java:185-190 | stopTask's Docker host is the private address when sameVpc and the public one otherwise |
| AWSUtilsProperties.ResolveOnlyLooksUp | src/main/java/com/phuna/amazonecs/AWSUtils.java:184-193 | resolving host and port only sends ECS and EC2 lookups |
| AWSUtilsProperties.LastMatchingIsLast | src/main/java/com/phuna/amazonecs/AWSUtils.java:206-215 | nothing is selected exactly when no listed container publishes the port; otherwise the last one that does |
| AWSUtilsProperties.LastMatchWins | src/main/java/com/phuna/amazonecs/AWSUtils.java:207-214 | with two containers publishing the port, the second is selected |
| AWSUtilsProperties.StopAndRemoveSteps | src/main/java/com/phuna/amazonecs/AWSUtils.java:196-204 | the listing comes first; an unreachable daemon ends the teardown with nothing else sent; otherwise the stop request (with no cluster) comes next; a rejected stop ends it there |
| AWSUtilsProperties.StopAndRemoveCommandsAtMostOnce | src/main/java/com/phuna/amazonecs/AWSUtils.java:196-225 | exactly one stop request once the listing succeeded and none otherwise; at most one removal |
| AWSUtilsProperties.StopAndRemoveRemovesLastMatch | src/main/java/com/phuna/amazonecs/AWSUtils.java:206-225 | after an acknowledged stop, no match means no removal and a normal return; otherwise the last match is waited for, then force-removed, and the teardown fails exactly when the removal does |
| AWSUtilsProperties.AfterResolveCommandsAtMostOnce | src/main/java/com/phuna/amazonecs/AWSUtils.java:184-226 | after a resolution that only looked things up: a failed resolution is passed on with no stop and no removal; at most one stop and one removal in all cases |
| AWSUtilsProperties.StopTaskCommandsAtMostOnce | src/main/java/com/phuna/amazonecs/AWSUtils.java:184-226 | stopTask sends at most one stop and one removal; neither when the address, the port or the listing fails; exactly one stop once the listing succeeded |
| AWSUtilsProperties.CleanUpStopsEveryTask | src/main/java/com/phuna/amazonecs/AWSUtils.java:170-182 | when every stop is acknowledged, exactly one stop request per task, in list order, with that task's ARN, and nothing else |
| AWSUtilsProperties.CleanUpHaltsAtFirstRejection | src/main/java/com/phuna/amazonecs/AWSUtils.java:175-180 | the first rejected stop ends the batch with its error; tasks after it get no stop request |

## Left out

- The AWS SDK clients, `AwsCloud` and `DockerUtils.getDockerClient` are not part of this model. Their replies are inputs (`Remote.Services`), and the calls made to them are entries of the log.
- `DockerUtils.waitForContainerExit` is not part of this model. It is an entry of the log placed before the removal, and it is assumed to return.
- `Thread.sleep` and the swallowed `InterruptedException`: the pause is an entry of the log, with no timing.
- Logging has no effect on behaviour and is left out.
- The endpoint URLs of Constants.java and the credentials are configuration and are left out.
- Null values returned by SDK getters are not modelled. Examples are a null status, a null list or a null `publicPort`, each of which would throw a NullPointerException.
- Remote.Cloud.DescribeTasks, Remote.Cloud.DescribeContainerInstances, Remote.Cloud.DescribeInstances: these calls never throw in the model. Only the Docker listing, the ECS stop and the Docker removal can fail. Those are the failures that decide what stopTask and cleanUpTasks send next.
- AWSUtils.UpperCase: it upper-cases ASCII letters only, so `IsRunning` is weaker than Java's `equalsIgnoreCase` on non-ASCII statuses. Java folds the dotless i (U+0131) and the dotted capital I (U+0130) to match `I`, so it accepts "runn\u0131ng" as running, and the model does not. The model does not fold them because ECS reports task statuses in ASCII.
- Remote.Cloud.WaitForExit: it never fails. How long it waits, and whether it can throw, is not modelled.
