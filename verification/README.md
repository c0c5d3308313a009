# Melissa-DA: the bookkeeping of a distributed data-assimilation framework

Melissa-DA runs an ensemble of simulations on *runners* and combines their states on a
*server*. This project models the parts of it that have to agree across processes, and
proves that they do:

* how a distributed state vector is cut between the ranks of a runner and the ranks of the
  server, and that states and index maps survive the exchange
  (`Redistribution`, `CutProperties`, `Migration`, `Fields`, `Exchange`);
* how the central server hands ensemble members to runners, detects timeouts, kills and
  reschedules, and finds out that a step has finished
  (`TaskState`, `ServerRank`, `RankInvariant`, `Cluster`, `RunnerRounds`, `RunnerRegisters`,
  `Protocol`, `ClusterProof`, `ClusterRuns`, `ServerTheorems`, `Scheduling`, `Progress`,
  `LateTasks`, `DeadRunners`, `Results`, `UpdateExample`);
* how the peer-to-peer server counts particles, chooses parents for runners, prefetches and
  resamples (`ParticleState`, `ParticleInvariant`, `Propagation`, `TimeoutExample`,
  `Dictionaries`, `DueDates`, `ParticleServer`);
* how the head process of a runner keeps a bounded number of states, and why the states the
  peer-to-peer server names can be found, and room be made for them (`HeadState`,
  `StorageHead`, `Durability`, `DeleteRequests`);
* the staging of checkpoints (`Staging`) and the task queue of the checkpointing thread
  (`TaskQueue`).

Handlers that change lists, dictionaries and counters are methods of classes with these
fields. Those of the two servers and of the head are proved to do what a function on values
says (`TaskState`, `ParticleState`, `HeadState`), and everything that holds over whole runs is
proved about those functions.

## How the server proof is built

`TaskState` says what every handler of one server rank makes of its state, `ServerRank` is
the same as methods. `RankInvariant` proves what each handler keeps on one rank. `Cluster`
puts the ranks together with one first-in first-out channel for each sender, receiver and
tag, as MPI 3.1, section 3.5, promises; its events are single handler calls, so a run is any
interleaving of them. `Protocol` forgets the lists and looks at the tasks of a step as a
log: every rank has received a prefix of it, and who holds a member on a rank follows from
that prefix and from what the rank has killed. `RunnerRounds` and `RunnerRegisters` follow
the runner ranks, each of which has one register for all its server ranks: what a server rank
orders from a runner rank in a step is, in order, what the log holds for that runner, so all
its server ranks have ordered the same when it goes on. `ClusterProof` and `ClusterRuns` show
that every event keeps all this, and `ServerTheorems` draws the conclusions. `Scheduling`,
`Progress` and `LateTasks` say what the handlers achieve in terms of the lists, the messages
and the time alone, without the functions that specify them.

## Assumptions

* Runner ids are not used again. A runner rank keeps one register for member and step, sends
  it to all its server ranks, first without a member, and goes on when all of them have
  answered (`ServerCluster.Contacting`, `ServerCluster.GoingOn`). That its message fits what
  each server rank has ordered is proved (`ServerTheorems.MessagesFitOrders`).
* Ranks enter the update step together. The assimilators begin it with an MPI barrier, all
  but the one that checks for stateless models.
* The clock of the particle server does not go back.
* A runner of the particle server reports only jobs it was given, has registered before it
  prefetches, and has sent its starting weight before it reports its cache.
* Ratios in the choice of parents are exact; the code computes them in floating point.
* There is one head process for each runner. A staged copy is complete when its weight is
  sent, and a head fetches only states that the server has named to its runner.

## What the code does not promise

* `calculate_n_to_m` gives a wrong list exactly if an empty runner block is followed by a
  non-empty one: the unsigned `size - 1` wraps around
  (`Redistribution.CalculateNToM`; `Redistribution.EmptyFirstBlock` for blocks of 0 and 4).
* The particle server reaches the assertion that should never be reached exactly if the runner
  has no scheduled job, its last parent and its cached states are not needed any more, there
  is something to propagate, and no parent needs a runner
  (`ParticleServers.ParticleServer.HandleJobRequest`). That can happen after a violated due
  date (`TimeoutExample.BlockedAfterTimeout`), and cannot happen without one in the cycle
  (`ParticleInvariant.NeverBlocked`), nor as long as no runner has due dates for two needed
  parents and one at least has none (`ParticleInvariant.SomeParentNeedsRunner`).
* In the first cycle a violated due date prevents the update for good
  (`ParticleInvariant.UpdateWhenAllWeighted`, `ParticleInvariant.FirstCycleStaysBlocked`;
  `TimeoutExample.FirstCycleTimeout` for a run that gets there).
* Without that barrier a task of the next step could reach a server rank too early and make it
  give up a good runner (`ServerTheorems.EarlyTaskKillsGoodRunner`;
  `UpdateExample.GoodRunnerIsKilled` after a run of ten events).
* A node with three slots gets a pool larger than its storage, one with four or five a pool of
  no or one slot (`StorageHeads.SixSlotsAreNeeded`), which never has the two free slots that
  fetching a state waits for (`StorageHeads.StorageHead.SmallPoolNeverFree`).
* The head cannot make room exactly if the states kept for the runner's jobs leave no two
  slots of the pool; the server then has no state to name, and fails
  (`StorageHeads.StorageHead.MakeRoom`). That does not happen as long as the pool has more
  slots than the runner has open jobs (`DeleteRequests.PoolHasRoom`).
* The size of a server rank's block is narrowed to int: the bounds asserted for incoming parts
  hold exactly up to 2147483647 bytes (`Fields.AssertedBounds`). `Exchange.ExchangeSurvives` is
  about members whose vectors have the size of the block.
* Metadata files are not restored from the global store: the stream is closed before it is
  read (`Staging.MetadataComeBackBlank`).

## Model

| member | source | states |
|---|---|---|
| Redistribution.CalculateLocalVectSizesServer | common/Part.cxx:4-31 | the sizes written to the array are those of the server's layout |
| Redistribution.ServerSizesAreFair | common/Part.cxx:14-29 | the server's blocks exhaust the vector, consist of whole elements, and differ by one element at most, the larger first |
| Redistribution.CalculateNToM | common/Part.cxx:36-104 | the part list is the cut of the two layouts if and only if no empty runner block precedes a non-empty one |
| Redistribution.EmptyFirstBlock | common/Part.cxx:63-64 | with runner blocks of 0 and 4 elements and one server rank the list is no cut |
| Redistribution.WalkVector | common/Part.cxx:54-101 | the walk over the bytes, with unsigned wrap-around, ends with exactly the non-empty overlaps of the blocks, in order |
| Redistribution.Finish | common/Part.cxx:63-64 | a walk that got stuck at an empty runner block has misplaced the last byte |
| CutProperties.EveryByteOnce | common/Part.cxx:59-101 | every byte of the vector lies in exactly one part |
| CutProperties.OnePartPerPair | common/Part.cxx:63-95 | a runner rank and a server rank share one part if their blocks meet, and none otherwise |
| CutProperties.FewParts | common/Part.cxx:54-101 | there are fewer parts than ranks on both sides together |
| CutProperties.CutUnique | common/Part.cxx:36-104 | the layouts determine the list, so sender and receiver cannot disagree |
| CutProperties.PartsKeepElementsWhole | common/Part.cxx:35-38 | no part begins or ends inside an element |
| CutProperties.ScalingLaw | common/Part.cxx:4-104 | the part lists of the assimilated and the hidden vector have the same ranks in the same order, offsets and counts scaled by the element size |
| Migration.PartLists | api/api_common.cxx:201-245 | both lists of a field are cuts, and they can be walked in lock step |
| Migration.CutFits | common/Part.cxx:59-101 | every part lies inside the two blocks it connects |
| Migration.StoredBlock | server/EnsembleMember.cxx:24-43 | in whatever order the messages come, and whatever was stored before, a server rank ends up with its block of the runner's vector |
| Migration.FetchedBlock | api/api_common.cxx:268-297 | fetching through the same list gives a runner rank its own block of the server's vector |
| Migration.StateSurvives | api/api_common.cxx:251-297 | a state sent by one runner, stored by all server ranks and fetched by any runner of the same layout is unchanged |
| Fields.RunnerField.InitConnections | api/api_common.cxx:201-249 | the connections of a runner rank are those of its parts, hidden parts included |
| Fields.RunnerField.PutState | api/api_common.cxx:251-266 | every connected server rank gets its section of the two vectors, with the member and the step of the one register; the member is forgotten |
| Fields.RunnerField.GetState | api/api_common.cxx:268-297 | the answers of all connections are copied into the two vectors, register and number of steps are those of the last one; an answer that kills ends the runner, and a finalizing runner does not wait |
| Fields.GetAndPut | api/api_common.cxx:251-297 | after answers that all carry one member and one step, every message of the next put carries this member and this step |
| Exchange.ConnectionsFollowParts | api/api_common.cxx:211-266 | the messages of a runner rank go to the server ranks of its parts and carry exactly their bytes of both vectors, the member and the step |
| Exchange.PartsAreFound | server/Field.cxx:68-103 | the parts a server rank looks up for a runner rank are those the runner rank has cut for it, in both lists |
| Exchange.ReplyIsDownload | server/server.cxx:175-232 | an answer carries the member's sections for the runner rank, its id, the step and the number of steps |
| Exchange.StoredIsFilled | server/EnsembleMember.cxx:24-43 | message by message, both vectors of a member on a server rank become what all its messages make of them |
| Exchange.RepliesAreDownloads | server/server.cxx:188-232 | the answers to a runner rank are what its connections expect, and carry the bytes of its parts |
| Exchange.ExchangeSurvives | api/api_common.cxx:201-297 | what all runner ranks put, the server ranks store in any order and answer again, any runner of the same layout gets back unchanged, in both vectors |
| Fields.EnsembleMember.StoreBackgroundStatePart | server/EnsembleMember.cxx:24-43 | the values replace the section the part describes, in both vectors, and nothing else |
| Fields.EnsembleMember.SetLocalVectSize | server/EnsembleMember.cxx:12-22 | the vectors get the sizes, narrowed to int; sizes that are negative then are refused |
| Fields.AssertedBounds | server/EnsembleMember.cxx:31-39 | the asserted bounds hold for all parts of a server rank if and only if its block has at most as many bytes as an int can tell |
| Fields.ServerField.CalculateParts | server/Field.cxx:22-66 | the local sizes are those of the server's layout, and the connected runner ranks are those whose block meets the local one |
| Fields.ServerField.GetPart | server/Field.cxx:68-82 | finds the part that connects this server rank with a runner rank |
| Fields.ServerField.GetPartHidden | server/Field.cxx:84-103 | the same among the hidden parts; an empty part where there are none |
| Fields.LocalSize | server/Field.cxx:33-60 | the counts of a server rank's parts add up to its block |
| Fields.GatherGlobalIndexMap | api/melissa_da_api.cxx:246-280 | the global index map is the concatenation of the ranks' maps; without maps it numbers the elements |
| Fields.ScatterIndexMap | server/server.cxx:543-566 | every server rank gets the entries of its elements |
| Fields.IndexMapsFollowData | server/server.cxx:543-566 | the entry a server rank holds for an element is the entry of the runner element whose bytes the part list puts there |
| ServerRanks.ServerRank.TryLaunchSubTask | server/server.cxx:643-677 | launches if and only if the runner rank's connection is idle, and takes the connection |
| ServerRanks.ServerRank.AddSubTasks | server/server.cxx:702-721 | one sub-task for each connected runner rank, running or scheduled |
| ServerRanks.ServerRank.KillTask | server/server.cxx:679-697 | the task's sub-tasks disappear from all lists, the member is unscheduled, the runner's idle connections are told to stop |
| ServerRanks.ServerRank.ScheduleNewTask | server/server.cxx:727-763 | the first unscheduled member goes to the runner with its due date and the next task id, is not unscheduled any more, and no report counts; nothing happens without a member |
| ServerRanks.ServerRank.CheckScheduleNewTasks | server/server.cxx:766-820 | older sub-tasks of the member disappear, their runners are given up, and the new task is added |
| ServerRanks.ServerRank.FailState | server/server.cxx:871-886 | counts a failure of the member; the server gives up if it has failed five times before |
| ServerRanks.ServerRank.CheckDueDatesRoot | server/server.cxx:897-946 | rank 0 kills in order exactly the tasks with an unfinished sub-task whose due date is over, whose sub-tasks all go, keeps those of all others, and reschedules after each kill |
| ServerRanks.ServerRank.CheckDueDates | server/server.cxx:897-962 | another rank kills exactly the tasks with an unfinished sub-task whose due date is over, keeps the sub-tasks of all others, and asks rank 0 to kill exactly these |
| ServerRanks.ServerRank.CheckKillRequest | server/server.cxx:981-1025 | a known kill is ignored; a new one kills, counts a failure and reschedules; the runner is not idle afterwards |
| ServerRanks.ServerRank.HandleDataResponse | server/server.cxx:1098-1227 | a killed runner is told to stop and its result is dropped; otherwise a result of this step is stored, its sub-task has finished, and the runner rank gets its next sub-task or becomes idle |
| ServerRanks.ServerRank.HandleDataResponseRoot | server/server.cxx:1228-1241 | on rank 0 a runner that has become completely idle gets a new task at once |
| ServerRanks.ServerRank.CheckFinishedRoot | server/server.cxx:1270-1307 | only reports about the latest task are counted, one by one, and only while rank 0 would finish itself; it has finished when all others are counted |
| ServerRanks.ServerRank.CheckFinished | server/server.cxx:1320-1354 | a rank that would finish reports each latest task once |
| ServerRanks.ServerRank.InitNewTimestep | server/server.cxx:839-869 | a new step begins with all members unscheduled, no failures and ids restarted |
| ServerRanks.ServerRank.ScheduleIdleRunners | server/server.cxx:1437-1452 | after the update all completely idle runners get tasks, as long as there are any |
| LateTasks.RootKillsLateOnes | server/server.cxx:897-946 | whatever is rescheduled in between, the tasks rank 0 kills are those that are late, no late sub-task is left on the two lists, and sub-tasks of tasks with nothing late stay where they are |
| LateTasks.RankKillsLateOnes | server/server.cxx:897-962 | the same for the other ranks |
| RankInvariant.AssignKeepsInvariant | server/server.cxx:702-721 | a new task keeps the partition of the work and its links to connections and orders |
| RankInvariant.KillKeepsInvariant | server/server.cxx:679-697 | so does killing the task that holds a member |
| RankInvariant.SupersedeIsKill | server/server.cxx:786-816 | clearing the way for a rescheduled member is the same as killing the task that holds it |
| RankInvariant.HandleDataKeepsInvariant | server/server.cxx:1108-1243 | an incoming state that fits the rank's orders, or comes from a killed runner, keeps the invariant, too |
| RankInvariant.DataAssertionsHold | server/server.cxx:1117-1138 | neither assertion fires on an incoming state that fits what the rank has ordered |
| RankInvariant.EveryTaskIsSomewhere | server/server.cxx:1803-1821 | unscheduled members, counted for every connection, and the sub-tasks on the three lists add up to all of them |
| RankInvariant.FinishedBackground | server/server.cxx:1166-1185 | a rank that would finish has every part of every member from the runner that holds it, of this step |
| RunnerRounds.AssignContact | server/server.cxx:702-721 | a new task for a runner is the next member each of its ranks is ordered, at once or when the ones before are done |
| RunnerRounds.AnswerContact | server/server.cxx:1190-1227 | a runner rank that answers is ordered the first member that waits for it, the next one of the log |
| RunnerRounds.NewStepContact | server/server.cxx:839-869 | an order left over from an earlier step is one to a runner killed by then |
| RunnerRegisters.NextRoundRounds | api/api_common.cxx:268-297 | a runner rank that has all answers may take any of them for all: its register then agrees with the order of every server rank |
| RunnerRegisters.DeliveredRounds | server/server.cxx:1098-1227 | handling the message of a runner rank keeps registers and orders in agreement |
| Protocol.IssueKeeps | server/server.cxx:727-763 | a new task of rank 0 keeps the agreement between the ranks |
| Protocol.RootKillKeeps | server/server.cxx:918-946 | so does a kill on rank 0 |
| Protocol.RankKillKeeps | server/server.cxx:947-962 | and one on another rank together with its request |
| Protocol.ReceiveKeeps | server/server.cxx:766-820 | and the arrival of a task |
| Protocol.SupersededIsKilled | server/server.cxx:789-806 | the runner a rank gives up for a newer task is one rank 0 has killed, and no later task names it |
| Protocol.CountReportKeeps | server/server.cxx:1280-1299 | counting a report keeps the agreement |
| Protocol.CountReportCounts | server/server.cxx:1289-1299 | a rank that is counted has not been counted for this task before |
| Protocol.SameKills | server/server.cxx:981-1025 | when all ranks update and hold all members, they have killed the same tasks |
| Protocol.NewStepKeeps | server/server.cxx:849-852 | although ids restart, nothing of the old step is taken for something of the new one |
| ClusterProof.IssueKeeps | server/server.cxx:727-763 | in the cluster of all ranks, a task that rank 0 issues keeps the whole invariant |
| ClusterProof.RootKillAllKeeps | server/server.cxx:918-946 | rank 0 can kill any tasks that are held, rescheduling in between: the others stay held |
| ClusterRuns.ArrivalKeeps | server/server.cxx:702-704 | when a task arrives its member has been unscheduled, as the assertion demands |
| ClusterRuns.KillRequestKeeps | server/server.cxx:981-1025 | handling a kill request keeps the invariant |
| ClusterRuns.UpdateKeeps | server/server.cxx:839-869 | at an update the assertions at the begin of a step hold on all ranks, and the invariant is kept |
| ClusterRuns.StepKeeps | server/server.cxx:1742-1800 | no event makes an assertion fail, and every event keeps the invariant |
| ServerTheorems.NoAssertionFails | server/server.cxx:1117-1138 | over every run, whatever the interleaving and the timeouts, none of the assertions on incoming states, on new tasks and at the begin of a step fails, with runner ranks that send one register to all server ranks |
| ServerTheorems.OrdersArePrefixes | server/server.cxx:1190-1215 | in every reachable state what a server rank has ordered from a runner rank in the step is a prefix of the members handed to the runner, the open order being the last of it |
| ServerTheorems.MessagesFitOrders | api/api_common.cxx:251-266 | the message of a living runner rank names the member and step this server rank has ordered, or is its first |
| ServerTheorems.AnswersAreEqual | api/api_common.cxx:268-297 | a runner rank with all answers has got the same member and step from all its server ranks, unless all of these have killed the runner, so it does not begin with parts of two members |
| ServerTheorems.SameRoundSameMember | api/api_common.cxx:268-297 | two ranks of a runner that have got work equally often in the step work on the same member |
| ServerTheorems.EveryMemberIsPartitioned | server/server.cxx:1798-1821 | in every reachable state, on every rank, a member is unscheduled without sub-tasks, or has exactly one sub-task for each connected runner rank, all on one runner |
| ServerTheorems.AllTasksSomewhere | server/server.cxx:1813-1820 | the assertion at the end of the main loop holds in every reachable state |
| ServerTheorems.NobodyWaitsForIdle | server/server.cxx:643-677 | no scheduled sub-task waits for a runner rank that is idle |
| ServerTheorems.TerminationDetection | server/server.cxx:1280-1318 | when rank 0 has sent ALL_FINISHED, every rank has finished everything, no NewTask is on its way, and no report is left |
| ServerTheorems.ReportCountsOnce | server/server.cxx:1289-1299 | a report is counted only for a rank that has received all tasks and would finish, and none follows it |
| ServerTheorems.UpdateIsCollective | server/server.cxx:1342-1354 | when all ranks update, no ALL_FINISHED message is left |
| ServerTheorems.BackgroundFromOneRunner | server/server.cxx:1166-1185 | at every update step, for each member there is one runner such that every part of its background, on every server rank, is that runner's result for the step |
| ServerTheorems.EarlyTaskKillsGoodRunner | server/server.cxx:766-820 | a task of the next step that reaches a rank before it has noticed the end of this one makes it kill a runner that rank 0 has not killed, and keeps it from noticing |
| UpdateExample.RankZeroIsFirst | server/server.cxx:1301-1318 | a run of ten events to a state in which rank 0 has announced the end and rank 1 has not noticed it |
| UpdateExample.BothUpdate | server/server.cxx:1342-1354 | one event more, and all ranks update |
| UpdateExample.GoodRunnerIsKilled | server/server.cxx:766-820 | in the state before, a task of the next step makes rank 1 kill a runner that rank 0 has not killed |
| ServerTheorems.KillRequestsAreExact | server/server.cxx:997-1013 | a kill request rank 0 acts on names the runner that has the member there; all others are among the known ones |
| ServerTheorems.DeadIsNotIdle | server/server.cxx:679-682 | a runner a rank has killed is not idle there |
| ServerTheorems.TasksAreBounded | server/server.cxx:871-886 | each member has been issued once for each of its failures in the step, and once more if it is not unscheduled, at most six times; so at most six tasks for each member are issued |
| Scheduling.NoRunnerWaitsForWork | server/server.cxx:937-945 | in every reachable state, if all ranks of some runner wait for rank 0, no member is left to be handed out: kills, results and the update all lead to new tasks |
| Progress.NobodyIsForgotten | server/server.cxx:1098-1227 | in every reachable state a runner rank whose message has reached a server rank has been answered there or is kept as waiting; the first, if its runner has been killed |
| Progress.EverySubTaskWasIssued | server/server.cxx:702-721 | every sub-task on any list of any rank belongs to a task rank 0 has issued in this step, with its runner, member and due date |
| Progress.KillsReachRankZero | server/server.cxx:947-962 | what a rank has killed rank 0 has killed, too, or the request is on its way and names the runner that has the member |
| Progress.ReportsComplete | server/server.cxx:1280-1307 | once all ranks have reported and the reports are read, rank 0 has counted all the others, so the step ends |
| Progress.UpdateAdvances | server/server.cxx:839-869 | an update that is told to go on succeeds, takes all ranks the same number of steps further and forgets all failures |
| Progress.GivesUpAtDueDates | server/server.cxx:918-946 | rank 0 gives up at its due dates if and only if a late sub-task is of a member that has failed five times in the step |
| Progress.GivesUpAtRequest | server/server.cxx:997-1029 | and at a kill request if and only if the kill is news and the member has failed five times |
| ServerTheorems.OneStep | server/server.cxx:854 | in every reachable state all ranks are in the same step |
| DeadRunners.DeadStaysDead | server/server.cxx:1098-1107 | once a rank has killed a runner, no event of the server brings it back or gives it work there |
| Results.ResultsAreUnmixed | server/server.cxx:1108-1185 | in every reachable state a message on its way to a server rank that has not killed the runner is the runner rank's first, or a result of this step for which all server ranks had given it the member the message names, and no other |
| Dictionaries.AppendAdds | server-p2p/server.py:247-250 | appending adds one occurrence and changes nothing else |
| Dictionaries.RemoveRemoves | server-p2p/server.py:252-255 | removing takes away one occurrence, changes nothing else and leaves no empty list |
| DueDateIndex.DueDates.Add | server-p2p/server.py:115-124 | the entry is added to the three dictionaries, which keep the same content |
| DueDateIndex.DueDates.Remove | server-p2p/server.py:126-151 | the entry of the job is found in all three dictionaries and removed, and its parent is returned |
| DueDateIndex.DueDates.RunnersPerParent | server-p2p/server.py:196-200 | the number of different runners with an entry for the parent |
| DueDateIndex.DueDates.GetByRunner | server-p2p/server.py:153-155 | the runner's jobs and their parents |
| DueDateIndex.StateCache.Update | server-p2p/server.py:238-245 | the runner's list is replaced, and the two dictionaries stay inverse to each other |
| DueDateIndex.StateCache.GetRunners | server-p2p/server.py:224-228 | the runners that have the state and are not faulty |
| ParticleServers.ParticleServer.CountMembers | server-p2p/server.py:60-64 | the number of particles still to be propagated |
| ParticleServers.ParticleServer.SelectGoodNewParent | server-p2p/server.py:566-600 | a cached parent that is needed, or one that needs a runner; the final assertion is reached if and only if, in a later cycle with something to propagate, no cached state is needed and no parent needs a runner |
| ParticleServers.ParticleServer.HandleJobRequest | server-p2p/server.py:619-670 | the reply names the next job id and the parent scheduled before, the runner's last parent, or a new one, or nothing, with the books changed accordingly and a due date for the job; when exactly the assertion is reached, and that it is not without a violated due date |
| ParticleServers.ParticleServer.RequestMeans | server-p2p/server.py:641-668 | a job has the next id, a due date and the parent promised before; else the runner's last parent while that is needed, and the parent of a later cycle has one particle less to propagate |
| ParticleServers.ParticleServer.RequestOfOne | server-p2p/server.py:641-668 | due dates, last parents and scheduled jobs of the other runners stay as they are |
| ParticleServers.ParticleServer.RequestFindsReady | server-p2p/server.py:641-652 | in every state a run can reach, the dictionaries have what the handler looks up |
| ParticleServers.ParticleServer.AcceptPrefetch | server-p2p/server.py:463-498 | the runner's next parent is decided and gets a due date; it is named exactly if the runner does not hold it; in the first cycle nothing is; the cache is what the runner says; when exactly the assertion is reached |
| ParticleServers.ParticleServer.AcceptWeight | server-p2p/server.py:307-341 | the job has no due date any more, its weight is stored, the runner is known to have the state, and the update follows if it can |
| ParticleServers.ParticleServer.AcceptRunnerRequest | server-p2p/server.py:350-360 | a runner heard of for the first time has no parent yet; its address is kept, and all other addresses are; the reply lists the addresses of the other living runners that have the state |
| ParticleServers.ParticleServer.CheckViolations | server-p2p/server.py:158-193 | every entry that is due is worked off once, in the order of time, and all others stay; exactly the runners with such an entry become faulty and lose their scheduled job, and a parent is needed once more for each of its entries |
| ParticleServers.ParticleServer.AcceptDelete | server-p2p/server.py:387-461 | the state to delete is none the runner's own jobs depend on, nothing else is excluded; a state still needed goes only if nothing older, unneeded or new can, and a new one only if nothing older can and its weight is the lowest; the books have what the handler looks up |
| ParticleInvariant.StepSound | server-p2p/server.py:278-290 | every event keeps the law of conservation and the rest of the books |
| ParticleInvariant.ParticlesAreConserved | server-p2p/server.py:287 | in every state of every run, particles to propagate, jobs under way and weights add up to all particles, and the stealable jobs are those to propagate and those scheduled |
| Propagation.ParentsAreConserved | server-p2p/server.py:278-290 | in every state of every run, parent by parent: particles to propagate, jobs under way and weights received in the cycle add up to what has been drawn for the cycle |
| Propagation.EveryParticleOnce | server-p2p/server.py:307-341 | when a cycle ends, each particle drawn for it has been propagated from its own parent and weighted, exactly once |
| ParticleInvariant.UpdateWhenAllWeighted | server-p2p/server.py:285-287 | the number of weights alone decides about the update; in the first cycle only if no due date was violated |
| ParticleInvariant.UpdateSound | server-p2p/server.py:780-802 | resampling gives as many particles as there were, all of them weighted states of the cycle, the next cycle begins with no weights and all jobs to be stolen, and the law holds again |
| ParticleInvariant.ExpireAllSound | server-p2p/server.py:169-193 | any number of violated due dates keeps the law |
| ParticleInvariant.ExpireAllMeans | server-p2p/server.py:169-193 | what is late has gone, exactly its runners are given up, and each parent is needed once more for each of its entries |
| ParticleInvariant.NeedsRunnerExactly | server-p2p/server.py:559-560 | a parent needs a runner if and only if the number of runners with due dates for it, times all particles to propagate, is below its particles times the number of runners |
| ParticleInvariant.ChoiceMeans | server-p2p/server.py:566-600 | a runner gets its last parent as long as that is needed, in the first cycle its base state, else the first of its cached states that is needed, else a parent with less than its share of the runners; nothing only if there is nothing to propagate |
| ParticleInvariant.SomeParentNeedsRunner | server-p2p/server.py:559-600 | if no runner has due dates for two needed parents, and one at least for none, some parent needs a runner, by counting runners against shares rounded up; also in cycles with violated due dates |
| ParticleInvariant.NeverBlocked | server-p2p/server.py:559-600 | without violated due dates in the cycle some parent needs the runner that asks, so the final assertion is not reached |
| ParticleState.BlockedMeansNoChoice | server-p2p/server.py:566-600 | the guard of the final assertion holds if and only if there is no parent the runner could get |
| ParticleInvariant.ParentsAreWeighted | server-p2p/server.py:648-668 | the parent of a job or prefetch reply is a state of the cycle before whose weight has come in |
| ParticleInvariant.FirstCycleStaysBlocked | server-p2p/server.py:186-188 | after a violated due date in the first cycle every later state of the run is in the first cycle, and cannot update |
| TimeoutExample.BlockedAfterTimeout | server-p2p/server.py:600 | a run of eight events after which the guard of the final assertion holds for a runner |
| TimeoutExample.FirstCycleTimeout | server-p2p/server.py:158-193 | a run of two events to a violated due date in the first cycle, after which no run leaves that cycle |
| StorageHeads.IdsLeadBack | api/p2p/StorageController/fti_controller.hpp:19-28 | a checkpoint id leads back to its state exactly as long as it fits into an int |
| StorageHeads.SixSlotsAreNeeded | api/p2p/StorageController/storage_controller.cxx:113-136 | the pool has two slots and leaves four alone if and only if the node has six; its capacity for every number of slots |
| StorageHeads.StorageHead.DeleteRequest | api/p2p/StorageController/storage_controller.cxx:516-561 | the named state leaves the disk, the pool and the list of cached states, and no other state does; there is none exactly if all cached states are kept |
| StorageHeads.StorageHead.RequestPost | api/p2p/StorageController/storage_controller.cxx:320-363 | a result is staged, its weight sent, and it is counted; one state goes exactly if the pool is full, and that fails exactly if all states are kept; then the server is told what is cached and its answer is queued; the pool's assertions hold and a slot is free |
| StorageHeads.StorageHead.MakeRoom | api/p2p/StorageController/storage_controller.cxx:248-250 | the loop ends with two slots free, and only deletable states gone, if and only if the kept states among the cached ones are fewer by two than the slots; else it comes to a point where nothing can be deleted |
| StorageHeads.StorageHead.SmallPoolNeverFree | api/p2p/StorageController/storage_controller.cxx:246-250 | a pool of no or one slot never has the two free ones the loop waits for |
| StorageHeads.StorageHead.PullHead | api/p2p/StorageController/storage_controller.cxx:246-263 | the state is local afterwards, unless room for it cannot be made, and exactly then not; the states to be kept are still there, and a slot is free |
| StorageHeads.StorageHead.RequestPull | api/p2p/StorageController/storage_controller.cxx:381-389 | the first pull request is worked off: its state is local, unless room for it cannot be made; a slot is free |
| StorageHeads.StorageHead.CleanUp | api/p2p/StorageController/storage_controller.cxx:185-196 | the states at the front of the queue that are older than the cycle before the newest leave queue and global store, and no others |
| Durability.ActKeeps | api/p2p/StorageController/storage_controller.cxx:338-346 | every action of server and heads keeps weighted states of the last two cycles on the global store |
| Durability.ParentsAreStored | api/p2p/StorageController/storage_controller.cxx:568-580 | from the second cycle on, every parent the server has given out or may give out is on the global store |
| Durability.CacheKnowledge | server-p2p/server.py:238-245 | what the server believes a living runner to have cached, the runner's head has |
| DeleteRequests.DeleteIsAnswered | server-p2p/server.py:387-461 | over all histories the books have what a delete request needs: the runner's list, a state that is not kept, and the weights of all new states, if the runner has a result and, from the second cycle on, more states cached than jobs open |
| DeleteRequests.KeptAreFew | server-p2p/server.py:404-413 | of a runner's cached states no more are kept than it has open jobs, and fewer if the parent of one of them is still to be fetched |
| DeleteRequests.PoolHasRoom | api/p2p/StorageController/storage_controller.cxx:246-250 | so a pool with more slots than the runner has open jobs can always make room |
| TaskQueue.FrontIsThere | server/FTthreadManager.cxx:55-63 | over all interleavings the scheduler never takes the front of an empty queue |
| TaskQueue.SynchronizeWaits | server/FTthreadManager.cxx:79-84 | when no request is left, every task submitted so far has finished |
| TaskQueue.OneAfterTheOther | server/FTmodule.cxx:16 | with one slot a task starts only when the one submitted before it has finished |
| TaskQueue.StepKeeps | server/FTthreadManager.h:55-72 | every step of every thread keeps queue, counters and slots consistent |
| Staging.StageL1L2 | api/p2p/StorageController/fti_controller.cxx:287-335 | the global file holds the ranks' bytes one after the other |
| Staging.StageL2L1 | api/p2p/StorageController/fti_controller.cxx:407-446 | the files cut out of it again have the ranks' sizes and make up the whole of it |
| Staging.StagingRoundTrip | api/p2p/StorageController/fti_controller.cxx:295-446 | every rank gets its own bytes back |
| Staging.WriteMetadata | api/p2p/StorageController/fti_controller.cxx:337-350 | each metadata file follows a line with its number of lines |
| Staging.FramingKeepsMetadata | api/p2p/StorageController/fti_controller.cxx:345-347 | a reader of that format gets the files back, if they end with a line end |
| Staging.MetadataComeBackBlank | api/p2p/StorageController/fti_controller.cxx:403-465 | the reader of the code, which has closed its stream, can return only files of empty lines |

## Left out

- ServerCluster.Step: all tasks that one handler call schedules get the same due date, where the code reads the clock again for each.
- ServerTheorems.BackgroundFromOneRunner: says where the bytes of a part come from; that they are the right bytes is Exchange.ExchangeSurvives.
- Exchange.ExchangeSurvives: the server ranks answer with what they have stored; what an assimilator makes of a state in between is not modelled.
- ParticleServers.ParticleServer.AcceptWeight: the random sample is a parameter, any sequence of states of the cycle with the right length; weights are real numbers that only the choice of a state to delete looks at.
- ParticleServers.ParticleServer.AcceptRunnerRequest: the code shuffles the addresses; here they come in the order of the cache.
- StorageHeads.StorageHead.MakeRoom: the states kept for the runner's jobs are the same in all requests of one loop.
- DeleteRequests.DeleteIsAnswered: that a runner's starting weight comes before its requests is assumed, see above.
- TaskQueue.FrontIsThere: that reading the front and pushing touch the same container without a lock is not modelled.
- Messages, sockets and MPI calls are events with their content; waiting for them is not modelled.
- The main loop checks due dates and kill requests once a second; here they may be checked at any time.
- reset_due_dates, which runs once, before any sub-task exists.
- Restarting either server from a checkpoint, and the end of a study after the last cycle.
- The messages that are printed, timing, and the notification of the launcher.
- FTmodule::protect_background, which splits a state by bytes and not by elements.
- dump_states of a prefetch reply, which the server never fills in.
- The assimilators, the launcher and the Fortran and C interfaces.
- Peer-to-peer transfer between heads, which the code has switched off.
