# Verified model of the Provessor backend

Provessor rents out virtual machines: a Go backend creates networks and machines in
Oracle Cloud, keeps their rows in SQLite, runs the work through a persistent job
queue and streams progress to browsers. This project models the parts of that backend
whose promises span several functions, several concurrent actors or whole runs, and
proves those promises with Dafny 4.11.

`dafny verify dfyconfig.toml` checks everything.

## How it is organised

| files | what they model |
|---|---|
| `RateLimiter.dfy`, `LimiterRuns.dfy` | the fixed-window rate limiter with lazy pruning, and its guarantees over call traces |
| `Broker.dfy`, `Handover.dfy`, `HandoverOrder.dfy`, `Subscriptions.dfy` | the event broker, every interleaving of publishers and stream handlers around it, when a stream is in append order, and how long a subscription lives |
| `JobQueue.dfy`, `JobRuns.dfy` | the jobs table and its worker, and whole runs with crashes and lost writes |
| `Cloud.dfy`, `NetworkStore.dfy` | the cloud as an environment that refuses and fails, and the network tables |
| `Teardown.dfy`, `DestroyNetwork.dfy` | the teardown of a network |
| `TrackedResources.dfy`, `RollbackNetwork.dfy` | tracked resources and the rollback as it runs |
| `RollbackRuns.dfy`, `RollbackOutcomes.dfy`, `RollbackClouds.dfy` | every way a rollback can go, and what exactly it leaves |
| `Provisioning.dfy`, `ProvisionNetwork.dfy` | provisioning, with reuse of what earlier attempts left |
| `Reconcile.dfy`, `Lifetime.dfy` | what a restart does about stuck networks, together with the job queue, and the network service over its whole life |
| `VpsRepository.dfy`, `VpsRaces.dfy` | the racing statements on one VPS row: host-key pinning and credential delivery |
| `CidrSlots.dfy`, `CidrRaces.dfy` | the allocator of network address ranges, and interleaved creates |
| `Shell.dfy` | shell quoting against a POSIX shell's word cutting |
| `CloudInit.dfy` | the three placeholder replacements in cloud-init templates |
| `Firewall.dfy` | writing firewall rules to a security group and reading them back |

Code that changes state is a class with `modifies` clauses, or a method on such
classes, and is proved equal to a function on values where its result is determined;
the guarantees over runs are lemmas about those functions. `NetworkService` and
`ReconcileService` have no state of their own, so their operations are methods that take
the cloud (`Cloud.Api`) and the tables (`NetworkStore.Store`). `Cloud.Api` is an
environment: callers rely on its contracts only, which allow any call to fail at any
time, accepted route changes and subnet deletes to take effect later, and a create or
route update to take effect although it reported a failure (`lost` counts those). Any
statement on `NetworkStore.Store` may fail too; `faults` counts those failures. A crash
inside an operation is covered by the same contracts: to the cloud and the tables it
looks as if all its remaining calls had failed without effect, so whatever a contract
says without a condition on failures also holds of what a crash leaves.

Where the code and its documentation disagree the code was followed. The comment above
step 1 of the teardown speaks of clearing all route rules; the code, and the model, drop
only those that lead to managed gateways. Provisioning and teardown distinguish a row that
cannot be read from one that does not exist, but the lookup returns no row in both
cases, so both are reported as not found.

## What turned out not to hold

- A rollback marks every row as deleted but need not delete everything. For every
  network it leaves exactly what something held when its delete was answered, and subnets
  that are still terminating (`RollbackRuns.LeftExactly`). A resource is sure to go,
  whatever the cloud does, if and only if its row was clearable at the start: no route
  leads or will lead to a gateway, no subnet uses a list, and nothing untracked and no
  subnet lies in a VCN (`RollbackClouds.GoesInEveryCloud`). So a network with the default
  route in force always keeps gateway and VCN (`RollbackClouds.RoutedGatewayLeaks`), and
  one with a subnet may keep all three of VCN, list and subnet although no route exists
  (`RollbackClouds.SlowSubnetLeaks`). If the cloud is done with every change before the
  next delete arrives, a wholly tracked network is cleared if and only if no route leads
  to a tracked gateway (`RollbackOutcomes.CleanUnlessRouted`).
- With nothing foreign in a network, and a cloud that only refuses what it must, a teardown
  succeeds if and only if the stored VCN still exists (`DestroyNetwork.DestroyCloud`). So
  a network whose VCN is gone can never be torn down, whatever the cloud answers; a
  teardown that kept the row for its VPS rows leads there (`DestroyNetwork.DestroyAgain`).
- The teardown itself looks for VPS rows only after the cloud resources are gone: a row
  added after the handler's own look (internal/handler/network.go:132-138) keeps the
  network row but not its VCN. With all cloud steps done and a working database this
  outcome, `RowKept`, occurs if and only if VPS rows refer to the network
  (`DestroyNetwork.Destroy`, and `DestroyNetwork.DestroyReferred` for an instance).
- An interval of k windows can admit (k + 1) * limit - 1 calls, and not one more
  (`LimiterRuns.SlidingBound`, `LimiterRuns.SlidingBoundAttained`).
- The three cloud-init replacements equal one simultaneous substitution if and only if
  no placeholder can be completed across an inserted URL; an empty URL always fails this
  (`CloudInit.SequentialIsSimultaneous`, `CloudInit.LowerCaseUrlIsHarmless`).
- Two publishers on one topic can reach a subscriber out of order, from every state in
  which two publications are on their way to it; its stream stays in append order if and
  only if there is never more than one (`HandoverOrder.EitherFirst`,
  `HandoverOrder.OrderedUnlessTwo`).
- Network creates that are not each done as a whole keep the slots distinct if and only
  if no insert uses a read that missed another insert of the same slot
  (`CidrRaces.DistinctUnlessMissed`); from every table with room two interleaved creates
  can collide (`CidrRaces.InterleavedCreatesCollide`).
- Saving back loaded firewall rules leaves a group as it was if and only if all its rules
  have the form this code writes (`Firewall.SaveBackExact`, `Firewall.SaveBackIsIdentity`).

## Model

| member | source | states |
|---|---|---|
| RateLimiter.Limiter.constructor | internal/server/middleware.go:69-76 | a new limiter has no buckets and has never pruned |
| RateLimiter.Limiter.PruneExpired | internal/server/middleware.go:104-114 | at most once a window, exactly the buckets whose reset has been reached are dropped and the prune time set; every other bucket is kept as it is |
| RateLimiter.Limiter.Allow | internal/server/middleware.go:78-102 | state and answer are those of the specification function; with a limit below one or no window everything is admitted and nothing changes |
| RateLimiter.RetryAfterSeconds | internal/server/middleware.go:166-167 | the header is the least whole number of seconds that covers the wait, with exact arithmetic |
| LimiterRuns.NonInterference | internal/server/middleware.go:78-114 | for every limit of at least one, every positive window and every trace with a non-decreasing clock a key gets the answers of a never-pruning limiter fed with that key's calls only |
| LimiterRuns.SlidingBound | internal/server/middleware.go:89-101 | for every limit of at least one and positive window, any interval of k windows admits at most (k + 1) * limit - 1 calls of a key |
| LimiterRuns.SlidingBoundAttained | internal/server/middleware.go:89-101 | that bound is reached for every limit and k, with a witness trace |
| LimiterRuns.PeriodBound | internal/server/middleware.go:89-101 | the window that starts when a bucket opens admits at most limit calls |
| LimiterRuns.DenialIsHonest | internal/server/middleware.go:95-97 | a denial names a wait of at most one window; unless the key itself calls at or after that moment before, it is next admitted if and only if it calls at or after that moment, whatever other keys do in between |
| LimiterRuns.BucketsAreRecent | internal/server/middleware.go:104-114 | after each call every stored bucket was opened less than two windows ago |
| LimiterRuns.UnlimitedAdmitsAll | internal/server/middleware.go:78-80 | with a limit below one or no window every call of every trace is admitted and the state stays as it was |
| Broker.EventBroker.constructor | internal/sse/broker.go:28-34 | a new broker has no clients, history or channels |
| Broker.EventBroker.Subscribe | internal/sse/broker.go:36-48 | a new open channel joins the topic and nothing else changes; registered channels remain exactly the open ones |
| Broker.EventBroker.Unsubscribe | internal/sse/broker.go:50-66 | a member of the topic is closed with its buffer kept and is in no topic any more; every other channel, membership and history is unchanged; the topic stays if and only if someone else is left; an unknown channel changes nothing |
| Broker.UnsubscribedLeaves | internal/sse/broker.go:50-66 | the same of the specification function of every sound state, told from the states before and after only |
| Broker.Stamped | internal/sse/broker.go:69-74 | a missing topic becomes the topic published to and a missing timestamp the current time; what is set is kept |
| Broker.EventBroker.Append | internal/sse/broker.go:76-81 | the history becomes the last fifty of the old history and the event; other topics, clients and channels are unchanged |
| Broker.EventBroker.Deliver | internal/sse/broker.go:83-91 | each member of the topic with fewer than 64 unread events gets the event and no other channel changes; no closed channel is sent to |
| Broker.EventBroker.Publish | internal/sse/broker.go:68-92 | the two sections one after the other on the stamped event |
| Broker.EventBroker.Snapshot | internal/sse/broker.go:94-104 | the topic's history, empty if there is none |
| Broker.EventBroker.Close | internal/sse/broker.go:106-116 | every registered channel is closed exactly once with its buffer kept, no topic has clients left, and every other channel and the history are unchanged |
| Handover.ChannelSafety | internal/sse/broker.go:36-116 | in every interleaving nothing is sent to or closed twice on a closed channel, registered channels are the open ones, and each history is the last fifty appended events |
| Handover.NoGapHandover | internal/handler/sse.go:56-67 | the replay is exactly the last fifty events at the history read; a live subscription was offered exactly the events appended since it subscribed or undelivered at that moment, each enqueued, refused with 64 unread, or still on its way; so nothing since the replay's start is missing |
| Handover.StreamExact | internal/handler/sse.go:74-87 | what was received and what is buffered is, event by event, what was enqueued, unaltered, each event once |
| Handover.StreamGrows | internal/handler/sse.go:56-98 | later steps only extend a subscription's stream and what was received of it, never touch its replay, and never revive an ended subscription |
| Subscriptions.LiveUntilEnded | internal/sse/broker.go:50-116 | in every interleaving a subscription is registered, and its channel open, if and only if since its subscribe neither its handler has left nor the broker was closed; it never comes back |
| Subscriptions.HistoryIsRead | internal/handler/sse.go:56-67 | from every reachable state a handler that has not read the history yet can read it and gets the last fifty events of its topic |
| Subscriptions.ReceivingDrains | internal/handler/sse.go:74-87 | from every reachable state, ended subscriptions included, receiving until the channel is empty hands over in order exactly what was ever enqueued |
| Handover.SerialHandover | internal/sse/broker.go:68-92 | with one publication of a topic at a time the stream is in append order, and while nothing was refused replay and stream are one contiguous piece of the log lacking at most the event being delivered |
| HandoverOrder.EitherFirst | internal/sse/broker.go:83-91 | from every reachable state, of any two publications on their way to a live subscription either may arrive first |
| HandoverOrder.TwoPendingReorder | internal/sse/broker.go:68-92 | two publications of a topic that have not begun their deliveries can reach any live subscription of it in either order |
| HandoverOrder.OrderedUnlessTwo | internal/sse/broker.go:68-92 | for every interleaving: a stream is in append order at every stage, however it goes on without new publications, if and only if at no stage two publications are on their way to it |
| HandoverOrder.SerialIsOrdered | internal/sse/broker.go:68-92 | one publication of the topic at a time is enough for that |
| HandoverOrder.ConcurrentPublishersReorder | internal/sse/broker.go:76-91 | whenever nobody is delivering, two publishers can append so that a live subscription receives the later event first |
| Handover.UninterruptedDelivery | internal/sse/broker.go:86-91 | sending to the channels one by one in any order is the broker's second section |
| JobQueue.Queue.constructor | internal/service/jobqueue.go:47-63 | the queue works on the jobs table as it finds it and has triggered no rollback |
| JobQueue.Queue.Enqueue | internal/service/jobqueue.go:65-76 | one pending job without attempts is added after all others |
| JobQueue.FirstDue | internal/service/jobqueue.go:149-152 | the lowest id among pending jobs whose time has come, and none if and only if there is no such job |
| JobQueue.Queue.Claim | internal/service/jobqueue.go:142-178 | that job, and no other, becomes running |
| JobQueue.Queue.MarkComplete | internal/service/jobqueue.go:228-236 | only the status and time of the job change |
| JobQueue.Queue.MarkFailed | internal/service/jobqueue.go:238-271 | three or more attempts trigger one rollback and fail the job; the first puts it back as pending for 60 seconds later, the second for 300 seconds later, without a rollback |
| JobQueue.Queue.TriggerRollback | internal/service/jobqueue.go:273-321 | the rollback of this job is triggered once more, after the earlier ones |
| JobQueue.Queue.RunJobWithRecovery | internal/service/jobqueue.go:185-226 | success completes the job; an error or a panic, recorded as such, is one failed attempt: after none it is pending again for 60 seconds later, after one for 300 seconds later, after two it is rolled back and failed |
| JobQueue.Queue.ProcessOneJob | internal/service/jobqueue.go:141-183 | one tick executes the lowest due job or does nothing; how it ends is told from the row: due again 60 seconds after the first failure, 300 seconds after the second, rolled back and failed after the third |
| JobQueue.Queue.ResumeOnStartup | internal/service/jobqueue.go:100-113 | exactly the running jobs become pending again |
| JobRuns.ExecutionsBounded | internal/service/jobqueue.go:141-271 | over every run a job executes at most three times plus the executions a crash or lost write cut off; failed means three failures and a rollback triggered before |
| JobRuns.FailureCourse | internal/service/jobqueue.go:185-271 | from every reachable state with a job executing: the first failure is due again exactly 60 seconds later, the second exactly 300 seconds later, both without a rollback; the third triggers one rollback while the row is unchanged and then ends as failed with three attempts |
| JobRuns.ClaimCourse | internal/service/jobqueue.go:141-178 | in every reachable state an idle worker claims if and only if a pending job is due, and then the one with the lowest id becomes running |
| JobRuns.FirstExecutionsInOrder | internal/service/jobqueue.go:149-152 | first executions happen in id order |
| JobRuns.OneRunningJob | internal/service/jobqueue.go:141-183 | unless a status write was lost, only the job being executed is running |
| JobRuns.BackoffRespected | internal/service/jobqueue.go:252-266 | whatever crashes and restarts come between, no failed job is claimed before its one- or five-minute backoff is over |
| JobRuns.JobsPersist | internal/service/jobqueue.go:100-271 | no job is lost or altered and a finished job is never touched again |
| JobRuns.QueueDrains | internal/service/jobqueue.go:141-271 | without crashes every finished execution uses up an attempt, so at most three per unfinished job, after which nothing is left |
| JobRuns.AlwaysProgress | internal/service/jobqueue.go:115-139 | an idle worker with unfinished jobs can claim one after waiting |
| Cloud.Api.GetVcn | internal/service/oci.go:717-729 | environment: an answer shows the VCN as it is, or that it is gone; the cloud only drifts |
| Cloud.Api.GetRoutes | internal/service/oci.go:793-805 | environment: an answer shows the rules in force, which may lag behind the requested ones |
| Cloud.Api.SetRoutes | internal/service/oci.go:807-822 | environment: accepted rules come into force later; a reported failure may have had its effect |
| Cloud.Api.ListChildren | internal/service/oci.go:998-1028 | environment: an answer lists each child of the kind once, and all of them |
| Cloud.Api.GetSubnet | internal/service/oci.go:906-929 | environment: not found and terminated mean the subnet is gone |
| Cloud.Api.CreateVcn | internal/service/oci.go:673-715 | environment: a new VCN has an empty route table and a default security list; on failure it may exist without its id being known |
| Cloud.Api.CreateChild | internal/service/oci.go:759-777 | environment: a new managed child of an existing VCN; on failure it may exist without its id being known |
| Cloud.Api.DeleteChild | internal/service/oci.go:779-791 | environment: refused exactly while a route targets the gateway or a subnet uses the list; a subnet may terminate for a while |
| Cloud.Api.DeleteVcn | internal/service/oci.go:731-743 | environment: refused exactly while a child other than the default list exists |
| NetworkStore.RowsOf | internal/repository/network_resource.go:46-70 | exactly the network's rows |
| NetworkStore.Marked | internal/repository/network_resource.go:72-86 | a status by OCID reaches exactly the rows with that OCID |
| NetworkStore.Store.Get | internal/repository/network.go:154-169 | the row, or none if there is none or the read failed |
| NetworkStore.Store.UpdateStatus | internal/repository/network.go:194-200 | only the status of that row changes; a missing row is no error |
| NetworkStore.Store.UpdateProgress | internal/repository/network.go:210-213 | only the provisioning state of that row changes |
| NetworkStore.Store.UpdateProvisionResult | internal/repository/network.go:186-192 | both OCIDs are stored and the network is ready, in one statement |
| NetworkStore.Store.Delete | internal/repository/network.go:171-184 | refused while VPS rows refer to the network, else the row and its resource rows are gone |
| NetworkStore.Store.ListByStatus | internal/repository/network.go:123-152 | exactly the networks with one of the statuses, in id order; asking for no status cannot fail |
| NetworkStore.Store.CreateResource | internal/repository/network_resource.go:19-28 | one row is added after all others |
| NetworkStore.Store.GetByNetworkAndType | internal/repository/network_resource.go:30-44 | some row of the network and type, whatever its status, and none only if there is none |
| NetworkStore.Store.ListByNetwork | internal/repository/network_resource.go:46-70 | the network's rows in id order |
| NetworkStore.Store.SetDeleted | internal/repository/network_resource.go:72-86 | the status of exactly the rows with that OCID |
| DestroyNetwork.WaitForRouteTableCleared | internal/service/oci.go:876-904 | success means a table without routes to the gateways was seen in force; any other end is an error |
| DestroyNetwork.WaitForSubnetTerminated | internal/service/oci.go:906-929 | success or not-found means the subnet is gone; any other end is an error |
| Teardown.Filtered | internal/service/network.go:444-451 | exactly the rules that lead to no managed gateway |
| DestroyNetwork.Filter | internal/service/network.go:444-451 | the loop computes that filter |
| Teardown.OtherRulesSurvive | internal/service/network.go:444-451 | every other rule survives, once and in its place |
| DestroyNetwork.ClearManagedRoutes | internal/service/network.go:413-469 | only routes to managed gateways are dropped; after success no such route is in force or pending, if the gateways could be listed and no earlier change was pending |
| DestroyNetwork.DeleteManagedGateways | internal/service/network.go:471-492 | after success no managed gateway is left; if none was routed no delete is issued against a dependency and only a failing call is an error |
| DestroyNetwork.DeleteSubnet | internal/service/network.go:494-513 | success means the subnet is gone; an absent one is no error |
| DestroyNetwork.DeleteManagedLists | internal/service/network.go:515-542 | success means no managed list but the default one is left; unused lists never cause an error |
| DestroyNetwork.DestroyChildren | internal/service/network.go:471-542 | the three steps in order, none after an error |
| DestroyNetwork.DestroyCloud | internal/service/network.go:411-552 | calls come step by step and none of a later step after an error; gateways are deleted only when no route targets them; success exactly if no call recorded an error, and then the VCN and all inside it are gone, and all of it was the teardown's to remove; nothing else is removed; with nothing foreign inside and a cloud that only refuses what it must, it succeeds if and only if the VCN exists |
| DestroyNetwork.Dismantle | internal/service/network.go:402-580 | the cloud is touched only while the row is marked as destroying; an error restores the entry status, success removes row and resource rows and means that no VPS row refers to the network; with the cloud steps done and a working database the row stays if and only if VPS rows refer to it |
| DestroyNetwork.Destroy | internal/service/network.go:373-583 | an error leaves the row with its entry status unless a status write failed, success removes row and resource rows and means that no VPS row refers to the network; other rows are untouched; no stored VCN means the cloud is not touched; success, and a row kept for its VPS rows, mean the VCN and its children are gone; with a willing cloud and a working database the outcome is decided by the VPS rows alone |
| DestroyNetwork.DestroyReferred | internal/service/network.go:554-583 | an instance: a network with a new VCN and one VPS row; whenever cloud and database answer, the VCN goes and the row stays as it was |
| DestroyNetwork.DestroyAgain | internal/service/network.go:373-583 | from then on every teardown fails, even when the VPS row is gone, and the row stays as it was |
| Teardown.EmptiedMeansRemovable | internal/service/network.go:471-552 | a teardown empties a VCN only if all it held besides its default list was its to remove |
| TrackedResources.UndoDependentsFirst | internal/service/network.go:333-355 | in a rollback no delete is asked for before the deletes of everything tracked that depends on it |
| TrackedResources.InOrderOfNetwork | internal/repository/network_resource.go:46-51 | the rows of one network inherit the order of dependence of the table |
| RollbackRuns.LeftExactly | internal/service/network.go:333-355 | for every network, every cloud and every way the deletes are answered: a resource whose delete did not fail is there at the end if and only if it was held at that moment (a route to the gateway, a subnet that uses the list, something left in the VCN) or is a subnet still terminating |
| RollbackOutcomes.LeftWhenPrompt | internal/service/network.go:333-355 | in a cloud that is done with each change before the next delete, what stays is told from the start: routed gateways, lists with an untracked user, and VCNs with something untracked or staying inside, pending route changes counted as in force |
| RollbackOutcomes.CleanUnlessRouted | internal/service/network.go:323-362 | in such a cloud a wholly tracked network, subnets and pending routes included, is cleared if and only if no route leads to a tracked gateway |
| RollbackClouds.GoesInEveryCloud | internal/service/network.go:333-355 | a resource goes in every cloud that answers if and only if its row was clearable when the rollback began |
| RollbackClouds.ClearedByEveryCloud | internal/service/network.go:333-355 | a network is cleared in every cloud that answers if and only if all its live rows were clearable |
| RollbackClouds.RoutedGatewayStays | internal/service/network.go:338-347 | a gateway that the routes in force and the requested ones lead to survives every rollback, and so does its VCN |
| RollbackClouds.RoutedGatewayLeaks | internal/service/network.go:268-278 | every rollback of a network provisioned up to the default route leaves the gateway and the VCN |
| RollbackClouds.SlowSubnetLeaks | internal/service/network.go:303-306 | without any route, a subnet that is slow to terminate can keep the list and the VCN |
| RollbackClouds.PromptSubnetClears | internal/service/network.go:323-362 | a cloud that keeps up clears that same network |
| RollbackNetwork.DeleteAll | internal/service/network.go:333-355 | exactly the tracked resources are asked to be deleted, newest row first, whatever the answers; nothing else goes; all deletable rows are marked; the deletes form a run, so that a row whose delete did not fail is left exactly if something held it then or it is a terminating subnet |
| RollbackNetwork.Rollback | internal/service/network.go:323-362 | the deletes above, as a run in which every delete is answered unless one failed; then failed and failed, unless a database statement failed; other networks' rows are untouched |
| ProvisionNetwork.CreateOrGetVcn | internal/service/network.go:49-68 | a tracked VCN is reused if a query showed it as available, and another created only if none did; only a refused or failed create is an error; the VCN returned exists, is tracked, and has the routes it had or none; the cloud only grows and the rows stay distinct, typed and in order of dependence |
| ProvisionNetwork.CreateOrGetChild | internal/service/network.go:70-121 | a tracked gateway or list is reused if the listing showed it as available, and another created only if it did not; the one returned exists inside the VCN; at most one row is recorded; the rows stay distinct, typed and in order of dependence |
| ProvisionNetwork.CreateOrGetSubnet | internal/service/network.go:123-141 | a tracked subnet whatever its status and without asking the cloud; a new one that uses the list only if there is none |
| ProvisionNetwork.RouteTo | internal/service/network.go:251-278 | success requests the old routes and one default route to the gateway after them; on a VCN with a route table only a failing call prevents it; failure without effect changes no route |
| ProvisionNetwork.Connect | internal/service/network.go:224-278 | success connects the VCN to a live gateway; a failure up to the route table leaves only what a rollback can delete |
| ProvisionNetwork.Populate | internal/service/network.go:280-301 | list and subnet are in place and the routes are kept |
| ProvisionNetwork.Start | internal/service/network.go:197-222 | with a database that works it gives up without a call if and only if one of the six settings is empty; a call to the cloud means that all six are set; where it stops later some query or route update failed or some create was not accepted |
| ProvisionNetwork.Run | internal/service/network.go:224-321 | success stores both OCIDs and ready; any failure ends with the full rollback, and there is one only if a query or route update failed or a create was not accepted |
| ProvisionNetwork.Provision | internal/service/network.go:143-321 | a provisioning network is refused and nothing touched; with a working database it gives up without a call if and only if the row is there, was not provisioning and one of the six settings is empty; a cloud whose queries and route updates answer and which accepts every create, with route tables on the tracked VCNs, leads to ready with everything in place; the row ends ready or failed, never provisioning, after exactly the provisioning states of the steps taken, in order; a stop before the routes were changed leaves nothing tracked, for rows of any number of attempts |
| ProvisionNetwork.ProvisionRepeatedly | internal/service/jobqueue.go:194-226 | any number of attempts that all stop early leave nothing any of them recorded, and failed and failed |
| ProvisionNetwork.RollbackKeepsTracked | internal/service/network.go:333-355 | rollback keeps the rows distinct, typed and in order of dependence for the next attempt |
| Provisioning.InOrderAppend | internal/service/network.go:61-66 | a new resource's row keeps the rows in order of dependence |
| Provisioning.EarlyRollsBack | internal/service/network.go:227-278 | what an attempt leaves before the route table is touched is deleted completely by every rollback whose deletes are answered |
| Reconcile.AnyExists | internal/service/reconcile.go:108-128 | true only if something other than a VCN is tracked or a tracked VCN exists; false only if nothing but VCNs is tracked and, as far as the cloud answered, all of them are gone |
| Reconcile.MarkAll | internal/service/reconcile.go:135-137 | every row of the network is marked deleted and nothing else changes |
| Reconcile.ReconcileNetwork | internal/service/reconcile.go:81-141 | with region and database working the network ends pending or failed; pending, with all rows marked, only if nothing tracked is left as far as the cloud answered; failed only after the full rollback and, if the cloud answered for every VCN, if and only if a gateway, list or subnet is recorded or a recorded VCN is there; without a region nothing changes |
| Reconcile.ReconcileOnStartup | internal/service/reconcile.go:51-79 | with region and database working every network that was pending or provisioning ends either pending and not started or failed and given up, none is left provisioning, and all others keep their rows |
| Reconcile.RestartAndProvision | cmd/api/main.go:86-100 | from every state that a life of the service leads to, after reconciling and resuming no job is running and the resumed attempt is not refused as already provisioning |
| Lifetime.TornDownTracked | internal/service/network.go:402-552 | a teardown, complete or not, leaves the other rows distinct, typed and in order of dependence |
| Lifetime.Serve | internal/service/network.go:143-583 | over any sequence of attempts, teardowns and restarts, whatever fails, the recorded rows name resources that were made, each once, as what it is, and after what it depends on |
| VpsRepository.Repository.constructor | internal/repository/vps.go:13-19 | the repository works on the table as it finds it |
| VpsRepository.Repository.Create | internal/repository/vps.go:21-45 | a new id and a row without credentials, token and fingerprint |
| VpsRepository.Repository.Get | internal/repository/vps.go:87-110 | the row or none |
| VpsRepository.Repository.Update | internal/repository/vps.go:112-126 | the copy's columns are written back; token and host-key columns are not touched and credentials never become NULL |
| VpsRepository.Repository.UpdateStatus | internal/repository/vps.go:138-143 | only the status of that row |
| VpsRepository.Repository.GetSSHHostKeyFingerprint | internal/repository/vps.go:152-161 | the fingerprint, NULL for a missing row |
| VpsRepository.Repository.SetSSHHostKeyFingerprintIfUnset | internal/repository/vps.go:163-175 | sets it and says so exactly if the row exists and has none or an empty one |
| VpsRepository.Repository.SetCredentialsCallbackToken | internal/repository/vps.go:177-185 | a new token replaces the old one and clears the use and receipt times |
| VpsRepository.Repository.ConsumeCredentialsCallback | internal/repository/vps.go:187-208 | succeeds exactly if all six conditions of the statement hold, and then stores the credentials and spends the token |
| VpsRepository.Repository.Delete | internal/repository/vps.go:217-220 | only that row is gone |
| VpsRepository.Repository.DialWithHostKeyPin | internal/service/oci.go:593-623 | alone, a dial succeeds if and only if the row exists, a key is presented, and the stored fingerprint is NULL, empty or that key; then the row holds it |
| VpsRepository.Repository.VerifyAndPersist | internal/service/oci.go:625-655 | for any value read before, stale or not: succeeds if and only if that value is the presented key, or was NULL or empty and the row exists with a fingerprint that is NULL, empty or that key; the row gets the key only if it has none |
| VpsRaces.PinAgreement | internal/service/oci.go:593-655 | in every interleaving any two dials that succeed were presented the same non-empty key, which the row holds while it exists |
| VpsRaces.PinStable | internal/repository/vps.go:163-175 | a stored fingerprint never changes while the row exists |
| VpsRaces.UndisturbedDial | internal/service/oci.go:593-655 | from every reachable state a read, handshake and check that nothing comes between succeed if and only if the row exists and names no other key; then the row names the presented one |
| VpsRaces.OneCallbackSucceeds | internal/repository/vps.go:187-208 | at most one callback ever succeeds, and the row holds what it delivered |
| VpsRaces.CallbackNeedsLatestToken | internal/repository/vps.go:177-208 | a callback succeeds if and only if the row holds its token, unexpired and unused, with no credentials and status provisioning or running; that token is the one issued last, and no later callback succeeds |
| VpsRaces.IssuedTokenDelivers | internal/repository/vps.go:177-208 | from every reachable state a token used right after its issue delivers the credentials if and only if it has not expired, the machine is provisioning or running and no credentials are stored |
| VpsRaces.CredentialsStable | internal/repository/vps.go:112-126 | stored credentials never change or become NULL while the row exists, not even through stale full-row updates |
| VpsRaces.UndisturbedEdit | internal/repository/vps.go:112-126 | from every reachable state a read, edit and full-row update that nothing comes between changes exactly the edited columns |
| CidrSlots.Repository.constructor | internal/repository/network.go:17-19 | the repository works on the tables as it finds them |
| CidrSlots.FirstFree | internal/repository/network.go:53-64 | the lowest slot whose range is unused, none only if all are used |
| CidrSlots.Repository.AllocateCidrSlot | internal/repository/network.go:47-65 | the map-filling and scanning loops find that slot |
| CidrSlots.Repository.Create | internal/repository/network.go:67-95 | with fewer than fifteen rows one row with the ranges 10.s.0.0/16 and 10.s.0.0/20 of the lowest slot s that no row uses, else the limit error and no change |
| CidrSlots.Repository.Delete | internal/repository/network.go:171-184 | refused with the count while VPS rows refer to the network |
| CidrSlots.CreateBelowLimit | internal/repository/network.go:47-95 | fifteen or more networks give the limit error; fewer always succeed, with the lowest slot s that no row uses and its ranges 10.s.0.0/16 and 10.s.0.0/20 |
| CidrSlots.RangesDisjoint | internal/repository/network.go:23-39 | after any run of whole creates and deletes on a table with distinct slots the ranges are pairwise disjoint and each subnet lies inside its VCN |
| CidrRaces.DistinctUnlessMissed | internal/repository/network.go:47-95 | for every interleaving of the statements of any number of creates and deletes, the slots stay distinct if and only if no insert uses a read that missed another insert of the same slot |
| CidrRaces.UninterruptedCreate | internal/repository/network.go:67-95 | a create that nobody interrupts is the whole create and misses nothing |
| CidrRaces.InterleavedCreatesCollide | internal/repository/network.go:67-95 | from every table with room two clients that both choose before either inserts get the same slot and both pass the limit test |
| Shell.QuoteRoundTrip | internal/service/provision.go:1282-1284 | from the unquoted state the shell adds exactly the value to the current word and is unquoted again |
| Shell.QuotedLineRoundTrip | internal/service/provision.go:1282-1284 | a quoted line is read back as one word with exactly the value if and only if the value has no NUL |
| Shell.QuotedInContext | internal/service/provision.go:1282-1284 | between two pieces of a command line a quoted value is one literal word and the pieces are cut as without it |
| Shell.ChpasswdArgument | internal/service/provision.go:1278-1280 | both commands, spelled out, have the same syntax around one literal argument for every user name and password |
| Shell.CreateUserArguments | internal/service/oci.go:503-507 | the three values inserted in the command, spelled out, are three literal words of the same syntax for every user name and password |
| Shell.NestedQuoting | internal/service/oci.go:503-508 | bash -c gets exactly the inner command, and the values inside it survive the second reading |
| CloudInit.SequentialIsSimultaneous | internal/service/provision.go:274-277 | the three replacements equal one simultaneous substitution on every template if and only if the URL completes no placeholder |
| CloudInit.OnePass | internal/service/provision.go:274-277 | the substitution compared with: one pass in which API_HOST, INSTANCE_ID and API_TOKEN give way to the URL, the id and the token, everything else is copied, and nothing put in is looked at again |
| CloudInit.LowerCaseUrlIsHarmless | internal/service/provision.go:274-277 | non-empty URLs without upper-case letters and underscores qualify, the empty URL does not |
| CloudInit.HarmlessKeepsValues | internal/service/provision.go:274-277 | an inserted value is never changed again |
| CloudInit.WitnessDiffers | internal/service/provision.go:274-277 | for any other URL a template on which the two differ |
| Firewall.SecurityGroup.constructor | internal/service/oci.go:1030-1047 | a new group has no rules |
| Firewall.SecurityGroup.List | internal/service/oci.go:1063-1075 | environment: all rules in some order, with the ids of all |
| Firewall.SecurityGroup.Remove | internal/service/oci.go:1077-1092 | environment: exactly the rules with those ids go, or none; certainly on success |
| Firewall.SecurityGroup.Add | internal/service/oci.go:1049-1061 | environment: all given rules are added, or none; certainly on success |
| Firewall.RuleRoundTrip | internal/service/provision.go:1432-1477 | a rule written and read back is its normal form, dropped exactly if its direction is unknown; normal forms are fixed points |
| Firewall.WriteThenReadList | internal/service/provision.go:1338-1363 | a list written and read back is the list of its normal forms |
| Firewall.Convert | internal/service/provision.go:1433-1477 | protocol 6, one destination port or all, the range of the rule's own direction or 0.0.0.0/0, no description for an empty one; nothing exactly for an unknown direction |
| Firewall.ReadRule | internal/service/provision.go:1339-1362 | the lower end of the TCP range, else of the UDP range, else no port; the description also as name; missing texts as empty |
| Firewall.UpdateFirewallRules | internal/service/provision.go:1406-1487 | success leaves exactly the submitted rules with a known direction; a failure leaves the old rules, none, or the submitted ones |
| Firewall.GetFirewallRules | internal/service/provision.go:1330-1368 | all stored rules, converted, in some order |
| Firewall.Split | internal/handler/provision.go:796-804 | no rule is lost or doubled; ingress is separated from the rest |
| Firewall.UpdateAndShow | internal/handler/provision.go:781-811 | the answer to an update is the normal forms of the submitted rules, split by direction |
| Firewall.SaveBackExact | internal/service/provision.go:1338-1363 | loading and saving keeps a stored rule if and only if it has the form this code writes, types, ports and statelessness included |
| Firewall.SaveBackIsIdentity | internal/service/provision.go:1330-1487 | loading a group, splitting it and saving it back leaves its rules as they were if and only if all have the form this code writes |

## Left out

- The VPS half of reconciliation (`reconcileVPS`): its branches are single guards on a status that background goroutines overwrite.
- VPS start, stop, restart, reset and terminate: checks and writes are separate there, so the interesting invariants do not hold.
- `UpdateCredentials` (internal/repository/vps.go:210-215): no caller in the repository; it would break write-once credentials.
- Login lockout, sessions, CSRF tokens, settings encryption and password hashing: single guards or cryptographic libraries.
- The React front end, HTTP routing, JSON encoding, SQL text and migrations, logging and audit records: input and output.
- Other actors on the cloud: nobody but this service is assumed to add routes or children to a VCN during one operation.
- Pagination of cloud listings, regions and compartments: a listing that answers is complete.
- The route table of a VCN is addressed through the VCN, and a cloud resource that is terminated counts as gone.
- Lifetime.Serve: the operations run one after another. The delete handler (internal/handler/network.go:126-156) has no guard against a provisioning job that is at work on the same network, so two operations can overlap there; what such an overlap does is not modelled.
- Deadlines: a polling loop may stop after any number of polls; context cancellation looks like a deadline.
- The variant of the route-table wait without a set of gateways (internal/service/oci.go:884-885) has no caller.
- DestroyNetwork.ClearManagedRoutes: that no route remains is stated only if the gateways could be listed and no route change was pending at entry, because the code ignores a failing listing and reads the rules in force.
- JobQueue.Queue.TriggerRollback: records that the rollback was triggered; what it does is RollbackNetwork.Rollback, and its missing tests for absent rows are not modelled.
- RateLimiter.RetryAfterSeconds: exact arithmetic, where the code rounds the wait to a 64-bit floating point number first; the two agree for waits of less than 2^23 seconds (97 days), and the program uses windows of one minute (internal/server/limiters.go:15-19).
- RateLimiter.Limiter.Allow: a nil receiver is not modelled; it admits everything.
- Broker.EventBroker.Subscribe: a channel is an entry of a table of channels, so receiving from it is a step of Handover and not a method.
- Handover.StreamExact: heartbeats, flushing and events that cannot be encoded are not part of the stream.
- CidrSlots.RangesDisjoint: for creates that are each done as a whole, because the code uses no transaction (CidrRaces has the others); the textual form of the ranges is not modelled.
- Firewall.UpdateFirewallRules: lower-casing is ASCII only, and stored rules without an id are not modelled.
- Shell.QuoteRoundTrip: the shell model covers quoting and word cutting of the commands used, not expansions, comments or multi-character operators.
