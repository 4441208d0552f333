# Swarm autoscaler: a verified model

This project models the scale-to-zero and wake-up protocol of a Docker Swarm autoscaler, the kernel-side
trigger that drives it, and the small pieces both rest on. The autoscaler watches containers, asks the
manager node to scale their services `over` or `under`, takes a service from its last replica to zero after
a keep-alive period, and wakes it up again when a packet for its published port arrives at any node.

| file | what it models |
|---|---|
| `Trigger.dfy` | one namespace's saturating counter, debounce buffer and gate, and what whole runs of calls make of them |
| `KernelTables.dfy` | the kernel maps of all namespaces, with their capacity, and the independence of namespaces |
| `ConcReqListener.dfy` | the eBPF program and the Go functions that share its maps, as methods on the maps |
| `TokenProtocol.dfy` | kernel, perf rings, listener and Monitor goroutines as one state machine |
| `Bytes.dfy`, `PortClassifier.dfy` | the traffic-control program and the byte layouts between it and the listener |
| `PortListener.dfy` | one node's port tables, and what any history of calls makes of them |
| `Server.dfy` | the configuration of the nodes and the broadcasts between them |
| `Scale.dfy`, `ScaleRuns.dfy` | replicas, keep-alive entries, goroutines and placement pins: the methods, and what every run keeps |
| `Cluster.dfy` | wakes on all nodes interleaved with the manager, and which runs lose a wake-up |
| `Agreement.dfy` | the same machine, and which runs keep the nodes' port tables in agreement |
| `WakeLoop.dfy` | one turn of the port listener's event loop, tied to the cluster's wake |
| `MonitorSet.dfy` | the start/stop event loop and the Monitors it starts and cancels |
| `CpuStat.dfy`, `CpuMonitor.dfy` | reading `cpu.stat`, and the CPU monitor's loop |

Code that updates maps and fields in place is a class whose methods are proved equal to functions on the
state; the properties are lemmas about those functions and about all runs of them. API calls, requests and
perf output become parameters or separate steps that say whether they succeed.

## Modelling decisions

- **Steps.** One request, one timeout branch, one handler call, one probe call, one `addNamespace` or
  `removeNamespace` is one step. The Go maps have no locks, and a packet handled between
  autoscaler/scale/scale.go:257 and autoscaler/scale/scale.go:268 can defeat the guarantees; such
  interleavings inside the timeout branch are not modelled.
- **One manager.** Exactly one node runs the scaling state. Nodes are named by host name where the code
  sends to an IP address.
- **TCP states.** The test at autoscaler/conc_req_monitoring/bpf/conc_req_monitoring.c:118 ends in a
  non-zero constant, so every state but ESTABLISHED decrements. The model does the same.
- **Missing counter.** A counter created inside the probe is counted up in a local variable only, so the
  call that creates it is not counted. The model does the same.
- **Widths.** 32-bit counters and limits and the 64-bit replica count wrap explicitly. A limit left at its
  default of -1 becomes 2^32 - 1.
- **Published ports.** The first published port identifies a service; the cluster results assume that no
  two services share it and that there are at most 256 services, the capacity of the port map.
- **Little-endian hosts**, as the byte swap of the classifier assumes.

## Properties that are false as one might first state them

Each comes with the exact condition under which it holds; the runs named here start in an initial state.

- An event's whole window need not be on the event's side. Limits: in runs from the very beginning it is so
  exactly for the limits of `SeparatesSides` (`LimitsOneSidedExactly`; `MixedRun` is a run that fails
  otherwise). Resets: nothing clears the buffer when a namespace is added again mid-streak or its 32-bit counter
  wraps, so it is so exactly if every such reset finds the buffer empty or its last sample low
  (`ResetsOneSidedExactly`; `AdditionMidStreak` is a run that fails otherwise).
- Events are confined to out-of-band samples exactly if the buffer length is not 0 or the limits leave no band
  (`EventsOutOfBandExactly`; `ZeroBufferLengthFiresInBand` is a run that fails otherwise).
- Namespaces are independent exactly in runs that ever add at most 1024 of them (`IndependenceExactly`).
- An event need not disarm its namespace: nothing ever deletes from the scaling map (`GatesOnlyGrow`), and a
  namespace it has no room for stays armed through all its events (`NeverDisarmed`). All events disarm in all
  runs that ever add at most n namespaces exactly if n is at most 1024 (`EventsDisarmExactly`; `CrowdedEvent` is
  a run that fails otherwise, in which 1024 namespaces have come and gone).
- With at most 1024 namespaces ever started, a namespace has at most one token throughout a run exactly if none
  of its starts finds one outstanding (`AtMostOneToken`; `RestartDoublesToken` is a run to two tokens). Past
  1024 clean starts do not suffice (`CapacityExactly`; `CrowdedDoublesToken` is such a run).
- A listener sending to a Monitor that has returned is stuck for good (`StuckForever`); `StuckRun` is a run to there.
- With IP options the classifier reads the wrong bytes; among the header lengths it is right exactly for the
  one without options (`ClassifiesExactlyWithoutOptions`).
- A failed timeout leaves a keep-alive entry nobody waits on; from then on every `over` request for the
  service blocks (`OrphanExactly`, `OverFindsReceiverExactly`), a worker's wake included (`WakeCompletesExactly`).
- A wake-up can be lost, and for good. The steps that lose one are exactly those that are not `Benign`
  (`NoLostWakeUp`): a final scaling that fails, whose result the source ignores, or blocks
  (`FinishKeepsWakeUpExactly`), and, for a service at 0 replicas, a failed timeout while only workers' wakes are
  under way, and a packet or remove request of a worker's wake whose `over` is bound to block -- unless the port
  is armed on every node or a wake is left that can scale. `WakeUpLostForGood` is a run to a service at 0 whose
  port is mapped nowhere and whose entry is orphaned; no step ever gives it a replica again (`StepKeepsGone`,
  `GoneStaysGone`).
- A labelled service loses its placement pin exactly in the steps of `LosesPin` (`PinFollowsReplicas`), for
  instance in a wake at several replicas (`WakeKeepsPinExactly`).
- The nodes stop agreeing on where a port is armed exactly in the steps that are not `Orderly`
  (`NodesAlwaysAgree`). Among those without errors these are an `over` request that starts a sleeping service and
  a timeout that overtakes a wake (`ErrorFreeRunsAgreeExactly`); a failed timeout may keep the agreement
  (`ExpireKeepsAgreementExactly`). `StaleWakeLeavesPortArmed` is a run in which an overtaken wake starts the
  service with its port armed.

## Model

| member | source | states |
|---|---|---|
| Trigger.CounterConserves | autoscaler/conc_req_monitoring/bpf/conc_req_monitoring.c:108-125 | without a 32-bit wrap the counter is increments minus decrements plus the decrements clamped at 0 |
| Trigger.ConservedExactlyWithoutWrap | autoscaler/conc_req_monitoring/bpf/conc_req_monitoring.c:115-125 | that balance holds on every prefix if and only if no ESTABLISHED call meets 2^32 - 1 |
| Trigger.CounterClosedForm | autoscaler/conc_req_monitoring/bpf/conc_req_monitoring.c:108-125 | without a 32-bit wrap the counter is the signed prefix sum minus the least of 0 and all prefix sums |
| Trigger.BufferIsStreak | autoscaler/conc_req_monitoring/bpf/conc_req_monitoring.c:135-148 | between calls of an armed period the buffer is the length of the longest out-of-band suffix, below the buffer length |
| Trigger.StreakRefinement | autoscaler/conc_req_monitoring/bpf/conc_req_monitoring.c:130-169 | an event fires exactly when that suffix reaches the buffer length; it carries the last sample's side, empties the buffer, disarms |
| Trigger.ZeroBufferLengthFiresInBand | autoscaler/conc_req_monitoring/bpf/conc_req_monitoring.c:142-160 | with buffer length 0 the first in-band sample of a fresh namespace raises an "Upper" event |
| Trigger.EventsOutOfBandExactly | autoscaler/conc_req_monitoring/bpf/conc_req_monitoring.c:142-160 | all events of all periods are raised at out-of-band samples if and only if the buffer length is at least 1 or the limits leave no band |
| Trigger.OneSidedDebounce | autoscaler/conc_req_monitoring/bpf/conc_req_monitoring.c:115-169 | the first event of a period in which the counter does not wrap has its whole window on its own side |
| Trigger.MixedWindow | autoscaler/conc_req_monitoring/bpf/conc_req_monitoring.c:142-160 | with limits that do not separate the sides a period from the lower limit raises a "Lower" event whose window began above it |
| Trigger.OneSidedExactly | autoscaler/conc_req_monitoring/bpf/conc_req_monitoring.c:115-169 | every first event of a period without a wrap is one-sided if and only if the limits separate the sides |
| KernelTables.EveryEventIsOneSided | autoscaler/conc_req_monitoring/bpf/conc_req_monitoring.c:115-169 | through any calls, re-armings, removals and clean resets, by additions or by a wrap, every event's last bufferLength samples are on its side |
| KernelTables.ResetsOneSidedExactly | autoscaler/conc_req_monitoring/conc_req_monitoring.go:200-213 | at every point of a run the events of all continuations without a further reset are one-sided if and only if every addition and every wrap found the buffer empty or its last sample low |
| KernelTables.AdditionMidStreak | autoscaler/conc_req_monitoring/conc_req_monitoring.go:200-213 | an addition at sample 3 and one decrement raise a "Lower" event for the samples 3 and 0 |
| KernelTables.MixedRun | autoscaler/conc_req_monitoring/bpf/conc_req_monitoring.c:142-160 | with limits that do not separate the sides a run with clean resets from an untracked namespace ends in a mixed event |
| KernelTables.LimitsOneSidedExactly | autoscaler/conc_req_monitoring/bpf/conc_req_monitoring.c:115-169 | in all runs with clean resets from an untracked namespace every event is one-sided if and only if the limits separate the sides |
| KernelTables.BufferInRun | autoscaler/conc_req_monitoring/bpf/conc_req_monitoring.c:130-169 | through many periods the counter counts armed and disarmed calls alike and the buffer never exceeds the out-of-band suffix |
| KernelTables.PeriodsStart | autoscaler/conc_req_monitoring/conc_req_monitoring.go:200-246 | an addition with an empty buffer and a re-arming after an event start an armed period with an empty buffer |
| KernelTables.StepKeepsWellFormed | autoscaler/conc_req_monitoring/bpf/conc_req_monitoring.c:109-140 | counters and buffers exist only for valid namespaces, so those two maps never run out of room |
| KernelTables.RunIsLocal | autoscaler/conc_req_monitoring/conc_req_monitoring.go:200-246 | with at most 1024 namespaces ever added, calls from any namespace included, any interleaved run acts on each namespace as its own steps would on maps that never fill |
| KernelTables.NamespaceIndependence | autoscaler/conc_req_monitoring/bpf/conc_req_monitoring.c:82-169 | with at most 1024 namespaces ever added, a namespace's counter, buffer, gate and events equal those of running only its own steps |
| KernelTables.IndependenceExactly | autoscaler/conc_req_monitoring/bpf/conc_req_monitoring.c:82-169 | in all runs from empty maps that ever add at most n namespaces they are independent if and only if n is at most 1024 |
| KernelTables.NeverDisarmed | autoscaler/conc_req_monitoring/bpf/conc_req_monitoring.c:150-153 | a namespace without room in the scaling map is, through any run, armed whenever it is tracked |
| KernelTables.CrowdedEvent | autoscaler/conc_req_monitoring/conc_req_monitoring.go:220-246 | a run from empty maps, in which 1024 namespaces come and go, to an event of the 1025th that leaves it armed |
| KernelTables.EventsDisarmExactly | autoscaler/conc_req_monitoring/bpf/conc_req_monitoring.c:150-153 | in all runs from empty maps that ever add at most n namespaces every event disarms its namespace if and only if n is at most 1024 |
| KernelTables.GatesOnlyGrow | autoscaler/conc_req_monitoring/conc_req_monitoring.go:220-246 | no run gives a scaling entry back |
| KernelTables.RemovalNeedsASample | autoscaler/conc_req_monitoring/conc_req_monitoring.go:220-238 | removal succeeds exactly when the namespace was sampled; otherwise it stays valid without a counter |
| ConcReqListener.UnsetLimits | autoscaler/conc_req_monitoring/conc_req_monitoring.go:131-139 | limits left at -1 become 2^32 - 1, so only "Lower" events arise |
| ConcReqListener.ConfiguredLimitsReach | autoscaler/conc_req_monitoring/conc_req_monitoring.go:127-139 | each configured number that fits 32 bits reaches its own constant unchanged, any other one a constant congruent to it |
| ConcReqListener.ConfiguredDebounce | autoscaler/conc_req_monitoring/bpf/conc_req_monitoring.c:130-169 | in the configured numbers: the first event of a period comes exactly when the last bufferLength samples are each at most the lower or at least the upper limit, with the side of the last one |
| ConcReqListener.SamplesAsk | autoscaler/conc_req_monitoring/conc_req_monitoring.go:283-295 | through the message bytes and their trimming, the Monitor asks `under` exactly for a sample at most the lower limit, and `over` only for one at least the upper limit |
| ConcReqListener.BpfListener.constructor | autoscaler/conc_req_monitoring/conc_req_monitoring.go:112-139 | the maps start empty and the configured limits are in the constants map; `ConfiguredLimitsReach` says how |
| ConcReqListener.BpfListener.KprobeTcpRecvmsg | autoscaler/conc_req_monitoring/bpf/conc_req_monitoring.c:66-172 | the program on the maps is the probe function: state and emitted event, nothing else |
| ConcReqListener.BpfListener.AddNamespace | autoscaler/conc_req_monitoring/conc_req_monitoring.go:200-218 | the puts of an addition; the process ends exactly when a map that must take the namespace is full |
| ConcReqListener.BpfListener.AddNamespaceToScalingMap | autoscaler/conc_req_monitoring/conc_req_monitoring.go:240-246 | re-arming writes the scaling entry and nothing else, if there is room |
| ConcReqListener.BpfListener.RemoveNamespace | autoscaler/conc_req_monitoring/conc_req_monitoring.go:220-238 | deletions stop at the first missing entry and leave the scaling entry |
| TokenProtocol.AtMostOneToken | autoscaler/conc_req_monitoring/conc_req_monitoring.go:157-198 | with at most 1024 namespaces ever started, armed flag, queued events, held event and handling Monitors of a namespace never exceed one together if and only if every start of it finds none of the last three |
| TokenProtocol.ExactlyOneToken | autoscaler/conc_req_monitoring/conc_req_monitoring.go:277-318 | from any clean start on, whatever came before, their count is exactly one in every state if and only if no raised event is dropped or finds no live context, no Monitor gives up, takes its armed namespace down or re-arms one that is down, and no further start is early |
| TokenProtocol.StepMovesToken | autoscaler/conc_req_monitoring/bpf/conc_req_monitoring.c:130-166 | no step but a start creates a token, and a count of one is kept by exactly the other steps |
| TokenProtocol.SendMeetsSelectOrNobody | autoscaler/conc_req_monitoring/conc_req_monitoring.go:186-195 | the listener's blocking send never meets a Monitor still handling an event; it proceeds unless the Monitor has returned |
| TokenProtocol.StuckForever | autoscaler/conc_req_monitoring/conc_req_monitoring.go:186-195 | once the Monitor has returned, no run unblocks the listener |
| TokenProtocol.StuckRun | autoscaler/conc_req_monitoring/conc_req_monitoring.go:186-195 | a run from the initial state to such a listener: a container that stops after its first event is read |
| TokenProtocol.EventReachesMonitor | autoscaler/conc_req_monitoring/conc_req_monitoring.go:184-195 | a delivered event of a waiting Monitor's namespace reaches exactly that Monitor in two steps |
| TokenProtocol.LatestStartReceives | autoscaler/conc_req_monitoring/conc_req_monitoring.go:200-238 | in every run the k-th Monitor is that of the k-th start, and the context of a namespace names the Monitor of its latest start until a removal of it succeeds |
| TokenProtocol.CancelledExactly | autoscaler/conc_req_monitoring/conc_req_monitoring.go:279-282 | in every run a Monitor is cancelled exactly if its container has stopped, and gone only after giving up or seeing the cancellation |
| TokenProtocol.ReadGoesToOwner | autoscaler/conc_req_monitoring/conc_req_monitoring.go:184-195 | in every run an event that is read goes to that Monitor with its side, and is dropped exactly if there is none or its container has stopped |
| TokenProtocol.IdleListenerReads | autoscaler/conc_req_monitoring/conc_req_monitoring.go:163-195 | an idle listener can read every queued event and is idle again unless it forwards it |
| TokenProtocol.StoppedMonitorReturns | autoscaler/conc_req_monitoring/conc_req_monitoring.go:277-320 | in any state a Monitor that is stopped can sleep out, re-arm and return with the removal of its namespace |
| TokenProtocol.StartKeepsOneTokenExactly | autoscaler/conc_req_monitoring/conc_req_monitoring.go:263-269 | a start leaves at most one token if and only if none is outstanding |
| TokenProtocol.RestartDoublesToken | autoscaler/autoscaler/autoscaler.go:142-152 | a run from the initial state to two tokens: a container stopped and restarted while its Monitor sleeps |
| TokenProtocol.CrowdedDoublesToken | autoscaler/conc_req_monitoring/conc_req_monitoring.go:220-246 | a run from the initial state with clean starts only to two tokens: 1024 containers come and go before the namespace's only one |
| TokenProtocol.CapacityExactly | autoscaler/conc_req_monitoring/conc_req_monitoring.go:200-246 | in all runs that ever start at most n namespaces clean starts mean at most one token if and only if n is at most 1024 |
| PortListener.BpfPortListener.ListenOnPort | autoscaler/bpf_port_listen/listener.go:168-182 | Go map first, then BPF map and log unless the update is refused |
| PortListener.BpfPortListener.RemovePort | autoscaler/bpf_port_listen/listener.go:184-201 | unmapped, mapped but not armed, and armed ports are removed as far as they exist |
| PortListener.BpfPortListener.HandleRecord | autoscaler/bpf_port_listen/listener.go:123-136 | a record wakes the service its port is mapped to and unmaps it; short and stale records do nothing |
| PortListener.PortMapsAgree | autoscaler/bpf_port_listen/listener.go:168-201 | after any history BPF keys are among the Go keys, the log is the Go map on them, and the difference is exactly what was refused |
| PortListener.LastListenWins | autoscaler/bpf_port_listen/listener.go:168-201 | after any history a port is mapped to the service of its latest listen unless removed or woken since, is armed unless that listen was refused, and its events wake that service |
| PortListener.AnswersExactly | autoscaler/bpf_port_listen/listener.go:168-201 | after any history a removal succeeds exactly on an armed port, a listen exactly on one or below 256 armed ports |
| PortListener.CapacityExactly | autoscaler/bpf_port_listen/bpf/tc-port-monitor.c:16-21 | in all histories that listen on at most n ports none is refused if and only if n is at most 256 |
| PortListener.EveryArmingIsSpentOnce | autoscaler/bpf_port_listen/listener.go:123-136 | listens on a port equal its wakes, removals, overwrites and what is still mapped; so at most one wake per arming |
| Bytes.StoreLongReadsBack | autoscaler/bpf_port_listen/listener.go:123-125 | the 8-byte value reads back as the same 32-bit port whatever padding follows |
| Bytes.LittleEndianDigits | autoscaler/bpf_port_listen/listener.go:123-125 | the bytes are the base-256 digits of the decoded number, lowest first |
| PortClassifier.SegmentToPort | autoscaler/bpf_port_listen/bpf/tc-port-monitor.c:34-64 | a TCP segment without IP options raises an event exactly when its destination port is armed, and the listener decodes that port |
| PortClassifier.SegmentToService | autoscaler/bpf_port_listen/listener.go:123-136 | on agreeing tables the event wakes the service put on that port |
| PortClassifier.OthersPass | autoscaler/bpf_port_listen/bpf/tc-port-monitor.c:37-56 | frames that are not IPv4 TCP or are too short raise nothing |
| PortClassifier.ReportsExactly | autoscaler/bpf_port_listen/bpf/tc-port-monitor.c:37-64 | of every frame at all: an event exactly for 54 octets or more of IPv4 TCP with an armed number in octets 36 and 37, and the listener decodes that number |
| PortClassifier.OptionsMisleadTheClassifier | autoscaler/bpf_port_listen/bpf/tc-port-monitor.c:53-59 | for every header length with options and every two ports some segment to one is reported as the other |
| PortClassifier.ClassifiesExactlyWithoutOptions | autoscaler/bpf_port_listen/bpf/tc-port-monitor.c:34-64 | all segments of a header length are classified by their destination port if and only if that length is 20 octets |
| Server.GetManagerNode | autoscaler/server/server.go:25-33 | the first manager, or an error exactly when there is none |
| Server.CreateSwarmNodeInfo | autoscaler/autoscaler/autoscaler.go:225-260 | each other manager and each worker is listed once, with its address and role |
| Server.ConfiguredNodes | autoscaler/autoscaler/autoscaler.go:249-257 | the hosts a node's broadcasts reach, and that it finds a manager exactly when another one is configured |
| Server.ConfiguredEntries | autoscaler/autoscaler/autoscaler.go:225-260 | the list holds exactly the other managers and the workers, each with its configured address and its role |
| Server.ManagersFirst | autoscaler/autoscaler/autoscaler.go:248-257 | the managers of the list come before its workers |
| Server.Network.SendListenRequestToAllNodes | autoscaler/server/server.go:200-211 | requests go out in order up to the first that fails |
| Server.Network.SendRemoveRequestToAllNodes | autoscaler/server/server.go:213-223 | requests go out in order up to the first that fails |
| Server.ListenAllAt | autoscaler/server/server.go:200-211 | a broadcast listens on every node it reaches, once in effect however often the node is listed, and on no other |
| Server.RemoveAllAt | autoscaler/server/server.go:213-223 | likewise for removals |
| Server.PartialBroadcasts | autoscaler/server/server.go:200-223 | a broadcast that breaks off after `reach` requests has acted exactly on the first `reach` nodes of the list |
| Scale.ScaleManager.UpdateServiceConstraints | autoscaler/scale/scale.go:95-120 | after an added constraint a labelled service may run on its handler node and nowhere else, after a cleared one anywhere; without the label nothing happens and nothing fails |
| Scale.ConstrainedPlacement | autoscaler/scale/scale.go:99-115 | the same of the function, by the meaning of placement constraints; all earlier constraints go, everything else about the service stays |
| Scale.ScaleManager.ScaleTo | autoscaler/scale/scale.go:195-223 | the replica count of the one service |
| Scale.ScaleManager.ChangeServiceReplicas | autoscaler/scale/scale.go:124-193 | state and answer are those of the request function, for which `OverAnswersExactly`, `UnderAnswersExactly`, `RequestConstrains` and `OtherRequestsFail` say outright what they are; off the manager it fails |
| Scale.ScaleManager.KeepAliveExpired | autoscaler/scale/scale.go:246-277 | the timeout branch on the manager's state and all nodes' tables is the timeout function, of which `TimeoutScalesExactly` and `TimeoutListensExactly` say the outcome |
| Scale.TimeoutScalesExactly | autoscaler/scale/scale.go:248-275 | the service goes to 0 and its entry goes if and only if the entry is there and lookup, listen, all listen requests and scaling succeed; otherwise no count and no entry moves |
| Scale.TimeoutListensExactly | autoscaler/scale/scale.go:251-266 | which nodes listen afterwards: none before the port is known, then this one, then, unless that was refused, the first `reach` of the list |
| ScaleRuns.OverAnswersExactly | autoscaler/scale/scale.go:143-157 | an over request succeeds if and only if the scaling does, the entry is not orphaned and the pin of a last replica can be lifted; it blocks exactly on an orphaned entry; count and entries after every answer |
| ScaleRuns.UnderAnswersExactly | autoscaler/scale/scale.go:159-184 | above one replica an under request succeeds if and only if the scaling does and the pin can be set at two; at one or none it always does and leaves a keep-alive operation |
| ScaleRuns.RequestConstrains | autoscaler/scale/scale.go:143-168 | where the service may run after a request: over at one replica frees it, under at two pins it, any other request leaves its constraints |
| ScaleRuns.OtherRequestsFail | autoscaler/scale/scale.go:134-190 | a request for an unknown or non-replicated service or in another direction fails without effect |
| ScaleRuns.KeepAliveDiscipline | autoscaler/scale/scale.go:170-183 | at most one goroutine per service, on exactly the stored channel, and an entry means at most one replica |
| ScaleRuns.OverMovesReplicas | autoscaler/scale/scale.go:143-157 | an over request that succeeds adds one replica to its service; else, and for all others, nothing changes |
| ScaleRuns.UnderMovesReplicas | autoscaler/scale/scale.go:159-184 | an under request takes one replica of several and never the last |
| ScaleRuns.StepMovesReplicas | autoscaler/scale/scale.go:141-192 | how each kind of step may move a count: an over adds one, wrapping at 2^64 - 1, an under takes one and never the last, a timeout takes the last, a wake leaves one |
| ScaleRuns.OrphanExactly | autoscaler/scale/scale.go:248-282 | an entry has no receiver if and only if a timeout of its service failed |
| ScaleRuns.OverFindsReceiverExactly | autoscaler/scale/scale.go:152-157 | an over request's cancellation finds its receiver if and only if no timeout of the service failed |
| ScaleRuns.FallsToZeroExactly | autoscaler/scale/scale.go:139-192 | a running service goes to 0 if and only if a timeout of it completes or an over request wraps the 64-bit count |
| ScaleRuns.ScaleToZeroHistory | autoscaler/scale/scale.go:139-192 | in every run; and that timeout is of an under request accepted at most at one replica, with no completed over in between |
| ScaleRuns.PinFollowsReplicas | autoscaler/scale/scale.go:95-193 | through a run with any failures every labelled service may run on its handler node alone exactly while it has at most one replica if and only if no step updates the constraint and then blocks or fails, wraps, or wakes several replicas |
| ScaleRuns.WakeKeepsPinExactly | autoscaler/bpf_port_listen/listener.go:142-146 | a wake keeps that agreement if and only if it comes at one replica or none |
| Cluster.RefinesManager | autoscaler/scale/scale.go:124-282 | every cluster step is a step of the manager's machine or leaves it alone |
| Cluster.TimersFire | autoscaler/scale/scale.go:246-248 | in any state any waiting timer may fire, and the cluster does what the timeout branch does |
| Cluster.StaleEventsPass | autoscaler/bpf_port_listen/listener.go:124-129 | an event for a port the node no longer maps is handled without effect |
| Cluster.ListenAccepted | autoscaler/bpf_port_listen/bpf/tc-port-monitor.c:16-21 | with at most 256 services no listen of a service's port is ever refused |
| Cluster.NoLostWakeUp | autoscaler/bpf_port_listen/listener.go:123-159 | in every run with any failures a service at 0 always has its port armed for it on every node or a wake under way that can still scale it, if and only if every step is benign |
| Cluster.StepKeepsSoundExactly | autoscaler/bpf_port_listen/listener.go:123-159 | the same for one step: the losing final scalings, wraps, failed timeouts, packets and remove requests, each with what must answer instead |
| Cluster.FinishKeepsWakeUpExactly | autoscaler/bpf_port_listen/listener.go:142-159 | at 0 replicas the wake-up survives the final scaling if and only if that scales, another wake can, or the port is armed everywhere, for the manager and for a worker |
| Cluster.StepKeepsGone | autoscaler/scale/scale.go:143-184 | a service at 0 with an orphaned entry, its port mapped nowhere and no wake at the manager stays so on every step |
| Cluster.WakeUpLostForGood | autoscaler/scale/scale.go:246-277 | a run to there from any initial state with a service at one replica and a worker |
| Cluster.WakeCompletesExactly | autoscaler/bpf_port_listen/listener.go:134-159 | run to its end a wake leaves a replica and a free listener if and only if it is the manager's or its service's entry is not orphaned |
| Cluster.PacketIsServed | autoscaler/bpf_port_listen/listener.go:123-159 | a packet for a sleeping service, at any node whose wakes can scale, is served by the system's own steps |
| Agreement.NodesAlwaysAgree | autoscaler/server/server.go:200-223 | in every run of interleaved wakes with any failures a port is always armed on every node while its service sleeps and on none while it runs, or still to be visited by every wake under way, if and only if every step is orderly |
| Agreement.ExpireKeepsAgreementExactly | autoscaler/scale/scale.go:246-277 | a timeout, failed or not, keeps that agreement if and only if it listens nowhere, or only where all wakes under way have still to go, and completes unless the service sleeps or is being woken |
| Agreement.CompletedKeepsAgreementExactly | autoscaler/scale/scale.go:246-277 | a completed one keeps it if and only if every wake under way for its service still has all nodes to visit |
| Agreement.RemoveNextKeepsAgreementExactly | autoscaler/server/server.go:213-223 | a remove request keeps it if and only if it arrives or the port is mapped on no node |
| Agreement.FinishKeepsAgreementExactly | autoscaler/bpf_port_listen/listener.go:142-159 | a final scaling keeps it if and only if it leaves a replica or another wake is under way |
| Agreement.ErrorFreeRunsAgreeExactly | autoscaler/scale/scale.go:143-157 | in runs without errors it is kept if and only if no over request starts a sleeping service and no timeout overtakes a wake |
| Agreement.OverKeepsAgreementExactly | autoscaler/scale/scale.go:143-157 | an over request keeps it if and only if the service was running, a wake for it is under way, it has no port or the request blocks |
| Agreement.StaleWakeLeavesPortArmed | autoscaler/bpf_port_listen/listener.go:134-146 | a run from any initial state with two nodes in which a wake overtaken by a timeout starts the service with its port armed everywhere |
| Cluster.ConfiguredClusterIsWellFormed | autoscaler/autoscaler/autoscaler.go:225-260 | the lists CreateSwarmNodeInfo builds on all nodes from one configuration reach all nodes, and exactly the workers list themselves |
| WakeLoop.EventLoop.HandleRecord | autoscaler/bpf_port_listen/listener.go:107-166 | one turn of the loop: local removal, broadcast, then ScaleTo on the manager or over from a worker |
| WakeLoop.RecordIsWake | autoscaler/bpf_port_listen/listener.go:123-159 | with any calls failing that turn is a packet, the remove requests up to the first failure and a final scaling of the cluster |
| WakeLoop.RecordIsWholeWake | autoscaler/bpf_port_listen/listener.go:133-159 | with every call succeeding that turn is the cluster's whole wake, tables, scaling state and pending wakes, a stuck one included |
| WakeLoop.SegmentIsServed | autoscaler/bpf_port_listen/listener.go:123-159 | a TCP segment without IP options to a sleeping service's port at an idle node ends in one replica, the port unmapped everywhere |
| MonitorSet.OneLiveMonitorPerContainer | autoscaler/autoscaler/autoscaler.go:184-191 | after any events a container has exactly one live Monitor if its last event was a start and none otherwise |
| MonitorSet.RunKeepsInv | autoscaler/autoscaler/autoscaler.go:139-155 | the map holds exactly the live Monitors, each under its own container |
| MonitorSet.LaunchedForFirstStarts | autoscaler/autoscaler/autoscaler.go:139-155 | after any events one Monitor has been launched for each start that found its container not running, in that order, and none else |
| MonitorSet.RepeatedEventsChangeNothing | autoscaler/autoscaler/autoscaler.go:139-155 | a start of a monitored container and a stop of any other change nothing, and a cancelled Monitor stays cancelled |
| MonitorSet.ContainerLoop.HandleEvents | autoscaler/autoscaler/autoscaler.go:139-155 | the loop's state is that of the event history |
| CpuStat.ReadCpuUsage | autoscaler/cgroup_monitoring/cgroup_monitoring.go:171-185 | the first line that starts with usage_usec and has two fields gives the usage; without one reading fails |
| CpuStat.LinesJoinBack | autoscaler/cgroup_monitoring/cgroup_monitoring.go:171 | the lines have no newline and joined by newlines are the file |
| CpuStat.FieldsAreWords | autoscaler/cgroup_monitoring/cgroup_monitoring.go:174 | a line is its fields with white space around and between them, and the fields have none |
| CpuStat.ParsesExactly | autoscaler/cgroup_monitoring/cgroup_monitoring.go:176-180 | a text parses to n if and only if it is an optional sign and digits with that value, within 64 bits |
| CpuStat.DecimalReadsBack | autoscaler/cgroup_monitoring/cgroup_monitoring.go:176-180 | every 64-bit value parses back from its decimal form |
| CpuStat.UsageReadsBack | autoscaler/cgroup_monitoring/cgroup_monitoring.go:164-186 | reading back any printed list of entries returns the value of its first usage_usec entry |
| CpuStat.NoUsageReadsAsError | autoscaler/cgroup_monitoring/cgroup_monitoring.go:185 | without such an entry reading fails |
| CpuMonitor.Monitor | autoscaler/cgroup_monitoring/cgroup_monitoring.go:29-84 | each usage comes with `over` exactly if 100 times it exceeds upper limit times period in microseconds, else `under` exactly if it is below the lower one, over failed and successful ticks, up to the return |
| CpuMonitor.DirectionByUsage | autoscaler/cgroup_monitoring/cgroup_monitoring.go:51-54 | the utilisation formula and the comparison come to that, without division |
| CpuMonitor.UsagesAreDifferences | autoscaler/cgroup_monitoring/cgroup_monitoring.go:46-51 | one usage per successful tick, the wrapped difference from the successful reading before it; a failed tick gives none |
| CpuMonitor.DeltaWraps | autoscaler/cgroup_monitoring/cgroup_monitoring.go:51 | a usage is the difference of two 64-bit readings up to at most one wrap, and fits 64 bits |
| CpuMonitor.HandlesUpToFirstStop | autoscaler/cgroup_monitoring/cgroup_monitoring.go:55-81 | the monitor handles all ticks up to the first successful one outside the band at which a worker finds no manager or service, and all if there is none |
| CpuMonitor.UsageAttributedOnce | autoscaler/cgroup_monitoring/cgroup_monitoring.go:46-81 | for non-negative readings the usages add up to the last successful reading minus the first |
| CpuMonitor.UsageAttributedModulo | autoscaler/cgroup_monitoring/cgroup_monitoring.go:46-81 | for readings of any sign they do so modulo 2^64 |
| CpuMonitor.MonitorAttributesOnce | autoscaler/cgroup_monitoring/cgroup_monitoring.go:30-82 | the same for the ticks the monitor handles before it returns |

## Left out

- Docker, HTTP, JSON, perf readers, eBPF loading, netlink and YAML: replaced by steps with explicit success or failure.
- Interleavings inside one timeout branch, one request or one probe call: the code does not synchronise them and the guarantees do not survive them.
- Real time: timers, tickers and the sleep after a signal are steps that may happen at any moment; a signal's request (`SamplesAsk`) and its arrival at the manager are separate steps of separate machines.
- Floating-point rounding: utilisation is computed over the reals.
- The memory monitor, `GetContainerNamespace` and ownership checks: thin or environment-bound.
- The order of start and stop events between their two channels: events count in the order in which they are processed.
- Log files and their tables, apart from the in-memory port table.
- Several manager nodes, each with its own keep-alive map.
- Changes to services made by users, and services created or removed during a run.
- Kernel failures other than a full map: perf output may be lost, but lookups and deletions of present keys succeed.
- Fragments other than the first, beyond `ReportsExactly`: the classifier reads their payload as a TCP header.
- KernelTables.EveryEventIsOneSided: on maps that never fill, as with at most 1024 namespaces.
- CpuMonitor.UsageAttributedOnce: for non-negative readings, as usage counters are; `UsageAttributedModulo` covers the others.
- KernelTables.NamespaceIndependence: for at most 1024 namespaces ever added, because `IndependenceExactly` shows that more break it.
- Archived prototypes, evaluation and provisioning scripts.
