# Verified model of linkerd2's control-plane logic

This project models, in Dafny 4.11, the parts of linkerd2 in which state, retries and encodings interact, and proves
what they promise. `dafny verify dfyconfig.toml` checks all of it.

**Service mirror.** One watcher per linked cluster turns remote Service and Endpoints events into local mirror services,
endpoints, federated services and Link status, through a rate-limited queue with bounded retries. `Api` is the local
cluster as the watcher sees it: maps of services, endpoints and namespaces, status lists and the gateway's liveness.
Updates are compare-and-swap on the resource version, and deleting a service takes its endpoints with it. `Handlers` and
`HeadlessMirror` say what each event does, every failure path included; an environment value decides for each call
whether it fails, and what DNS and listers answer. `Machine` is the queue. `Watcher` is the same watcher as an object
with mutable stores and a mutable queue, each of its methods proved to compute the function that the theorems are about;
its straight-line handlers have no row of their own below. The theorems are in `Refinement`, `Drained` and `Successive`
(mirrors track the remote services), `Overlaps` and `Overtaken` (how they stop doing so), `Liveness`, `Effects`,
`Discovery`, `HeadlessOrphans`, `Leftovers` and `LivenessCounterexamples` (traffic to a dead gateway), `Crashes` (panics
on nil), `Machine` (the queue drains), `Membership`, `FederatedHandlers`, `Fleet` and `Enrolment` (the federated object
that several watchers share, and when a cluster is in it), `Contents` and `HeadlessContents` (what each event writes,
field by field, and when it does), `DiffSync` (headless mirrors), `Repair`, `Collection` (garbage collection and
clean-up), `StatusList` and `Probe`.

**Health checks.** `HealthCheck` is the engine with its clock, deadlines and fatal failures; `CheckOutput` the JSON
collector, its parser and the re-run by the parent command; `Cidr` the check of cluster networks, over addresses of any
width as bit sequences.

**Identity.** `Identity` goes from a token review to a DNS identity, a checked CSR and an issued certificate, over runs
of reloads and requests.

**Configuration and ownership.** `Inject` covers flags to annotations to values, and the layering of workload, namespace
and default; `Ownership` the lookups from workloads to pods and back.

## How the model reads the source

- One handled event is one atomic step. Listers return the current contents. A step's writes get a version that no
  earlier object has. Interleavings are over steps.
- The rate limiter may delay a requeued event arbitrarily, so the next event handled is any queued one.
- Handlers edit the copies inside their events, and a retry sees the edits: `Updated` and `JoinFederated` are returned
  with what a retry would see.
- A panic on nil is an outcome of its own, `Crash`. The run goes on without the event; that a watcher ends and starts
  again is the `Restart` input of `Refinement` and `Drained`. An object without annotations is read with a nil map.
- Integer widths are explicit where they are parsed: int32 ports, int64 IDs, uint64 counters that wrap.

## What does not hold as one might expect

- Repair passes over every service with the remote-discovery label, also one whose endpoints point at the gateway. Three
  ways lead there: the label does not start with the mirror prefix, so a remote service that carries it passes it on to
  its gateway-mode mirror (`LivenessCounterexamples.LabelBreaksSafety`); an update to gateway mode writes ready
  endpoints before the service, and may fail in between (`LivenessCounterexamples.SwitchBreaksSafety`); and the endpoint
  mirrors of a headless service in discovery mode take its label (`LivenessCounterexamples.EndpointMirrorStaysReady`).
  `Liveness.RepairProtects` has the exact condition, and `Liveness.LivenessSafety` asks for it only of the last queued
  repair. Where no remote service is in discovery mode or carries the label, none of the three arises
  (`Discovery.GatewayLinksAreSafe`).
- Ready endpoints under a mirror name, with no service of the link in front of them, are adopted by the next mirror of
  that name, or by a foreign service of that name that is updated to discovery mode.
  `LivenessCounterexamples.LagBreaksSafety` is a run without a failing call, and `Liveness.OrphansAreTheOnlyRisk` the
  exact condition on states.
- While the gateway is dead a single kind of event leaves such endpoints behind: a headless endpoints event in which a
  positive even number of ready addresses bear the service's own name. Each of them takes the mirror for its endpoint
  mirror, and every second one rolls it back (`HeadlessOrphans.HeadlessEventOrphans`,
  `HeadlessOrphans.TwoOfOneNameOrphan`).
- While the gateway is alive two more kinds of events leave endpoints without a service: an update to gateway mode that
  was queued without endpoints and comes after its mirror has gone, and headless endpoints without subsets that come
  before there is a mirror. A repair does so where the link has no probe service. `Leftovers.OnlyTheseStrand` is the
  exact guard, and a link without discovery mode on which no event meets it needs nothing but repairs that go through
  (`Leftovers.SteadyLinksAreSafe`).
- Three handlers panic on nil, which is their `Crash` outcome: `handleRemoteServiceUnexported` goes on with a nil
  service after a lister error other than NotFound, `createHeadlessMirrorEndpoints` reads the target reference of a
  named address that may have none, and `handleFederatedServiceJoin` writes into the annotations of an object that may
  have none. `Crashes.HandlerCrashes` says exactly when, from the event and the store alone. With every call going
  through, `Crashes.UntargetedAddressCrashes` is such an endpoints event that the informer lets through, and
  `Crashes.ForeignFederatedCrashes` a federated object of foreign making, from the decision to join it on. No object
  that the watchers made themselves leads there (`Fleet.FleetJoinsEnd`).
- A service that both selectors match is exported at its first report and enters the federated service only at a second
  one (`Enrolment.SecondReportEnrols`). A create that meets an existing object reports the member without listing it
  (`Enrolment.CreateEnrols`), and a join that comes too late gives up without an error when it is retried
  (`Enrolment.LateJoinEnds`). Otherwise a cluster is listed exactly as the last decision on it ruled
  (`Enrolment.ListedAsRuled`).
- The rollback of `createGatewayEndpoints` deletes the service also when the endpoints existed before. An export or an
  update that was queued before another one took effect therefore takes the mirror away, exactly under the guards of
  `Overlaps.ExportTakesMirror` and `Overlaps.UpdateTakesMirror`. Two decisions about one service are enough, with every
  call going through: a second export deletes the mirror until its retry (`Overlaps.SecondExportTakesMirror`), and a
  second update to gateway mode deletes it for good (`Overlaps.SecondUpdateLosesMirror`). One report is enough at a
  start that hears of the namespace first (`Overlaps.NamespaceFirstExportsTwice`), though not at one that hears of the
  services first (`Drained.StartConverges`).
- A service that changes while a report of it is still queued may be left with a stale mirror, or with none, once the
  queue has drained in order with every call going through. A new one keeps the mirror of its earlier version if the
  later one is in discovery mode, reported as mirrored (`Overtaken.ExportOfEarlierVersion`, with the exact condition in
  `Overlaps.ExportLeavesMirror`); a mirrored one that changes twice keeps that of the middle version
  (`Overtaken.UpdateOfEarlierVersion`, `Overtaken.OutdatedUpdate`); one that goes and comes back has no mirror
  (`Overtaken.AddedAgainUnmirrored`). The next report mends all of them (`Overtaken.ResyncMends`), and none of them
  arises where a service changes only after its last report has been decided upon, even with the decision still to be
  carried out (`Successive.SuccessiveRefinement`).
- In `createGatewayEndpoints` the branch for a non-empty service without gateway addresses cannot be reached, because a
  resolution without addresses is an error.
- Garbage collection deletes mirrors without touching the Link status, so the status is exact afterwards only if there
  was nothing to collect (`Refinement.CollectionLeavesStatus`).
- A check error with an empty text is read back as a success (`CheckOutput.RoundTripIsExact`).
- Annotations cannot switch ingress mode off or set a negative group ID, and a CPU limit also changes the number of
  cores (`Inject.FlagRoundTrip`).
- The debug container's image, version and pull policy and the gateway switch cannot be set for a whole namespace; every
  other setting can (`Inject.InheritanceIsExact`).
- A running pod that resolves to a workload need not be among that workload's pods: one that a Deployment owns without a
  ReplicaSet in between is not (`Ownership.DirectPodIsMissed`), nor one whose owner was replaced by another of its name
  (`Ownership.StalePodIsMissed`). `Ownership.LookupsAreInverse` has the exact condition.
- Mirror and federated names meet exactly for clusters called "federated" or ending in "-federated"
  (`Mirror.MirrorMeetsFederated`); theorems that need them apart say so.

## Model

| member | source | states |
|---|---|---|
| `Refinement.MirrorRefinement` | multicluster/service-mirror/cluster_watcher.go:623-707 | over every run in which remote adds, updates, deletes, new namespaces and restarts arrive at any time, except that a service changes only while no event about it is queued, in any order of versions and with unchanged services reported again, and nothing fails: every service that no queued event concerns is mirrored as its current remote version asks, or not at all where none is wanted; with the queue empty the link's mirrors are exactly the images of the wanted non-headless services, with labels, annotations and ports of the current remote version and endpoints exactly outside remote-discovery mode; until a restart the status is True exactly where a mirror exists |
| `Drained.QueueOrderRefinement` | multicluster/service-mirror/cluster_watcher.go:1183-1367 | over every run without mirrors at first, in which nothing fails and events are handled in queue order, or in any order while no two are about one service: whenever the queue is empty the mirrors are exact, and until a restart the status is; asked of inputs is that no service changes while an event about it is queued, that no service or namespace is reported while a report of its namespace is, and of a restart that it reports none twice and no namespace before its services |
| `Successive.SuccessiveRefinement` | multicluster/service-mirror/cluster_watcher.go:1183-1367 | over every run without mirrors at first, in which nothing fails and events are handled in queue order, a service may change again as soon as its last report has been decided upon, its export, update or deletion still queued: whenever the queue is empty the mirrors are exact, and until a restart the status is; where an earlier mirror still stands, its version must not be reused, and reports of services and namespaces come as for `Drained.QueueOrderRefinement` |
| `Successive.StepFlows` | multicluster/service-mirror/cluster_watcher.go:1183-1265 | handling the first event keeps, for every service, one decision on its way before one report, each decision fitting its mirror, each outdated one followed by a report, and every service in sync or covered |
| `Successive.ReportFlows` | multicluster/service-mirror/cluster_watcher.go:1268-1330 | an add, update or delete of a service whose last report has been decided upon keeps the same |
| `Successive.HeadCarriedOut` | multicluster/service-mirror/cluster_watcher.go:510-868 | an export, update or deletion whose mirror is as it was found goes through also when the service has changed since: it leaves a proper mirror or none, and the service in sync if it has not |
| `Drained.DrainedRefinement` | multicluster/service-mirror/cluster_watcher.go:1235-1330 | where the queue drains between inputs, except that restarts which report no service twice, be it through its namespace, may come at any time, the events of each round may be handled in any order: whenever the queue is empty mirrors are exact, and until a restart the status is |
| `Drained.StartConverges` | multicluster/service-mirror/cluster_watcher.go:1268-1367 | a watcher that starts among the mirrors of an earlier run, hears of its services before the namespaces around them and handles its queue in order empties it with exact mirrors |
| `Drained.StepStaysOrdered` | multicluster/service-mirror/cluster_watcher.go:1183-1265 | if no decision is queued before another event it would overlap with, nor a namespace before its services, handling the first event keeps it so, and it is not decided upon while another event relies on its mirror |
| `Drained.StepStaysLone` | multicluster/service-mirror/cluster_watcher.go:1183-1265 | if no two queued events are about one service, handling any of them keeps it so, and none is decided upon while another relies on its mirror |
| `Refinement.RestartConverges` | multicluster/service-mirror/cluster_watcher.go:1268-1275 | the same, with the same condition on changes, for a watcher that starts among the mirrors an earlier run left, whatever it left undone: from the collection and the services it queues, mirrors become exact; objects under mirror names are the link's, and no version they record was reused |
| `Refinement.CollectionLeavesStatus` | multicluster/service-mirror/cluster_watcher.go:404-450 | after a collection the status is exact if and only if no mirror had lost its remote service |
| `Overlaps.ExportTakesMirror` | multicluster/service-mirror/cluster_watcher.go:779-868 | an existing mirror is gone after an export if and only if the export is in gateway mode, its namespace and gateway are there, its calls go through, and endpoints are there already or cannot be created; it is then retried |
| `Overlaps.ExportLeavesMirror` | multicluster/service-mirror/cluster_watcher.go:779-868 | with every call going through, an export ends without an error and leaves an existing mirror service as it was, whatever version it mirrors, if and only if it is stopped as headless, has no namespace to use, is in discovery mode, or finds no endpoints and a gateway for them; it leaves the endpoints too and reports the service as mirrored if and only if it is in discovery mode with a usable namespace and not stopped |
| `Overlaps.UpdateTakesMirror` | multicluster/service-mirror/cluster_watcher.go:623-707 | there is no mirror after an update if and only if there was none before, or the update is in gateway mode, was queued without endpoints and now rolls back |
| `Overlaps.SecondExportTakesMirror` | multicluster/service-mirror/cluster_watcher.go:996-1059 | decided upon twice before its first export, a gateway-mode service is mirrored, loses mirror and endpoints to the second export, and has them back after its retry, if there is one; every call succeeds |
| `Overlaps.SecondUpdateLosesMirror` | multicluster/service-mirror/cluster_watcher.go:996-1059 | decided upon twice before its first update, a service that goes over to gateway mode ends without a mirror once the queue has drained; every call succeeds |
| `Overlaps.NamespaceFirstExportsTwice` | multicluster/service-mirror/cluster_watcher.go:944-962 | a service reported once, after its namespace, is decided upon twice and has no mirror after its second export, where the queue ends without retries; every call succeeds |
| `Overlaps.UpdateNeedsItsCopies` | multicluster/service-mirror/cluster_watcher.go:623-707 | an update for which every call goes through is done if and only if mirror and endpoints are still those it was queued with, and a retry keeps the old copies |
| `Overtaken.OutdatedUpdate` | multicluster/service-mirror/cluster_watcher.go:623-707 | with every call going through, an update whose copy of the mirror is outdated is retried, and leaves mirror and endpoints as they are if and only if it neither removes endpoints of the other mode, nor creates any or rolls the mirror back, nor finds those it copied unchanged |
| `Overtaken.ExportOfEarlierVersion` | multicluster/service-mirror/cluster_watcher.go:779-868 | a new service that changes to a discovery-mode version while its first report is queued ends, drained and in queue order with every call succeeding, with a mirror of the earlier version that is reported as mirrored; every other service is in sync |
| `Overtaken.UpdateOfEarlierVersion` | multicluster/service-mirror/cluster_watcher.go:623-707 | a mirrored service, in no federated service, that changes twice before the first change is decided upon ends with a mirror of the middle version, the last update given up with its old copies, unless that has endpoints to create or some left to remove; every call succeeds |
| `Overtaken.AddedAgainUnmirrored` | multicluster/service-mirror/cluster_watcher.go:1064-1181 | a mirrored service, in no federated service, that is deleted and added again before the deletion is decided upon ends without a mirror, its update given up after the deletion, unless that has endpoints to create; every call succeeds |
| `Overtaken.ResyncMends` | multicluster/service-mirror/cluster_watcher.go:1064-1154 | from every drained state in which some services have fallen behind, as in the three runs above, one more report of each as it is, handled in order with every call succeeding, makes the mirrors exact |
| `Refinement.ExportSucceeds` | multicluster/service-mirror/cluster_watcher.go:779-868 | a successful export, which needs the gateway only in gateway mode, leaves the mirror reflecting the remote service, or nothing when the namespace is missing and may not be created, and touches no other service's mirror; what its endpoints hold is `Contents.ExportWritten` |
| `Refinement.UpdateSucceeds` | multicluster/service-mirror/cluster_watcher.go:623-707 | a successful update, which needs the gateway only in gateway mode, leaves the mirror reflecting the new remote version in whichever mode it now asks for, and touches no other mirror; what its endpoints hold is `Contents.UpdateWritten` |
| `Refinement.UnexportSucceeds` | multicluster/service-mirror/cluster_watcher.go:510-562 | a successful unexport removes mirror, endpoints and status entry of that service alone; headless mirrors are in `Contents.UnexportIsExact` |
| `Contents.GatewayEndpointsWritten` | multicluster/service-mirror/cluster_watcher.go:996-1060 | the endpoints created for a mirror: no subset if the remote has no ready address, else one with the resolved gateway addresses, ready iff the gateway is alive, and one port per service port, under its name and protocol, to the gateway port; labels and annotations key by key |
| `Contents.ExportWritten` | multicluster/service-mirror/cluster_watcher.go:779-868 | a successful export leaves the mirror service, new with the labels, annotations and ports of a mirror or as it was, outside discovery mode new endpoints as above, the namespace, and nothing else new |
| `Contents.ExportOutcomes` | multicluster/service-mirror/cluster_watcher.go:779-868 | how an export ends, failure by failure, from what the calls answer, and the status condition with its reason that each end leaves |
| `Contents.UpdateWritten` | multicluster/service-mirror/cluster_watcher.go:623-707 | what a successful update leaves of service and endpoints in each change of mode; an update with endpoints writes the gateway subset whatever the remote endpoints hold |
| `Contents.UpdateOutcomes` | multicluster/service-mirror/cluster_watcher.go:623-707 | how an update ends, failure by failure, and the status condition and reason it leaves |
| `Contents.UnexportIsExact` | multicluster/service-mirror/cluster_watcher.go:510-562 | for gateway, discovery and headless mirrors alike: what is deleted is the mirror, its endpoints and, for a headless one, every service labelled with its name, and everything else is as it was; it is retried iff something of that is left, or the labelled services could not be listed, and panics iff the mirror could not be read |
| `Contents.CreateFederatedOutcomes` | multicluster/service-mirror/cluster_watcher.go:870-942 | how the creation of a federated service ends, failure by failure, with which status, and what is then there |
| `Contents.FederatedContents` | multicluster/service-mirror/cluster_watcher.go:300-308 | key by key the labels and annotations of a new federated service |
| `Contents.JoinOutcomes` | multicluster/service-mirror/cluster_watcher.go:710-753 | how a join ends, with which status, and that it writes the discovery annotation of its kind alone |
| `Contents.LeaveOutcomes` | multicluster/service-mirror/cluster_watcher.go:565-619 | how a leave ends: the object keeps its other annotations, or is deleted when no member is left |
| `Contents.MirrorDecisionIsExact` | multicluster/service-mirror/cluster_watcher.go:1064-1112 | an export exactly if the service is wanted and has no mirror, an update exactly if the mirror is of another version, an unexport exactly if it is not wanted and the mirror is of this link; a retry exactly if something could not be read |
| `Contents.FederatedDecisionIsExact` | multicluster/service-mirror/cluster_watcher.go:1113-1154 | a creation, join or leave, by membership and existence of the federated service; a retry, reported, exactly if a member's could not be read |
| `Contents.DeletionIsExact` | multicluster/service-mirror/cluster_watcher.go:1168-1181 | which events the deletion of a remote service leads to |
| `Contents.EndpointsWritten` | multicluster/service-mirror/cluster_watcher.go:1607-1656 | an endpoints event changes the mirror's endpoints exactly if one of the two has a ready address and the other has not: it takes all subsets away, or puts in the one that points at the gateway |
| `Contents.ProbeWritten` | multicluster/service-mirror/cluster_watcher.go:1548-1605 | the probe endpoints: the gateway's addresses under the probe port, all ready, whenever the port is an int32 and the calls go through |
| `Refinement.MirrorDecisionLocal` | multicluster/service-mirror/cluster_watcher.go:1064-1111 | the decision queues nothing only if the mirror is in sync, and otherwise exactly the event that will bring it in sync |
| `Refinement.DeleteLocal` | multicluster/service-mirror/cluster_watcher.go:1168-1181 | a remote deletion queues what removes the mirror, for that service alone |
| `Refinement.NamespaceLocal` | multicluster/service-mirror/cluster_watcher.go:944-957 | a new namespace queues an add for every remote service in it |
| `Drained.SpawnsLone` | multicluster/service-mirror/cluster_watcher.go:944-1181 | what an event queues is about services it concerns itself, each at most once |
| `Refinement.HandleLocal` | multicluster/service-mirror/cluster_watcher.go:1183-1231 | every handled event leaves each service it concerns in sync or covered by what it queued, and every other service as it was |
| `Refinement.StepTracks` | multicluster/service-mirror/cluster_watcher.go:1235-1265 | handling any queued event, unless it decides upon a service whose export or update is queued, keeps the invariant that every service is in sync or has an event on its way that is still apt, at most one of which relies on how its mirror was found |
| `Refinement.ReceiveTracks` | multicluster/service-mirror/cluster_watcher.go:1268-1330 | each informer input keeps that invariant while other events are queued, as long as none is about its own service; versions need not increase, and a restart may come at any time |
| `Refinement.DrainExists` | multicluster/service-mirror/cluster_watcher.go:1235-1265 | such runs exist from every state: handling whatever is queued, with calls that succeed, empties the queue; without a gateway, as long as all remote services are in discovery mode |
| `Refinement.FederatedAwayFrom` | multicluster/service-mirror/cluster_watcher.go:565-619 | federated handlers touch no object but the federated one |
| `Mirror.OriginalInvertsMirror` | multicluster/service-mirror/cluster_watcher.go:243-257 | originalResourceName inverts mirrorServiceName on every name |
| `Mirror.MirrorKeyInjective` | multicluster/service-mirror/cluster_watcher.go:243-245 | distinct remote services have distinct mirrors |
| `Mirror.MirrorMeetsFederated` | multicluster/service-mirror/cluster_watcher.go:243-249 | some mirror name equals some federated name if and only if the cluster name is or ends in the federated suffix |
| `Mirror.MirrorContents` | multicluster/service-mirror/cluster_watcher.go:262-291 | key by key, what a mirror's labels, annotations and ports take from the remote service and what they add |
| `Mirror.MirrorLabelFacts` | multicluster/service-mirror/cluster_watcher.go:280-300 | mirrors carry the link's labels and never the headless label; the discovery label is there iff the mode is discovery or the remote service carries it itself |
| `Mirror.FederatedOfNoLink` | multicluster/service-mirror/cluster_watcher.go:304-308 | a federated service belongs to no link |
| `Mirror.ComputeCommonLabels` | multicluster/service-mirror/cluster_watcher.go:262-275 | the copying loop computes the common labels |
| `Mirror.ComputeCommonAnnotations` | multicluster/service-mirror/cluster_watcher.go:311-328 | the copying loop computes the common annotations |
| `Mirror.ComputeRemappedPorts` | multicluster/service-mirror/cluster_watcher.go:764-777 | the loop keeps every port in order without its node port |
| `Mirror.ComputeEndpointPorts` | multicluster/service-mirror/cluster_watcher.go:388-402 | no ports iff the gateway port is not an int32; else as many as the service has, in order, each with its name and protocol and the parsed gateway port as its number |
| `Mirror.EndpointPortsAreExact` | multicluster/service-mirror/cluster_watcher.go:388-402 | the same of the function that the handlers are about |
| `Mirror.SelectorsDecide` | multicluster/service-mirror/cluster_watcher.go:1692-1745 | a service is exported, in discovery mode or federated exactly if its labels meet the link's selector for it |
| `Mirror.IsEmptyEndpoints` | multicluster/service-mirror/cluster_watcher.go:982-994 | empty iff no subset has a ready address |
| `Mirror.UpdateReadiness` | multicluster/service-mirror/cluster_watcher.go:1682-1690 | the loop moves every address to not ready when the gateway is dead and changes nothing otherwise |
| `Mirror.ReadinessLaws` | multicluster/service-mirror/cluster_watcher.go:1682-1690 | updateReadiness keeps the multiset of addresses and the ports of every subset, leaves nothing ready behind a dead gateway, and is idempotent |
| `Mirror.ResolveGatewayAddress` | multicluster/service-mirror/cluster_watcher.go:1420-1447 | the resolution loop collects the answers of the hosts that resolve and fails iff there are none; each address carries one answered IP and nothing else |
| `Mirror.ResolveGatewayIsExact` | multicluster/service-mirror/cluster_watcher.go:1420-1447 | the resolved addresses are exactly the answers of the hosts that resolve, each as often as it was given, sorted; none are an error |
| `Mirror.ResolutionIgnoresOrder` | multicluster/service-mirror/cluster_watcher.go:1442-1446 | DNS answers with the same addresses in any order resolve to the identical list |
| `Liveness.LivenessSafety` | multicluster/service-mirror/cluster_watcher.go:1369-1385 | in every reachable state of every interleaving, with any failures up to the last queued repair, a dead gateway without a queued repair has no service of the link, discovery label or not, with a ready address; asked of the run is that the last repair succeeds and finds no ready service it would pass over and no orphan, that headless endpoints events stay outside their exact orphaning guard, and that no namespace appears around orphans |
| `Liveness.OrphansAreTheOnlyRisk` | multicluster/service-mirror/cluster_watcher.go:996-1059 | exact condition: in a protected state of a dead gateway every event other than a repair, whatever fails, keeps it protected if and only if there are no orphaned ready endpoints under a mirror name |
| `Liveness.OnlyHeadlessEventsOrphan` | multicluster/service-mirror/cluster_watcher.go:1183-1231 | behind a dead gateway, whatever fails, an event other than a repair exposes a service or leaves an orphan if and only if it is a headless endpoints event that meets the orphaning guard, which reads the event and the store alone |
| `Discovery.GatewayLinksAreSafe` | multicluster/service-mirror/cluster_watcher.go:1369-1385 | if nothing is in discovery mode or carries the discovery label, at the start or in what arrives, then in every reachable state repair passes no ready service over, and liveness safety asks of the last repair only that it succeeds and finds no orphan |
| `Discovery.StepStaysBare` | multicluster/service-mirror/cluster_watcher.go:1183-1231 | whatever fails, no event gives a service of the link the discovery label where no remote service has it |
| `Crashes.HandlerCrashes` | multicluster/service-mirror/cluster_watcher.go:1183-1231 | exact guard, from the event and the store: a handler panics on nil if and only if it is an unexport whose lister fails, a headless endpoints event that meets a nil target, or a join of a service that is not headless whose copy of the object has no annotations |
| `Crashes.HeadlessEventCrashes` | multicluster/service-mirror/cluster_watcher_headless.go:36-317 | a headless endpoints event dereferences nil if and only if it creates the endpoints of a headless mirror, made first if missing, and some ready address is named, has no target reference and gets its endpoint mirror made after the earlier addresses of its name |
| `Crashes.UntargetedAddressCrashes` | multicluster/service-mirror/cluster_watcher_headless.go:252-317 | in every event that the informer lets through, whatever its labels, one named address without a target reference is enough, with every call going through |
| `Crashes.ForeignFederatedCrashes` | multicluster/service-mirror/cluster_watcher.go:710-753 | where an object without annotations stands under the federated name, deciding on a member that is not only exported, with every call going through, queues a join that panics whenever it is handled |
| `LivenessCounterexamples.LagBreaksSafety` | multicluster/service-mirror/cluster_watcher_headless.go:61-90 | a run without any failing call that ends with a ready mirror behind a dead gateway and no repair queued |
| `LivenessCounterexamples.LabelBreaksSafety` | multicluster/service-mirror/cluster_watcher.go:1474-1486 | for every gateway-mode service that carries the discovery label, a run without any failing call and without orphans that ends with its mirror ready behind a dead gateway and no repair queued |
| `LivenessCounterexamples.SwitchBreaksSafety` | multicluster/service-mirror/cluster_watcher.go:623-707 | for every discovery mirror whose service has switched to gateway mode, a run with one failing call and no orphans that ends the same way |
| `LivenessCounterexamples.EndpointMirrorStaysReady` | multicluster/service-mirror/cluster_watcher_headless.go:326-398 | a new endpoint mirror stays ready through a successful repair of a gateway that died if and only if its service is in discovery mode or carries the label |
| `HeadlessOrphans.HeadlessEventOrphans` | multicluster/service-mirror/cluster_watcher_headless.go:36-317 | exact guard: behind a dead gateway a headless endpoints event leaves orphaned endpoints if and only if it creates the endpoints of a headless mirror, a positive even number of ready addresses bear the service's own name, the calls on the mirror go through and no nil target is met, all read from the event and the store |
| `HeadlessOrphans.TwoOfOneNameOrphan` | multicluster/service-mirror/cluster_watcher_headless.go:252-317 | in every event that the informer lets through, whatever its labels, two addresses of the service's own name with different IPs and pods meet that guard |
| `Leftovers.OnlyTheseStrand` | multicluster/service-mirror/cluster_watcher.go:1183-1231 | exact guard for a gateway alive or dead, whatever calls fail: where every endpoints object under a mirror name has a service, an event leaves one without if and only if it is an update to gateway mode that was queued without endpoints and comes after its mirror went, a headless event without subsets before there is a mirror or with an even number of addresses of the service's own name, or a repair without a probe service, and the calls that create the endpoints go through |
| `Leftovers.HeadlessBacks` | multicluster/service-mirror/cluster_watcher_headless.go:36-250 | the same for the headless handler alone, over its nested loops and rollbacks |
| `Leftovers.UpdateBacks` | multicluster/service-mirror/cluster_watcher.go:623-707 | the same for the update handler alone |
| `Leftovers.SteadyLinksAreSafe` | multicluster/service-mirror/cluster_watcher.go:1369-1385 | liveness safety over every interleaving of a link without discovery mode whose events stay outside that guard: of the last repair it is asked only that it succeeds, and nothing of the store it finds |
| `Effects.HandleGood` | multicluster/service-mirror/cluster_watcher.go:1183-1231 | whatever fails, every event but repairs and headless endpoints events keeps a dead gateway's services unexposed and free of orphans, the shape of the link's services, its namespaces and the versions |
| `Liveness.RepairProtects` | multicluster/service-mirror/cluster_watcher.go:1449-1542 | a successful repair of a dead gateway leaves no service of the link ready if and only if no ready one carries the discovery label, and no orphan either if and only if there was none |
| `Liveness.StepConsistent` | multicluster/service-mirror/cluster_watcher.go:1183-1231 | whatever fails, handling an event keeps every service with the link's labels named like a mirror, and every queued join or update a copy no newer than the object |
| `Effects.HandleKept` | multicluster/service-mirror/cluster_watcher.go:1183-1231 | the same with headless endpoints events, except that those may leave orphans |
| `Effects.ExportedGood` | multicluster/service-mirror/cluster_watcher.go:779-868 | an export, however it ends, exposes no service of a dead gateway, whatever its labels, and leaves no orphan |
| `Effects.UpdatedGood` | multicluster/service-mirror/cluster_watcher.go:623-707 | an update from a copy of the mirror, however it ends, exposes no service of a dead gateway and leaves no orphan |
| `Effects.PlainEndpointsGood` | multicluster/service-mirror/cluster_watcher.go:1607-1655 | an endpoints event that is not handled as headless exposes no service of a dead gateway and leaves no orphan |
| `Effects.HeadlessKept` | multicluster/service-mirror/cluster_watcher_headless.go:36-178 | the headless handler exposes no service of a dead gateway, endpoint mirrors included |
| `Machine.QueueTerminates` | multicluster/service-mirror/cluster_watcher.go:1235-1265 | with no new input every queue drains under every schedule and every pattern of failures, within its weight |
| `Machine.StepUsesPotential` | multicluster/service-mirror/cluster_watcher.go:1183-1265 | every handled event uses up weight, counting the events it queues and its retries |
| `Machine.EachEventHandledAtMost` | multicluster/service-mirror/cluster_watcher.go:1245-1256 | no queued event is handled more than requeueLimit + 1 times |
| `Machine.GivenUpAfterLimit` | multicluster/service-mirror/cluster_watcher.go:1245-1256 | over every run, a new event that keeps failing is given up exactly when it has been handled requeueLimit + 1 times |
| `Machine.TriedToTheEnd` | multicluster/service-mirror/cluster_watcher.go:1245-1256 | an event that keeps failing is still queued after a run exactly if it has tries left |
| `Machine.StepIsExact` | multicluster/service-mirror/cluster_watcher.go:1183-1265 | after one handling the other events are queued as they were and in order, the spawned ones follow with identities and counts of their own, and the event itself comes last, counted up, exactly if it asked for a retry and is below the limit |
| `Machine.SpawnShape` | multicluster/service-mirror/cluster_watcher.go:1064-1181 | which events a handler queues and how many |
| `Membership.MembershipProtocol` | multicluster/service-mirror/cluster_watcher.go:565-619 | after any interleaving of observations, creates, joins and leaves of any clusters, with any of their calls failing, the annotation has no duplicate, its members are exactly the clusters whose last committed step was a create or join, and the service exists iff it has a member |
| `Membership.OthersKeepTheirOrder` | multicluster/service-mirror/cluster_watcher.go:710-753 | after every run, no step moves, adds or drops another cluster's entry |
| `Membership.JoinedContents` | multicluster/service-mirror/cluster_watcher.go:710-753 | a join writes nothing exactly if the cluster is listed already; it puts the name into the local annotation or adds name@cluster to the end of the remote one, and leaves every other annotation |
| `Membership.LeftContents` | multicluster/service-mirror/cluster_watcher.go:565-619 | a leave writes nothing exactly if the cluster is not listed; it takes away the local annotation, or every mention of the cluster from the remote one, and leaves every other annotation |
| `Membership.CreateListsCreatorAlone` | multicluster/service-mirror/cluster_watcher.go:341-353 | a created federated service lists its creator alone if and only if the remote service carries no discovery annotation of the other kind |
| `Fleet.FleetMembership` | multicluster/service-mirror/cluster_watcher.go:565-619 | the protocol theorem of the watchers themselves: over every run of any number of them on one store, with every kind of event handled in any order, any calls failing and each watcher's own informers and gateway, the federated service lists no member twice, its members are exactly the clusters whose last write of it was a create or a join, and it exists iff there is one |
| `Fleet.EventHandled` | multicluster/service-mirror/cluster_watcher.go:1183-1231 | handling any event at one watcher keeps the federated object as the protocol left it and every join queued at any watcher a copy no newer than it, edits of failed joins included |
| `Fleet.FleetJoinsEnd` | multicluster/service-mirror/cluster_watcher.go:710-753 | over every run of any number of watchers, no queued join of a federated service that they made panics, whenever and however it is handled |
| `Fleet.HandleSpares` | multicluster/service-mirror/cluster_watcher.go:1183-1231 | except for the federated events, no handler touches a service that has neither the name of one of the link's mirrors nor its labels |
| `FederatedHandlers.CreateFollows` | multicluster/service-mirror/cluster_watcher.go:870-942 | the create handler takes the protocol's create step, whichever of its calls fail |
| `FederatedHandlers.JoinFollows` | multicluster/service-mirror/cluster_watcher.go:710-753 | the join handler takes the protocol's join step; a failed join leaves its edit in the queued event, and one on a copy without annotations is lost without a write |
| `FederatedHandlers.LeaveFollows` | multicluster/service-mirror/cluster_watcher.go:565-619 | the leave handler takes the protocol's leave step, whichever of its calls fail |
| `FederatedHandlers.ObserveFollows` | multicluster/service-mirror/cluster_watcher.go:1113-1137 | deciding on a member queues a create, or a join with the current copy of the object |
| `Enrolment.ListedAsRuled` | multicluster/service-mirror/cluster_watcher.go:1064-1154 | over every run of one watcher in which nothing fails, no service changes while an event about it is queued, nothing is decided upon too early and no one else writes the object: whenever no federated event for a service is queued, its cluster is listed if and only if the last ruling on it says so; a ruling is for a matching service whose object has annotations or whose namespace can be used, and a decision that only exports, or a deletion that did not match, leaves the listing as it is |
| `Enrolment.DrainedListing` | multicluster/service-mirror/cluster_watcher.go:1235-1265 | where the queue drains between inputs this needs no condition on the order of events |
| `Enrolment.SecondReportEnrols` | multicluster/service-mirror/cluster_watcher.go:1064-1154 | a new service that both selectors match is mirrored and not listed after its first report, and listed after it is reported again unchanged |
| `Enrolment.CreateEnrols` | multicluster/service-mirror/cluster_watcher.go:870-942 | with every call going through a create leaves the cluster listed if and only if it was, or there was no object and its namespace can be used; the member is reported whenever the namespace can be used |
| `Enrolment.JoinEnrols` | multicluster/service-mirror/cluster_watcher.go:710-753 | with every call going through a join leaves the cluster listed if and only if it was, or the object is still the version that was copied and the copy, which has annotations, has something to write |
| `Enrolment.LateJoinEnds` | multicluster/service-mirror/cluster_watcher.go:710-753 | a join whose object has changed is retried, and the retry takes its own edit for the listing: it ends without an error and writes nothing, in every later state |
| `Enrolment.LeaveEnds` | multicluster/service-mirror/cluster_watcher.go:565-619 | with every call going through no cluster is listed after its leave |
| `Federation.RemoteDiscoveryContains` | multicluster/service-mirror/cluster_watcher.go:755-762 | true iff the target is one of the comma-separated members |
| `Federation.RemoveMember` | multicluster/service-mirror/cluster_watcher.go:589-597 | the members other than the target, in order |
| `DiffSync.HeadlessDiffSync` | multicluster/service-mirror/cluster_watcher_headless.go:92-177 | after a successful event for an existing headless mirror every named address has its endpoint mirror, every service still labelled for the mirror is wanted, and its subsets are the exported ones without unnamed addresses and then-empty subsets, hostnames and ports in order |
| `DiffSync.DiffSynced` | multicluster/service-mirror/cluster_watcher_headless.go:97-177 | the same of the loops and the update alone, and services not labelled for the mirror are untouched |
| `DiffSync.SyncOutcomes` | multicluster/service-mirror/cluster_watcher_headless.go:92-177 | where every named address has its endpoint mirror: the event fails for good exactly if one of them or the list of them cannot be read, and is done exactly if nothing superfluous is left and the endpoints are still those that were read; deleted is exactly what is labelled for the mirror and no address asks for |
| `DiffSync.MissingHostStops` | multicluster/service-mirror/cluster_watcher_headless.go:92-133 | the first named address without an endpoint mirror decides: where that cannot be made, the event ends as its creation did and leaves what that left |
| `DiffSync.CreatedGrows` | multicluster/service-mirror/cluster_watcher_headless.go:326-398 | a created endpoint mirror is one new service with the headless label and its own cluster IP; nothing else changes |
| `HeadlessMirror.ShouldExportAsHeadlessService` | multicluster/service-mirror/cluster_watcher_headless.go:406-422 | true iff some address, ready or not, has a hostname |
| `Repair.RepairIsCanonical` | multicluster/service-mirror/cluster_watcher.go:1449-1542 | a successful repair leaves every eligible mirror with the one value that remote emptiness, gateway addresses, gateway port and liveness determine, spelled out: the subsets, their addresses, ports and readiness; everything but those and the probe endpoints is untouched |
| `Repair.RepairIgnoresAnswerOrder` | multicluster/service-mirror/cluster_watcher.go:1420-1542 | permuting the DNS answers gives the identical state, whatever fails |
| `Repair.RepairIsIdempotent` | multicluster/service-mirror/cluster_watcher.go:1449-1542 | a second repair changes no labels, annotations or subsets |
| `Repair.ProbeStaysReady` | multicluster/service-mirror/cluster_watcher.go:1548-1600 | the probe endpoints list the gateway's addresses as ready even while the gateway is taken to be dead |
| `Repair.EndpointsTracked` | multicluster/service-mirror/cluster_watcher.go:1607-1655 | after a successful non-headless endpoints event the mirror is ready iff the exported endpoints are and the gateway is alive, exactly unless it was ready behind a dead gateway with ready exported endpoints |
| `Repair.ReachableEndpointsTracked` | multicluster/service-mirror/cluster_watcher.go:1607-1690 | in reachable states without a queued repair that exception does not arise for the services of the link |
| `Collection.CollectionIsExact` | multicluster/service-mirror/cluster_watcher.go:404-507 | over every run, garbage collection deletes exactly the link's services whose remote service is gone, clean-up exactly the link's objects, and neither a federated service |
| `Collection.CollectsExactly` | multicluster/service-mirror/cluster_watcher.go:404-450 | deleted iff the remote service that the mirror or endpoint mirror stands for is gone |
| `Collection.CollectsNoMore` | multicluster/service-mirror/cluster_watcher.go:404-450 | with failing calls nothing more is deleted, and success means nothing was missed |
| `Collection.CleansExactly` | multicluster/service-mirror/cluster_watcher.go:455-507 | exactly the objects with both link labels go, and endpoints with their service |
| `Collection.OriginIsRepresented` | multicluster/service-mirror/cluster_watcher.go:423-432 | the remote name that garbage collection computes is that of the one service the object stands for |
| `Collection.OthersAreNotMine` | multicluster/service-mirror/cluster_watcher.go:404-408 | no federated service and no other link's service carries this link's labels |
| `Collection.RunsKeepConsistency` | multicluster/service-mirror/cluster_watcher.go:1183-1265 | over every run with any failures, link-labelled services stand for remote services |
| `StatusList.ListRefinesMap` | multicluster/service-mirror/cluster_watcher.go:1818-1851 | under any sequence of updates and deletes the status list is a map from remote reference to condition, with one entry per key |
| `StatusList.PlacesAreKept` | multicluster/service-mirror/cluster_watcher.go:1818-1851 | entries keep their places: an update replaces its own or goes last, a deletion closes the gap |
| `StatusList.UpdateServiceStatus` | multicluster/service-mirror/cluster_watcher.go:1818-1840 | the loop computes the update |
| `StatusList.DeleteServiceStatus` | multicluster/service-mirror/cluster_watcher.go:1842-1851 | the loop computes the removal |
| `Watcher.RemoteClusterServiceWatcher.HandleLocalNamespaceAdded` | multicluster/service-mirror/cluster_watcher.go:944-957 | the loop over the remote services |
| `Watcher.RemoteClusterServiceWatcher.CleanupOrphanedServices` | multicluster/service-mirror/cluster_watcher.go:404-450 | the garbage collection loop |
| `Watcher.RemoteClusterServiceWatcher.CleanupMirroredResources` | multicluster/service-mirror/cluster_watcher.go:455-507 | the two clean-up loops |
| `Watcher.RemoteClusterServiceWatcher.RepairEndpointsOfMirrors` | multicluster/service-mirror/cluster_watcher.go:1449-1542 | the repair loop |
| `Watcher.RemoteClusterServiceWatcher.SyncSubsetAddresses` | multicluster/service-mirror/cluster_watcher_headless.go:101-128 | the inner loop of the diff-sync |
| `Watcher.RemoteClusterServiceWatcher.SyncExportedSubsets` | multicluster/service-mirror/cluster_watcher_headless.go:97-139 | the outer loop of the diff-sync |
| `Watcher.RemoteClusterServiceWatcher.SyncHeadlessMirror` | multicluster/service-mirror/cluster_watcher_headless.go:95-177 | the whole diff-sync |
| `Watcher.RemoteClusterServiceWatcher.CreateHeadlessMirrorEndpoints` | multicluster/service-mirror/cluster_watcher_headless.go:252-317 | endpoints of a new headless mirror as `HeadlessContents.HeadlessEndpointsWritten` spells them out; failed endpoint mirrors are skipped |
| `HeadlessContents.HeadlessEndpointsWritten` | multicluster/service-mirror/cluster_watcher_headless.go:252-317 | the endpoints of a new headless mirror: for each named address whose endpoint mirror is there or was made, in order, one with the cluster IP of that endpoint mirror and the name of its target; ports kept, subsets without addresses dropped, readiness independent of the gateway |
| `HeadlessContents.EndpointMirrorWritten` | multicluster/service-mirror/cluster_watcher_headless.go:326-399 | what the creation of an endpoint mirror leaves: the service, new with its labels, annotations, ports and a cluster IP of its own or as it was, and endpoints that point at the gateway |
| `HeadlessContents.EndpointMirrorOutcomes` | multicluster/service-mirror/cluster_watcher_headless.go:326-399 | how the creation of an endpoint mirror ends, and that one whose endpoints are not made is rolled back, also if it was there before |
| `HeadlessContents.HeadlessServiceWritten` | multicluster/service-mirror/cluster_watcher_headless.go:189-250 | a new mirror of a headless service has the labels, annotations and ports of a mirror and is headless exactly if some address is named; without subsets or a namespace none is made, and one that is there already is an error |
| `HeadlessContents.NewHeadlessMirror` | multicluster/service-mirror/cluster_watcher_headless.go:36-187 | a first endpoints event of a headless service, when it comes through, leaves such endpoints under the mirror, which it makes if it is missing |
| `HeadlessContents.PanicLeavesMirror` | multicluster/service-mirror/cluster_watcher_headless.go:252-317 | a handler that panics on an address without a target leaves the endpoint mirror of that address behind |
| `HeadlessContents.NamesLeadToMirrors` | multicluster/service-mirror/cluster_watcher_headless.go:252-317 | a new name that one ready address bears: the address listed for it is the cluster IP of an endpoint mirror that stands, labelled for this mirror |
| `Watcher.RemoteClusterServiceWatcher.ProcessOne` | multicluster/service-mirror/cluster_watcher.go:1235-1265 | one round of the processing loop is one step of the state machine |
| `Watcher.RemoteClusterServiceWatcher.ProcessEvents` | multicluster/service-mirror/cluster_watcher.go:1235-1265 | the processing loop ends with an empty queue, within the queue's weight, after a run of the state machine; the link's services still stand for remote services; if that run was admissible nothing is ready behind a dead gateway, and if nothing failed in it and no decision overlapped an export or update of its service the mirrors are exactly the image of the remote services |
| `Probe.ProbeWorker.Run` | multicluster/service-mirror/probe_worker.go:65-126 | the probe loop computes the worker's state and what it sent; an unparsable threshold ends it at once |
| `Probe.ProbeHistory` | multicluster/service-mirror/probe_worker.go:91-126 | after any history the worker is alive iff some probe succeeded and the trailing failures are fewer than max(1, threshold); its messages alternate starting with true |
| `Probe.WatcherCatchesUp` | multicluster/service-mirror/probe_worker.go:91-126 | however probing and listening interleave on the ten-place channel, applying the pending messages to the watcher's gatewayAlive gives the worker's state, or true if nothing has succeeded yet |
| `Probe.ProbeWaits` | multicluster/service-mirror/probe_worker.go:28-126 | a probe waits exactly if ten messages are pending and its result is news |
| `Cidr.PrefixTestIsExact` | pkg/healthcheck/healthcheck.go:1913-1922 | the prefix-length-plus-Contains test holds iff the network contains every address of the CIDR |
| `Cidr.Contains` | pkg/healthcheck/healthcheck.go:1917-1917 | the masked comparison is prefix equality, false across families |
| `Cidr.ClusterNetworksContainCIDR` | pkg/healthcheck/healthcheck.go:1913-1922 | true iff some single network contains every address of the CIDR |
| `Cidr.ClusterNetworksContainIP` | pkg/healthcheck/healthcheck.go:1924-1931 | true iff the address parses and some network contains it |
| `Cidr.CheckClusterNetworks` | pkg/healthcheck/healthcheck.go:1870-1911 | which of its four outcomes the check has, and the sorted list of uncontained CIDRs |
| `Cidr.PassingCoversEveryPod` | pkg/healthcheck/healthcheck.go:1870-1931 | if the check passes, the test on single IPs accepts every IP inside every node's pod CIDR |
| `HealthCheck.RunCheck` | pkg/healthcheck/healthcheck.go:1636-1675 | for some last attempt, all before it failed before the deadline and it did not: one result each, none for a skip; each carries the check's description, lengthened by the message of a verbose success, and as error the text of that attempt's failure, or the waiting text on a retry unless errors are surfaced; it passes unless the last attempt failed, and the clock is where its attempts and waits leave it |
| `HealthCheck.AttemptsAreExact` | pkg/healthcheck/healthcheck.go:1636-1675 | the same of the function that the run is about, from any attempt on |
| `HealthCheck.PlanIsExact` | pkg/healthcheck/healthcheck.go:1583-1607 | planned are exactly the runnable checks of the enabled categories, category after category |
| `HealthCheck.AttemptsShape` | pkg/healthcheck/healthcheck.go:1636-1675 | a check emits retry results, then at most one final result, whose error says whether it failed; without one it was skipped and counts as passed |
| `HealthCheck.AttemptsBelong` | pkg/healthcheck/healthcheck.go:1646-1651 | every result carries its category, its check's warning mark and hint |
| `HealthCheck.RetriesAreBounded` | pkg/healthcheck/healthcheck.go:1660-1670 | the number of retries is bounded by the deadline and the retry window |
| `HealthCheck.ExecutesThePrefix` | pkg/healthcheck/healthcheck.go:1583-1607 | the executed checks are the enabled ones up to and including the first fatal failure |
| `HealthCheck.ExecutedInSequence` | pkg/healthcheck/healthcheck.go:1583-1607 | each check starts when the one before it ended |
| `HealthCheck.RunChecks` | pkg/healthcheck/healthcheck.go:1583-1607 | the nested loops emit the results of the executed checks in order; success iff no executed non-warning check failed, warning iff a warning check did |
| `CheckOutput.CheckOutputRoundTrip` | pkg/healthcheck/healthcheck_output.go:205-257 | running with the JSON collector, parsing its categories and re-running them yields the final results in order and the same pair, success being the emitted field |
| `CheckOutput.RoundTripIsExact` | cli/cmd/check_extensions.go:278-301 | for any result stream the parsed results are the final ones if and only if every error has a text |
| `CheckOutput.RerunIsExact` | pkg/healthcheck/healthcheck_output.go:93-108 | the pair survives if and only if the errors that decide it have a text |
| `CheckOutput.ParseOfCollect` | pkg/healthcheck/healthcheck_output.go:208-240 | retries and category grouping do not disturb the final results or their order |
| `CheckOutput.PairOfRun` | pkg/healthcheck/healthcheck.go:1583-1607 | the pair that RunChecks returns is that of the final results it emitted |
| `CheckOutput.CollectJSONOutput` | pkg/healthcheck/healthcheck_output.go:205-240 | the collector's loop groups consecutive results by category |
| `CheckOutput.ParseCheckOutput` | cli/cmd/check_extensions.go:278-301 | the parser's nested loops flatten the categories |
| `CheckOutput.RerunChecks` | pkg/healthcheck/healthcheck_output.go:93-108 | the loop submits every result and computes the pair |
| `Identity.UsernameRoundTrip` | controller/identity/validator.go:78-91 | a username is accepted iff it is system:TYPE:NS:SA for three DNS labels, and its identity splits on dots back into account, namespace and type |
| `Identity.IdentitiesAreDistinct` | controller/identity/domain.go:27-36 | distinct accepted usernames have distinct identities |
| `Identity.IdentitySegments` | controller/identity/domain.go:27-36 | the first three segments of an identity are account, namespace and type |
| `Identity.NamesMatchPatterns` | controller/identity/validator.go:50-91 | the label test accepts exactly what its regular expression matches |
| `Identity.ValidateIsExact` | controller/identity/validator.go:50-91 | from the reviews alone: a review that fails is an error, one with an error or whose token is not authenticated is refused as such, and a user is identified iff it is authenticated without error and its name is that of a service account |
| `Identity.TrustDomainMakesNames` | controller/identity/domain.go:15-36 | under an accepted trust domain every identity splits into account, namespace, type, "identity", control-plane namespace and the domain's own segments, all of them label-shaped |
| `Identity.NamesDetermineDomains` | controller/identity/domain.go:15-36 | equal identities come from the same account of the same trust domain |
| `Identity.IssuanceIsSound` | pkg/identity/service.go:174-264 | in every run of reloads and requests, an answer with a certificate was signed by an issuer verified when loaded and again when signing, for a CSR whose one DNS name is the identity of the reviewed token and which has no other names, and names the account and namespace of its username; the review that counted was authenticated and without error |
| `Identity.IssuerWasLoaded` | pkg/identity/service.go:79-136 | the current issuer was verified as a CA by the last reload that could be used |
| `Identity.CheckCSR` | pkg/identity/service.go:290-315 | accepted iff the identity is the only name in it |
| `Identity.Service.Initialize` | pkg/identity/service.go:79-136 | the issuer is replaced iff the new one is read, verified and a CA |
| `Identity.Service.Certify` | pkg/identity/service.go:174-264 | exactly when a certificate is issued, and for which account; exactly when the request is invalid, the issuer not ready, the token refused or the failure internal |
| `Ownership.LookupsAgree` | controller/k8s/api.go:556-727 | a pod of a Deployment, CronJob, DaemonSet, StatefulSet or ReplicationController resolves back to exactly that object |
| `Ownership.LookupsAreInverse` | controller/k8s/api.go:556-727 | in a single-owner cluster without stale references a pod is among those of a workload if and only if it resolves to it on the usual way, matches the selectors on it and is not over |
| `Ownership.DirectPodIsMissed` | controller/k8s/api.go:556-727 | a pod that a Deployment owns without a ReplicaSet in between resolves to it and is not among its pods |
| `Ownership.StalePodIsMissed` | controller/k8s/api.go:556-727 | nor is one whose reference is to an earlier object of that name |
| `Ownership.PodOfIsExact` | controller/k8s/api.go:611-727 | of the pods that belong to an object, by kind, exactly those are returned that are pending or running and not terminating, or failed when failed ones are asked for |
| `Ownership.OwnerIsExact` | controller/k8s/api.go:556-607 | a pod with one owner resolves to it, unless that is a Job with one owner, or a ReplicaSet whose one owner is a Job, StatefulSet, DaemonSet or Deployment: then to that one |
| `Ownership.CachedLookupsAgree` | controller/k8s/api.go:556-727 | the same through any cache that is part of the server's contents, with retry on |
| `Ownership.RetryHidesTheCache` | controller/k8s/api.go:556-607 | with retry on, the answer does not depend on the cache |
| `Ownership.OwnerIsUnique` | controller/k8s/api.go:611-727 | no two such objects claim one pod |
| `Ownership.GetPodsFor` | controller/k8s/api.go:611-727 | exactly the pods that belong to the object, by kind, and are pending or running and not terminating, or failed and asked for; no pod twice in a single-owner cluster; an error iff the kind has no case or a pod is not there |
| `Ownership.ApiGetOwnerKindAndName` | controller/k8s/api.go:556-607 | resolves as specified, although its ReplicaSet case shadows err |
| `Ownership.MetadataGetOwnerKindAndName` | controller/k8s/metadata_api.go:216-273 | resolves as the API version does |
| `Ownership.IsOwner` | controller/k8s/api.go:729-736 | true iff some reference has the UID |
| `Ownership.IsValidRSParent` | controller/k8s/k8s.go:28-48 | true iff the single owner is a job, statefulset, daemonset or deployment |
| `Inject.FlagRoundTrip` | cli/cmd/inject.go:383-506 | applying the emitted annotations to the base restores the target on every covered field, and leaves the others alone except the init pull policy and the cores, if and only if the flags can express the target |
| `Inject.GetOverrideAnnotations` | cli/cmd/inject.go:383-506 | an annotation is emitted iff its field differs, with the formatted value; the group ID only if not negative |
| `Inject.ApplyAnnotationOverrides` | pkg/inject/inject.go:199-510 | every override with its parse and validity rules; what one annotation sets is `Inject.OneMoreAnnotation` |
| `Inject.OneMoreAnnotation` | pkg/inject/inject.go:199-510 | each of the 46 annotations sets its own field to its value, if that is valid, and no other, whatever the other annotations are; without annotations nothing changes |
| `Inject.TimeoutsAlone` | pkg/inject/inject.go:279-313 | a connect or cache timeout alone sets its own field to the milliseconds or seconds, an invalid one nothing |
| `Inject.SwitchesAlone` | pkg/inject/inject.go:199-510 | so do the gateway and the two protocol detection switches, with a boolean |
| `Inject.EndpointAlone` | pkg/inject/inject.go:199-510 | the shutdown endpoint is set by "enabled" and "disabled" only |
| `Inject.TextsAlone` | pkg/inject/inject.go:199-510 | storage request and limit are set by a quantity, the pod's inbound ports, skipped subnets, logged HTTP headers and the debug pull policy by any text; no other field changes |
| `Inject.InheritanceIsExact` | pkg/inject/inject.go:43-89 | a pod inherits every setting but the debug image, its version and pull policy, and the gateway |
| `Inject.AppendNamespaceAnnotations` | pkg/inject/inject.go:172-184 | a namespace value is appended iff the key is inheritable and the workload has none |
| `Inject.GetAnnotationOverrides` | pkg/inject/inject.go:616-628 | key by key: outside the CLI an annotation appended to the pod wins over the one it came with, and the CLI sees only the latter; nothing else is in the result |
| `Inject.OverridesOfPod` | controller/proxy-injector/webhook.go:97-102 | every setting of an injected pod is the workload's, else the namespace's if it can be inherited, else the default, and no annotation appears that is in neither |

## Left out

- Kubernetes clients, informers, event recorders, leases, DNS and HTTP: inputs of the model.
- Interleaving inside one handler, in-place edits of informer caches, and the data race on gatewayAlive: steps are atomic and reads are copies.
- Object fields that no modelled decision reads, such as service affinity, and the texts of status messages.
- Failures of reading or patching the Link resource itself: status writes always go through.
- Deduplication inside the work queue: every queued event has its own identity.
- Shutting down: the queue's done flag, and the order in which Stop removes handlers.
- Refinement.MirrorRefinement: endpoints and liveness events are not among its inputs, Liveness and Repair are about those; a service changes only while no event about it is queued, and is not decided upon while its export or update is queued. Overlaps and Overtaken show what happens otherwise. That nothing is decided upon too early holds of itself in the runs of Drained.QueueOrderRefinement and Drained.DrainedRefinement, and the latter's inputs come only when nothing is queued.
- Drained.QueueOrderRefinement: a service changes only while no event about it is queued; Successive.SuccessiveRefinement lets it change earlier.
- Refinement.RestartConverges: after the restart a service changes only while no event about it is queued.
- Successive.SuccessiveRefinement: a service changes only when its last report has been decided upon; Overtaken has the runs in which a change before that goes wrong. A deletion before that is left out too.
- Enrolment.ListedAsRuled: a service changes only while no event about it is queued; one watcher and its own writes; where others write the object too, Enrolment.CreateEnrols, Enrolment.JoinEnrols and Enrolment.LateJoinEnds say what each event makes of it and Fleet.FleetMembership who is listed.
- Fleet.FleetMembership: nothing but the watchers writes the federated service, and as in Membership.MembershipProtocol its remote services carry no discovery annotations.
- Membership.MembershipProtocol: remote services carry no discovery annotations of their own; Membership.CreateListsCreatorAlone is about those that do.
- Ownership.LookupsAgree: ReplicaSets and Jobs are not claimed, since their pods resolve to the owner above them.
- The text of the JSON output: categories, checks and results are values, and an omitted empty string is an empty string.
- net.ParseCIDR and net.ParseIP: any function from texts to addresses with prefix lengths; IPv4 addresses written in IPv6 form are not told apart.
- X.509, TLS and PEM: verification and signing are functions, and a certificate without key material is not modelled.
- Inject.FlagRoundTrip: quantity syntax, durations and port lists enter as functions that normalise them, since their formatting goes through other packages.
- The opaque-ports default that the webhook adds after inheritance, Helm rendering, the JSON patch and uninjection.
- MergeMaps, metrics, tables, command-line plumbing, heartbeat and dashboards: they take no part in the queue and stores of the watcher, nor in the checks, certificates, annotations and lookups modelled here.
