# Cluster API provider for OVHcloud: reconcilers, client and names, verified

This project models the two reconcilers of the provider (OVHCluster and OVHMachine), the API client
they call, the names and provider IDs they compute, and the conversion between the v1alpha1 and
v1alpha2 APIs, and proves what they keep and what they reach. `dafny verify dfyconfig.toml` checks
all of it.

## How it is built

- **The service** (`Cloud.dfy`) is one value `Cloud`: lists of networks, subnets, load balancers,
  listeners, pools, monitors, members, floating IPs, gateways, instances and groups, and the set of
  all IDs ever issued. A `Journal` beside it counts failing attempts (`faults`), attempts that took
  effect although they reported a failure (`lost`), mutating calls (`writes`), seconds slept, load
  balancer lookups before a POST that failed (`failedLookups`) or ran while the list hid a load balancer
  of the name (`hiddenLookups`), and failed lists of floating IPs and pool members. It keeps every lookup of a
  load balancer by name and every read of a floating IP with what they saw, the service's final answer to every
  read, delete and exposure of one object by its ID (`answers`), and which networks were created and named in a
  delete call. What an answer means is said with literal codes (`Missing`, `InTransition`, `Accepted`). Each count of failed calls grows by no more than `faults`
  does. It is ghost state: no code path looks at it.
- **The client** (`Client.dfy`) is a class over that value. Every call goes through
  `RetryWithBackoff`, whose attempts end as the service likes: done, refused without effect, or lost
  (an error after taking effect). What a contract promises of a *clean* call (no failing attempt) is
  what the service would answer; everything else holds whatever fails.
- **The controllers** (`ClusterController.dfy`, `MachineController.dfy`) are classes with the status
  fields the source updates in place, and methods with the source's branches. Each step's contract
  is a relation over plain values (`ClusterModel.dfy`, `NetworkSteps.dfy`, `PortSteps.dfy`,
  `FipSteps.dfy`, `LbSteps.dfy`, `ClusterPass.dfy`, `DeleteModel.dfy`, `MachineModel.dfy`), so that
  lemmas can speak about whole passes. `NormalPass`, `DeletePass`, `MachinePass` and
  `MachineDeletePass` are the contracts of the four passes.
- **Runs** (`Runs.dfy`) are sequences of worlds: cluster passes and deleting passes whose status patch
  is persisted or lost, machine passes of any machine, and arbitrary changes from outside.
- **Ends** (`Convergence.dfy`, `DeleteProgress.dfy`): creation reaches Ready and stays quiet, deletion
  removes its finalizer, each with an explicit measure.
- **Limits** (`Limits.dfy`): where less holds than one might expect, exactly when, and an input.
- **Exact parts**: `Names.dfy`, `DhcpRange.dfy`, `Errors.dfy`, `Conversion.dfy`.

Hypotheses, where they are used:

- IDs are fresh and not empty, those of listeners, pools and floating IPs are unambiguous, and a load balancer's
  record shows only floating IP IDs that were issued (`ValidCloud`; every pass begins in such a service and leaves
  one); outside the controllers no ID is used again for another object (`OutsideStep`). Spec and names stay fixed.
- Duplicates: nobody else adds objects under the same key (`OnlyControllers`); for the number of load
  balancers in terms of failed lookups alone, lists show every completed create (`AllListed`).
- Creation (`CreationEnds`): a subnet CIDR is given (`Creatable`); flavor and user-named network exist, and
  active networks have an OpenStack ID (`Offers`); as the first pass begins and after each change from outside,
  what is recorded exists or once existed (`Sound`; passes keep it); passes are fault-free, and between them the
  service undoes nothing (`Undisturbed`). Gaps in which nothing that is awaited happens are allowed, and counted
  (`Idle`): the bound says that Ready comes once the awaited events do.
- Quiescence (`NextPassWrites`, `StaysQuiet`): fault-free passes and no change from outside, nothing else.
- Deletion (`DeletionEnds`): fault-free passes, only the cluster's own load balancers and gateways use its
  network (`OnlyOurs`), and between passes nothing new gets in the way (`Fewer`). Gaps in which nothing that is on
  its way out arrives there are allowed, and counted (`Idle`).

Where the code and its comments differ, the code is followed: a load balancer that is pending an *update*
also counts as accepted for deletion (pkg/ovh/errors.go:59-67, against pkg/ovh/client.go:805-806); a
pool member counts as registered by address and port, not by the recorded ID
(internal/controller/ovhmachine_controller.go:671-687, against :643-646); the DHCP range is computed
from any text that ends in "/24" and has a dot before it, not only from network addresses
(internal/controller/ovhcluster_controller.go:657-696).

Tempting claims that are false of the code, and what is proved instead:

- A second pass after Ready need not be silent: it writes exactly when a recorded gateway is not
  exposed (`NextPassWrites`), which a Ready pass leaves exactly when that gateway was recorded, not exposed
  and gone from the service as the pass began (`ReadyLeavesLost`).
- The register listener and pool do not follow the load balancer: a pair that is at home stays so in a
  fault-free pass exactly when the recorded load balancer still exists (`RegisterPairHome`;
  `RegisterPairStale` is an input where it does not).
- Ready does not mean that the listeners and pools exist: a recorded ID is never looked up again, so a Ready pass
  leaves one on the load balancer exactly when none was recorded or the recorded one was there (`ReadyPorts`).
- Private networks are not found by name: a fault-free pass makes one exactly when none is recorded or named
  by the user (`NetworkPerPass`), so with lost patches their number has no bound (`NetworksDuplicated`).
- A floating IP that is not recorded is looked at in one deleting pass only (`OthersForgotten`).
- Health monitors are looked up by name in the whole region, so another cluster's monitor keeps a pool
  without one (contract of `EnsurePoolHealthMonitor`).
- Deleting a machine uses the recorded instance ID only, and leaves its member of the register pool
  (contract of `MachineScope.ReconcileDelete`).

## Model

| member | source | states |
|---|---|---|
| OvhClient.RetryWithBackoff | pkg/ovh/client.go:103-132 | Any sequence of attempts: one to six calls; every failure before the last call has status 429, 500, 502, 503 or 504, or no status and a text that names one of the four network failures; a failure with any other status ends the call at that attempt with that error; sleeps 2, 4, 8, ... between them, at most 62 s; the final error is the last one, wrapped exactly when six attempts ran out |
| OvhClient.BackoffTotal | pkg/ovh/client.go:33-37 | The sleeps after n failures sum to 2·2^n − 2, never more than 62 |
| OvhClient.Client.CreateLoadBalancer | pkg/ovh/client.go:610-643 | One find-or-create of the name whatever fails; a lookup is blind only if it failed, or if one of the name exists unlisted; sleeps at most 854 s; returns what the last lookup showed; a clean success at lookup n of the poll has slept n(n−1) s and none before it showed the name; a clean error comes after one lookup before the POST and ten after it, none showing the name, and exactly 110 s; if one is listed and nothing fails, makes no write |
| OvhClient.Client.PollForLoadBalancer | pkg/ovh/client.go:625-642 | Returns what the n-th lookup shows after n(n−1) s of pauses, none before it having shown the name; without a failed lookup it gives up only after ten lookups without a result and 2 + 4 + ... + 20 = 110 s; every lookup is journalled; only reads |
| OvhClient.Client.FindLoadBalancerByName | pkg/ovh/client.go:646-663 | The first listed load balancer of the name, or none; only reads |
| OvhClient.Client.ListLoadBalancersByPrefix | pkg/ovh/client.go:670-689 | Exactly the listed load balancers whose name starts with the prefix |
| OvhClient.Client.DeleteLoadBalancer | pkg/ovh/client.go:807-820 | The service's answer is journalled, and the call succeeds exactly if that was no error, status 404 (or no status and a text saying not found), or status 409 with PENDING_DELETE or PENDING_UPDATE in the text; marks nothing but the load balancer named |
| OvhClient.Client.DeletePrivateNetwork | pkg/ovh/client.go:524-537 | Names the ID in the history and journals the answer; succeeds exactly if that was no error or not found; a clean refusal means the network is still in use and changes nothing; a clean success means it is gone |
| OvhClient.Client.DeleteInstance | pkg/ovh/client.go:192-205 | Journals the answer and succeeds exactly if that was no error or not found; only that instance starts to terminate |
| OvhClient.Client.ExposeGateway | pkg/ovh/client.go:744-757 | Journals the answer and succeeds exactly if that was no error or a conflict; exposes only the gateway named; cleanly succeeds exactly if there is one of that ID, and has then marked it exposed |
| OvhClient.Client.CreateLoadBalancerFloatingIP | pkg/ovh/client.go:770-789 | Adds floating IPs attached to this load balancer and at most one gateway of the name; the ID returned names none of them |
| OvhClient.Client.FindInstanceByName | pkg/ovh/client.go:227-240 | The first instance of the name, or none |
| OvhClient.Client.FindListenerByName | pkg/ovh/client.go:842-859 | The first listener of the name on the load balancer, or none |
| OvhClient.Client.FindPoolByName | pkg/ovh/client.go:863-880 | The first pool of the name on the load balancer, or none |
| OvhClient.Client.GetFloatingIP | pkg/ovh/client.go:1184-1195 | Every read is journalled: it saw what the service shows under the ID, or the call failed; the error says not found exactly if the service's answer did; cleanly an error means the floating IP is gone |
| Errors.WrappingKeepsVerdicts | pkg/ovh/errors.go:28-96 | One more context around an error keeps every verdict that an API code gives, and never loses a verdict that its text gives |
| Errors.VerdictsByCode | pkg/ovh/errors.go:28-115 | In any chain of contexts an API error is not found exactly with status 404, a conflict with 409, forbidden with 403, unauthorized with 401, retryable with 429, 500, 502, 503 or 504, and already deleting with 409 and PENDING_DELETE or PENDING_UPDATE somewhere in the whole text |
| Errors.VerdictsByText | pkg/ovh/errors.go:28-115 | An error without a status is judged by its whole text, contexts included: not found by "404" or "not found", retryable by the four network failures, and none of the others |
| Errors.ContainsMeans | pkg/ovh/errors.go:45-67 | A text contains another exactly if that begins somewhere in it |
| CloudModel.FindOrCreateGrows | pkg/ovh/client.go:610-643 | A find-or-create grows a key to one, by one for a blind create, or up to six times that if an attempt was lost |
| CloudModel.GrowsByCompose | pkg/ovh/client.go:610-643 | Such growth adds up over any number of find-or-creates |
| CloudModel.RegionLookup | internal/controller/ovhcluster_controller.go:590-598 | A network's status in a region, and its ID there, are those of the first entry for the region, or empty without one |
| Names.NameIsLabel | util/util.go:68-79 | Every generated name is empty or a label: at most 63 characters, only letters, digits and hyphens, none of these at an end |
| Names.NameSpelled | util/util.go:68-79 | Character by character: the name spells a stretch of the joined parts (letters lower-cased, anything but letters, digits and hyphens a hyphen) outside which there are only hyphens; of a stretch longer than 63 the first 63, less the hyphens at their end |
| ClusterModel.PlainNames | internal/controller/ovhcluster_controller.go:546-546 | For a cluster name of at most 54 allowed characters the network is called "capi-<name>-net" and the load balancer "capi-<name>-lb" |
| Names.NameIdempotent | util/util.go:68-79 | Naming a generated name again changes nothing |
| Names.LabelIsItsName | util/util.go:68-79 | A label is its own name |
| Names.MachineNamesInjective | util/util.go:68-79 | In one cluster, machines with different labels get different instance names, as long as none is cut |
| Names.OrphanSweepReach | internal/controller/ovhcluster_controller.go:1247-1249 | The load balancer name of cluster c is a prefix of that of cluster d exactly when d = c or d starts with c and "-lb" |
| Names.ProviderIDRoundTrip | util/util.go:83-99 | Parsing a printed provider ID gives region and ID back exactly when the region is not empty and has no "/", and the ID is not empty |
| Names.ProviderIDReprint | util/util.go:88-99 | A text that parses is printed unchanged |
| DhcpRange.SubnetRange | internal/controller/ovhcluster_controller.go:660-696 | The two scans compute the specified pair of texts |
| DhcpRange.RangeInSubnet | internal/controller/ovhcluster_controller.go:657-660 | For every address block: with prefix length 24 the texts denote network + 2 and network + 254; with any other, both are empty |
| ClusterController.ClusterScope.EnsureNetwork | internal/controller/ovhcluster_controller.go:539-573 | Keeps a recorded network, takes the user's without a call, else appends one of the cluster's name under a new ID (without faults exactly one), records it as created here, and journals no other ID as created |
| ClusterController.ClusterScope.AwaitNetwork | internal/controller/ovhcluster_controller.go:575-610 | Network and subnet are forgotten exactly if the read was answered 404 or not found; any other answer keeps both; it waits or goes on by the network's status in the region; cleanly it fails exactly for a network that is gone |
| ClusterController.ClusterScope.EnsureSubnet | internal/controller/ovhcluster_controller.go:612-642 | Records the first subnet of the recorded network; if there is none and a CIDR is given, creates one on that network with its DHCP range and records it; without faults it succeeds and settles |
| ClusterController.ClusterScope.UseNetwork | internal/controller/ovhcluster_controller.go:575-642 | The two together: whatever fails, it goes on only with an active network and a settled subnet, waits only for one that is not active, and forgets only after a read answered not found; cleanly the network settles, is waited for with nothing changed, or is gone |
| ClusterController.ClusterScope.ReconcileNetwork | internal/controller/ovhcluster_controller.go:521-651 | Keeps ownership and bounds whatever fails, and counts only networks it made as created; adds one exactly when none is recorded or named; a recorded network is kept, or forgotten with its subnet only after a read of it answered not found, and a newly recorded subnet is the network's first or a new one on it; cleanly it settles, waits for activation, or loses a network that is gone; a settled network costs no write |
| ClusterController.ClusterScope.EnsureListener | internal/controller/ovhcluster_controller.go:1066-1087 | One find-or-create of the name on the load balancer; a recorded ID is kept without a call; a newly recorded one names a listener of that name on it, and a listener that is made is on the port |
| ClusterController.ClusterScope.EnsurePool | internal/controller/ovhcluster_controller.go:1089-1114 | The same for the pool; one that is made is on the listener given |
| ClusterController.ClusterScope.EnsurePoolHealthMonitor | internal/controller/ovhcluster_controller.go:1127-1155 | Creates a monitor for the pool exactly when the region shows none of its name; otherwise makes no write |
| ClusterController.ClusterScope.ReconcileLBPort | internal/controller/ovhcluster_controller.go:1057-1121 | Whatever fails, recorded IDs stay, and each newly recorded one names a listener or pool of its name on the load balancer; cleanly both are recorded and a monitor of the name exists; when that was so, no write |
| ClusterController.ClusterScope.EnsureGatewayExposed | internal/controller/ovhcluster_controller.go:1009-1049 | Writes, cleanly, exactly when a gateway is recorded or found and not marked; exposes that gateway only; a newly recorded one carries the cluster's name; the mark stays, a new one means that the service answered success or conflict to exposing that gateway, cleanly it is true of the service, and a gateway left without it is gone |
| ClusterController.ClusterScope.DiscoverFloatingIP | internal/controller/ovhcluster_controller.go:932-949 | Records the first floating IP attached to the load balancer, if the list can be read and shows one |
| ClusterController.ClusterScope.ReadRecordedFloatingIP | internal/controller/ovhcluster_controller.go:910-930 | Returns the recorded floating IP's address, or none yet; it is forgotten exactly if the read was answered not found; cleanly only if it is gone from the service |
| ClusterController.ClusterScope.TryRecordedFloatingIP | internal/controller/ovhcluster_controller.go:910-930 | The same after exposing the gateway, which costs a write exactly if a gateway is left to expose |
| ClusterController.ClusterScope.AllocateFloatingIP | internal/controller/ovhcluster_controller.go:955-1003 | Allocates after a list that showed none or could not be read, so the bound on floating IPs survives; records only an ID read from a record |
| ClusterController.ClusterScope.ReconcileFloatingIP | internal/controller/ovhcluster_controller.go:896-1004 | Returns only addresses shown by a record of the load balancer or its floating IP, records only IDs shown by one, and allocates blindly only after a failed list; cleanly it knows the address, or one that is attached or was in use lacks it, or the first one was just attached; a settled one costs at most the exposure; a gateway that is gone stays recorded and unexposed |
| ClusterController.ClusterScope.RecordedLB | internal/controller/ovhcluster_controller.go:702-734 | Adopts what the user named; a recorded load balancer, with the API listener and pool, is forgotten exactly if its read was answered not found; any other answer keeps all |
| ClusterController.ClusterScope.CreateLB | internal/controller/ovhcluster_controller.go:736-810 | New load balancers carry the cluster's name and sit on the recorded network's OpenStack network; cleanly the listed one is recorded, or one exists unlisted, or a prerequisite is missing; whatever fails, one is created only with flavor, subnet and network at hand, and waited for only if it is there |
| ClusterController.ClusterScope.EnsurePorts | internal/controller/ovhcluster_controller.go:829-845 | Both ports, 6443 and 9345: for each, recorded IDs stay and each newly recorded one names a listener or pool of its name on the load balancer; when all is settled, no write |
| ClusterController.ClusterScope.SetEndpoint | internal/controller/ovhcluster_controller.go:846-877 | A host that is set stays; a new one is the virtual IP or, with a floating network, an address its records show; cleanly the endpoint settles, or waits for the virtual IP or an address; a settled one costs at most the exposure |
| ClusterController.ClusterScope.HandleExistingLB | internal/controller/ovhcluster_controller.go:814-885 | Done only if the load balancer is active and all four IDs are recorded, each kept or found on it by name; a new host is its virtual IP or, with a floating network, an address its records show; cleanly it is done or waits for status, virtual IP or address |
| ClusterController.ClusterScope.ReconcileLoadBalancer | internal/controller/ovhcluster_controller.go:699-811 | The same for the recorded, adopted or created load balancer |
| ClusterController.ClusterScope.ReconcileSecurityGroups | internal/controller/ovhcluster_controller.go:383-445 | Whatever fails, a newly recorded group carries the cluster's name for it, and groups are created only for names that the cluster asks for and none carried; cleanly every group is recorded; when every group was, nothing changes |
| ClusterController.ClusterScope.EnsureSecurityGroup | internal/controller/ovhcluster_controller.go:402-441 | A recorded group costs no call; otherwise an existing or new one of the name is recorded, and no other record changes |
| ClusterController.ClusterScope.ReconcileDNS | internal/controller/ovhcluster_controller.go:449-494 | Cleanly the record exists once there is a host; a recorded one costs no call; whatever fails, a newly recorded number is that of the record just made |
| ClusterController.ClusterScope.ReconcileNormal | internal/controller/ovhcluster_controller.go:267-343 | Without the finalizer it sets that and makes no call. Otherwise one pass keeps every bound, name, home and ownership and never undoes host or readiness whatever fails; a listener, pool, subnet or gateway that it newly records is there in the service it leaves; duplicates grow only with failed calls, lost attempts or unlisted load balancers; network, subnet, load balancer, API pair and floating IP are forgotten only after a read of it was answered not found; it goes past the network only if that is active, creates a load balancer only with everything at hand, waits only for one that is there, and marks a gateway only after its exposure was accepted; a clean one makes the progress of its outcome; from a settled state a clean one is Ready and makes no write but an exposure |
| ClusterController.ClusterScope.CaptureFloatingIPs | internal/controller/ovhcluster_controller.go:1199-1217 | The recorded floating IP and all attached to the load balancer, each once; without the list, the recorded one |
| ClusterController.ClusterScope.CleanupFloatingIPs | internal/controller/ovhcluster_controller.go:1318-1346 | Every captured floating IP is read back once, and each read that did not fail saw what the service shows; waits exactly when some read shows one that is not both detached and down; only captured ones are detached |
| ClusterController.ClusterScope.CleanupSecurityGroups | internal/controller/ovhcluster_controller.go:1190-1197 | Deletes recorded groups only; each is forgotten exactly if the service's answer to its delete was success or not found |
| ClusterController.ClusterScope.DeleteRecordedLB | internal/controller/ovhcluster_controller.go:1219-1242 | Deletes the recorded pool, listener and load balancer and nothing else; fails exactly if the answer to the load balancer's delete was neither success, nor 404, nor a conflict over a pending change |
| ClusterController.ClusterScope.DeleteOrphans | internal/controller/ovhcluster_controller.go:1244-1260 | Cleanly every listed load balancer under the prefix is being deleted; none but those and the recorded one is |
| ClusterController.ClusterScope.DeleteClusterGateway | internal/controller/ovhcluster_controller.go:1266-1282 | Marks only a gateway of the cluster's name; cleanly the first such gateway is being deleted |
| ClusterController.ClusterScope.DeleteOwnNetwork | internal/controller/ovhcluster_controller.go:1284-1296 | Names a network in a delete call only if it is recorded and was created here; then succeeds exactly if the answer was success or not found |
| ClusterController.ClusterScope.ReconcileDelete | internal/controller/ovhcluster_controller.go:1160-1304 | With the keep annotation no call at all; otherwise the service's answers decide: the finalizer goes only after the recorded load balancer's delete was answered success, 404 or a conflict over a pending change, a journalled read of each captured floating IP that failed or truly showed it gone or detached and down, and a delete of an own network answered success or not found; a failed pass had the load balancer's delete refused, a waiting one saw a blocking floating IP or a refused network; DNS record and groups are forgotten exactly if their deletes were accepted; touches nothing beyond what is recorded, prefixed, attached or named for the cluster; a clean pass that waits says why |
| Convergence.PassLowers | internal/controller/ovhcluster_controller.go:267-343 | A clean pass that is not Ready lowers the rank, or leaves it and something of the service is awaited |
| Convergence.CreationEnds | internal/controller/ovhcluster_controller.go:267-343 | Over every run of fault-free passes between which the service undoes nothing and stays consistent, the passes that are not Ready are at most the rank, which is at most twelve, plus the gaps in which something was awaited and nothing of it happened |
| Convergence.NextPassWrites | internal/controller/ovhcluster_controller.go:267-343 | After a clean Ready pass a further clean one is Ready, and writes once if a recorded gateway is unexposed (it is then gone), else changes nothing |
| Convergence.ReadyLeavesLost | internal/controller/ovhcluster_controller.go:1009-1049 | A clean Ready pass leaves a gateway unexposed exactly when, as it began, that gateway was recorded, unexposed and gone from the service |
| Convergence.ReadyExposes | internal/controller/ovhcluster_controller.go:1009-1049 | After a clean Ready pass with a floating network, a newly marked gateway is exposed and is the recorded one or carries the cluster's name; without the mark there is none to expose, recorded or named |
| Convergence.StaysQuiet | internal/controller/ovhcluster_controller.go:267-343 | Any number of clean passes after a Ready one: no write, same status, same service |
| DeleteProgress.PassProgress | internal/controller/ovhcluster_controller.go:1160-1346 | A clean pass that keeps the finalizer lowers the measure of what is in the way, or leaves something on its way out |
| DeleteProgress.DeletionEnds | internal/controller/ovhcluster_controller.go:1160-1346 | Over every run of fault-free deleting passes between which nothing new gets in the way, even with lost patches, the passes that keep the finalizer are at most the measure (own load balancers, unlisted ones, gateways and awaited floating IPs) plus the gaps in which nothing of it arrived |
| DeleteProgress.DeletedReleases | internal/controller/ovhcluster_controller.go:1318-1346 | When the finalizer goes, each captured floating IP is gone or detached and down, unless its read in that pass failed; without faults each is |
| DeleteProgress.CleanlyDeleted | internal/controller/ovhcluster_controller.go:1262-1264 | When the finalizer goes after a clean pass, every captured floating IP still listed is detached and down |
| DeleteProgress.OthersForgotten | internal/controller/ovhcluster_controller.go:1206-1217 | After a clean deleting pass only the recorded floating IP is captured again |
| DeleteProgress.SweepReach | internal/controller/ovhcluster_controller.go:1244-1260 | A clean deletion of one cluster marks the listed load balancer of another exactly when the other's name starts with its own and "-lb" |
| Runs.DuplicatesBounded | internal/controller/ovhcluster_controller.go:1066-1114 | Between any two moments of any faulty run, for every name of load balancer, listener, pool or instance, every load balancer's floating IPs and every member address: the number grows to one, by one for each blind create, and up to six times that if an attempt was lost |
| Runs.BlindOnlyByFailure | pkg/ovh/client.go:610-617 | Over any run, blind creates of each kind are at most the failing attempts, if lists show every load balancer of the name as a pass begins |
| Runs.CountsBounded | internal/controller/ovhmachine_controller.go:292-342 | From nothing: at most 6·(1 + F), and 1 + F if no failed attempt took effect, where F counts failed lookups or lists of the kind in the run (none for listeners, pools and instances) and is at most the failing attempts |
| Runs.FaultFreeSingle | internal/controller/ovhmachine_controller.go:668-702 | A run without a failing attempt never makes a second object under any key: load balancer, floating IP, pool member or other |
| Runs.NetworksOwned | internal/controller/ovhcluster_controller.go:1284-1296 | In every run every network named in a delete call was made by an earlier pass: its ID was new to the service then, and named a network of the cluster's name after it; none is named if the user gave a network |
| Runs.NetworkForgottenIfGone | internal/controller/ovhcluster_controller.go:577-588 | Between any two moments of any run, whatever fails and whichever patches are lost: the recorded network or subnet changed only after a read of that network was answered 404 or not found |
| Runs.LbForgottenIfGone | internal/controller/ovhcluster_controller.go:713-734 | The same for the recorded load balancer and its API listener and pool |
| Runs.FipForgottenIfGone | internal/controller/ovhcluster_controller.go:915-930 | If no floating IP is recorded any more, in some pass since the read of the one recorded then was answered not found |
| Runs.MarkIsAnswered | internal/controller/ovhcluster_controller.go:1042-1046 | Over any run the exposed mark stays with its gateway, and one set on the way means that the service answered success or conflict to exposing that gateway |
| Runs.AlwaysAtHome | internal/controller/ovhcluster_controller.go:719-734 | In every run the ID recorded as API listener or pool never names one of another name or load balancer than the recorded one |
| Runs.RecordsWereFound | internal/controller/ovhcluster_controller.go:1057-1121 | In every run that starts with none recorded: the recorded API listener and pool were found, after some pass, under their names on the load balancer still recorded; the register pair on the one recorded then; the recorded subnet on the network still recorded |
| Runs.NeverUndone | internal/controller/ovhcluster_controller.go:317-342 | In every run the persisted host, Ready and Provisioned are never undone |
| Runs.NothingWithoutFinalizer | internal/controller/ovhcluster_controller.go:285-291 | In every run, up to the first deleting pass and while no finalizer is persisted: cluster passes changed neither service nor journal, and nothing was recorded |
| Runs.FipIDsAreRead | internal/controller/ovhcluster_controller.go:896-1004 | In every run the recorded floating IP ID is the user's or was shown, after some pass, by a record of the load balancer that pass recorded; never an allocation's placeholder |
| Runs.HostIsRead | internal/controller/ovhcluster_controller.go:846-877 | In every run with a floating network and no preset host: the host is empty or an address shown, after some pass, by a record of the load balancer or floating IP that pass recorded, and a ready cluster has one |
| Runs.RecordsAreOurs | internal/controller/ovhcluster_controller.go:789-808 | In every run the recorded load balancer is the user's or carried the cluster's name after some pass, and a recorded security group carried its name |
| Runs.OnlyOursDeleted | internal/controller/ovhcluster_controller.go:1219-1260 | In every run a deleting pass touches a load balancer only if the user named it, it carried the cluster's name after some pass, or one of its ID is listed under the cluster's prefix |
| Runs.ReadyIsSafe | internal/controller/ovhcluster_controller.go:829-876 | In every run a pass that ends Ready, whatever failed in it, leaves a network that is active in the region, if one is configured, and records an active load balancer, the one in use; its API and register IDs are those recorded before, or of a listener or pool found on it by name in that pass, and the API pair's never name one elsewhere; a host it set is an address its records show with a floating network, and the virtual IP without |
| Runs.ReadyWasFound | internal/controller/ovhcluster_controller.go:829-845 | In every run that starts with none recorded, all four IDs that a Ready pass records were found after some pass: the API pair on that load balancer, the register pair on one recorded then |
| Limits.RegisterPairHome | internal/controller/ovhcluster_controller.go:718-734 | A recorded register pair survives any pass; one at home is at home after a clean pass over a settled network exactly when the recorded load balancer exists as it begins |
| Limits.RegisterPairStale | internal/controller/ovhcluster_controller.go:725-727 | An input where it is not: network and subnet settled, another load balancer of the cluster's name listed; a clean pass records that one and keeps the register pair of the one that is gone |
| Limits.ReadyPorts | internal/controller/ovhcluster_controller.go:1066-1114 | A Ready pass, whatever failed, leaves a listener under the recorded ID on the load balancer exactly when none was recorded or the recorded one was there as it began; and so with each pool, API and register |
| Limits.ReadyPortNumbers | internal/controller/ovhcluster_controller.go:1066-1087 | With none recorded before, the listener that a Ready pass records was there before, or is on 6443 (api-server) or 9345 (rke2-register): an adopted one's port is not looked at |
| Limits.NetworkPerPass | internal/controller/ovhcluster_controller.go:539-573 | A clean pass past the finalizer leaves the networks alone exactly when the cluster has no network configuration, a recorded or a user-named network; else it adds exactly one of the name |
| Limits.NetworksDuplicated | internal/controller/ovhcluster_controller.go:549-565 | While the patch that records it is lost, every clean pass adds another network of the same name |
| MachineController.MachineScope.EnsureMember | internal/controller/ovhmachine_controller.go:671-702 | One find-or-create of a member at the address and port, blind only after a failed list; if the list can be read and shows one, nothing is added; the ID returned is of such a member |
| MachineController.MachineScope.EnsureLBPoolMember | internal/controller/ovhmachine_controller.go:647-712 | Workers add none; new members sit at the first private IPv4 address behind 6443 or 9345; recorded IDs are of such members or unchanged; cleanly both are registered |
| MachineController.MachineScope.EnsureRKE2RegisterPoolMember | internal/controller/ovhmachine_controller.go:718-764 | The register pool is the one of that name on the cluster's load balancer; cleanly, if it exists, the address is registered behind 9345 |
| MachineController.MachineScope.CollectAddresses | internal/controller/ovhmachine_controller.go:369-388 | In order, of each entry of version 4 its address: external exactly for kind "public", internal for any other kind; nothing else |
| MachineModel.AddressesAreIPv4 | internal/controller/ovhmachine_controller.go:370-386 | An external address is recorded exactly if an entry has version 4, kind "public" and that address; an internal one exactly if an entry has version 4, another kind and that address; as many as there are entries of version 4 |
| MachineModel.AddressesInOrder | internal/controller/ovhmachine_controller.go:370-386 | They come in the order of the entries |
| MachineModel.PrivateIPIsFirst | internal/controller/ovhmachine_controller.go:655-669 | The address registered is that of an entry of version 4 and kind "private" before which there is none such |
| MachineController.MachineScope.LookUpInstance | internal/controller/ovhmachine_controller.go:292-333 | Cleanly: the recorded instance if it exists, else the one the user named, else the first of the name, and an error exactly if the one the user named is gone; Whatever fails, a recorded ID is forgotten exactly if its read was answered not found, only one of the three is returned (the named one only if the user named none), and none only if no instance carries the name and the user named none |
| MachineController.MachineScope.HandleExistingInstance | internal/controller/ovhmachine_controller.go:346-477 | An active instance gives Ready, addresses and provider ID; any other state takes Ready back and makes no call |
| MachineController.MachineScope.CreateMissingInstance | internal/controller/ovhmachine_controller.go:480-585 | Only instances of the machine's name are added and the bound survives; success records the new ID; Ready stays as it was |
| MachineController.MachineScope.ReconcileNormal | internal/controller/ovhmachine_controller.go:232-343 | The whole status and service after each outcome, each under the guards that lead to it; a paused or new object loses Ready and Provisioned without a call; a clean pass uses the recorded instance if it exists, else the user's, else the named; a Ready pass records external addresses exactly of the version 4 entries of kind "public", internal ones of the others of version 4, and new members sit at the first one of kind "private"; a recorded instance is given up only after its read was answered not found; bounds on instances and members survive whatever fails |
| MachineController.MachineScope.RemoveLBPoolMember | internal/controller/ovhmachine_controller.go:767-787 | Removes at most the recorded member of the API pool, and forgets it exactly if the answer was success or not found |
| MachineController.MachineScope.DeleteVolumes | internal/controller/ovhmachine_controller.go:816-831 | Every recorded volume is asked to be deleted and, if an instance is recorded, to be detached from it, whatever is answered |
| MachineController.MachineScope.ReconcileDelete | internal/controller/ovhmachine_controller.go:790-857 | With the keep annotation no call; without a recorded instance none is deleted; otherwise the answers decide: it fails exactly if the instance's delete was answered neither success nor not found, else it waits exactly if the read after it shows another state than DELETED, and removes the finalizer else; the recorded volumes were asked to go; other members and instances stay |
| MachineModel.ReadyProviderID | internal/controller/ovhmachine_controller.go:390-397 | After a Ready pass the provider ID is "ovhcloud://", region, "/" and instance; it parses to these exactly when the region is not empty and has no "/", and the ID is not empty |
| Conversion.OldCluster.ConvertTo | api/v1alpha1/conversion.go:32-97 | Succeeds exactly when every protocol is TCP, UDP or SCTP; then the object is the specified one; else it names the first offending listener and leaves network and status |
| Conversion.OldCluster.ConvertFrom | api/v1alpha1/conversion.go:100-160 | The object is the specified one |
| Conversion.UpDown | api/v1alpha1/conversion.go:32-160 | Up and down restores every field but the two failure fields |
| Conversion.DownUpDown | api/v1alpha1/conversion.go:32-177 | Down, up and down equals down; up is possible exactly when the v1alpha2 protocols are supported |
| Conversion.UpKeeps | api/v1alpha1/conversion.go:32-97 | Every field that only v1alpha2 has stays as it was in the destination, and so do listeners and network if the source has none |
| Conversion.UpOntoDown | api/v1alpha1/conversion.go:32-160 | Up onto an object and down again gives back the source exactly if that object's listeners or network did not take the place of none |
| Conversion.DownUpOnto | api/v1alpha1/conversion.go:32-160 | An object that went down and comes up onto itself is unchanged |
| Conversion.OldMachine.ConvertTo | api/v1alpha1/conversion.go:218-288 | The object is the specified one |
| Conversion.OldMachine.ConvertFrom | api/v1alpha1/conversion.go:232-299 | The object is the specified one |
| Conversion.MachineUpDown | api/v1alpha1/conversion.go:218-299 | Up and down restores every field but the two failure fields |
| Conversion.MachineDownUpDown | api/v1alpha1/conversion.go:290-299 | Down, up and down equals down; a Provisioned that was nil comes back as false, any other unchanged |
| Conversion.MachineUpKeeps | api/v1alpha1/conversion.go:218-288 | Fields that only v1alpha2 has stay, and so do the volumes if the source has none; down again gives back the source exactly if the destination's volumes did not take the place of none |
| Conversion.MachineDownUpOnto | api/v1alpha1/conversion.go:218-299 | Down and up onto itself changes nothing but a Provisioned that was nil, which becomes false |

## Left out

- HTTP signing, URLs, JSON and the go-ovh SDK: each API call is a transition of the service with an outcome.
- controller-runtime, watches, owner references, leader election and the secret with credentials: a pass runs, and its status patch is persisted or lost.
- Metrics, logging and wall-clock time: only the seconds slept are counted.
- Failure domains, and all status conditions but the one that marks a network as created by the controller: they decide nothing here.
- The endpoint's port (always 6443), VLAN, DHCP and gateway options, health monitor timings and pool algorithm: constants passed through.
- Error texts: contexts that wrap an error are empty in the controllers, so an error without an API code is judged by its own text only; network texts are taken not to contain "404" or "not found".
- Image, flavor, SSH key and bootstrap data lookups of a machine: calls that may fail, without their matching rules; the load balancer flavor is matched exactly, not regardless of case.
- The workload cluster's node initialisation, etcd and kubeconfig handling: remote execution that changes neither status nor service.
- Webhooks, deepcopy code, templates, list conversions and the type checks of the conversion wrappers: flat checks and structural copies; nil and empty lists are one value.
- Names.NameIsLabel: letters are Unicode characters; texts that are not valid UTF-8 are not modelled.
- ClusterController.ClusterScope.ReconcileSecurityGroups: rules are one unobserved call per new group, because they are best effort and decide nothing.
- ClusterController.ClusterScope.ReconcileDNS: the record's content is not modelled, only that it exists.
- Runs.DuplicatesBounded: floating IPs are counted while attached, so one that is detached from outside no longer counts.
- Convergence.CreationEnds: status patches are persisted, because a patch that is always lost never lets creation end.
- Runs.NetworksOwned: a network whose create call was lost is not recorded, so it is never deleted.
- The race in which a new pool refuses changes for a moment: a monitor's failure is a warning in any case.
- Concurrent passes of one controller over one object: passes of an object run one at a time, interleaved with those of other objects.
