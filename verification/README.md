# deepOrc control plane: a Dafny model

deepOrc provisions VPN gateways as VMs on workers. This project models the parts of it whose
correctness depends on more than one function, and proves what they keep.

- **Gateway and job lifecycle** (`Lifecycle*.dfy`, `ControlPlane.dfy`). Two tables, two
  in-memory `_active` sets and the daemon threads are one state machine: one step per database
  commit, lock section, sweep iteration or crash. `ControlPlane.Orchestrator` is the imperative
  form: its methods change rows, sets and threads in place. A method that commits or takes a lock
  is proved to take an enabled step of the state machine and to keep its invariants (`Steps`).
- **Policy routing on a gateway** (`Kernel.dfy`, `Routing*.dfy`). A kernel with ordered rules and
  longest-prefix match (section 5.2.4.3 of RFC 1812); the `apply` and `stop` scripts as functions
  on it; the loops of `ip` commands as a class proved against those functions; and theorems about
  where packets leave.
- **Exit-host scripts** (`ExitHost*.dfy`). The generators compile gateway rows to commands. An
  interpreter over links, routes, rules, firewall lists and files gives the commands a meaning,
  and the theorems are about the effect of whole scripts.
- **Allocation** (`FirstFit.dfy`, `Allocation*.dfy`, `LanAdmission.dfy`). VM addresses, UDP ports,
  backhaul peer addresses and LAN addresses, over every run of creates, failures and deletes.
- **Egress refresh policy** (`Egress.dfy`), over every run of metric polls.
- **Shell quoting, sequential names, enrolment** (`ShellQuote.dfy`, `Naming*.dfy`,
  `Enrollment*.dfy`).

## What the model showed

- A gateway whose thread has committed ERROR and not yet closed its job is stranded by the retry
  button: the row ends PENDING with a COMPLETED job, which no sweep picks up
  (`LifecycleRecovery.StrandingRun`). `RetryStrandsExactlyOnError` gives the exact condition, and
  `NoStrandedGateway` holds for every run that avoids it; pressing retry only while the gateway is
  not in `_active` is more than enough.
- DELETING can be overwritten by a provisioning thread exactly when one has passed its gate
  (`LifecycleDeletion.OverwritableExactlyWhenNotQuiet`).
- DELETING implies a live delete job, in every state of a run, if and only if no provisioning
  thread closes the latest delete job of a DELETING gateway
  (`LifecycleDeleteJob.DeletingHasLiveJobExactly`). Threads come to hold delete jobs only because
  `get_pending_for_gateway` has no filter on the job type (`DeleteJobComesFromThePick`), and it
  does happen (`DeletingWithDeadJob`). With a query that hands out create jobs it never does
  (`CreatePicksKeepDeletionsLive`).
- The handler that swallows a ValueError leaks a VM address exactly when an address was free and
  no port was, and the leak is permanent (`AllocationTheorems.SwallowedLeaksExactly`,
  `LeakIsForever`).
- The 300-second limit on lookups does not bind while no address was ever recorded
  (`Egress.UnrecordedLooksUpExactly`).
- A token that a refresh replaced can still make a worker, exactly when a completion was already
  past its checks (`EnrollmentTheorems.DeadTokenStillMakesExactly`, `RefreshedTokenMakesWorker`).
- A start address that ends in .0 gives a gateway slot 0, and the teardown script of its group then
  flushes every route of the exit host (`LanAdmission.SlotZeroExactly`,
  `ExitHostTeardown.SlotZeroFlushesAll`).
- In the exit-host scripts `set -e` has no effect inside the per-gateway blocks, because each is
  the left side of `||`; a failing command is skipped and the block goes on. Two gateways whose
  ids agree modulo 253 have the same WireGuard subnet, and then the second tunnel of the two does
  not come up. The theorems cover that case.

## Model

| member | source | states |
|---|---|---|
| LifecycleSafety.MutualExclusion | orchestrator/workers/provisioning.py:167-188 | over every interleaving, at most one live thread of each kind per gateway, and each `_active` set is exactly the gateways that have one |
| LifecycleSafety.StepKeepsProvPool | orchestrator/workers/provisioning.py:167-188 | every step keeps the correspondence between the provisioning set and its threads |
| LifecycleSafety.StepKeepsDelPool | orchestrator/workers/deletion.py:130-151 | the same for deletions |
| LifecycleNoStranding.NoStrandedGateway | orchestrator/workers/provisioning.py:63-91 | over every interleaving with retries as allowed, every gateway has exactly one create job, and PENDING or PROVISIONING implies that job is PENDING or RUNNING |
| LifecycleNoStranding.StepKeepsInv | orchestrator/workers/provisioning.py:106-188 | the inductive invariant between gateway status, job status and thread phase is kept by every step |
| LifecycleNoStranding.PrepareEffect | orchestrator/services/gateway_service.py:453-469 | preparing resets the one create job to PENDING, adds none, and moves only ERROR to PENDING |
| LifecycleRecovery.SweepStartsExactly | orchestrator/workers/provisioning.py:200-235 | one sweep iteration spawns a thread on a PENDING job of the gateway if it needs provisioning and its create job is PENDING or RUNNING, and otherwise does nothing |
| LifecycleRecovery.WaitingIsPickedUp | orchestrator/workers/provisioning.py:200-235 | a waiting gateway with no thread is started by the next sweep |
| LifecycleRecovery.StrandedIsIgnored | orchestrator/workers/provisioning.py:215-230 | a stranded gateway is left alone by every sweep |
| LifecycleRecovery.RetryStrandsExactlyOnError | orchestrator/web/routes.py:130-152 | pressing retry between the outcome commit and the job's close strands the gateway if and only if the outcome is ERROR |
| LifecycleRecovery.StrandingRun | orchestrator/services/gateway_service.py:395-397 | a concrete run from an empty system that strands a gateway |
| LifecycleDeletion.DeletingLeftOnlyByDeletion | orchestrator/workers/deletion.py:41-66 | in every run where no provisioning thread of the gateway has passed its gate, the first step out of DELETING is the deletion removing the row or recording its failure |
| LifecycleDeletion.OverwritableExactlyWhenNotQuiet | orchestrator/workers/provisioning.py:118-124 | provisioning threads can take a gateway out of DELETING exactly when one of them has passed its gate |
| LifecycleDeletion.ReadyOverwritesDeleting | orchestrator/services/gateway_service.py:413-414 | a thread past the launch turns DELETING into READY |
| LifecycleDeleteJob.DeletingHasLiveJobExactly | orchestrator/services/gateway_service.py:471-492 | over every run, DELETING implies in each state that the latest delete job is PENDING or RUNNING if and only if no provisioning thread marks the latest delete job of a DELETING gateway COMPLETED |
| LifecycleDeleteJob.StepKeepsDelInv | orchestrator/workers/deletion.py:41-111 | every other step keeps it, with any retries, crashes and picks |
| LifecycleDeleteJob.DeleteJobComesFromThePick | orchestrator/repositories/job_repo.py:45-51 | a provisioning thread comes to hold a delete job only through the query that does not filter on the type |
| LifecycleDeleteJob.CreatePicksKeepDeletionsLive | orchestrator/repositories/job_repo.py:45-51 | over every run, from an empty system or any state in which no provisioning thread holds a delete job: if the unfiltered query is answered with create jobs, DELETING implies a live delete job all along |
| LifecycleDeleteJob.RepeatedRequestReturnsSameJob | orchestrator/services/gateway_service.py:476-481 | a repeated delete request changes no row and returns the job under way |
| LifecycleDeleteJob.DeletionIsRestarted | orchestrator/workers/deletion.py:163-203 | in any state, a sweep starts one thread for a DELETING gateway that has none and whose latest delete job is PENDING, or RUNNING for more than ten minutes; the job is PENDING afterwards and no other thread changes |
| LifecycleDeleteJob.CrashedDeletionIsRestarted | orchestrator/workers/deletion.py:32-38 | a crash at any point of a deletion leads to that state within ten minutes, so the sweep then restarts it |
| LifecycleDeleteJob.DeletingWithDeadJob | orchestrator/repositories/job_repo.py:45-51 | the exception does happen: a run from an empty system that ends DELETING with a COMPLETED delete job |
| LifecycleOutcomes.BeginOutcome | orchestrator/workers/provisioning.py:73-75 | the RUNNING commit: that job is RUNNING, renewed now, and no other row changes |
| LifecycleOutcomes.LaunchOutcome | orchestrator/services/gateway_service.py:351-353 | the PROVISIONING commit: that gateway is PROVISIONING, the job keeps its status, and no other row changes |
| LifecycleOutcomes.SettleOutcome | orchestrator/services/gateway_service.py:395-414 | the outcome commit: READY when all checks passed, ERROR otherwise, and no other row changes |
| LifecycleOutcomes.CloseOutcome | orchestrator/workers/provisioning.py:79-81 | the COMPLETED commit: that job is COMPLETED, and no gateway and no other job changes |
| LifecycleOutcomes.FailureOutcome | orchestrator/workers/provisioning.py:83-91 | a failure at any point of the work leaves the gateway ERROR, the job FAILED, the thread finished, and every other row as it was |
| LifecycleOutcomes.RowsGoneOutcome | orchestrator/workers/provisioning.py:68-71 | with gateway or job gone, a commit changes no row and the thread is finished |
| LifecycleOutcomes.HeartbeatOutcome | orchestrator/services/gateway_service.py:311-317 | a heartbeat renews the job's time and nothing else |
| LifecycleOutcomes.EndOutcome | orchestrator/workers/provisioning.py:167-172 | the end of a thread removes it and its active id, and nothing else |
| LifecycleOutcomes.RestartOutcome | orchestrator/workers/provisioning.py:153-164 | a thread that meets a locked database starts over with the job it was given |
| LifecycleOutcomes.PrepareOutcome | orchestrator/services/gateway_service.py:453-469 | in any state, preparing turns ERROR, and PROVISIONING with a FAILED job, into PENDING, and leaves the latest create job PENDING or adds one |
| LifecycleOutcomes.GateAdmits | orchestrator/workers/provisioning.py:114-147 | a spawned thread with a PENDING job of a gateway that needs provisioning is admitted on that job |
| LifecycleOutcomes.GateRefuses | orchestrator/workers/provisioning.py:114-140 | one whose gateway is READY, DELETING or gone, or whose job is neither PENDING nor stale nor gone, does nothing |
| LifecycleOutcomes.GatePreparesAgain | orchestrator/workers/provisioning.py:126-132 | one whose job is gone or stale prepares again and is admitted on the PENDING job handed out |
| LifecycleOutcomes.CreateOutcome | orchestrator/services/gateway_service.py:114-141 | a create adds one PENDING gateway and one PENDING create job, and changes no other row |
| LifecycleOutcomes.RetryStarts | orchestrator/web/routes.py:137-152 | the retry button starts a gateway that waits or failed: there is a thread on a PENDING job, and on the latest create job if that was PENDING without an error |
| LifecycleOutcomes.RetryRefuses | orchestrator/web/routes.py:137-152 | it does nothing to a READY or DELETING gateway, or one without error whose job is COMPLETED |
| LifecycleOutcomes.RequestOutcome | orchestrator/services/gateway_service.py:471-492 | a delete request leaves the gateway DELETING and adds a PENDING job exactly when no latest delete job still serves |
| LifecycleOutcomes.DeletionGateAdmits | orchestrator/workers/deletion.py:94-102 | a deletion thread with a PENDING or RUNNING job of a DELETING gateway is admitted, and a stale job becomes PENDING |
| LifecycleOutcomes.DeletionGateRefuses | orchestrator/workers/deletion.py:78-109 | any other is finished, and only a job whose gateway is gone changes, to COMPLETED |
| LifecycleOutcomes.DeletionBeginOutcome | orchestrator/workers/deletion.py:41-48 | the deletion's RUNNING commit: that job is RUNNING and no other row changes |
| LifecycleOutcomes.DeletionRemoves | orchestrator/services/gateway_service.py:494-542 | executing a deletion removes the gateway and every job of it, whatever its status, and no other row |
| LifecycleOutcomes.DeletionFailureOutcome | orchestrator/workers/deletion.py:53-66 | a failed deletion leaves the gateway ERROR, the job FAILED, and every other row as it was |
| LifecycleOutcomes.DeletionEndOutcome | orchestrator/workers/deletion.py:130-135 | the end of a deletion thread removes it and its active id, and nothing else |
| LifecycleOutcomes.DeletionSweepOutcome | orchestrator/workers/deletion.py:163-203 | the deletion sweep adds a job where there is none and starts on it, and leaves alone what is active, not DELETING, dead or freshly RUNNING |
| LifecycleOutcomes.DeletionCanComplete | orchestrator/workers/deletion.py:163-203 | from any state with the deletion invariant, eleven minutes, a sweep, the gate, the begin and the execution are an enabled run that ends with a DELETING gateway and all its jobs gone |
| LifecycleOutcomes.ProvisioningCanComplete | orchestrator/workers/provisioning.py:106-148 | a thread spawned on the PENDING job of a gateway that needs provisioning has an enabled run that ends with READY, COMPLETED, and no thread |
| ControlPlane.Orchestrator.GetLatestJob | orchestrator/repositories/job_repo.py:53-65 | the job of that kind with the greatest id, if there is one |
| ControlPlane.Orchestrator.GetPendingForGateway | orchestrator/repositories/job_repo.py:45-51 | some PENDING job of the gateway, of either kind, and nothing only when there is none |
| ControlPlane.Orchestrator.ResetFailedJob | orchestrator/repositories/job_repo.py:67-76 | the latest create job is PENDING afterwards, whatever it was |
| ControlPlane.Orchestrator.PrepareProvisioning | orchestrator/services/gateway_service.py:453-469 | the rows become those of the state machine's preparation |
| ControlPlane.Orchestrator.CreateGatewayRow | orchestrator/services/gateway_service.py:114-141 | takes the enabled create step, a PENDING gateway with one PENDING create job, and keeps the invariants of all runs |
| ControlPlane.Orchestrator.RequestDeleteGateway | orchestrator/services/gateway_service.py:471-492 | takes the enabled delete-request step, keeps the invariants, and returns the job that step names; an unknown gateway is an error that changes nothing |
| ControlPlane.Orchestrator.StartProvisioning | orchestrator/workers/provisioning.py:175-188 | adds one thread and one active id, or nothing if the gateway is active; with a create job it is the enabled start step and keeps the invariants |
| ControlPlane.Orchestrator.ResumeOne | orchestrator/workers/provisioning.py:208-229 | takes the enabled sweep step for one gateway and keeps the invariants |
| ControlPlane.Orchestrator.ResumeIncompleteProvisioning | orchestrator/workers/provisioning.py:200-235 | in any state, one sweep starts exactly the inactive gateways needing provisioning whose create job is PENDING, RUNNING or missing, one thread each, returns their number, leaves the rows of the others alone and keeps the invariant |
| ControlPlane.RestartableIsResumable | orchestrator/workers/provisioning.py:208-229 | under the invariant the missing-job case does not arise |
| ControlPlane.Orchestrator.MaybeEnqueueProvisioning | orchestrator/web/routes.py:130-152 | takes the enabled retry step, and keeps the invariants when the retry is allowed |
| ControlPlane.Orchestrator.RunGate | orchestrator/workers/provisioning.py:106-148 | takes the gate step of a spawned provisioning thread and keeps the invariants |
| ControlPlane.Orchestrator.BeginJob | orchestrator/workers/provisioning.py:63-75 | in an admitted thread, takes the RUNNING commit and keeps the invariants |
| ControlPlane.Orchestrator.LaunchVm | orchestrator/services/gateway_service.py:351-353 | after the RUNNING commit, takes the PROVISIONING commit and keeps the invariants |
| ControlPlane.Orchestrator.SettleGateway | orchestrator/services/gateway_service.py:395-414 | after the launch, takes the READY or ERROR commit and keeps the invariants |
| ControlPlane.Orchestrator.CloseJob | orchestrator/workers/provisioning.py:79-81 | after the outcome, takes the COMPLETED commit, and keeps the invariants unless it closes the deletion of a DELETING gateway |
| ControlPlane.Orchestrator.HandleFailure | orchestrator/workers/provisioning.py:83-91 | at any point between the RUNNING and the COMPLETED commit, takes the ERROR and FAILED commit of the exception handler and keeps the invariants |
| ControlPlane.Orchestrator.EndProvisioningThread | orchestrator/workers/provisioning.py:167-172 | in a finished thread, takes the discard step and keeps the invariants |
| ControlPlane.Orchestrator.StartDeletion | orchestrator/workers/deletion.py:138-151 | adds one deletion thread, or nothing if the gateway is active; with a delete job it is the enabled start step and keeps the invariants |
| ControlPlane.Orchestrator.ResumeDeletion | orchestrator/workers/deletion.py:163-203 | takes the enabled deletion-sweep step for one gateway and keeps the invariants |
| ControlPlane.Orchestrator.RunDeletionGate | orchestrator/workers/deletion.py:69-111 | takes the gate step of a spawned deletion thread and keeps the invariants |
| ControlPlane.Orchestrator.BeginDeletion | orchestrator/workers/deletion.py:41-48 | in an admitted deletion thread, takes the RUNNING commit and keeps the invariants |
| ControlPlane.Orchestrator.ExecuteDeleteGateway | orchestrator/services/gateway_service.py:494-542 | in a begun deletion thread, takes the step that removes the row with all jobs of the gateway, and keeps the invariants |
| ControlPlane.Orchestrator.HandleDeletionFailure | orchestrator/workers/deletion.py:53-66 | in a begun deletion thread, takes the FAILED and ERROR commit and keeps the invariants |
| ControlPlane.Orchestrator.EndDeletionThread | orchestrator/workers/deletion.py:130-135 | in a finished deletion thread, takes the discard step and keeps the invariants |
| ControlPlane.Orchestrator.Heartbeat | orchestrator/services/gateway_service.py:311-317 | at any point of a job's work, takes the step that only renews the job's time, and keeps the invariants |
| ControlPlane.EnabledSteps | orchestrator/workers/provisioning.py:63-188 | every enabled step keeps the thread pools, the stranding invariant and the deletion invariant, each under its stated exception |
| Kernel.LpmLongest | orchestrator/cloudinit/templates/_fragments/deeporc-routing.sh:157-180 | the lookup finds the route of the longest matching prefix, and one exactly when some prefix matches (section 5.2.4.3 of RFC 1812) |
| Kernel.LookupDev | orchestrator/cloudinit/templates/_fragments/deeporc-routing.sh:192-204 | the device of the first deciding rule in preference order |
| Kernel.ScrubKeeps | orchestrator/cloudinit/templates/_fragments/deeporc-routing.sh:70-73 | scrubbing removes exactly the rules that fit and keeps the order of the rest |
| RoutingScript.GatewayHost.ScrubRules | orchestrator/cloudinit/templates/_fragments/deeporc-routing.sh:70-73 | the delete loop ends and leaves no fitting rule, others in order |
| RoutingScript.GatewayHost.CleanupStale | orchestrator/cloudinit/templates/_fragments/deeporc-routing.sh:100-110 | the loops compute the cleanup function |
| RoutingScript.GatewayHost.ApplyHostLink | orchestrator/cloudinit/templates/_fragments/deeporc-routing.sh:151-155 | eth0's address and connected route are there afterwards, added at most once |
| RoutingScript.GatewayHost.ApplyWanTable | orchestrator/cloudinit/templates/_fragments/deeporc-routing.sh:157-180 | computes the wan table, or stops where `set -e` does |
| RoutingScript.GatewayHost.StripWgPollution | orchestrator/cloudinit/templates/_fragments/deeporc-routing.sh:116-124 | deletes exactly main's routes through wg0 other than the default and the subnet |
| RoutingScript.GatewayHost.ApplyMainTable | orchestrator/cloudinit/templates/_fragments/deeporc-routing.sh:182-190 | computes the main table, or nothing without wg0 |
| RoutingScript.GatewayHost.ApplyPolicyRules | orchestrator/cloudinit/templates/_fragments/deeporc-routing.sh:192-204 | each rule scrubbed and added in turn gives the policy list |
| RoutingScript.GatewayHost.ApplyAll | orchestrator/cloudinit/templates/_fragments/deeporc-routing.sh:265-279 | the whole script computes `Apply`, to its end or to where it stops |
| RoutingScript.GatewayHost.StopRules | orchestrator/cloudinit/templates/_fragments/deeporc-routing.sh:281-287 | computes `Stop` |
| RoutingTheorems.ApplyTwiceIsOnce | orchestrator/cloudinit/templates/_fragments/deeporc-routing.sh:265-279 | a second `apply` changes nothing and ends as the first did, also when it is stopped half-way |
| RoutingTheorems.GatewayIsRemembered | orchestrator/cloudinit/templates/_fragments/deeporc-routing.sh:47-61 | after one `apply` that found a gateway, every later one finds the same and runs to its end, however tunnels and addresses came and went |
| RoutingTheorems.DefaultIsReplaced | orchestrator/cloudinit/templates/_fragments/deeporc-routing.sh:182-187 | although the first one replaced the default route it was read from |
| RoutingOutcomes.GatewayFound | orchestrator/cloudinit/templates/_fragments/deeporc-routing.sh:47-61 | where the gateway is read from, in order, and that an eth0 default without a next hop stops the script |
| RoutingOutcomes.RulesAfterApply | orchestrator/cloudinit/templates/_fragments/deeporc-routing.sh:192-204 | the rules after `apply` are the eight of the script and those from before that are neither left over nor at its preferences |
| RoutingOutcomes.WanAfterApply | orchestrator/cloudinit/templates/_fragments/deeporc-routing.sh:157-180 | the wan table after `apply`, destination by destination |
| RoutingOutcomes.MainAfterApply | orchestrator/cloudinit/templates/_fragments/deeporc-routing.sh:182-190 | the main table after `apply`, destination by destination |
| RoutingOutcomes.OthersAfterApply | orchestrator/cloudinit/templates/_fragments/deeporc-routing.sh:100-110 | table 200 is empty and no other table changes |
| RoutingOutcomes.StopLeaves | orchestrator/cloudinit/templates/_fragments/deeporc-routing.sh:281-287 | `stop` removes exactly the leftovers and the rules at the script's preferences, and no table but 200 changes |
| RoutingPackets.ExitTrafficLeavesOnTunnel | orchestrator/cloudinit/templates/_fragments/deeporc-routing.sh:182-204 | forwarded exit traffic leaves on wg0 if and only if main has no more specific route through something else |
| RoutingPackets.OwnTrafficAvoidsTunnel | orchestrator/cloudinit/templates/_fragments/deeporc-routing.sh:157-204 | packets the gateway sends from its VM or tailscale address leave on eth0, so WireGuard never loops into wg0 |
| RoutingPackets.TailnetLeavesOnTailscale | orchestrator/cloudinit/templates/_fragments/deeporc-routing.sh:157-204 | a packet to the tailnet leaves on tailscale0 whichever rule it meets first |
| RoutingPackets.RunKeepsWanOwn | orchestrator/cloudinit/templates/_fragments/deeporc-routing.sh:157-180 | over every run the wan table holds only eth0 and tailnet routes |
| RoutingPackets.StopTakesBackApply | orchestrator/cloudinit/templates/_fragments/deeporc-routing.sh:281-287 | `stop` after `apply` leaves the rules that `stop` alone would have left |
| RoutingPackets.StopRestores | orchestrator/cloudinit/templates/_fragments/deeporc-routing.sh:281-287 | on a host without the script's rules it restores the list exactly |
| ExitHost.RenderSetup | orchestrator/host_setup/script.py:98-146 | the loop over rows emits the compiled program, skipping rows without LAN address or slot |
| ExitHost.RenderTeardown | orchestrator/host_setup/script.py:162-181 | the same for the teardown, skipping rows without slot |
| ExitHostRows.TunnelCommandsExactly | orchestrator/host_setup/script.py:122-136 | the commands for a row write its configuration, bring up its tunnel and add the rule at 32500+slot if and only if it is READY and its configuration has the three markers |
| ExitHostRows.ContainsExactly | orchestrator/host_setup/script.py:38-41 | a marker is found exactly when it stands somewhere in the text |
| ExitHostRows.NothingToDo | orchestrator/host_setup/script.py:98-101 | a row without LAN address or slot emits nothing, and a missing parent interface stops the script before its first row |
| ExitHostRows.SetupGivesLan | orchestrator/host_setup/script.py:109-121 | after setup, for slots from 1 to 252, every row's macvlan, its own table with default and LAN route and nothing else, and its source rule are there |
| ExitHostRows.SetupGivesTunnelExactly | orchestrator/host_setup/script.py:122-143 | after setup the tunnel's rule, configuration, forwarding and masquerade entries are there exactly for the READY rows with a marked configuration, and then the tunnel is up unless wg-quick refuses it or its subnet is routed elsewhere |
| ExitHostTwice.SetupTwiceIsOnce | orchestrator/host_setup/script.py:98-146 | running the setup script twice leaves exactly the state of running it once, for any rows with distinct slots from 1 to 252 and distinct interface names on a host free of their artefacts |
| ExitHostTwice.BlockEffect | orchestrator/host_setup/script.py:109-143 | the closed form of one gateway's block, for slots other than 0, on any host where it can be built |
| ExitHostTraffic.SetupBuilds | orchestrator/host_setup/script.py:98-146 | after setup every row's link, routes, rules, tunnel and firewall entries are complete, for slots from 1 to 252 |
| ExitHostTraffic.TrafficLeavesOnOwnMacvlan | orchestrator/host_setup/script.py:116-136 | traffic from a gateway's LAN address, or out of its tunnel, leaves on that gateway's macvlan, for slots from 1 to 252 |
| ExitHostRestore.TeardownRestores | orchestrator/host_setup/script.py:162-179 | however often setup ran, with statuses and configurations changing in between, one teardown restores links, routes, rules, firewall lists and files, if no slot is 0 |
| ExitHostRestore.TeardownRestoresExactly | orchestrator/host_setup/script.py:162-179 | on a host with any route, it restores them if and only if no row has slot 0 |
| ExitHostTeardown.SlotZeroFlushesAll | orchestrator/host_setup/script.py:177 | with a row of slot 0 the teardown flushes every route of every table |
| ExitHostTeardown.TeardownClears | orchestrator/host_setup/script.py:162-179 | on a tidy host and for slots other than 0 the teardown removes everything in the rows' footprint and nothing else |
| ExitHostTeardown.ExecOutside | orchestrator/host_setup/script.py:109-143 | a command within a footprint changes nothing outside it |
| ExitHostRestore.BlockKeepsTidy | orchestrator/host_setup/script.py:109-143 | a block leaves every artefact of its gateway there at most once |
| ExitHostTwice.PreferencesApart | orchestrator/host_setup/script.py:118-132 | the two families of rule preferences never meet, separate different slots, and stay below 32766 |
| NamingTheorems.InterfaceNames | orchestrator/host_setup/script.py:24-27 | interface names have at most 15 characters, and those of generated gateway names differ whenever the names do |
| FirstFit.FirstFreeIsLeast | orchestrator/incus/network.py:25-34 | first-fit returns the least free value, and none only when all are taken |
| Allocation.Session.AllocateVmIp | orchestrator/incus/network.py:13-34 | the loop returns the first-fit address and adds its row, or raises and adds nothing |
| Allocation.Session.AllocateUdpPort | orchestrator/incus/network.py:37-51 | the same for ports |
| Allocation.Session.ReleaseVmIp | orchestrator/incus/network.py:54-59 | removes the first matching row and nothing else |
| Allocation.Session.ReleaseUdpPort | orchestrator/incus/network.py:62-70 | the same for ports |
| Allocation.Session.Create | orchestrator/services/gateway_service.py:110-137 | the session's rows after success, after a ValueError half-way, and on a conflict |
| Allocation.Session.Delete | orchestrator/services/gateway_service.py:535-537 | the rows after a deletion: peers go, their address rows stay |
| Allocation.Session.AllocatePeerIp | orchestrator/wg/ipam.py:30-61 | a leftover row of the gateway id, or else the first free host from .2 on |
| Allocation.Session.ReleasePeerIp | orchestrator/wg/ipam.py:64-72 | removes the gateway's row of that address and nothing else |
| Allocation.Session.AddPeer | orchestrator/services/peer_service.py:62-106 | one peer per gateway; the row changes of success, none otherwise |
| Allocation.Session.RemovePeer | orchestrator/services/peer_service.py:191-199 | the peer and its address row go |
| AllocationTheorems.NoSharedVmIpOrPort | orchestrator/services/gateway_service.py:98-143 | over every run, with swallowed errors and reused ids, no two gateways of a worker share an address or a port and every port row is one live gateway's |
| AllocationTheorems.NoSharedPeerIp | orchestrator/services/peer_service.py:62-106 | over every run no two live peers anywhere share an address, and none has a gateway's .1 |
| AllocationTheorems.SubnetSharedExactly | orchestrator/wg/ipam.py:21-27 | two gateways share a /24 exactly when their ids agree modulo 253 |
| AllocationTheorems.PoolIsExact | orchestrator/api/deps.py:13-22 | with failed creates rolled back, the VM rows are exactly the live gateways' addresses |
| AllocationTheorems.SwallowedLeaksExactly | orchestrator/web/routes.py:614-620 | a swallowed error breaks that exactly when an address was free and no port was |
| AllocationTheorems.LeakIsForever | orchestrator/incus/network.py:17-23 | a leaked address is never given to a gateway again, over every run |
| AllocationTheorems.CreateSucceedsExactly | orchestrator/incus/network.py:13-51 | an automatic create fails only when a pool is full |
| AllocationTheorems.CreateGives | orchestrator/services/gateway_service.py:110-137 | a created gateway has the least address of the pool that no gateway or row of the worker has, with a row, and the port asked for without one, or the least free port with one |
| AllocationTheorems.CreateFailsExactly | orchestrator/services/gateway_service.py:98-143 | exactly when a create succeeds, raises or meets a taken port, and what the session then holds |
| AllocationTheorems.DeleteGives | orchestrator/services/gateway_service.py:535-537 | a deletion takes the gateway, the rows of its address and port and its peers, and leaves all else, the peers' address rows included |
| AllocationTheorems.PeerGives | orchestrator/wg/ipam.py:30-61 | a new peer has a leftover address of its gateway's id, or the least host from .2 to .254 of the /24 that no row holds, with a row for it |
| AllocationTheorems.PeerRemovalGives | orchestrator/services/peer_service.py:191-199 | removing a peer takes its row and its address's, and nothing else |
| AllocationTheorems.PeerSucceedsExactly | orchestrator/wg/ipam.py:30-61 | a peer is refused only when its id has no leftover row and its /24 has no free host |
| AllocationTheorems.DeleteReleases | orchestrator/services/gateway_service.py:535-537 | a deletion frees exactly its gateway's address and port |
| LanAdmission.AdmittedBatchSucceeds | orchestrator/services/peer_group_service.py:72-102 | an admitted batch is allocated in full: distinct, unused, increasing addresses from the start on, and for prefixes of 30 or less never the broadcast address |
| LanAdmission.BatchIsLeast | orchestrator/lan/ipam.py:44-65 | each address is the least that was free in its turn |
| LanAdmission.NextIsHost | orchestrator/lan/ipam.py:68-78 | capacity left, counted over `hosts()`, guarantees the walk over the whole network a free host |
| LanAdmission.DistinctSlots | orchestrator/lan/ipam.py:39-41 | in a prefix of 24 or longer, different addresses have different slots |
| LanAdmission.SlotZeroExactly | orchestrator/lan/ipam.py:28-62 | in a prefix of 24 or longer, an admitted batch contains slot 0 exactly when the start address is free and ends in .0 |
| LanAdmission.PeerGroup.AllocateLanIp | orchestrator/lan/ipam.py:44-65 | the loop returns the first free address, or raises |
| LanAdmission.PeerGroup.RemainingLanCapacity | orchestrator/lan/ipam.py:68-78 | the number of hosts of the network at or above the start, less the number of gateways, and 0 if that is negative |
| LanAdmission.PeerGroup.CreateGateways | orchestrator/services/peer_group_service.py:72-102 | admitted exactly when the count is from 1 to 64 and at most the number of hosts from the start on less the gateways there are; then the whole batch is created, or the first part of it when a creation itself fails; refused requests change nothing |
| Egress.LookupsAreApart | orchestrator/workers/egress_metrics.py:59-76 | whatever links and lookups do, a lookup made with an address on record comes at least 300 seconds after every earlier one |
| Egress.AddressIsKept | orchestrator/repositories/metrics_repo.py:67-76 | once on record the address is never lost and is always the one the last answered lookup stands for |
| Egress.SteadyMeansSilent | orchestrator/workers/metrics_collector.py:54-86 | while the interfaces stay as they are there is no further lookup |
| Egress.UnrecordedLooksUpExactly | orchestrator/workers/egress_metrics.py:39-41 | with nothing on record every poll with the links up and the agent reached looks up, and something is recorded exactly when it gets an answer |
| Egress.RecordedLooksUpExactly | orchestrator/workers/egress_metrics.py:59-76 | with an address on record a poll looks up exactly when the agent is reached, both links are up, 300 seconds have passed since the last lookup, and the interfaces have changed |
| Egress.AnswerIsRecorded | orchestrator/workers/metrics_collector.py:34-51 | an answered lookup is recorded under its own time: the agent's address when it is on record with a country or the geo service is silent, else the geo service's; and its country, or else the one on record |
| Egress.FailureIsRecorded | orchestrator/workers/egress_metrics.py:79-94 | an unanswered lookup keeps address and country and notes the time |
| Egress.NoLookupIsRecorded | orchestrator/workers/metrics_collector.py:163-168 | without a lookup the record is repeated, time included, while both links are up, and no address is recorded while one is not |
| Egress.CycleGives | orchestrator/workers/metrics_collector.py:89-188 | a cycle adds one row to each READY gateway, determined by that gateway's rows and poll, touches no other, and returns their number |
| Egress.TwoLookupsASecondApart | orchestrator/workers/egress_metrics.py:68-69 | so two lookups one second apart are possible |
| Egress.BestIsMax | orchestrator/repositories/metrics_repo.py:67-76 | the row chosen is first by `egress_updated_at` with NULL last, then by `polled_at`, among those with an address |
| Egress.Metrics.CollectMetrics | orchestrator/workers/metrics_collector.py:89-188 | the cycle's rows and count, or a rollback to the rows before when a gateway's worker cannot be found |
| ShellQuote.GetReadsBack | orchestrator/services/gateway_agent_client.py:41-49 | for every token and URL a shell splits the GET script into wget, its three fixed arguments, the header with that bearer token, and the URL |
| ShellQuote.PostReadsBack | orchestrator/services/gateway_agent_client.py:50-57 | for every token, URL and payload likewise, with the content-type header and the payload |
| ShellQuote.EscapeReadsBack | orchestrator/services/gateway_agent_client.py:43-45 | the quote replacement is inverted by the shell for every string |
| Naming.NextSequentialName | orchestrator/naming.py:20-26 | the loop returns the name of the least number whose name is not taken, or raises when all thousand are |
| Naming.SyncExitNodeNames | orchestrator/headscale/client.py:326-355 | the loop computes the pass: the nodes after it, the number renamed, and whether names ran out |
| NamingTheorems.SyncNames | orchestrator/headscale/client.py:326-355 | in id order each candidate gets a fresh, distinct, least name, all else stays, the count is right, and the pass succeeds exactly when the candidates fit in the free names |
| NamingTheorems.SyncGives | orchestrator/headscale/client.py:326-355 | the pass succeeds exactly when the nodes with an id, an exit tag or route, and neither an exit nor a gateway name fit in the numbers no node and no gateway has; it returns how many they are and leaves every other node as it was |
| NamingTheorems.SyncGivesName | orchestrator/headscale/client.py:335-355 | and each of them gets the name of the least such number that no node of lower id was given |
| NamingTheorems.IsSequentialExactly | orchestrator/naming.py:12-13 | a name counts as sequential exactly when it is one of the thousand, with or without a final newline |
| NamingTheorems.ExitNamesDistinct | orchestrator/headscale/client.py:330-355 | new names differ from one another and from every name that was there |
| NamingTheorems.SyncTwice | orchestrator/headscale/client.py:326-355 | a second pass renames nothing |
| NamingTheorems.RenameNames | orchestrator/headscale/client.py:335-355 | every lower number was taken or given to an earlier candidate |
| Naming.SequentialInjective | orchestrator/naming.py:16-17 | different numbers give different names |
| EnrollmentTheorems.EnrolmentIsOneTime | orchestrator/services/worker_service.py:334-391 | over every run, from any table that satisfies the invariant, rows without a stored token included, at most one enrolment is active, no token makes two workers, and used enrolments point to different workers |
| EnrollmentTheorems.FoundInv | orchestrator/models/worker_enrollment.py:15-24 | any table with unique token hashes, one active row and a worker of its own for each used row satisfies that invariant, whether or not the encrypted tokens are stored |
| EnrollmentTheorems.DeadForever | orchestrator/services/worker_service.py:334-346 | no request that begins with a dead token passes its checks, in any later state |
| EnrollmentTheorems.DeadTokenStillMakesExactly | orchestrator/services/worker_service.py:334-391 | a dead token can still make a worker if and only if a request already past its checks holds it and the name of its row belongs to no worker |
| EnrollmentTheorems.RefreshedTokenMakesWorker | orchestrator/services/worker_service.py:298-309 | such an input: a completion passes its checks, the row is refreshed, and the completion then makes a worker with the refreshed-away token |
| EnrollmentTheorems.RefreshKills | orchestrator/services/worker_service.py:241-249 | creating refreshes an active row without a stored token, and no request that begins later passes with the token it had |
| EnrollmentTheorems.CommitKills | orchestrator/services/worker_service.py:385-391 | after a completion no request that begins later passes with its token |
| EnrollmentTheorems.BeginPassesExactly | orchestrator/services/worker_service.py:334-349 | a completion passes its checks exactly when its token is a row's, the row is unused and not expired, and no worker has its name |
| EnrollmentTheorems.CommitGives | orchestrator/services/worker_service.py:367-391 | a commit succeeds exactly when no worker has the row's name; the worker has that name, the row its worker and the time, and nothing else changes |
| EnrollmentTheorems.CreateReturns | orchestrator/services/worker_service.py:237-249 | while an enrolment is unused and unexpired creating returns it, or gives it a new token if none was stored |
| EnrollmentTheorems.CreateAdds | orchestrator/services/worker_service.py:251-275 | otherwise it adds one, good for a day, under the least name no remote worker has, or fails |
| EnrollmentTheorems.IdentityIsLeastFree | orchestrator/services/worker_service.py:224-235 | a new enrolment's name is the least that no remote worker and no active enrolment has |
| EnrollmentService.WorkerService.CreateEnrollment | orchestrator/services/worker_service.py:237-275 | returns the active enrolment, refreshes it, or adds one; errors change nothing; the invariant is kept |
| EnrollmentService.WorkerService.RefreshEnrollment | orchestrator/services/worker_service.py:298-309 | afterwards the new token finds the row, the former one is dead and refused to every request that begins, all other rows, requests and workers are as before, and the invariant is kept; without a key nothing changes |
| EnrollmentService.WorkerService.BeginCompletion | orchestrator/services/worker_service.py:334-349 | the checks in their order; the invariant is kept |
| EnrollmentService.WorkerService.CommitCompletion | orchestrator/services/worker_service.py:367-391 | worker and enrolment change together, or neither; the invariant is kept |
| EnrollmentService.WorkerService.NextWorkerIdentity | orchestrator/services/worker_service.py:224-235 | the loop returns the first free name |

## Left out

- Job ids and gateway ids given to a new row are assumed not to be held by a live thread, and job ids to grow. SQLite may reuse the greatest id after a delete; a thread that still holds it is not modelled. The allocation model does allow reused ids.
- Each HTTP handler and each sweep iteration for one gateway is one step, as is the lock section of `start_provisioning` with the creation of its thread; the thread's own commits are separate steps. `job_id` is always passed on, as every caller does.
- A locked database is a restart of the thread from its beginning; the retry limit and the sleeps are not counted.
- The job query has no order, so which row it returns is the database's choice; the model allows any PENDING row of the gateway.
- LifecycleNoStranding.NoStrandedGateway: assumes the retry button is not pressed on an ERROR gateway whose thread has not closed its job, because the property is false otherwise.
- `daemon` mode of the routing script calls `apply` on the left of `||`, where `set -e` has no effect; only `apply`, `start` up to its daemon, `reload` and `stop` are modelled. A next hop the kernel refuses as unreachable is not modelled.
- The nft, MTU, sysctl, ethtool, dnsmasq, tailscale and `wg set` parts of the routing script; name resolution is a list of addresses in the environment record.
- `stop` does not restore the tables, and the model does not claim it.
- RoutingPackets.TailnetLeavesOnTailscale: assumes no resolved address of the control server or of a DNS host lies in the tailnet, because such a pin would be a more specific route through eth0.
- The exit-host sysctl lines appear only through their one effect on the rest: a missing parent interface stops the script before its first block. `WG_CONF_DIR` keeps its default, which the teardown also assumes. The `ip addr` of an interface that already has another address is not modelled; every block deletes the interface first.
- The connected routes of macvlan and tunnel addresses are part of the link, not of the route map; a WireGuard subnet equal to the LAN is not considered.
- ExitHostTwice.SetupTwiceIsOnce: assumes slots from 1 to 252, as do ExitHostTraffic.SetupBuilds and ExitHostTraffic.TrafficLeavesOnOwnMacvlan, because 0 and 253 to 255 are the kernel's own tables; the generator does not exclude them. What a route or a flush of table 0 does is modelled; that the kernel gives a rule naming table 0 a table of its choice is not.
- ExitHostRestore.TeardownRestores: assumes that no slot is 0, because it is false otherwise (`TeardownRestoresExactly`). A prefix shorter than 24 reaches slot 0 whenever it walks past a .255.
- wg-quick is a set of configurations it can bring up; DNS and resolvconf effects are left out.
- Headscale, Incus and the agents are success or failure. A rename that fails in the middle of the naming pass leaves the earlier renames; the next pass is then the one described.
- Naming.IsSequential: digits are the ASCII digits; Python's `\d` also takes other decimal digits.
- Keys, tokens and their encryption: hashing is injective and generated values are fresh.
- Two overlapping requests to create an enrolment are not modelled: creation is one step. Completions do overlap, between their checks and their commit.
- A worker row is never deleted, as nowhere in the code it is.
- Peer creation needs the gateway READY and the agent to answer; the model has only the row changes of a creation that commits. Key regeneration and suspension change no address row and are left out.
- A metric poll that rolls back may have made a lookup that no row records; runs are of committed polls. The stored country is kept as the code keeps it, and nothing is claimed about it.
- The DELETE variant of the agent script, which wraps curl in a shell conditional.
- Web pages, migrations, bootstrap and image scripts, TLS, logs.
