# netifd: a verified model of its state machines

netifd is OpenWrt's network interface daemon. It is one event loop around a set of objects that
watch each other: devices that stand on devices, interfaces that use devices, protocol handlers that
start scripts, policy rules that follow interfaces, and an allocator that cuts delegated IPv6 prefixes
into subnets. Kernel calls and child processes can fail at any point. This project models the parts of
the daemon whose correctness depends on many functions together, and proves what they keep over
every sequence of events.

`dafny verify dfyconfig.toml` checks everything.

## The modules

| module | models |
|---|---|
| `Options`, `Lists`, `Bits`, `IfAddr` | optional values; lists without repetition; C's bit operators on integers; addresses and `match_if_addr` |
| `PrefixAlloc`, `PrefixRun`, `PrefixSafety`, `PrefixPacking`, `PrefixPriority`, `PrefixSubnets` | the IPv6 sub-prefix allocator: one placement, a whole reassignment, and what it guarantees, down to the addresses |
| `DeviceClaim`, `DevicePresence` | stacks of devices: claims with rollback, and presence passed up by callbacks |
| `DeviceAlias` | alias devices, which change their device only while unused |
| `PortGroup`, `PortClaims`, `PortJoins` | bridges and bonds: counting present ports, what is held while the group is unused, and which ports take part while it is used |
| `Lifecycle`, `InterfaceSteps`, `FailedStart`, `ShellInterface` | an interface with a shell protocol handler: two coupled state machines, processes and timers; what each step does to them; what becomes of it when its script cannot be started |
| `HotplugQueue`, `HandlerView` | the coalescing queue in front of the hotplug handler, and the two machines together |
| `IpRule` | policy rules that follow interfaces, and the kernel's account of them |
| `RouteTarget` | the search for the interface and route that reach a host |
| `AssignmentMerge`, `Netmask`, `Crc32` | merging reloaded settings, dotted netmasks, the file checksum |

Code that changes state is a class whose methods follow the source branch by branch; each method is
proved to compute a function of the old state, and the properties are lemmas about these functions and
about all sequences of them. The table below lists the properties, and of the methods those with loops
or whole runs; every other method carries its function in its contract. What the outside decides (kernel results, processes, users reacting to a
broadcast) is an input: a list of outcomes that every theorem quantifies over.

## Where the code falls short

Some properties that one would expect do not hold of the code. For these the model keeps the code as it
is, and a lemma says exactly when the property holds.

* An excluded prefix is kept free for every choice of interfaces exactly if it has no bits set between
  its own length and bit 63 (`PrefixSubnets.ExclusionRespectedIffAligned`). Nothing between the
  protocol handler and the allocator checks this.
* A failed fork drops the event for good: the handler is up to date about an interface exactly if an
  event waits, or the last attempt to tell one did not fail, or the handler had been told the same event
  before (`HotplugQueue.CoalescingFaithfulIff`, `HotplugQueue.FailedForkLosesDown`).
* `interface_queue_event` lets an update replace a waiting "down". It is harmless exactly if the waiting
  event is not a "down" or "up failed", or a handler was already to be started for that
  (`HotplugQueue.UpdateHarmlessIff`); interfaces raise updates only while they are up, so no event is
  lost that way (`HandlerView.HandlerSeesLastStateIff`).
* When the setup script cannot be started the script runner stays in its setup state. Requests to bring
  the interface up then fail until one of a few other events gets the runner out: a report of the failed
  setup, a lost device, a notified link, a renewal or command that starts a process, the checkup
  timeout, or a reload that does not fail to start the script again (`FailedStart.StuckUnlessLeaves`,
  `FailedStart.ReloadSticksIff`). A request starts the script exactly under the conditions of
  `FailedStart.BringUpStartsIff`; one that comes while the runner is being torn down is lost
  (`FailedStart.RequestDuringTeardownIsLost`).
* Moving a stacked device that is up leaves it without a claim on its new parent: the claims stay in
  order exactly if it is down or stays where it is (`DeviceClaim.DeviceTable.AttachParent`,
  `DeviceClaim.MoveWhileUp`).
* Moving a stacked device onto an absent one sends it no event: it is late, and present if it was, until
  the new device appears (`DevicePresence.PresenceTable.Attach`, `DevicePresence.MoveOntoAbsent`).
  Presence follows the system and the settings along the path exactly if no device is late that could be
  present (`DevicePresence.PresentIffPathClear`).
* An alias has the right presence, whatever its users do, exactly as long as it is not sent back to, or
  kept on, a device that has gone, and its current device does not appear while it waits for another
  (`DeviceAlias.RunsStayRightIff`): taking a change back shows it without a look at the device
  (`DeviceAlias.CancelIsRightIffPresent`), and a device that appears shows it while it waits. One that is
  shown while it waits still gets the right presence from the next change, exactly if the change it waits
  for would not show it (`DeviceAlias.PresenceRightIffNotExposed`).
* A bridge port whose device vanishes while it is claimed is taken off `n_present` twice, so the count is
  right exactly if that never happened; bonds are not affected (`PortGroup.PresentIsCountedIff`,
  `PortGroup.VanishingPortIsTakenOffTwice`).
* A bridge that is deleted because its last ports were given up lets go of none of the ports that had
  joined: they stay claimed by a bridge that nobody uses (`PortClaims.CollapseLeavesClaimsIff`,
  `PortClaims.JoinedPortStaysClaimed`). The loops over the ports also go on after the users let go in the
  middle of them. Which events can leave such claims, for a bridge and for a bond, can be told before the
  event from the counts of ports and the flags of the group (`PortClaims.StepHarmlessIff`,
  `PortClaims.RunsStayTidyIff`): a claim on a bridge with two or more present ports, unless n_present
  cannot come down to 0; the retry timer on a group that nobody uses, or whose last present ports may
  vanish with another one to be tried (`PortClaims.RetryGoesOn`).
* A bridge or bond that goes down lets go of exactly the ports that are part of its kernel device; a
  port that waits for its authentication stays claimed (`PortClaims.ReleaseLeavesClaimIffUnjoined`,
  `PortClaims.WaitingPortStaysClaimed`).
* The retry timer of a bridge or bond is not stopped when the group goes down; firing then is harmless,
  whatever the calls give, exactly if there is no port to retry (`PortClaims.LateRetryIsHarmlessIff`,
  `PortClaims.LateRetryClaims`).
* Policy rules are not told when an interface that they follow changes its device while it is up, and one
  that arrives between an interface leaving IFS_UP and its IFEV_DOWN is not told its device: exactly these
  steps put rules and interfaces out of step (`IpRule.StepSyncedIff`, `IpRule.SyncedThroughoutIffSteady`),
  and the kernel is wrong then unless the rules wait for another interface (`IpRule.StepKernelRightIff`,
  `IpRule.ChangedDeviceLeavesOldRule`).
* The comment at interface-event.c:112-118 says that an event equal to the running one takes the
  interface off the queue. The code does not do that, and the model follows the code.

## Model

| member | source | states |
|---|---|---|
| IfAddr.ClearKeepsTopBits | interface-ip.c:101-112 | clearing an address keeps its first `mask` bits and zeroes the others, as a number |
| IfAddr.MatchIffTopBits | interface-ip.c:114-128 | two addresses match under a mask exactly if the numbers formed by their first `mask` bits are equal |
| IfAddr.MatchIffLeadingBits | interface-ip.c:114-128 | two addresses match under a mask exactly if they agree bit by bit on the first `mask` bits, for all masks 0 to 128 |
| IfAddr.MatchShorter | interface-ip.c:114-128 | a match survives shortening the mask |
| PrefixAlloc.SearchIsLowestFree | interface-ip.c:1067-1089 | the walk over the list succeeds exactly if some wanted block is free, and takes the lowest one |
| PrefixAlloc.InsertKeepsValid | interface-ip.c:1067-1089 | inserting where the walk stopped keeps the list sorted, its blocks aligned, disjoint and before the sentinel |
| PrefixAlloc.PlaceIsLowestFree | interface-ip.c:1067-1089 | one placement succeeds exactly if a wanted block is free, adds the lowest such block and moves no other |
| PrefixRun.MaskHint | interface.c:900-903 | a configured hint is rounded down to the greatest multiple of the interface's own block size that is not above it, also when it is negative |
| PrefixRun.DevicePrefix.PrefixAssign | interface-ip.c:1067-1089 | the in-place list becomes the list of the placement, or stays |
| PrefixRun.DevicePrefix.AssignShrinking | interface-ip.c:1223-1232 | the retry loop does what the recursive retry does |
| PrefixRun.DevicePrefix.UpdatePrefixAssignments | interface-ip.c:1110-1235 | the two passes produce the list that the theorems below are about; withdrawing the prefix empties it |
| PrefixSafety.ShrinkIsLeast | interface-ip.c:1223-1232 | a request without hint gets the least feasible length from its own up to /64, at the lowest address, and nothing only if no /64 is free |
| PrefixSafety.FinalListValid | interface-ip.c:1110-1235 | after any reassignment the blocks are aligned, pairwise disjoint and inside the delegated prefix, and the excluded block is still one of them |
| PrefixSafety.UnservedOnlyIfFull | interface-ip.c:1164-1235 | an interface that asks for a prefix between /48 and /64, and for any class or that of the delegation, goes without a block only if every /64 of the prefix is covered |
| PrefixSafety.HintGrantedIffFree | interface-ip.c:1194-1210 | a hint is granted exactly if its block is free at the interface's turn, and then kept to the end; otherwise the interface waits for the second pass |
| PrefixPacking.CompareIsOrder | interface-ip.c:1097-1108 | the shorter prefix comes first, of equal ones that with the higher weight, then the name that is a proper prefix of the other or smaller at the first difference; that is a strict total order on differently named interfaces |
| PrefixPacking.LaterSorted | interface-ip.c:1194-1210 | the second pass serves interfaces in that order, read off lengths, weights and names |
| PrefixPacking.RunningSumAligned | interface-ip.c:1097-1108 | because of the order each running sum of block sizes is a multiple of the next block size |
| PrefixPacking.SortedLayout | interface-ip.c:1216-1235 | sorted requests that fit are laid end to end |
| PrefixPacking.ExactPacking | interface-ip.c:1216-1235 | without hints and exclusion, requests whose sizes add up to at most the prefix are all served in full, end to end from 0 in priority order |
| PrefixPacking.SumOfBlocks | interface-ip.c:1067-1089 | blocks in a valid list never add up to more than the prefix |
| PrefixPacking.FullServiceIffFits | interface-ip.c:1110-1235 | without hints and exclusion everybody gets the full size exactly if the sizes add up to at most the prefix |
| PrefixPriority.EarlierGetsMore | interface-ip.c:1216-1235 | of two waiting requests the earlier holds a prefix at most as long as the later one's |
| PrefixPriority.PriorityRespected | interface-ip.c:1110-1235 | of two interfaces without hint the one with the shorter requested prefix, or with an equal one and the higher weight, or with both equal and the smaller name, is served whenever the other is, with at most as long a prefix |
| PrefixPriority.OnlyAskedForIsAssigned | interface-ip.c:1164-1235 | every block but the excluded one belongs to an interface that asks for a prefix between /48 and /64, no longer than the block's, and for any class or that of the delegation |
| PrefixSubnets.SubnetNetwork | interface-ip.c:1017-1026 | the derived address lies in the network that its block index names, and ends in the interface identifier |
| PrefixSubnets.SubnetInside | interface-ip.c:1017-1026 | every derived address matches the delegated prefix on its length |
| PrefixSubnets.SubnetsDisjoint | interface-ip.c:1017-1026 | no two assignments of a reassignment derive addresses that agree on the shorter of their lengths, whatever the interface identifiers |
| PrefixSubnets.AlignedIsRespected | interface-ip.c:1139-1151 | no subnet meets an aligned excluded prefix |
| PrefixSubnets.UnalignedIsBroken | interface-ip.c:1139-1151 | for every unaligned excluded prefix some interface is given a subnet that meets it |
| PrefixSubnets.ExclusionRespectedIffAligned | interface-ip.c:1339-1375 | the excluded prefix is kept free for all interfaces exactly if it is aligned |
| DeviceClaim.ClientsDetermineState | device.c:559-622 | all counts and claims are determined by which clients hold claims, not by the order of calls or the failures on the way |
| DeviceClaim.ActiveIffNeeded | device.c:559-622 | a device is up exactly if some client holds a claim on it or on a device that stands on it |
| DeviceClaim.DeviceTable.Claim | device.c:559-597 | a claim succeeds exactly if its user is attached, down to a device in use or to the bottom, and the calls for the idle devices on the way succeed; if it fails anywhere down the stack it leaves every count and flag as it was; if it succeeds it keeps active equal to the number of claimed users and every stacked device's parent claimed exactly while it is active |
| DeviceClaim.DeviceTable.SetStateUp | device.c:574-594 | the first claim on a device succeeds exactly if it and the idle devices under it come up, and is undone otherwise |
| DeviceClaim.DeviceTable.SetSimpleUp | device.c:149-195 | a device that needs no other comes up exactly if its own call succeeds |
| DeviceClaim.DeviceTable.SetStackedUp | vlandev.c:147-181 | a stacked device claims its parent first, and gives the claim back if its own calls fail; whether a VLAN can be added is ignored |
| DeviceClaim.StackIsClaimed | device.c:559-597 | with every call succeeding, an interface on a stack that is attached all the way down can claim it |
| DeviceClaim.DeviceTable.Release | device.c:599-622 | releasing is the inverse, down the stack |
| DeviceClaim.DeviceTable.ClaimClient | device.c:559-597 | the same for an interface's claim, with the same condition for success; no other client's claim changes |
| DeviceClaim.DeviceTable.ReleaseClient | device.c:599-622 | the interface's claim is gone and no other client's claim changes |
| DeviceClaim.DeviceTable.AddDevice | device.c:632-673 | a new device is down and disturbs nothing |
| DeviceClaim.DeviceTable.AttachClient | device.c:883-906 | attaching a user claims nothing |
| DeviceClaim.DeviceTable.AddClient | device.c:908-920 | moving a user lets go of its old device, unless it is the same one |
| DeviceClaim.DeviceTable.RemoveClient | device.c:956-971 | removing a user releases its claim first |
| DeviceClaim.DeviceTable.AttachParent | device.c:908-920 | moving a stacked device lets go of its old parent and claims nothing on the new one: the claims stay in order exactly if the device is down or stays where it is |
| DeviceClaim.MovedStackIsBroken | device.c:908-920 | a VLAN in use, moved from one base device to another: every device is in order before, and the VLAN is up without a claim on its parent after |
| DeviceClaim.MoveWhileUp | device.c:908-920 | the run that leads there from an empty table, with every call succeeding |
| DevicePresence.PresentIffAnchored | device.c:771-789 | after every run a device is present exactly if the system has, or a late device believes in, what it is anchored at, and no device on the way there is disabled or deferred; late are devices that were moved onto an absent one that has not appeared since |
| DevicePresence.PresentIffPathClear | device.c:771-789 | every device is present exactly if the system has its base device and no device on the path is disabled or deferred, if and only if every late device is itself disabled or deferred |
| DevicePresence.PresentIfTimely | device.c:771-789 | the same for one device and its path |
| DevicePresence.Resettled | device.c:522-542 | once everything above a device has settled nothing else is out of order |
| DevicePresence.PresenceTable.SetPresent | device.c:813-821 | the change settles everything above the device and touches nothing else |
| DevicePresence.PresenceTable.RefreshPresent | device.c:780-789 | the effective presence is recomputed and told to everybody above; this terminates |
| DevicePresence.PresenceTable.Broadcast | device.c:522-542 | the walk over the users, whose callbacks broadcast again, settles the whole stack above |
| DevicePresence.PresenceTable.AddDevice | device.c:632-673 | a new device is absent and disturbs nothing |
| DevicePresence.PresenceTable.Hotplug | device.c:813-821 | a hotplug event brings the whole table back to rest; no other base device changes and no device becomes late |
| DevicePresence.PresenceTable.SetDisabled | device.h:376-381 | so does disabling or enabling a device |
| DevicePresence.PresenceTable.SetDeferred | device.h:369-374 | so does deferring a device |
| DevicePresence.PresenceTable.Attach | device.c:883-920 | moving a stacked device brings the table to rest; the device is late afterwards exactly if the new one is absent and it believed in the old, and no other becomes late |
| DevicePresence.PresenceTable.Detach | device.c:956-971 | detaching sends no event and leaves the table at rest, with the device not late any more |
| DevicePresence.MoveOntoAbsent | device.c:883-920 | a run from an empty list that ends with a late device: it is present although the device it stands on is absent |
| DeviceAlias.SetDeviceKeeps | alias.c:33-66 | after a request the alias stands for that device or waits for its users, whatever they did in the middle of it |
| DeviceAlias.DoReleaseKeeps | alias.c:68-85 | the last user to let go carries a waiting change out |
| DeviceAlias.AliasFollowsRequests | alias.c:33-85 | over every sequence of events the effective target is the device asked for last, the device never changes while claimed, a pending change means that the alias is in use, and the device is claimed exactly while the alias is |
| DeviceAlias.TakersAreCounted | alias.c:68-85 | every claim on an alias in use succeeds and counts one more user; the first one succeeds exactly if there is a device and it can be claimed |
| DeviceAlias.KeptUntilLastRelease | alias.c:68-85 | until as many releases have come the alias keeps its device and its claim, and a change that waits goes on waiting |
| DeviceAlias.ReleasesUndoClaims | alias.c:68-85 | as many releases as claims that succeeded undo them, and the device is claimed exactly in between |
| DeviceAlias.PresenceAfterChange | alias.c:33-66 | after a request for another device, whatever the users do, the alias is absent while it waits and otherwise present exactly if its new device is, unless it is exposed: shown, while a change waits that would show it again |
| DeviceAlias.PresenceRightIffNotExposed | alias.c:33-66 | that holds for every way the users may react exactly if the alias is not exposed, also when a change is pending, and when the change is carried out by the last release |
| DeviceAlias.ExposedAliasShowsAbsentDevice | alias.c:33-66 | a sequence of eight events after which an exposed alias has moved to an absent device and is shown |
| DeviceAlias.CancelIsRightIffPresent | alias.c:35-43 | taking a change back shows the right presence exactly if the device is there |
| DeviceAlias.CancelShowsAbsentDevice | alias.c:35-43 | a sequence of six events after which the alias is shown although its device is absent |
| DeviceAlias.DropRightIff | alias.c:68-85 | the last release that carries a change out leaves the right presence, for every way the users may react, exactly if the alias moves and is not exposed, or stays and its device is there |
| DeviceAlias.StepRightIff | alias.c:87-113 | from the right presence every event leads to the right presence, for every way the users may react, exactly if the alias is not sent back to, or kept on, an absent device, and its current device does not appear while it waits |
| DeviceAlias.RunsStayRightIff | alias.c:33-113 | for every sequence of events: at every moment a waiting alias is absent and any other is present exactly if its device is there, exactly if every event is of that kind when it comes |
| DeviceAlias.AliasDevice.Tell | device.c:522-542 | the broadcast with its users' reactions: the whole state afterwards is `DeviceAlias.Broadcast` of the state before |
| PortGroup.PresentIsCountedIff | bridge.c:397-481 | over every sequence of events n_present is the number of present ports exactly if the group is a bond or no device of a port vanished while the bridge claimed it; each time one did, n_present is one lower |
| PortGroup.PresentPortIsThere | bridge.c:565-574 | over every sequence of events a present port's device is present, so the assertion on ADD never fails |
| PortGroup.VanishingPortIsTakenOffTwice | bridge.c:418-456 | a new bridge with one port whose device vanishes during the claim ends up in use, up, without a present port, and with n_present -1 |
| PortClaims.StepHarmlessIff | bridge.c:615-664 | without authentication, and whatever the calls give and the users do, an event leaves no claim behind on a group that nobody uses exactly if it is not at risk, which the counts of present and waiting ports, the flags and n_present tell before the event; this holds for claims, retries, arriving ports and prepared hotplugs, on bridges and on bonds |
| PortClaims.RunsStayTidyIff | bridge.c:615-664 | for every sequence of events on a new group: no claim is ever held while nobody uses it exactly if no event is ever at risk when it comes; then a port is also claimed exactly while it is part of the kernel device, and an unused bridge is not in the kernel |
| PortClaims.NothingHeldWhenUnused | bridge.c:615-664 | the same for one given run in which each event was not at risk, or no claim had vanished or did then and the retry timer did not fire while the group was unused |
| PortClaims.EasyRunIsCareful | bridge.c:615-664 | runs without vanishing claims and late retries are of that kind |
| PortClaims.CollapseLeavesClaimsIff | bridge.c:649-654 | set_up that gives up for lack of present ports leaves exactly those claims that exist at that moment, unless the users let go when the group disappears, which releases the joined ports |
| PortClaims.JoinedPortStaysClaimed | bridge.c:649-654 | a run on a new bridge with two ports: one joins, the other vanishes, the claim fails and the bridge is deleted, and the first port is still claimed |
| PortClaims.RetryGoesOn | bonding.c:541-559 | a run on a bond in use: the first port to be tried again vanishes, the users let go, and the second joins all the same |
| PortClaims.ReleaseLeavesClaimIffUnjoined | bridge.c:308-328 | going down leaves exactly the claims of ports that are not part of the kernel device |
| PortClaims.WaitingPortStaysClaimed | bridge.c:308-328 | a run on a new bridge whose port waits for its authentication: after the release the port is still claimed |
| PortClaims.LateRetryIsHarmlessIff | bridge.c:1174-1192 | the retry timer firing on an unused group is harmless, whatever the calls give and the users do, exactly if there is no port to retry |
| PortClaims.LateRetryClaims | bridge.c:1174-1192 | a run on a new bridge whose port could not be added: the late retry claims and joins it for nobody |
| PortJoins.UsedPortsJoin | bridge.c:371-432 | over every sequence of events, with calls failing and users reacting in any way: a port of a group in use that is present, and needs no authentication or has it, is claimed and part of the kernel device exactly unless one of its own calls failed when it was last tried, or it was taken out by a lost link or authentication since |
| PortJoins.PortJoinsIff | bonding.c:204-252 | a present and admitted port that is tried joins exactly if the calls still missing succeed: for the group's own device, the claim, and adding it |
| PortJoins.ArrivingPortJoinsIff | bridge.c:565-588 | a port whose device appears in a group in use, or is authenticated there, joins exactly if these calls succeed |
| PortJoins.ClaimJoinsAll | bridge.c:630-664 | with every call succeeding, a user can claim the group exactly if a port is counted or it is forced, and then all present ports are claimed and all admitted ones join |
| PortJoins.RetryJoinsAll | bridge.c:1174-1192 | with every call succeeding, the retry timer makes every admitted port whose device is there join, and touches no other |
| PortJoins.AuthenticationLost | bridge.c:594-599 | a lost link or authentication takes exactly an authenticating port out of the kernel device, and keeps its claim |
| PortJoins.GroupGoesDownIff | bonding.c:197-213 | after the last release a bridge is gone, and a bond exactly unless its kernel call fails |
| PortGroup.Group.GoUp | bridge.c:630-664 | bridge_set_up and bonding_set_up with their rollbacks: the whole state afterwards is `PortGroup.SetUp` of the state before |
| PortGroup.Group.GoDown | bridge.c:615-628 | bridge_set_down and bonding_set_down: the whole state afterwards is `PortGroup.SetDown` of the state before |
| PortGroup.Group.RetryTimer | bonding.c:541-559 | bonding_retry_ports and bridge_retry_members: the whole state afterwards is `PortGroup.RetryFrom` of the state before |
| PortGroup.Group.Serve | bonding.c:266-318 | one event keeps the count: the whole state afterwards is `PortGroup.Follow` of the state before |
| HotplugQueue.RunOk | interface-event.c:84-178 | over every run each interface is queued at most once, and a non-empty queue means that a handler is running |
| HotplugQueue.QueueEventOk | interface-event.c:119-178 | queueing a state event makes it the latest that waits or that a handler was to be started for; nobody else's latest event changes |
| HotplugQueue.EventIsHandedOn | interface-event.c:119-178 | every event but a link event is handed on: while a handler runs the interface waits with it, in its place or at the end of the list, and otherwise a handler is to be started for it at once; it is absorbed exactly if it is an update while an event of the running interface, or an "up" of another one, waits, or repeats the running event with nothing waiting |
| HotplugQueue.DispatchedInOrder | interface-event.c:84-101 | handlers are tried for the interfaces that wait, in their order and with the events they wait with, up to the first fork that succeeds |
| HotplugQueue.EndStartsNext | interface-event.c:103-110 | when a handler ends, one is to be started for the interface that waits first, if any |
| HotplugQueue.FreedIsForgotten | interface-event.c:180-188 | a freed interface does not wait any more, and the others keep their order |
| HotplugQueue.EventToldIff | interface-event.c:119-178 | the handler is up to date about the interface afterwards exactly if the event waits or was not missed for a failed fork |
| HotplugQueue.UpdateHarmlessIff | interface-event.c:133-174 | an update is harmless exactly if it replaces no "down" or "up failed" that a handler was not already to be started for |
| HotplugQueue.CoalescingLosesNothing | interface-event.c:119-178 | over every run the latest state event of a live interface that waits, or that a handler was to be started for, is the last one it raised, if updates are raised only while up |
| HotplugQueue.CoalescingFaithfulIff | interface-event.c:45-110 | over every run what the handler was last told about a live interface, or is about to be told, is the last state event it raised exactly if an event waits, or the last attempt did not fail, or the handler had been told the same before; always, if no fork fails |
| HotplugQueue.FailedForkLosesDown | interface-event.c:51-59 | a run of three steps in which a failed fork leaves the handler at "up" and nothing makes up for it |
| HotplugQueue.UpdateCanLoseDown | interface-event.c:154-174 | without that discipline a run loses a "down" |
| HotplugQueue.OneHandlerAtATime | interface-event.c:84-110 | the handlers started are those that ended plus the one running |
| HotplugQueue.BoundedWait | interface-event.c:133-178 | for an entry at position k a handler is to be started after at most k + 1 ends of handlers, whatever is queued meanwhile, and is started unless the fork fails |
| HotplugQueue.EventQueue.CallHotplugNext | interface-event.c:84-101 | call_hotplug with run_cmd; repeated fork failures empty the queue and terminate: the whole state afterwards is `HotplugQueue.CallHotplug` of the state before |
| HotplugQueue.EventQueue.Serve | interface-event.c:190-211 | a whole run of the queue: the whole state afterwards is `HotplugQueue.Run` of the state before |
| Lifecycle.HandleOk | proto-shell.c:287-360 | every event of the loop keeps the invariant of the two machines; during a teardown it brings it no further from its end, and the timeout brings it closer |
| Lifecycle.RunSafe | interface.c:746-795 | over every run "up" is never raised twice without "down" between, "update" only while up; the teardown timeout is armed exactly during a teardown or abort; IFPEV_DOWN is never sent while a process lives |
| InterfaceSteps.ComesUpIff | interface.c:752-768 | an interface comes up exactly when its handler reports the connection while it is being set up, its runner is not being torn down and its device can be claimed; that raises "up", once, and nothing else |
| InterfaceSteps.LeavesUpIff | interface.c:318-389 | it stops being up exactly when it is told to go down, its device is not enabled or linked any more, its handler reports a lost connection, or a teardown ends; all but the second raise "down" at once |
| InterfaceSteps.LeavesSetupIff | interface.c:318-389 | it stops being set up exactly when it comes up, is told to go down, its device is not enabled or linked any more, or a teardown ends, which raises "up failed" |
| InterfaceSteps.StepsAreAsTold | proto-shell.c:287-360 | for every step and every outcome, while it is not down and no teardown ends: its state, the events raised, its fields and its runner afterwards, read off the fields before |
| InterfaceSteps.TeardownEnds | interface.c:727-783 | when a teardown ends the interface has raised what it owes and let go of its device; then it is removed, reloaded, or starts again if it is to start by itself |
| InterfaceSteps.RestartsIff | interface.c:727-783 | it starts again exactly if it was not down and is to start by itself, its configuration is not to be removed, and the script is reached and can be started |
| InterfaceSteps.DownStepsAreAsTold | interface.c:364-389 | an interface that is down leaves that state exactly by a step that starts its script, under the conditions given for each step, and raises nothing but failures and link events |
| InterfaceSteps.NewInterfaceComesUp | interface.c:752-768 | a run in which a new interface becomes available, its script reports the connection, and it is up with "up" raised |
| Lifecycle.TeardownProgress | proto-shell.c:198-228 | as long as IFPEV_DOWN was not sent the interface stays in teardown and the handler on its way |
| Lifecycle.TeardownFinishes | proto-shell.c:287-360 | whatever processes, devices, users and configuration do, by the second firing of the timeout IFPEV_DOWN has been sent, for the first time at a moment when the interface is still in teardown, and that step raises IFEV_DOWN first |
| FailedStart.StuckUnlessLeaves | interface.c:348-389 | an interface whose setup script could not be started gets out of that state exactly by the events that get its runner out of the setup state; every other event, among them a reload that fails to start the script again, leaves it stuck and raises at most failures and link events |
| FailedStart.ReloadSticksIff | interface.c:717-746 | a reload of an interface that is down leaves it stuck exactly if it is to start by itself, what the device reports and gives lets it reach the script, and the first start fails; it leaves it coming up exactly if the first start succeeds |
| FailedStart.StuckUntilLeaves | interface.c:348-389 | over every run it is stuck until such an event comes |
| FailedStart.StuckIsReached | proto-shell.c:157-250 | every new interface, with or without a device, gets stuck when its script cannot be started |
| FailedStart.FailureReportFreesRunner | proto-shell.c:759-778 | when the handler reports a failed setup, the runner is idle again after the teardown timeout, and requests start the script whenever they reach it |
| FailedStart.RequestDuringTeardownIsLost | interface.c:770-773 | a request that comes while the runner of an interface that is down is being torn down is lost |
| FailedStart.BringUpStartsIff | interface.c:1121-1150 | a request starts the setup script of an interface that is down exactly if it is available, its runner idle, its device claimed and up with its link, and the script can be started; otherwise it stays down, stuck exactly if the script was reached and no other process lives |
| ShellInterface.Interface.Serve | interface.c:746-795 | a whole run from a new interface keeps the invariant: the whole state afterwards is `Lifecycle.RunFrom` of the state before |
| HandlerView.DisciplineFollows | interface.c:245-246 | the events an interface raises obey the discipline that the queue needs |
| HandlerView.HandlerSeesLastStateIff | interface-event.c:119-178 | the two machines together: what the handler was last told, or is about to be told, is the interface's last state event exactly if an event waits or the last one was not missed for a failed fork |
| IpRule.KernelHoldsReadyRules | iprule.c:75-85 | over every run of interfaces and rules coming and going the kernel holds each ready rule exactly once under the names the rule knows, and no other; no rule is added twice or deleted under other names |
| IpRule.FollowsWhatExists | iprule.c:379-393 | a rule is attached to exactly those interfaces that it names and that exist |
| IpRule.StepSyncedIff | iprule.c:118-171 | when the rules know the device names behind their interfaces, a step keeps it so exactly if it does not change the name of an announced interface that rules follow, and no rule arrives at an announced interface that has left IFS_UP with a named device |
| IpRule.SyncedThroughoutIffSteady | iprule.c:118-171 | over every run: the rules know these names at every moment exactly if every step is of that kind |
| IpRule.StepKernelRightIff | iprule.c:75-85 | from there, a step leaves the kernel with what the interfaces call for exactly if it is of that kind, or each rule that misses the change waits for another interface anyway |
| IpRule.InstalledIffInterfacesUp | iprule.c:118-171 | in a run of such steps a rule is in the kernel exactly while every interface it names is up with a named device, under the names of these devices, also when both names are the same interface |
| IpRule.ChangedDeviceLeavesOldRule | proto-shell.c:504-593 | a run in which an interface changes its device while up and the kernel keeps the rule under the old name |
| IpRule.DeliverKeeps | interface.c:251-258 | telling all users of an interface keeps the account and changes exactly their device names |
| IpRule.CreateKeeps | iprule.c:173-194 | a new interface gets exactly the rules that name it |
| IpRule.RemoveKeeps | interface.c:680-703 | an interface that is freed leaves no rule attached and none installed |
| IpRule.AddRuleNames | iprule.c:379-428 | a new rule finds the names of the interfaces that are up and changes no other rule |
| IpRule.DelRuleKeeps | iprule.c:395-418 | deleting a rule removes it from the kernel, the tree and every list, and changes no other |
| IpRule.RuleTable.InterfaceEvent | interface.c:251-258 | the walk over an interface's users: the whole state afterwards is `IpRule.Tell` of the state before |
| IpRule.RuleTable.InterfaceCreated | iprule.c:173-194 | generic_interface_cb: the whole state afterwards is `IpRule.AttachAll` of the state before |
| IpRule.RuleTable.Handle | iprule.c:395-428 | one happening keeps the invariant: the whole state afterwards is `IpRule.Step` of the state before |
| RouteTarget.BestOfIsBest | interface-ip.c:220-244 | the route kept is a candidate of maximal mask, and no equally long candidate with its own metric has a smaller one; none is kept only if there is no candidate |
| RouteTarget.FirstIsKept | interface-ip.c:220-244 | a route displaces equally long candidates before it only by its own metric |
| RouteTarget.FindAddrTarget | interface-ip.c:189-218 | the search succeeds exactly if the host is on the link of some enabled address |
| RouteTarget.FindRouteTarget | interface-ip.c:220-244 | the loop continues the search for the best route |
| RouteTarget.AddTargetRoute | interface-ip.c:261-325 | the first searched interface with the host on its link is the answer; otherwise a candidate of maximal mask over all of them, against which no equally long one with its own metric is better, and the host route copies its next hop, MTU, metric and table; no answer exactly if there is no candidate |
| AssignmentMerge.Interface.Merge | interface.c:548-595 | the old interface ends with exactly the new classes and settings; a refresh is asked for exactly if a compared field or the class sequence differs, although the loop eats the old list while comparing |
| Netmask.Fls | utils.h:79-104 | the stepwise search finds the number of the highest bit set |
| Netmask.DottedLength | utils.c:96-99 | the dotted form gives the number of leading ones |
| Netmask.MaskRoundTrip | utils.c:96-99 | writing out a length and reading it back gives it again; a word is a contiguous mask exactly if writing out its length gives the word |
| Netmask.HolesAreCutOff | utils.c:96-99 | a mask with holes is read as the longest contiguous mask that it contains |
| Netmask.ParseNetmaskString | utils.c:78-103 | errors and dotted IPv6 masks give all ones |
| Crc32.ByteByTable | utils.c:170-171 | one step through the table is eight steps of the bit-serial division |
| Crc32.BuildTable | utils.c:153-162 | the table holds eight division steps of every byte |
| Crc32.FoldBuffer | utils.c:170-171 | the loop over a buffer divides its bytes |
| Crc32.Crc32File | utils.c:149-175 | the result over a file read in chunks of 1024 bytes is the bit-serial reflected CRC-32 of section 8 of RFC 1952, for every length |
| Crc32.CrcFits | utils.c:149-175 | every result is a 32-bit word |

## Left out

* Kernel, netlink and sysfs calls: their success or failure is an input. Memory allocation failure, logging, dumps and status output.
* Prefixes shorter than /34, requests shorter than /48 or longer than /64, and exclusions longer than /64 or shorter than the delegation: the source shifts by more than the width of a word there.
* Comparing assignment weights: the source subtracts 32-bit numbers, the model unbounded ones, so a difference that overflows is not modelled.
* A mask of 0 in `clear_if_addr` is modelled as clearing every byte.
* Simple devices with a kernel parent, and devices that become external or cease to be: the claim that `simple_device_set_state` keeps on the parent when its kernel call fails (device.c:172-195) is outside the stack that `DeviceClaim` covers.
* Re-entrant callbacks, except where a module says otherwise: `DevicePresence`, `DeviceAlias` and `PortGroup` include the callbacks that a broadcast causes; `DeviceClaim` and `Lifecycle` take each step as atomic.
* `device_apply_config`, `device_replace` and `device_cleanup`, which bring a stacked device that was moved while up back in order.
* Protocol handlers other than shell handlers, jails, the start-up phase before `interface_start_pending`, error lists, `last_error` and DNS data of an interface.
* The events that an alias passes on without presence (link, index, name), and users that react to anything but presence.
* Adding, deleting and hotplugging ports of a bridge or bond, VLAN filtering with its port check timer, the primary port and MAC address, and what `has_vlans` changes in the kernel.
* Rule selectors, their parsing and the tree order of rules; replacing a rule is modelled as one deletion and one addition.
* Address lifetimes, ULA prefixes, `resolv.conf`, and the kernel calls for each derived address.
* Number parsing in netmasks (`strtoul`, `inet_aton`): what they read is an input.
* Wireless and external device handlers, udhcp and zcip clients, ubus and UCI plumbing.
- IpRule.InstalledIffInterfacesUp: for runs of steady steps, which are exactly those that keep rules and interfaces in step. `IpRule.KernelHoldsReadyRules` covers every run; after an unsteady step no lemma says when the kernel agrees with the interfaces again.
- HotplugQueue.BoundedWait: counts handlers that end; that a handler does end is up to the handler.
- PortClaims.NothingHeldWhenUnused: for runs of careful steps. `PortClaims.RunsStayTidyIff` says exactly when no answers of the calls and no reactions of the users can leave a claim; for an event at risk it gives answers that do, and `PortClaims.CollapseLeavesClaimsIff` what the failing branch leaves for any answers.
- PortClaims.StepHarmlessIff: for ports without authentication. With it, `PortClaims.ReleaseLeavesClaimIffUnjoined` says which claims a release leaves.
