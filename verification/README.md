# Verified model of the VM host

Dafny models of the hard parts of a Firecracker VM host and its OCI front end, with
proofs of what they promise. `dafny verify dfyconfig.toml` checks everything.

**OCI layers.** `Tree` is the merged root as names to inodes to nodes, with the host
operations as methods of a class. `Layer` says in one definition what a layer shows over a
lower tree (`Overlay`) and when it is accepted (`Accepted`). `Inspect` reads an archive into
a plan and says what it makes of every member, `LayerApply` and `LayerUnpack` run the passes
of `apply` as loops over the tree and prove them equal to the overlay, `LayerStack` proves
the loop over layers equal to a lookup from the top layer down, and `LayerOrder` how far
archive order matters. Any host call may fail at any point. `LayerArchive` says what an
applied archive shows in terms of its own members. `Layout` measures the tree and sizes the
image.

**VM lifecycle.** `VmHost` is what one VM holds on the host, with calls that may fail of
their own accord, and a log of them. `VmLifecycle` has the staged start, rollback, cleanup,
reconciliation and shutdown of one VM, `Manager` all VMs with the drain flag as a system of
interleaved steps.

**OCI store.** `OciStore` has the operations of the store over a manager that others use;
between any two manager calls any enabled actions of others may happen.

**VM store.** `VmStore` has the directory operations, `StoreRuns` runs of them with
failures, crashes and reopenings, next to the manager's registry.

**Idle monitor.** `Idle` has the strike machine and its meaning over whole sample streams,
`Heartbeat` the two-step automatic shutdown.

**Network.** `Network` has the address allocation, `Firewall` the rules of each VM's table,
a semantics of chains and what any number of tables do together. `VmIds` has the ids and
their names.

**Quoting.** `Quote` has the shell quoting of setup commands and a POSIX word reader.
`Optional` is the option type all modules share.

## Findings

- Whether a layer is accepted depends on the order of its whiteouts in the archive
  (crates/elhone/src/oci/rootfs.rs:299-303 checks each opaque directory's parents against
  what earlier markers left, crates/elhone/src/oci/rootfs.rs:336-339 each removal target's).
  `LayerOrder.AcceptedInEveryOrder` is the exact condition under which every order is
  accepted, `LayerOrder.OrderMattersWhen` the exact condition under which the order decides,
  and `LayerOrder.OrderDecidesOnSymlink` a layer for which it does. What an accepted layer
  shows is the same in every order (`LayerOrder.OrderDoesNotShow`).
- A shutdown of a managed VM drops the cgroup handle even when removing the directory failed
  (crates/barbirolli/src/vm/managed.rs:671-675), so a retried shutdown can end Discovered with
  the directory left. `VmLifecycle.ShutdownLeavesCgroup` is the exact condition on the VM
  before the shutdown, `VmLifecycle.CgroupOutlivesItsHandle` a VM it happens to; the next
  start then fails and the one after it succeeds (`VmLifecycle.ShutdownStartStart`).
- The firewall's verdict on what leaves on a VM's TAP is the intended one exactly when the
  host's external interface is not that TAP (`Firewall.VerdictIsPlain`): otherwise the egress
  rule (crates/barbirolli/src/network/linux.rs:298-303) lets packets from the TAP back out of
  it (`Firewall.OwnTapIsLetOut`).

## Model

| member | source | states |
|---|---|---|
| `Tree.LexicalIsResolved` | crates/elhone/src/oci/rootfs.rs:696-723 | a path whose parents hold no symlink and no file resolves, the way the host follows symlinks, to itself; it fails to resolve exactly when its parent directory is missing |
| `Tree.Root.EnsureNoSymlinkParents` | crates/elhone/src/oci/rootfs.rs:696-723 | the walk succeeds exactly when no strict ancestor is a symlink or a file and no host call fails |
| `Tree.Root.RemovePath` | crates/elhone/src/oci/rootfs.rs:725-734 | on success exactly the subtree at the path is gone, a missing path being no error; a failure halfway still leaves a closed tree and every inode as it was |
| `Tree.Root.ClearDirectory` | crates/elhone/src/oci/rootfs.rs:312-321 | removing the children in any listing order removes exactly what lies strictly below the directory; stopping at a failure leaves a closed tree |
| `Tree.Root.CreateDirAll` | crates/elhone/src/oci/rootfs.rs:322-326 | every prefix is a directory afterwards, all other paths show what they showed, no existing inode or name changes |
| `Tree.Root.PutLeaf` | crates/elhone/src/oci/rootfs.rs:632-634 | an extracted file or symlink gets an inode of its own; nothing else changes |
| `Tree.Root.Link` | crates/elhone/src/oci/rootfs.rs:632-634 | an extracted hard link shares its source's inode; nothing else changes |
| `Inspect.NormalizedOne` | crates/elhone/src/oci/rootfs.rs:681-692 | a name gives itself, `.` nothing, `..` and the root an error |
| `Inspect.NormalizedJoins` | crates/elhone/src/oci/rootfs.rs:681-692 | the result of a path is the results of its parts in order, an error anywhere being one of the whole |
| `Inspect.NormalizedAgain` | crates/elhone/src/oci/rootfs.rs:679-694 | a path normalised already stays as it is |
| `Inspect.EntryMeans` | crates/elhone/src/oci/rootfs.rs:388-496 | a member is taken exactly when it is sound: a relative path, the root only as a directory, a link with a target that is relative if it is a hard link, a `.wh.` name only on an empty file and with a proper basename; its entry carries its path, kind, data, text or source, and the whiteout its name spells |
| `Inspect.RefusalMeans` | crates/elhone/src/oci/rootfs.rs:388-496 | which of the reasons a single member is refused for |
| `Inspect.MemberPlanned` | crates/elhone/src/oci/rootfs.rs:663-671 | every sound member but the root's has exactly one entry in the plan, in archive order, carrying what it carries |
| `Inspect.EntryHasMember` | crates/elhone/src/oci/rootfs.rs:663-671 | every entry of the plan is that of some member |
| `Inspect.DistinctMeans` | crates/elhone/src/oci/rootfs.rs:656-670 | two entries share a path exactly when two members normalise to the same one |
| `Inspect.PlanMarkersFit` | crates/elhone/src/oci/rootfs.rs:459-496 | no planned member is the root, and every marker names something in its own directory other than itself and the root |
| `Inspect.PlanGrows` | crates/elhone/src/oci/rootfs.rs:663-671 | the plan of an archive extends the plan of each of its beginnings |
| `Inspect.InspectArchive` | crates/elhone/src/oci/rootfs.rs:648-676 | an archive is accepted exactly when every member is sound and no path repeats, and its plan returned; an error is that of the first member that cannot be taken after those before it |
| `LayerApply.ReachableIsUnblocked` | crates/elhone/src/oci/rootfs.rs:696-723 | what the parent walk finds in the half-applied tree, said of the lower tree and what has gone from it |
| `LayerApply.ReplaceWithEmptyDirectory` | crates/elhone/src/oci/rootfs.rs:303-334 | an opaque whiteout takes away everything at its directory that the layer does not make itself, be it a directory, a leaf or missing |
| `LayerApply.ApplyOpaque` | crates/elhone/src/oci/rootfs.rs:299-335 | one opaque marker is applied exactly when no lower symlink or file not yet gone stands above its directory and no host call fails |
| `LayerApply.ApplyOpaques` | crates/elhone/src/oci/rootfs.rs:299-335 | the whole pass succeeds exactly when every opaque marker fits after those before it and no host call fails; the tree is then the lower one without the opaque directories' contents |
| `LayerApply.RemoveHidden` | crates/elhone/src/oci/rootfs.rs:337-340 | checking and removing one target takes its subtree away, exactly when its parents are clear and no host call fails |
| `LayerApply.ApplyRemovals` | crates/elhone/src/oci/rootfs.rs:336-341 | the pass succeeds exactly when each removing marker fits after the opaque markers and the removals before it |
| `LayerApply.ApplyWhiteouts` | crates/elhone/src/oci/rootfs.rs:298-343 | both passes together: exact success condition, and the tree that remains |
| `LayerApply.SortByDepth` | crates/elhone/src/oci/rootfs.rs:352-352 | the sort returns the same entries, shallower first |
| `LayerApply.DepthOrderSuffices` | crates/elhone/src/oci/rootfs.rs:352-354 | in depth order, a directory's parents are clear when its turn comes exactly when they are clear of everything but the layer's own directories |
| `LayerApply.PrepareDirectory` | crates/elhone/src/oci/rootfs.rs:353-371 | one directory entry: a leaf in its place gives way, a missing one is made, a directory stays, with the exact condition of success |
| `LayerApply.PrepareDirectories` | crates/elhone/src/oci/rootfs.rs:347-371 | the directory pass succeeds exactly when every directory entry fits |
| `LayerApply.LeavesDoNotBlock` | crates/elhone/src/oci/rootfs.rs:373-377 | since nothing lies under a leaf entry, removing earlier leaf targets never decides whether a later one is reachable |
| `LayerApply.RemoveReplaced` | crates/elhone/src/oci/rootfs.rs:373-377 | the pass over the other entries succeeds exactly when each fits, and takes each target's subtree away |
| `LayerApply.PrepareReplacements` | crates/elhone/src/oci/rootfs.rs:346-378 | both replacement passes: exact success condition, and the tree that remains |
| `LayerUnpack.GoneIsHidden` | crates/elhone/src/oci/rootfs.rs:297-378 | the paths the passes take away are exactly those the layer hides, up to directories it makes itself |
| `LayerUnpack.PreparedIsUnpacked` | crates/elhone/src/oci/rootfs.rs:622-622 | once the passes are done the tree is the lower tree without what the layer hides, ready for extraction |
| `LayerUnpack.LinkSourceResolves` | crates/elhone/src/oci/rootfs.rs:632-634 | a hard-link source found at its own path is the one the host finds, wherever symlinks in the tree may lead |
| `LayerUnpack.LinkSeen` | crates/elhone/src/oci/rootfs.rs:632-634 | what a hard link's source shows when the link is extracted: an earlier member, or a lower file that is not hidden |
| `LayerUnpack.ExtractMember` | crates/elhone/src/oci/rootfs.rs:632-634 | one member extracted in archive order: missing parents become directories, the node goes to its path, a hard link without a source fails |
| `LayerUnpack.Unpack` | crates/elhone/src/oci/rootfs.rs:632-634 | extraction succeeds exactly when every hard link finds its source and no host call fails; a success leaves the expected node at every path |
| `LayerUnpack.MarkerStands` | crates/elhone/src/oci/rootfs.rs:636-639 | each extracted marker is still an empty file with clear parents when it is removed, so this pass fails only when the host does |
| `LayerUnpack.RemoveMarkers` | crates/elhone/src/oci/rootfs.rs:636-639 | all markers go and nothing else does, unless a host call fails |
| `LayerUnpack.ApplyPlan` | crates/elhone/src/oci/rootfs.rs:614-641 | success exactly when the layer is acceptable on the lower tree and no host call fails; every path then shows the overlay, no lower inode is rewritten (so a replaced hard-linked name leaves the others as they were), untouched names keep their inodes, and new files have new ones |
| `LayerArchive.EntryDoes` | crates/elhone/src/oci/rootfs.rs:388-441 | one entry makes and hides exactly the paths its member's name, kind and path say |
| `LayerArchive.MemberIsShown` | crates/elhone/src/oci/rootfs.rs:632-639 | a directory member shows a directory, a file its data, a symlink its text, a hard link a leaf under its source's inode, a marker nothing |
| `LayerArchive.ArchiveShows` | crates/elhone/src/oci/rootfs.rs:614-641 | the overlay of the plan in terms of the members: they show what they are, parents of members are directories, what a member hides is gone, the rest is as it was under the same inode |
| `LayerArchive.Apply` | crates/elhone/src/oci/rootfs.rs:614-641 | success exactly when every member is sound, no path repeats, the plan is acceptable on the lower tree and no host call fails; then all of the above; an archive with an unsound member or a repeated path is refused with the tree untouched; a failure of whatever kind leaves a closed tree with no lower inode rewritten |
| `LayerStack.OverlayIsTopDown` | crates/elhone/src/oci/rootfs.rs:614-641 | laying a layer over a stack shows, at every path, what looking through that layer first and then down the stack shows |
| `LayerStack.AcceptedBySight` | crates/elhone/src/oci/rootfs.rs:614-641 | whether a layer is accepted depends on the lower tree only through what it shows, not through inodes or history |
| `LayerStack.ApplyLayers` | crates/elhone/src/oci.rs:516-535 | the layer loop succeeds exactly when every archive is sound, every layer acceptable on those below and no host call fails; the result at every path is the top-down lookup, and the last archive's members show what they are |
| `LayerOrder.NodeMoves` | crates/elhone/src/oci/rootfs.rs:632-634 | a member, hard links included, has the same node in every order in which the hard links resolve |
| `LayerOrder.OrderDoesNotShow` | crates/elhone/src/oci/rootfs.rs:297-343 | the overlay is the same in every order in which the hard links resolve, so in every order that is accepted: whiteouts hide only lower layers |
| `LayerOrder.AcceptedInEveryOrder` | crates/elhone/src/oci/rootfs.rs:297-378 | a layer is accepted in every order of its members if and only if every opaque directory is clear of lower leaves, every removal target is clear of those the opaque markers leave, every hard link's source is a lower leaf the layer leaves alone, and every member's parents are clear in the end |
| `LayerOrder.OrderMattersWhen` | crates/elhone/src/oci/rootfs.rs:297-378 | without hard links, some orders are accepted and some refused if and only if the order by depth is accepted and that condition fails |
| `LayerOrder.OrderDecidesAcceptance` | crates/elhone/src/oci/rootfs.rs:299-303 | over every lower tree whose one leaf is at a path, opaque markers there and below it are accepted in one order and refused in the other |
| `LayerOrder.OrderDecidesOnSymlink` | crates/elhone/src/oci/rootfs.rs:299-303 | a concrete such tree, with a symlink |
| `LayerOrder.ShallowFirstSuffices` | crates/elhone/src/oci/rootfs.rs:299-341 | an order that lists shallower whiteouts first, and in which hard links resolve, is accepted whenever any order is |
| `LayerOrder.SortedIsShallowFirst` | crates/elhone/src/oci/rootfs.rs:299-341 | sorting by depth is such an order of the same members |
| `Layout.TotalSizeAdd` | crates/elhone/src/oci/rootfs.rs:778-787 | the total over distinct inodes does not depend on the order in which they are met |
| `Layout.Meter.Count` | crates/elhone/src/oci/rootfs.rs:778-787 | an inode met again counts nothing; counting fails exactly when a counter would leave u64 |
| `Layout.Meter.MeasureTree` | crates/elhone/src/oci/rootfs.rs:772-800 | for every listing order, the counters are the number of distinct inodes at or below the path and the total size of the distinct regular files; failure exactly on overflow |
| `Layout.Meter.MeasureChildren` | crates/elhone/src/oci/rootfs.rs:789-798 | the same for the loop over one directory's entries |
| `Layout.AlignedIsLeast` | crates/elhone/src/oci/rootfs.rs:802-806 | rounding up gives the least multiple of 64 MiB that suffices |
| `Layout.RoundUpExact` | crates/elhone/src/oci/rootfs.rs:802-806 | the checked rounding fails exactly when the rounded value does not fit u64 |
| `Layout.BudgetIsLeast` | crates/elhone/src/oci/rootfs.rs:749-753 | the inode budget is the least number that is at least 8192 and leaves a quarter of the counted inodes to spare |
| `Layout.CapacityMonotone` | crates/elhone/src/oci/rootfs.rs:749-763 | a tree with more bytes and inodes never gets a smaller layout |
| `Layout.Size` | crates/elhone/src/oci/rootfs.rs:749-769 | the inode number is the least n with n >= 8192 and a quarter to spare; the capacity is the least multiple of 64 MiB that leaves a quarter of the data and 64 MiB to spare, 16 KiB per inode and 256 MiB; overflow is returned exactly when no such capacity fits u64, whichever checked step notices it |
| `Layout.NewLayout` | crates/elhone/src/oci/rootfs.rs:743-769 | measuring and sizing together, in terms of the tree's exact counts |
| `VmLifecycle.PrepareNetwork` | crates/barbirolli/src/network/linux.rs:85-145 | the calls in order up to the first that fails, undone after the TAP is there; TAP and table are both there on success; on failure each that remains is named by the rollback error |
| `VmLifecycle.CleanupNetwork` | crates/barbirolli/src/network/linux.rs:179-204 | both deletions are attempted, and what remains is named by the error |
| `VmLifecycle.RollbackVm` | crates/barbirolli/src/vm/managed.rs:437-459 | a process is stopped and the VM's files cleaned up, and what remains is named by the error |
| `VmLifecycle.Rollback` | crates/barbirolli/src/vm/managed.rs:493-548 | the rollback of the later stages releases what the attempt acquired or reports it |
| `VmLifecycle.JoinCgroup` | crates/barbirolli/src/vm/managed.rs:751-777 | a cgroup directory the attempt made is removed again or its removal failure reported; an existing one is refused |
| `VmLifecycle.StartManaged` | crates/barbirolli/src/vm/managed.rs:477-568 | at most one process; success holds TAP, table, FIFO and cgroup; a failure accounts for everything left, and while the host does nothing unasked happens exactly over a stale cgroup directory; the calls are those of each stage in order up to the first that fails, then exactly the undoing of those before it |
| `VmLifecycle.Reconcile` | crates/barbirolli/src/vm/managed.rs:295-317 | everything is tried whatever fails, and exactly what failed is reported; success leaves nothing at all on the host, a failure names each thing left |
| `VmLifecycle.CleanupCgroupAndMetrics` | crates/barbirolli/src/vm/managed.rs:350-368 | success leaves neither FIFO nor cgroup directory |
| `VmLifecycle.ShutdownManaged` | crates/barbirolli/src/vm/managed.rs:585-634 | a process that is gone is left alone; on x86 one escalating call, elsewhere the guest is asked first; success means the process is gone |
| `VmLifecycle.BarbirolliVm.Cleanup` | crates/barbirolli/src/vm/managed.rs:654-687 | the network handle is dropped exactly when its cleanup did not fail, and TAP and table are then gone; the cgroup handle is dropped in any case, a directory it leaves is named, and without the handle the directory stays |
| `VmLifecycle.BarbirolliVm.Start` | crates/barbirolli/src/lifecycle/linux.rs:556-594 | every transition of start, with the calls made, what it leaves on the host and in the error |
| `VmLifecycle.BarbirolliVm.Shutdown` | crates/barbirolli/src/lifecycle/linux.rs:598-637 | every transition of shutdown, with the calls made; a success leaves the cgroup directory exactly when it was there and its handle was not; failing leaves a VM failed, never running |
| `VmLifecycle.SilentFailureHoldsNothing` | crates/barbirolli/src/vm/managed.rs:437-548 | a failed start whose error carries no rollback failure left no process, TAP, table, socket or FIFO |
| `VmLifecycle.LeftoversAreNamed` | crates/barbirolli/src/lifecycle/linux.rs:598-637 | whatever a failed shutdown or reconciliation leaves, its error names, except a cgroup directory whose handle is gone |
| `VmLifecycle.LeftoversOnlyInFailedOrManaged` | crates/barbirolli/src/lifecycle/linux.rs:556-637 | anything but a stale cgroup directory is held only by a failed or managed VM |
| `VmLifecycle.HealthyStart` | crates/barbirolli/src/lifecycle/linux.rs:556-594 | while the host does nothing unasked, exactly which states a start brings to running |
| `VmLifecycle.ShutdownLeavesCgroup` | crates/barbirolli/src/vm/managed.rs:671-687 | a successful shutdown leaves nothing but, exactly when it was stranded before, the cgroup directory |
| `VmLifecycle.ShutdownStartStart` | crates/barbirolli/src/vm/managed.rs:671-675 | from every state a VM can be in, shutdown, start, start ends running once the host stops failing; the first start already does if and only if no cgroup directory was stranded before the shutdown |
| `VmLifecycle.CgroupOutlivesItsHandle` | crates/barbirolli/src/vm/managed.rs:671-675 | how one is stranded: from a running VM, a shutdown in which only the directory's removal fails, then a successful one; the next start fails, the one after succeeds |
| `VmLifecycle.OutcomesKeepInv` | crates/barbirolli/src/lifecycle/linux.rs:556-637 | whatever fails, a VM keeps at most one process, and a Discovered one holds at most a cgroup directory |
| `Manager.StepKeepsInv` | crates/barbirolli/src/lifecycle/linux.rs:159-274 | every step of every interleaving keeps the invariant: at most one process per VM, the drain flag never cleared, visited entries quiet |
| `Manager.StartEndKeepsInv` | crates/barbirolli/src/lifecycle/linux.rs:556-594 | a start that passed its drain check before the flag was set may finish later, and its entry is then still to be visited |
| `Manager.SweepKeepsInv` | crates/barbirolli/src/lifecycle/linux.rs:250-265 | what the shutdown loop has visited stays not running, and Discovered where nothing failed |
| `Manager.RunKeepsInv` | crates/barbirolli/src/lifecycle/linux.rs:159-274 | the invariant holds in every state of every run |
| `Manager.ShutdownIsFinal` | crates/barbirolli/src/lifecycle/linux.rs:250-274 | once a manager shutdown has returned no VM is running or being started again; if it returned Ok, every registered VM is Discovered and holds nothing but perhaps a stale cgroup directory |
| `Manager.DiscoveredHoldsNothing` | crates/barbirolli/src/lifecycle/linux.rs:556-637 | in every reachable state each VM has at most one process, and a Discovered one has no process, TAP, table, socket or FIFO; a running one has its network and cgroup handles |
| `Manager.ReachableVmRecovers` | crates/barbirolli/src/lifecycle/linux.rs:556-637 | from every reachable state, shutdown, start, start on a host that stopped failing ends running |
| `Manager.Barbirolli.CheckCreate` | crates/barbirolli/src/lifecycle/linux.rs:169-185 | creation is admitted exactly when the manager is not draining and fewer than `count` VMs are managed and have not failed |
| `Manager.Barbirolli.InsertCreated` | crates/barbirolli/src/lifecycle/linux.rs:198-200 | a created VM enters the map as Discovered under an id no VM had |
| `Manager.Barbirolli.VisitEntry` | crates/barbirolli/src/lifecycle/linux.rs:254-259 | one turn of the shutdown loop shuts its entry down, notes a failure and goes on |
| `Manager.Barbirolli.BeginStart` | crates/barbirolli/src/lifecycle/linux.rs:559-559 | a start proceeds exactly when the flag is not set while it holds the entry |
| `Manager.Barbirolli.EndStart` | crates/barbirolli/src/lifecycle/linux.rs:560-594 | the rest of a start is one of the outcomes the system allows |
| `Manager.Barbirolli.ShutdownVm` | crates/barbirolli/src/lifecycle/linux.rs:598-637 | a shutdown under the entry lock is one of the outcomes the system allows |
| `Manager.Barbirolli.Delete` | crates/barbirolli/src/lifecycle/linux.rs:228-243 | unless draining or unknown, the VM is shut down, and leaves the map exactly when that succeeded and its deletion was persisted |
| `Manager.Barbirolli.Shutdown` | crates/barbirolli/src/lifecycle/linux.rs:250-265 | run alone, it shuts down every entry, leaves no VM running and succeeds exactly when all ended Discovered |
| `Idle.Monitor.Observe` | crates/barbirolli/src/idle.rs:77-101 | the object does what the strike machine does; the decision is a reset exactly when the sample shows activity |
| `Idle.Monitor.ObservationOf` | crates/barbirolli/src/idle.rs:103-111 | the observation carries the decision and the last activity as of this sample |
| `Idle.Stands` | crates/barbirolli/src/idle.rs:77-101 | after any stream the monitor stands on the rung its strikes say, counted from the last activity, and no later sample has reached the next rung |
| `Idle.FirstStrike` | crates/barbirolli/src/idle.rs:77-101 | with no activity in between, the first strike comes at the first sample the initial interval or more after the last activity |
| `Idle.NextStrike` | crates/barbirolli/src/idle.rs:90-98 | with no activity in between, the second and third strikes come each at the first sample the strike interval or more after the one before |
| `Idle.ShutdownAfterStrikes` | crates/barbirolli/src/idle.rs:87-100 | with no activity since the third strike, a shutdown is decided at exactly the samples the final interval or more after it |
| `Idle.DefaultThreshold` | crates/barbirolli/src/idle.rs:60-64 | the default policy's CPU threshold is one percent |
| `Idle.StrikeMeans` | crates/barbirolli/src/idle.rs:90-98 | the nth strike is issued exactly at the first sample one interval or more after the (n-1)th, with no activity since |
| `Idle.ShutdownMeans` | crates/barbirolli/src/idle.rs:87-100 | a shutdown is decided exactly at idle samples taken the final interval or more after the third strike |
| `Idle.StrikesInOrder` | crates/barbirolli/src/idle.rs:90-100 | since the last reset strikes come one, two, three, and a shutdown only after all three |
| `Idle.ShutdownNotBefore` | crates/barbirolli/src/idle.rs:77-101 | a shutdown comes no earlier than initial + 2 x strike + final after the last activity |
| `Idle.ShutdownInTime` | crates/barbirolli/src/idle.rs:77-101 | with samples at most d apart and no activity, a shutdown is decided no later than that plus 4d |
| `Idle.IdleMeans` | crates/barbirolli/src/idle.rs:114-142 | a sample shows no activity exactly when pid, network, disk and process count are those of the sample before, no connection is established, and, if time passed and there are vCPUs, the CPU used is within the share a fifth of the way from the idle to the active percentage |
| `Idle.IdleIsStill` | crates/barbirolli/src/idle.rs:126-142 | since the last activity pid, network, disk and process count are unchanged and no sample had an established connection |
| `Idle.IdleCpuWithin` | crates/barbirolli/src/idle.rs:114-124 | for increasing times and fixed vCPUs, total CPU since the last activity is at most threshold x vCPUs x elapsed |
| `Idle.ShutdownIsIdle` | crates/barbirolli/src/idle.rs:77-142 | all of this for every shutdown decision |
| `Heartbeat.WatchedVm.ObservationOf` | crates/barbirolli/src/lifecycle/linux.rs:455-476 | the first sample only sets the baseline; the monitor is always the strike machine run over all samples read |
| `Heartbeat.WatchedVm.Heartbeat` | crates/barbirolli/src/lifecycle/linux.rs:479-548 | a heartbeat stops the VM exactly when its two samples were both read and both decided for shutdown; the second is taken only when the first decided so |
| `Heartbeat.AutomaticShutdownIsIdle` | crates/barbirolli/src/lifecycle/linux.rs:511-545 | an automatic shutdown follows two consecutive decisions over one process, which has been idle for the four intervals by the first of them |
| `VmIds.ValueOfDigits` | crates/barbirolli/src/vm.rs:160-163 | the decimal name of an id reads back as the id |
| `VmIds.DigitsInjective` | crates/barbirolli/src/vm.rs:160-163 | different ids have different names |
| `Network.LastOctetFits` | crates/barbirolli/src/network.rs:82-97 | for every id the offset fits u16, and the octets made of it fit u8, the guest's included |
| `Network.NameIsValid` | crates/barbirolli/src/network.rs:88-91 | the TAP name is always a valid interface name, so the allocation never fails |
| `Network.AllocationInPool` | crates/barbirolli/src/network.rs:82-97 | every address lies in the VM's /30 and that in the pool |
| `Network.HexDigits` | crates/barbirolli/src/network.rs:96-96 | the digits of the MAC are the lower-case hexadecimal ones |
| `Network.AllocationIsStable` | crates/barbirolli/src/network.rs:82-97 | the first and the last allocation, literally |
| `Network.AllocationsApart` | crates/barbirolli/src/network.rs:82-97 | different ids share no TAP name, no subnet address, no guest address and no MAC |
| `Network.OverlapsMeans` | crates/barbirolli/src/network/linux.rs:378-389 | a route counts as overlapping exactly when some address lies in it and in the pool |
| `Firewall.InstallRules` | crates/barbirolli/src/network/linux.rs:222-336 | the transaction holds, in order, a DNAT rule per binding in both NAT chains and the forward rules of the plan |
| `Firewall.InstallFor` | crates/barbirolli/src/network/linux.rs:222-336 | for a VM, the transaction is the table the theorems speak of |
| `Firewall.FilterApplies` | crates/barbirolli/src/network/linux.rs:296-332 | exactly which packets each kind of forward rule applies to |
| `Firewall.TablesApart` | crates/barbirolli/src/network/linux.rs:86-86 | no two VMs share a table |
| `Firewall.TableAccepts` | crates/barbirolli/src/network/linux.rs:296-332 | one table drops exactly what leaves on its own TAP without being permitted |
| `Firewall.TablesAccept` | crates/barbirolli/src/network.rs:125-147 | any list of tables accepts a packet exactly when every VM whose TAP it leaves on permits it |
| `Firewall.VerdictIsItsOwn` | crates/barbirolli/src/network.rs:125-147 | with one table per VM, the verdict on a packet leaving on a VM's TAP is that VM's alone: established or related from its host interface or the pool, or TCP to its address on a published internal port; other tables never matter |
| `Firewall.VerdictIsPlain` | crates/barbirolli/src/network.rs:125-147 | that is the plain condition, established or related or published, for all packets if and only if the host's interface is not the VM's own TAP |
| `Firewall.OwnTapIsLetOut` | crates/barbirolli/src/network/linux.rs:298-303 | a packet for which it is not, on a host whose interface is the TAP |
| `Firewall.PoolIsExcluded` | crates/barbirolli/src/network.rs:112-122 | a binding sends into the pool, and no binding of any VM takes what is bound for the pool |
| `Firewall.ChainFrom` | crates/barbirolli/src/network/linux.rs:270-294 | one NAT chain rewrites by its first binding that takes the packet, and otherwise not |
| `Firewall.Untouched` | crates/barbirolli/src/network/linux.rs:270-294 | a packet no binding takes passes all tables unchanged |
| `Firewall.FirstBindingWins` | crates/barbirolli/src/network.rs:112-122 | over any list of tables exactly one rewrite happens, by the first binding that takes the packet |
| `Firewall.PublishedPortIsReachable` | crates/barbirolli/src/network/linux.rs:270-332 | an inbound packet taken by a binding is, after rewriting, accepted on that VM's TAP by all tables together |
| `Quote.ReplaceJoins` | crates/meier/src/lib.rs:2256-2260 | replacing distributes over concatenation |
| `Quote.ChainedIsEscaped` | crates/meier/src/lib.rs:2256-2260 | the four chained replacements are one escape per character |
| `Quote.DoubleInverts` | crates/meier/src/lib.rs:2255-2261 | reading the escaped text in double quotes gives the text back |
| `Quote.SingleInverts` | crates/meier/src/lib.rs:2263-2263 | reading the single-quoted text gives the text back |
| `Quote.QuoteRoundTrip` | crates/meier/src/lib.rs:2251-2264 | a POSIX shell reads the quoted value as one word equal to it, except that a leading `$HOME` alone or before a slash becomes the home directory |
| `VmStore.LoadMeans` | crates/barbirolli/src/storage/linux.rs:518-569 | a directory loads exactly when its config is what `create` writes for the id in its name, deleted or not |
| `VmStore.SpecIsItsOwn` | crates/barbirolli/src/storage/linux.rs:104-117 | what a new VM's specification says; its paths are its own |
| `VmStore.CreatingMeans` | crates/barbirolli/src/storage/linux.rs:491-503 | which directory names are stale creations |
| `VmStore.Store.List` | crates/barbirolli/src/storage/linux.rs:579-595 | every entry once, in any order |
| `VmStore.Store.NextItem` | crates/barbirolli/src/storage/linux.rs:605-631 | stale creations met on the way are removed; the next finished directory is loaded and checked |
| `VmStore.Store.NextId` | crates/barbirolli/src/storage/linux.rs:597-603 | the id is the number of finished directories, all of which load, with every stale creation gone; exhaustion only above 16383 |
| `VmStore.Store.All` | crates/barbirolli/src/storage/linux.rs:133-137 | every finished directory's specification once, or an error |
| `VmStore.Store.Create` | crates/barbirolli/src/storage/linux.rs:82-125 | a temporary directory and the specification for the next id; a failure leaves the finished directories as they were |
| `VmStore.Store.Finish` | crates/barbirolli/src/storage/linux.rs:196-202 | the rename gives the new id its directory, or the finished directories stay as they were |
| `VmStore.Store.Abandon` | crates/barbirolli/src/storage/linux.rs:35-37 | dropping a creation touches no finished directory |
| `VmStore.Store.Delete` | crates/barbirolli/src/storage/linux.rs:181-186 | only the deleted flag of that VM's config changes |
| `VmStore.ScanEnds` | crates/barbirolli/src/storage/linux.rs:133-137 | a completed scan has seen each finished directory exactly once, whatever the listing order |
| `StoreRuns.DenseCounts` | crates/barbirolli/src/storage/linux.rs:597-603 | directories named 0 to n-1 count to n, so the next id is free |
| `StoreRuns.PreparedLoads` | crates/barbirolli/src/storage/linux.rs:104-120 | everything `create` writes passes every check of a later load |
| `StoreRuns.DeletedLoads` | crates/barbirolli/src/storage/linux.rs:181-186 | and still does once marked deleted |
| `StoreRuns.StepKeepsInv` | crates/barbirolli/src/storage/linux.rs:82-203 | every step keeps disk and registry in agreement |
| `StoreRuns.RunKeepsInv` | crates/barbirolli/src/storage/linux.rs:82-203 | over every run, with crashes before and after the rename |
| `StoreRuns.IdsAreDense` | crates/barbirolli/src/storage/linux.rs:597-603 | the finished directories are exactly those of 0 to n-1, in the order issued |
| `StoreRuns.NewIdsAreFresh` | crates/barbirolli/src/storage/linux.rs:88-91 | each new id is larger than every id before it |
| `StoreRuns.IdsAreNeverReassigned` | crates/barbirolli/src/storage/linux.rs:181-203 | an issued id names the same VM for ever, and a deleted one stays deleted |
| `StoreRuns.ReachableLoads` | crates/barbirolli/src/storage/linux.rs:517-569 | in every reachable state all finished directories load and their number is that of the ids issued |
| `StoreRuns.ReopenRestores` | crates/barbirolli/src/lifecycle/linux.rs:320-345 | reopening registers exactly the VMs registered before, with the same specifications, all Discovered with nothing on the host, and ids go on where they stopped |
| `StoreRuns.Service.BeginCreate` | crates/barbirolli/src/storage/linux.rs:82-125 | creation reports exhaustion only when 16384 ids are issued, whatever fails, and then whenever no host call fails; it succeeds exactly when fewer are issued and no host call fails |
| `StoreRuns.Service.FinishCreate` | crates/barbirolli/src/lifecycle/linux.rs:191-200 | provisioning and finish: the VM's directory is in place, or nothing changed |
| `StoreRuns.Service.RegisterVm` | crates/barbirolli/src/lifecycle/linux.rs:198-200 | a finished creation enters the registry |
| `StoreRuns.Service.DeleteVm` | crates/barbirolli/src/lifecycle/linux.rs:228-243 | a VM leaves the registry only after its deletion is on disk |
| `StoreRuns.Service.ReopenStore` | crates/barbirolli/src/lifecycle/linux.rs:320-345 | loading and reconciling over whatever the last manager left of each VM: the registry is exactly the VMs not deleted on disk, every one Discovered with nothing on the host, in a state manager runs start from; or it fails with nothing registered |
| `StoreRuns.ReconcileVm` | crates/barbirolli/src/vm/managed.rs:295-317 | a VM is registered as Discovered with a clean host or not at all |
| `OciStore.ActionKeepsInv` | crates/elhone/src/oci.rs:164-294 | everything that can happen at once, inside the store or outside, keeps ownership straight |
| `OciStore.HistoryKeepsInv` | crates/elhone/src/oci.rs:164-294 | over every history |
| `OciStore.RecordedOnce` | crates/elhone/src/oci.rs:195-236 | a registered VM the store created is recorded in its own entry, in no other, and is the reference's only one |
| `OciStore.OwnsAtMostOne` | crates/elhone/src/oci.rs:218-222 | also in the middle of an operation |
| `OciStore.StoredIdIsOwn` | crates/elhone/src/oci.rs:205-214 | a stored id never names someone else's VM |
| `OciStore.NoEntryNoVm` | crates/elhone/src/oci.rs:269-294 | a reference without an entry has no VM left |
| `OciStore.OthersKeep` | crates/elhone/src/oci.rs:164-185 | what any other client or operation does leaves an operation's locked entry alone and revives no old id |
| `OciStore.PossibleAt` | crates/elhone/src/oci.rs:164-294 | every action of a history was possible when it happened |
| `OciStore.StartIsReal` | crates/elhone/src/oci.rs:319-324 | a successful start in the history is of the reference's own registered VM, running right after it |
| `OciStore.DeletionIsFinal` | crates/elhone/src/oci.rs:327-329 | a VM whose deletion succeeded is never registered again |
| `OciStore.RunStarted` | crates/elhone/src/oci.rs:219-235 | a run that succeeds started, since it began, the VM it answers with |
| `OciStore.Store.EnsurePulled` | crates/elhone/src/oci.rs:164-184 | the entry exists and is locked, with what it held before, or the fetch failed and there is none; a present entry is not fetched |
| `OciStore.Store.Pull` | crates/elhone/src/oci.rs:187-192 | an entry's VM is reported unchanged; failing leaves no entry behind |
| `OciStore.Store.Run` | crates/elhone/src/oci.rs:195-236 | exactly which calls are made, in order, with which result: an existing VM is started, one that is gone replaced; success returns the recorded VM, started since; each error says what the entry still holds |
| `OciStore.Store.RunNew` | crates/elhone/src/oci.rs:214-235 | a VM is created and recorded before it is started; one that cannot be started is deleted and forgotten, or kept in the entry when that fails |
| `OciStore.Store.Stop` | crates/elhone/src/oci.rs:239-266 | exactly which calls are made with which result; success leaves the entry without a VM and the reference owning none; failing changes nothing in the entry |
| `OciStore.Store.Remove` | crates/elhone/src/oci.rs:269-294 | a registered VM that is not Discovered is refused without any call, a Discovered one deleted first; success leaves neither entry nor VM; failing leaves the entry as it was |

## Left out

- LayerUnpack.Unpack: tar extraction is outside the repository; it is modelled as archive order, missing parents made as directories, each entry put at its path.
- LayerUnpack.LinkSeen: a hard link whose source path runs through a symlinked directory counts as having no source, though the host might find one; sources found are those the host finds.
- LayerUnpack.ApplyPlan: refuses a layer with such a hard link, as `LayerArchive.Apply` does.
- LayerArchive.Apply: assumes that no entry lies below a non-directory entry of the same layer, which the code does not check.
- LayerStack.ApplyLayers: like `LayerArchive.Apply`, assumes that no entry lies below a non-directory entry of the same layer, which the code does not check.
- LayerOrder.OrderMattersWhen: with hard links inside the layer, order matters for them as well; `LayerOrder.AcceptedInEveryOrder` covers them.
- Inspect.InspectArchive: tar header decoding, device nodes and other special member kinds, and names that are not text are not modelled.
- Layer metadata: permissions, ownership, xattrs and mtimes are not modelled.
- Layout.NewLayout: one device is assumed, so an inode number alone identifies an inode; directory and symlink lengths count nothing, as in the code.
- Manager.ShutdownIsFinal: entries are locked one at a time; DashMap shard locking, blocking of async tasks and cancelled calls are not modelled, and no deadlock claim is made.
- Manager capacity: the bound on running VMs is checked by `create` only, so no bound on running VMs is claimed.
- VmLifecycle.StartManaged: the VM library is taken to prepare all or nothing, to have stopped the process when a shutdown succeeds, and to have removed socket and FIFO when a cleanup succeeds; a kill is taken to be immediate.
- VmLifecycle.BarbirolliVm.Start: console handles, metrics reader tasks, balloon calls and boot arguments are not modelled.
- OciStore.Store.Run: registry fetching is a yes or no; cancelled calls are not modelled; that ids are never reused is `StoreRuns.NewIdsAreFresh`.
- VmStore.Store.Delete: the write of `config.json` is taken to be atomic.
- VmStore.Store.Finish: the target name is taken to be free or the rename fails; an empty target directory cannot occur in a reachable state.
- StoreRuns.IdsAreDense: nothing else is assumed to write into the VM root.
- Idle.ShutdownIsIdle: times are integers and CPU shares exact reals; instants past the end of the clock are not modelled.
- Firewall.VerdictIsItsOwn: masquerading on the way out is in the table but its effect on source addresses is not modelled; connection tracking appears only as the packet's state.
- Network.OverlapsMeans: choosing the default route and listing host routes are not modelled.
- Quote.QuoteRoundTrip: of the shell only literal characters, quoting and named parameters in double quotes are read; any other expansion makes the reader fail, which quoting never does.
- HTTP routing, status mapping, JSON decoding, digests, compression, `mkfs.ext4`, loop mounting, provisioning of the root filesystem, command line, setup and daemon launching, macOS stubs and log streaming are not modelled.
