# MacFUSE kernel extension (10.4): a verified model

The kernel extension is a set of state machines that threads run through at the
same time, and whose correctness the code argues in comments, asserts and panics.
This project models its core in Dafny and proves what those arguments promise.
`dafny verify dfyconfig.toml` checks everything.

Each part has the same shape. The code that updates fields and queues under a
lock is a class whose methods are proved against functions on values (`Session`,
`NodeTable`, `LockFour`, `Device`, `Handles`, `Readdir`, `Strategy`, `Sizes`,
`TimeoutAlert`). A protocol over these functions says which steps threads can take
and in which order (`TicketProtocol`, `NodeProtocol`, `LockProtocol`,
`DeviceProtocol`, `VnodeRuns`). An invariant of all its steps is proved, and the
results are about every run or every reachable state.

* **Tickets** (`Session`, `TicketProtocol`, `TicketInvariant`, `TicketSafety`,
  `TicketFaults`, `TicketAnswers`, `TicketPool`, `TicketKinds`): requesters, signals and the daemon race over tickets on four
  lists. A step is one critical section, or one stretch of code on a ticket that
  no lock protects. A ticket is known by its address, which is free again once it
  is destroyed. Its `gen` counts its refreshes; the 32-bit `tk_age` is `gen` modulo
  2^32. The daemon answers what it has read, each message at most once, and never
  FORGET or INTERRUPT. The session is alive. An interrupted requester marks its
  ticket and then looks for it on a queue (`Stamp` and `Scan`); the results hold
  for runs in which that look does not mistake another use of a ticket for the one
  given up (`ScanSafe`), among them all runs of up to 2^32 steps in which no ticket
  is destroyed. The runs in `TicketFaults` show what goes wrong otherwise.
* **Node table** (`NodeTable`, `NodeProtocol`, `NodeInvariant`, `NodeSteps`,
  `NodeRelease`, `NodeSafety`, `NodeRefinement`, `NodeLookup`): lookups that allocate outside the
  mutex and retry, attaches, detaches, reclaims, sleepers. A `Vnode` here is a
  vnode together with its vid, and `vnode_getwithvid` succeeds only while that
  vnode has not been reclaimed.
* **Locks of up to four nodes** (`LockFour`, `LockProtocol`, `LockSafety`).
  Sentinel pointers do not occur as arguments, and the parents of the nodes do not
  change while the locks are being taken.
* **Open, close, mount, unmount** (`Device`, `DeviceProtocol`, `DeviceInvariant`,
  `DeviceSafety`, `DeviceVerdicts`), for any number of devices with one global lock and a lock each.
  A device is closed once for each open that succeeded, and a mount is unmounted at
  most once.
* **Handles and lookup counts** (`Handles`, `VnodeRuns`, `OpenCounts`): each vnode operation is
  one step, with the daemon's replies as its parameters.
* **Directory reading** (`Dirent`, `Readdir`), **block I/O** (`Strategy`), **sizes**
  (`Sizes`), **the timeout alert** (`TimeoutAlert`).

Where code and comments disagree the code is followed. Six promises do not hold
as they stand, and each has its exact condition: `TicketSafety.AgeCheckExactly`
(the age check), `TicketSafety.StampedTicketLives` (an interrupted requester's
pointer to its ticket), `TicketSafety.ReturnedTicketLives` (the pointer that an
fsync follows after its ticket was dropped), `LockFour.LockListExact` (one lock
for each node), `LockSafety.DeadlockFreeIffTransitive` (no deadlock) and
`Handles.HandOffKeeps` with `VnodeRuns.StepCounts` (the count of open handles).

## Model

| member | source | states |
|---|---|---|
| `Session.FuseData.FetchLocked` | core/10.4/fusefs/fuse_ipc.c:563-578 | a ticket comes off the free list, or none when the counter is 0; counter and list move together and both count panics are recorded |
| `Session.FuseData.FetchEnds` | core/10.4/fusefs/fuse_ipc.c:580-596 | before the handshake only the first ticket goes ahead at once; beyond the limit on tickets the session is declared dead |
| `Session.FuseData.AllocTicket` | core/10.4/fusefs/fuse_ipc.c:125-151 | a zeroed ticket with the next unique number, at any address not in use |
| `Session.FuseData.PushAllTicks` | core/10.4/fusefs/fuse_ipc.c:530-536 | the new ticket joins the all list |
| `Session.FuseData.DropLocked` | core/10.4/fusefs/fuse_ipc.c:599-620 | the first section of a drop: the ticket is destroyed, counted dead and off the all list, or left alone, by the pool's size and the ticket's mark |
| `Session.FuseData.DropKept` | core/10.4/fusefs/fuse_ipc.c:616-626 | a kept ticket is refreshed and goes to the end of the free list |
| `Session.FuseData.Kill` | core/10.4/fusefs/fuse_ipc.c:628-635 | the ticket leaves the all list and is counted dead |
| `Session.FuseData.InsertCallbackLocked` | core/10.4/fusefs/fuse_ipc.c:645-657 | handler stored and ticket appended to the aw queue, but nothing on a dead session |
| `Session.FuseData.InsertMessageLocked` | core/10.4/fusefs/fuse_ipc.c:659-679 | a ticket is marked and goes on the ms queue once per refresh, and is only marked on a dead session; a second time is the panic |
| `Session.FuseData.DeviceReadLocked` | core/10.4/fusefs/fuse_device.c:311-336 | the oldest message leaves the ms queue; without one the reader returns or sleeps, and on a dead session there is no device |
| `Session.FuseData.DeviceWriteLocked` | core/10.4/fusefs/fuse_device.c:440-452 | the walk of the aw queue removes the first ticket with the reply's unique number, or says that there is none |
| `Session.FuseData.StandardHandlerLocked` | core/10.4/fusefs/fuse_ipc.c:921-945 | the handler completes the ticket, or must drop it if the requester gave up first |
| `Session.FuseData.InterruptedLocked` | core/10.4/fusefs/fuse_ipc.c:1046-1057 | the requester that was interrupted marks the ticket answered and notes its age, or finds it answered |
| `Session.FuseData.PreventIoInVain` | core/10.4/fusefs/fuse_ipc.c:1057-1069 | if the requester's ticket is there still, the walk of the aw queue clears the handler exactly if the ticket at its address is queued with the age noted |
| `TicketSafety.StepKeepsInv` | core/10.4/fusefs/fuse_ipc.c:1030-1102 | each of the 24 steps of requesters, signals, reader and writer keeps the protocol's invariant |
| `TicketSafety.LiveRunsAreSafe` | core/10.4/fusefs/fuse_device.c:440-469 | over every live run whose scans are safe: a ticket being dropped is in no queue and no other thread works on it; each reply reaches the use of the ticket whose message was read; live tickets have distinct unique numbers; the free list, the all list and the counters balance; no panic; and no thread works on a destroyed ticket, excepted two kinds of requester that keep a pointer to a ticket no longer theirs: those interrupted, between their stamp and their scan, and those told of an error, after their drop |
| `TicketAnswers.AnswerWasWritten` | core/10.4/fusefs/fuse_ipc.c:1073-1096 | over every live run: a requester that is given an answer is given a reply that the daemon wrote in this run for the very use it waited for, error code and body included |
| `TicketAnswers.CollectExactly` | core/10.4/fusefs/fuse_ipc.c:1073-1101 | over every live run: whoever collects an answer finds a reply that was written for its use and handled, and is given it if neither the reply nor the copying of its body was in error; otherwise it drops the ticket |
| `TicketKinds.ReplyGoesByKind` | core/10.4/fusefs/fuse_ipc.c:920-945 | over every live run: a reply is pulled for a requester if the use was sent for one, answered with a FORGET if it was a RELEASE, and otherwise dropped, as it is if the requester that gave up had the handler cleared |
| `TicketKinds.SentAsAsked` | core/10.4/fusefs/fuse_ipc.c:645-657 | over every live run each request is sent as the kind its thread asked for |
| `TicketPool.MessagesInOrder` | core/10.4/fusefs/fuse_ipc.c:659-679 | over every live run: the messages sent are those the readers have taken, in that order, followed by those queued, each under the use it was sent for |
| `TicketPool.PoolInOrder` | core/10.4/fusefs/fuse_ipc.c:502-528 | over every live run: the tickets put back are those fetched from the pool, in that order, followed by the free list; a fetch allocates exactly if that is empty |
| `TicketPool.DropDestroysExactly` | core/10.4/fusefs/fuse_ipc.c:599-620 | over every live run: a drop destroys the ticket if and only if the limit is not negative and the free list has reached it, or this use was marked to be killed in the run |
| `TicketPool.DropKeepsAtTail` | core/10.4/fusefs/fuse_ipc.c:616-626 | a drop that keeps the ticket ends with it clean at the tail of the free list, and with the pointer in the hands of a caller that got an error |
| `TicketPool.LeaksExactly` | core/10.4/fusefs/fuse_internal.c:1279-1290 | in every reachable state a ticket becomes one that nobody will use again if and only if a caller returns without dropping it or the callback of a RELEASE sends its FORGET |
| `TicketPool.ScanClearsItsUse` | core/10.4/fusefs/fuse_ipc.c:1053-1067 | a requester that gave up clears the handler of its own use if that still awaits the answer when it comes to look |
| `TicketSafety.StampedTicketLives` | core/10.4/fusefs/fuse_ipc.c:1053-1069 | such a requester still finds its ticket when it follows its pointer if and only if no drop since the stamp found the pool full or the ticket marked, and nobody killed it unsent |
| `TicketSafety.ReturnedTicketLives` | core/10.4/fusefs/fuse_internal.c:330-341 | a requester told of an error, whose caller follows the pointer to the ticket after it was dropped, still finds it if and only if neither its own drop nor a later one found the pool full or the ticket marked, and nobody killed it unsent |
| `TicketFaults.ReturnedTicketDestroyed` | core/10.4/fusefs/fuse_internal.c:330-341 | a run at whose end fuse_internal_fsync, told ENOSYS, is about to follow its pointer to a ticket that its own drop has destroyed |
| `TicketSafety.ScanSafeAfterStamp` | core/10.4/fusefs/fuse_ipc.c:1053-1067 | a scan is safe if since the stamp the ticket was not destroyed and was refreshed fewer than 2^32 times |
| `TicketSafety.ShortRunsAreSafe` | core/10.4/fusefs/fuse_ipc.c:1053-1067 | every run of at most 2^32 steps in which no ticket is destroyed has only safe scans |
| `TicketFaults.StampedTicketDestroyed` | core/10.4/fusefs/fuse_ipc.c:1053-1069 | a run at whose end a requester is about to follow its pointer to a ticket that the writer has destroyed |
| `TicketSafety.DroppedOncePerUse` | core/10.4/fusefs/fuse_ipc.c:599-626 | once the fate of a use is decided in a drop, no thread enters a drop for that use again, however the run goes on |
| `TicketSafety.AgeCheckSparesLaterUses` | core/10.4/fusefs/fuse_ipc.c:1053-1067 | in a safe scan, clearing the handler hits only the use that was given up, and nobody is waiting on that use |
| `TicketSafety.AgeCheckExactly` | core/10.4/fusefs/fuse_ipc.c:1053-1067 | another use is mistaken for the one given up if and only if it still awaits its answer and is either a use of the same ticket, a positive multiple of 2^32 refreshes later, or a use with the same age of another ticket that got the address |
| `TicketFaults.AgeWrapBreaksDrops` | core/10.4/fusefs/fuse_ipc.c:1053-1067 | a run with 2^32 refreshes between the stamp and the scan, after which two threads work on a ticket that is being dropped |
| `TicketFaults.AddressReuseBreaksDrops` | core/10.4/fusefs/fuse_ipc.c:1053-1067 | the same with a new ticket at the address of a destroyed one, and no refresh at all |
| `NodeTable.FindFinds` | core/10.4/fusefs/fuse_nodehash.c:404-413 | walking a chain finds the one node with the key, if there is one |
| `NodeTable.InsertKeeps` | core/10.4/fusefs/fuse_nodehash.c:472-474 | insertion keeps the table well formed: right chain, no two nodes with one key, count equal to size |
| `NodeTable.UnlinkKeeps` | core/10.4/fusefs/fuse_nodehash.c:725-750 | so does taking a node out |
| `NodeTable.HashTable.FindNode` | core/10.4/fusefs/fuse_nodehash.c:404-413 | the chain walk computes Find |
| `NodeTable.HashTable.LookupTurn` | core/10.4/fusefs/fuse_nodehash.c:397-627 | one turn of the loop: insert the node at hand, sleep, ask for or install a larger fork array, reserve, or offer a vnode |
| `NodeTable.HashTable.ForkVnodeDecrement` | core/10.4/fusefs/fuse_nodehash.c:724-750 | the count goes down and the node leaves the table exactly at zero |
| `NodeTable.HashTable.AttachVnodeSucceeded` | core/10.4/fusefs/fuse_nodehash.c:752-780 | the vnode is stored and the reservation ends |
| `NodeTable.HashTable.AttachVnodeFailed` | core/10.4/fusefs/fuse_nodehash.c:782-810 | the reservation ends and its reference is given up |
| `NodeTable.HashTable.DetachVnode` | core/10.4/fusefs/fuse_nodehash.c:812-853 | the first fork holding the vnode is emptied and its reference given up |
| `NodeSafety.StepKeepsInv` | core/10.4/fusefs/fuse_nodehash.c:361-690 | every step of lookups, attaches, detaches, reclaims and scrubs keeps the table's invariant |
| `NodeSafety.TableCounts` | core/10.4/fusefs/fuse_nodehash.c:614-615 | in every reachable state with the mutex free: table well formed; each node's count is its vnodes plus its outstanding attach and at least 1; waiting implies an outstanding attach |
| `NodeSafety.ScrubbedNodeIsUnused` | core/10.4/fusefs/fuse_nodehash.c:855-877 | a node to be freed is out of the table with no vnode, no attach, no waiter, so the assert on waiting holds |
| `NodeSafety.OwnersAreSafe` | core/10.4/fusefs/fuse_nodehash.c:752-853 | the node and fork that attach and detach use without a check exist, and the vnode to detach is found |
| `NodeSafety.AttachIsExclusive` | core/10.4/fusefs/fuse_nodehash.c:605-625 | at most one thread at a time has the right to attach to a file |
| `NodeSafety.SleepersAreAwaited` | core/10.4/fusefs/fuse_nodehash.c:502-525 | no wake-up is lost: behind every sleeper there is a thread that still has to finish the attach and knows somebody waits |
| `NodeSafety.FreshNodeIsReserved` | core/10.4/fusefs/fuse_nodehash.c:470-495 | a node that goes into the table is reserved with count 1 before the mutex is dropped |
| `NodeRefinement.StepRefines` | core/10.4/fusefs/fuse_nodehash.c:361-690 | the table refines a map from (device, inode, fork) to absent, attaching or a vnode: each step is one operation on one entry of that map, or none |
| `NodeRefinement.LookupsReturnTheMapped` | core/10.4/fusefs/fuse_nodehash.c:627-665 | the vnode a full or quick lookup returns is the one mapped at that moment |
| `NodeLookup.TurnOutcome` | core/10.4/fusefs/fuse_nodehash.c:397-627 | in every reachable state a turn of the lookup sleeps exactly while an attach to the file is under way, offers exactly the vnode that is mapped, is granted the attach if none is and there is a node with room or one to insert, and else asks for a node or a fork array, or installs one |
| `NodeLookup.QuickOutcome` | core/10.4/fusefs/fuse_nodehash.c:977-1050 | the quick lookup offers a vnode if and only if it is mapped and no attach to the file is under way, and then that one; else it does nothing |
| `NodeLookup.LookupAnswersItsQuery` | core/10.4/fusefs/fuse_nodehash.c:361-690 | whatever other threads do, a lookup goes on asking for the fork it was called for until it ends, and ends with the right to attach there, with the vnode mapped there, or out of memory, or the quick one with a vnode that is going away |
| `NodeLookup.LookupIsServed` | core/10.4/fusefs/fuse_nodehash.c:361-690 | from every reachable state a lookup that nothing stands in the way of is served within four of its own steps |
| `NodeRefinement.HeldIsMapped` | core/10.4/fusefs/fuse_nodehash.c:627-665 | as long as a thread holds the vnode it was given, that vnode is the one mapped |
| `NodeRefinement.VnodeIsMapped` | core/10.4/fusefs/fuse_nodehash.c:752-853 | a vnode stays mapped under its key from attach to detach |
| `NodeRefinement.EveryNodeAccounted` | core/10.4/fusefs/fuse_nodehash.c:676-690 | every node ever allocated was freed, once, or is in the table, or is in the hands of exactly one thread |
| `LockFour.OrderedIsTotal` | core/10.4/fusefs/fuse_locking.c:115-139 | any two different pointers are ordered, and both ways only if the nodes are each other's parents |
| `LockFour.LockListExact` | core/10.4/fusefs/fuse_locking.c:159-185 | the lock list holds each distinct non-NULL node exactly once if and only if the arguments do not collide, which takes a third and fourth argument that are each other's parents; transitivity is not needed |
| `LockFour.MutualParentsCollide` | core/10.4/fusefs/fuse_locking.c:176-185 | with two such nodes the list names one of them twice |
| `LockFour.LockListSorted` | core/10.4/fusefs/fuse_locking.c:176-185 | if the order is transitive the list is strictly sorted by it |
| `LockFour.MergeSorted` | core/10.4/fusefs/fuse_locking.c:176-185 | the same for a merge of sorted sequences of any length |
| `LockFour.NodeLocks.LockNode` | core/10.4/fusefs/fuse_locking.c:42-66 | one lock, shared or exclusive by the mode; a node that no longer exists is unlocked again with ENOENT unless forced |
| `LockFour.NodeLocks.UnlockNode` | core/10.4/fusefs/fuse_locking.c:207-234 | the lock is free again |
| `LockFour.NodeLocks.BuildList` | core/10.4/fusefs/fuse_locking.c:156-185 | the two-cursor merge with sentinels computes the list, within its four entries |
| `LockFour.NodeLocks.LockAll` | core/10.4/fusefs/fuse_locking.c:191-202 | all nodes of the list locked, or the error and all as before |
| `LockFour.NodeLocks.LockFour` | core/10.4/fusefs/fuse_locking.c:149-202 | all the distinct nodes are locked or, if one is gone, none is |
| `LockFour.NodeLocks.UnlockFour` | core/10.4/fusefs/fuse_locking.c:273-314 | exactly the distinct nodes named are unlocked, each once |
| `LockFour.LocksRestored` | core/10.4/fusefs/fuse_locking.c:273-314 | unlocking what was locked restores every lock to its original state |
| `LockSafety.DeadlockFreeIffTransitive` | core/10.4/fusefs/fuse_locking.c:115-202 | concurrent callers on a set of nodes can never wait for each other in a circle if and only if the order is transitive on that set |
| `LockSafety.SomebodyMoves` | core/10.4/fusefs/fuse_locking.c:191-202 | if it is, then in every reachable state some thread under way can take its next step |
| `LockSafety.WritersExclude` | core/10.4/fusefs/fuse_locking.c:47-55 | in every reachable state: if two threads have one node's lock both called for a shared one, and a caller that called for another has each of its nodes exclusively and alone |
| `LockSafety.LockedHasAll` | core/10.4/fusefs/fuse_locking.c:115-202 | a thread that has come through has the lock of every node of its call and of no other, shared or exclusive as called for |
| `LockSafety.AcquireOutcome` | core/10.4/fusefs/fuse_locking.c:42-66 | taking the next lock fails if and only if the node was deleted and is not forced; the thread is through if and only if it has all its nodes; else it has one more |
| `LockSafety.CycleDeadlocks` | core/10.4/fusefs/fuse_locking.c:115-202 | any cycle of the order is a deadlock that as many pairwise callers reach |
| `LockSafety.MixedOrderDeadlocks` | core/10.4/fusefs/fuse_locking.c:130-138 | a directory at a higher address than its child, and a node between the two, make such a cycle |
| `Device.DeviceTable.OpenLocked` | core/10.4/fusefs/fuse_device.c:176-205 | a session is allocated and takes the slot unless a mount lingers there |
| `Device.DeviceTable.CloseLocked` | core/10.4/fusefs/fuse_device.c:237-273 | the session is no longer open, and is destroyed here exactly if it is not mounted |
| `Device.DeviceTable.DeviceCloseFinal` | core/10.4/fusefs/fuse_device.c:90-101 | the slot's session is destroyed and the slot emptied |
| `Device.DeviceTable.MountLocked` | core/10.4/fusefs/fuse_vfsops.c:354-400 | refused without a session or when mounted; else marked mounted and counted, going on or failing |
| `Device.DeviceTable.UndoLocked` | core/10.4/fusefs/fuse_vfsops.c:485-501 | a mount that fails is uncounted and its session destroyed if the device was closed meanwhile |
| `Device.DeviceTable.UnmountLocked` | core/10.4/fusefs/fuse_vfsops.c:618-633 | an unmount uncounts and destroys the session if the device is closed |
| `DeviceSafety.StepKeepsInv` | core/10.4/fusefs/fuse_device.c:136-290 | every step of open, close, mount, failed mount and unmount keeps the invariant |
| `DeviceSafety.DataIffInUse` | core/10.4/fusefs/fuse_device.c:180-200 | in every reachable state a slot has data exactly when a session of that device is open or mounted |
| `DeviceSafety.DestroyedOnce` | core/10.4/fusefs/fuse_device.c:255-273 | every session ever allocated exists or was destroyed, and no session was destroyed twice |
| `DeviceSafety.DestroyedUnused` | core/10.4/fusefs/fuse_device.c:243-273 | a session is destroyed only by the step that ends its last use |
| `DeviceSafety.MountCount` | core/10.4/fusefs/fuse_vfsops.c:382-384 | fuse_mount_count is the number of mounted sessions |
| `DeviceSafety.UseCount` | core/10.4/fusefs/fuse_device.c:165-170 | the use count of a device is 0 or 1 |
| `DeviceSafety.UndoFindsItsOwn` | core/10.4/fusefs/fuse_vfsops.c:485-501 | a failing mount finds its own session when it looks again; the branch that would undo an uncounted mount is dead |
| `DeviceVerdicts.SlotTells` | core/10.4/fusefs/fuse_device.c:163-200 | in every reachable state the slot and its session record who is there: the use count whether anybody is between open and close, the flags whether the daemon has the device open and whether anybody mounts it |
| `DeviceVerdicts.OpenVerdict` | core/10.4/fusefs/fuse_device.c:163-200 | an open goes on if and only if nobody has the device, and gets it if and only if no mount lingers |
| `DeviceVerdicts.MountVerdict` | core/10.4/fusefs/fuse_vfsops.c:354-401 | a mount passes its checks if and only if the number matches, the daemon is alive and may be used, has the device open, and nobody else mounts it; it has to be undone if only the daemon's life or the credentials are missing; otherwise nothing changes |
| `DeviceVerdicts.LastUseDestroys` | core/10.4/fusefs/fuse_device.c:243-273 | a close destroys the session if and only if nobody mounts it, an unmount or the undoing of a mount if and only if the daemon does not have it open |
| `DeviceVerdicts.MountWasPermitted` | core/10.4/fusefs/fuse_vfsops.c:386-401 | over every run: a thread that has a volume mounted passed the checks and after that the handshake |
| `DeviceSafety.OnlyLocksBlock` | core/10.4/fusefs/fuse_device.c:226-237 | no pointer that open, close, mount or unmount follows is NULL or dangling and no panic is reached: only a lock can hold a thread up |
| `DeviceSafety.WaitsDescend` | core/10.4/fusefs/fuse_device.c:163-196 | waiting for the global and device locks goes down in rank: nobody holds a device lock and wants the global one while the holder of the global one wants that device |
| `DeviceSafety.SomebodyMoves` | core/10.4/fusefs/fuse_device.c:163-287 | hence no deadlock: behind every thread that waits there is one that can move |
| `Handles.Vnops.FilehandleGet` | core/10.4/fusefs/fuse_file.c:20-105 | a free slot takes the daemon's handle with count 1; the panic on a valid slot is excluded at every call |
| `Handles.Vnops.FilehandlePut` | core/10.4/fusefs/fuse_file.c:107-162 | a RELEASE is sent for the handle of a slot that is no longer valid, or on a dead file system the handle is abandoned; the panic on a valid slot is excluded at every call |
| `Handles.Vnops.CreateStash` | core/10.4/fusefs/fuse_vnops.c:441-459 | create leaves its handle in the read-write slot |
| `Handles.Vnops.VnopOpen` | core/10.4/fusefs/fuse_vnops.c:1909-1980 | the creator's open moves the stash to its slot, the same one or another; a contender sleeps until then; any other open uses a valid slot or gets a handle |
| `Handles.Vnops.VnopClose` | core/10.4/fusefs/fuse_vnops.c:302-309 | the count goes down, and at zero the handle is released |
| `Handles.Vnops.VnopMmap` | core/10.4/fusefs/fuse_vnops.c:1718-1763 | a mapping uses or gets a handle, once more read-only if a writable one is refused |
| `Handles.Vnops.VnopReaddir` | core/10.4/fusefs/fuse_vnops.c:2429-2453 | a handle got for one directory read is released |
| `Handles.Vnops.StrategyHandle` | core/10.4/fusefs/fuse_internal.c:858-892 | I/O uses its own kind of handle, a read-write one, or gets one |
| `Handles.Vnops.ReleaseAll` | core/10.4/fusefs/fuse_vnops.c:942-951 | every valid handle is put, each once: released, or abandoned on a dead file system |
| `Handles.ReleaseFrees` | core/10.4/fusefs/fuse_vnops.c:2539-2608 | afterwards no slot is valid, and nothing is released on a dead file system nor abandoned on a live one |
| `Handles.UseOrGetKeeps` | core/10.4/fusefs/fuse_vnops.c:1963-1981 | using or getting a handle keeps count and handles in balance |
| `Handles.CloseKeeps` | core/10.4/fusefs/fuse_vnops.c:302-309 | so does close |
| `Handles.MmapKeeps` | core/10.4/fusefs/fuse_vnops.c:1718-1763 | so does mmap, with its retry |
| `Handles.ReleaseKeeps` | core/10.4/fusefs/fuse_vnops.c:942-951 | so does putting every valid handle |
| `Handles.StashKeeps` | core/10.4/fusefs/fuse_vnops.c:441-459 | create's stash is in balance if and only if the read-write slot was free |
| `Handles.HandOffKeeps` | core/10.4/fusefs/fuse_vnops.c:1928-1935 | the hand-off conserves the count if and only if exactly one of the two slots is valid, or the one slot when they are the same; and the handles if and only if it is the stash that is valid, or the other slot has the same handle |
| `VnodeRuns.StepCounts` | core/10.4/fusefs/fuse_file.c:87-105 | any operation keeps fuse_fh_current in step with the valid slots if and only if create and the creator's open find the slots as they expect them |
| `OpenCounts.OpenCountIsUses` | core/10.4/fusefs/fuse_vnops.c:1974-1980 | over every run the open count of each slot is the number of uses taken of it by opens, mappings and I/O less those given up, told from the operations: inactive and reclaim end them all, and the creator's open moves the stash |
| `OpenCounts.LastCloseReleases` | core/10.4/fusefs/fuse_vnops.c:304-310 | over every run a close sends a RELEASE if and only if it gives up the last use of the slot |
| `OpenCounts.FirstOpenGets` | core/10.4/fusefs/fuse_vnops.c:1974-1980 | over every run an open takes a new handle if and only if the slot has no use and the daemon gives one |
| `OpenCounts.EndReleases` | core/10.4/fusefs/fuse_vnops.c:2540-2600 | inactive and reclaim send a RELEASE for each handle in use, or abandon them all if the file system is dead or the vnode revoked |
| `OpenCounts.ReclaimForgets` | core/10.4/fusefs/fuse_vnops.c:2610-2615 | reclaim forgets all the lookups counted in one FORGET, with the same exception, and no other operation on a vnode sends one |
| `OpenCounts.OneVnodePerNode` | core/10.4/fusefs/fuse_node.c:25-60 | over every run no two living vnodes are for the same node |
| `VnodeRuns.HandlesConserved` | core/10.4/fusefs/fuse_vnops.c:1909-1980 | over every run in which the creator's open comes first: fuse_fh_current is the number of valid slots over all vnodes, and every handle the daemon gave out, on the root or any other vnode, is held, had a RELEASE sent for it, was abandoned on a dead file system or revoked vnode, was stranded by a rejected CREATE reply, or was lost in a reply that came after its request was given up |
| `VnodeRuns.LiveRunsAbandonNothing` | core/10.4/fusefs/fuse_file.c:128-134 | while the file system is alive and no vnode is revoked, no handle is abandoned |
| `VnodeRuns.InactiveBeforeOpen` | core/10.4/fusefs/fuse_vnops.c:925-954 | a run in which the vnode goes inactive before that open, and the count is wrong |
| `VnodeRuns.StepOwes` | core/10.4/fusefs/fuse_node.c:219-249 | each operation leaves the lookups owed to the daemon as they were, but for exactly those it leaks |
| `VnodeRuns.LookupsConserved` | core/10.4/fusefs/fuse_vnops.c:2610-2615 | over every run and for every node: lookups granted are those forgotten, those counted, those a pending RELEASE will forget, and those leaked by create, by rejected entries, by replies naming the root, by replies to requests given up and by reclaim on a dead file system; so a node is never forgotten more often than granted |
| `Dirent.DecodeEncode` | core/10.4/fusefs/fuse_kernel.h:423-434 | a directory entry survives encoding and decoding whatever bytes follow |
| `Dirent.BytesNumber` | core/10.4/fusefs/fuse_kernel.h:423-429 | so does every little-endian field in its range |
| `Dirent.CookedReads` | core/10.4/fusefs/fuse_internal.c:618-642 | the caller reads back from the dirent the low 32 bits of the inode number and the low byte of the type, or a whiteout if the name is hidden, the record length and the terminated name |
| `Dirent.RecordsAreTight` | core/10.4/fusefs/fuse_kernel.h:431-434 | each record is the least multiple of its alignment that holds the header and the name |
| `Readdir.Iov.Cook` | core/10.4/fusefs/fuse_internal.c:618-642 | the dirent built in the reused buffer is exactly header, name and zero padding: nothing of an earlier entry is left |
| `Readdir.ProcessData` | core/10.4/fusefs/fuse_internal.c:551-659 | on any reply the loop delivers the entries of the specification, moves the offset to the last one's cookie and returns its code |
| `Readdir.ProcessIsSafe` | core/10.4/fusefs/fuse_internal.c:573-615 | whatever the bytes, only names of 1 to 255 bytes come out, they fit, and 0 is returned only after something came out |
| `Readdir.ProcessPrefix` | core/10.4/fusefs/fuse_internal.c:571-655 | a reply cut off anywhere yields, in order, the entries that are complete and fit, is never taken for malformed, and says to go on if and only if an entry behind another one is cut off |
| `Readdir.ProcessMalformed` | core/10.4/fusefs/fuse_internal.c:589-602 | a record with no name or too long a name ends the reply with EINVAL or EIO after the entries before it were delivered |
| `Readdir.DeliveredReads` | core/10.4/fusefs/fuse_internal.c:618-655 | what is delivered is appended to the caller's buffer, and there the caller reads the entries back in order |
| `Readdir.ReadDirectory` | core/10.4/fusefs/fuse_internal.c:495-547 | a whole readdir terminates and delivers a contiguous run of entries from the caller's offset, none skipped or repeated, with the offset at the last one's cookie; it goes on as long as there is room and the replies say so, and ends in an error if and only if the next request failed; and of every request of the call it says where it was sent and why its reply stops |
| `Readdir.FitsMaximal` | core/10.4/fusefs/fuse_internal.c:579-615 | what a reply yields is all it can: the next entry is cut off or does not fit |
| `Readdir.DeliverIs` | core/10.4/fusefs/fuse_internal.c:644-655 | the offset delivered is the last entry's and the room taken is theirs |
| `Strategy.ReadBlock` | core/10.4/fusefs/fuse_internal.c:942-1031 | unless a READ fails the buffer ends up as the file's bytes at the offset followed by zeros, with nothing left over, and with all the file has unless the daemon sends an empty reply early; READs of at most the transfer size are sent as long as bytes are missing and the last one brought some; it ends in an error if and only if the last one failed; nothing is read at or past the cached size |
| `Strategy.ReadLoop` | core/10.4/fusefs/fuse_internal.c:972-1030 | the loop of READ requests |
| `Strategy.WriteBlock` | core/10.4/fusefs/fuse_internal.c:1032-1079 | WRITEs of at most the transfer size are sent as long as bytes are left, and the file is overwritten by exactly the bytes acknowledged; it ends in an error if and only if the last WRITE failed; the whole buffer is stored once every WRITE acknowledges at least a byte |
| `Strategy.OverwriteTwice` | core/10.4/fusefs/fuse_internal.c:1046-1075 | writing in pieces is writing the whole |
| `Strategy.OverwriteIs` | core/10.4/fusefs/fuse_internal.c:1046-1075 | overwriting puts the data in place and changes nothing else but a gap, which reads as zeros |
| `Sizes.RoundPowerOf2` | core/10.4/fusefs/fuse_internal.h:335-348 | terminates without overflow at the least power of two that is at least 512 and at least the size clipped at 2G |
| `Sizes.RoundSize` | core/10.4/fusefs/fuse_internal.h:350-366 | that power of two, clamped to its bounds |
| `Sizes.MountSizes` | core/10.4/fusefs/fuse_vfsops.c:422-430 | block size and transfer size of a mount are those asked for, rounded to powers of two in range, the transfer raised to a block, and the block divides it |
| `Sizes.StatfsSizes` | core/10.4/fusefs/fuse_vfsops.c:932-951 | so are those of statfs, where zero means the default |
| `TimeoutAlert.RunsFromStart` | core/10.4/fusefs/fuse_ipc.c:208-311 | the same for every run from the start of a session |
| `TimeoutAlert.AtMostOneAlert` | core/10.4/fusefs/fuse_ipc.c:208-311 | over every run: at most one thread shows the alert, PROCESSING means exactly one does, and while one does the status is not NONE; a dead session stays dead |
| `TimeoutAlert.DeadExactly` | core/10.4/fusefs/fuse_ipc.c:212-302 | over every run: the session is dead if and only if the daemon or the close said so, an alert was answered with Force Eject or not understood, or a wait timed out on a mount that wants no alerts; the waits lose their timeout only by Don't Warn Again |
| `TimeoutAlert.TimeoutOutcome` | core/10.4/fusefs/fuse_ipc.c:212-246 | a timeout puts the alert up if and only if alerts are wanted, none is up and the daemon was not given up |
| `TimeoutAlert.Alert.GoToSleep` | core/10.4/fusefs/fuse_ipc.c:208-210 | a thread sleeps with a timeout exactly if daemon_timeout_p is set as it goes to sleep |
| `TimeoutAlert.Alert.TimedOut` | core/10.4/fusefs/fuse_ipc.c:212-246 | a timeout shows the alert, waits on or gives up by the status |
| `TimeoutAlert.Alert.Responded` | core/10.4/fusefs/fuse_ipc.c:278-302 | the user's answer resets the status or declares the daemon dead |
| `TimeoutAlert.StatusForgetsDeath` | core/10.4/fusefs/fuse_device.c:629-635 | an answer that comes after the ioctl resets the status, though not the session |

## Left out

- Dead sessions: the timeout, kill and close paths drop or orphan tickets that are still queued, so the results on tickets are about live sessions.
- Ticket leaks: several error paths return without dropping their ticket; the model has a step for that and says exactly when a ticket is lost, but not which paths take the step.
- TicketSafety.LiveRunsAreSafe: what a requester does through its pointer after its ticket was destroyed is undefined in C; the model lets it read the address and go on, and StampedTicketLives and ReturnedTicketLives say exactly when it comes to that.
- fuse_insert_message_head and the message contents (fdisp_make, the audit of each opcode) are not modelled; a read or pull that fails is a parameter.
- HNodeExchangeFromFSNode has no caller and HNodePrintState is a debugging aid; neither is modelled. Freeing of fork buffers is not modelled, only their contents.
- LockFour.NodeLocks.LockNode: does not model nodelockowner, which a shared unlock clears even while another reader holds the lock; the truncate locks and fusefs_lockpair are not modelled.
- LockFour.NodeLocks.UnlockNode: does not model nodelockowner, nor the setsize and vnode_put that are put off until the lock is dropped, because they concern the buffer cache and the vnode layer.
- LockSafety.DeadlockFreeIffTransitive: waiting is for a holder; the queueing policy of the kernel's read-write locks is not modelled.
- Device.DeviceTable.CloseLocked: does not model that closing a device with a mount answers every awaiting ticket with an error, because the tickets of a dead session are left out.
- DeviceSafety.SomebodyMoves: the aw mutex that close takes inside its section, the kill and print ioctls and the registration of devices are not modelled.
- Handles: aux_count and open flags only reach log messages and the daemon and are left out; two operations on one vnode at the same time are not modelled.
- Handles.Vnops.FilehandlePut: a handle counts as released when its RELEASE is sent; one that is interrupted before the daemon reads it does not arrive, which is left to the model of tickets.
- Readdir.ProcessData: uiomove succeeds; the numdirent result, which the code sets only when it returns 0, is left out.
- Strategy.WriteBlock: does not model an acknowledgement larger than the chunk, because the check for it subtracts unsigned numbers and depends on the width of size_t.
- Attribute caching, the name cache, access checks, extended attributes, the buffer cache and the cluster layer would add calls into the kernel and no state of their own.
- The 10.5 tree, the other file systems in the repository and the Objective-C framework are not part of this model.
