# Verified models of dotnet-pal-rs

This project models the stateful core of dotnet-pal-rs in Dafny and proves what that code is for. The
repository puts the .NET runtime on top of a table of callbacks, the boundary. A Rust front end checks
what crosses it, and a C unit rebuilds System.Native on it: descriptors, socket event ports, monitors,
change watching and file copies. The models follow the code branch by branch; where the code changes
state step by step the model does too, and concurrent code is a step system in which any number of
threads interleave freely.

| files | what they model |
|---|---|
| `EventPortModel.dfy` | the descriptor table and the readiness event ports as one step system |
| `EventPortInvariant.dfy`, `EventPortFrames.dfy` | what every reachable state satisfies, and how it is framed |
| `EventPortTableSteps.dfy`, `EventPortLifeSteps.dfy`, `EventPortListSteps.dfy`, `EventPortSignalSteps.dfy`, `EventPortScan.dfy`, `EventPortWaiterSteps.dfy`, `EventPortStepping.dfy` | each step keeps it |
| `EventPortTheorems.dfy`, `EventPortRounds.dfy`, `EventPortRecords.dfy`, `EventPortHistory.dfy`, `EventPortRace.dfy` | the theorems over runs, the pins of a round, what the returned records say, when a condition is recorded again, and the races that the callers' disciplines exclude |
| `PortList.dfy` | the linked list of registered objects and the snapshot loop as they run |
| `Monitor.dfy`, `WaiterQueue.dfy` | LowLevelMonitor as a step system, and its head/tail list on the heap |
| `Words.dfy`, `Rounding.dfy` | machine words bit by bit, and size rounding on them |
| `Ledger.dfy`, `LedgerTheorems.dfy`, `LedgerCounters.dfy`, `LedgerAdapter.dfy` | the linear GC adapter: specification, theorems, counters, and the array-based adapter |
| `WatchRecords.dfy`, `Watcher.dfy`, `WatchDescriptor.dfy` | change watching: the record format, waiting and reading, and the descriptor with its buffer |
| `CopyFile.dfy` | the copy loop over short reads and writes |
| `Negotiation.dfy`, `Faults.dfy`, `Notifications.dfy`, `NotificationRaces.dfy` | the three publication protocols of the front end, and which notification calls may overlap |
| `Basics.dfy` | shared helpers |

The main results, in the system's terms:

- A waiter never sleeps through a readiness edge. In every reachable state, whatever is left to learn
  about a registered socket is asked about by the sleeping waiter's poll, or the wake that ends the
  sleep is pending or owed. A direction is marked delivered only with a record that carries it, and
  within one registration it is recorded again only after it was re-armed or newly asked for; the one
  exception is the hang-up, which comes once and stands for both directions.
- Every object is destroyed at most once, at zero references, by one thread, and never while a slot, a
  pin or a poll refers to it.
- A monitor wait returns 1 exactly when a signal took it out of the queue, whatever the race with its
  timeout; signals are conserved and first in, first out; no node outlives its wait.
- The GC ledger's books balance after any run, its regions never overlap, and zeroing, committing and
  releasing touch exactly the bytes they name.
- Every change event that crosses the boundary is delivered once and in order, and reads back as what
  it was.
- A copy between two handles that reports success has copied everything, over any pattern of short
  transfers; a file copied onto itself ahead of the reader is never reported as a success.
- Negotiation builds one table and gives everybody one answer; one fault handler is installed and gets
  its own data; the notification mask says what callers were told.

Assumptions that the theorems carry, each visible in a definition:

- The caller of a registration keeps the descriptor open until the registration is made
  (`EventPortInvariant.KeepsOpen`), and a port outlives the wakes owed to it
  (`EventPortInvariant.OutlivesWakes`). `EventPortTheorems.RegistrationNeedsDescriptor` and
  `EventPortTheorems.DestructionNeedsNoWake` show that the invariant is kept if and only if they hold;
  `EventPortRace.RegistrationCanBeStranded` and `EventPortRace.PortCanBeDestroyedOwed` are runs that
  break each of them.
- The storage provider grants no storage it has granted before and not taken back (`Ledger.Exclusive`);
  alignment, null and wrap-around of its answers are checked by the boundary and not assumed. What it
  grants is zeroed (`Ledger.AfterReserve`), as the contract of `allocate` says.
- `read_at` moves bytes that are there and nothing only at the end (`CopyFile.Truthful`).
- A port delivers faults for an `enable` that succeeded (`Faults.Enabled`).
- A notification call overlaps only calls on its kind that it may join (`Notifications.Permitted`):
  enables join enables that found the kind wanted, disables join disables and enables that are taking
  a refusal back. `NotificationRaces.DisciplineIsExact` shows that any other call can end with a mask
  that contradicts what callers were told, and `NotificationRaces.MaskCanDisagree` reaches that.
- A copy has no other user of its cursors. It is whole between two handles exactly when
  `CopyFile.Sound` holds, and with one handle under every provider exactly when there is nothing to
  copy; both are part of its contract and not assumed.
- Every atomic operation and every critical section is one sequentially consistent step.

Check everything with `dafny verify dfyconfig.toml`.

## Model

| member | source | states |
|---|---|---|
| `EventPortInvariant.InitialInv` | crates/dotnet-pal-build/native/system_native_io.c:45-51 | the table with only the three standard streams satisfies the invariant |
| `EventPortTableSteps.PinStep` | crates/dotnet-pal-build/native/system_native_io.c:70-78 | sn_pin keeps the invariant, in which references count slots and pins |
| `EventPortTableSteps.UnpinStep` | crates/dotnet-pal-build/native/system_native_io.c:79-84 | sn_unpin keeps the invariant: the last reference leaves exactly this thread with the duty to destroy |
| `EventPortTableSteps.NewStep` | crates/dotnet-pal-build/native/system_native_io.c:53-58 | making an object keeps the invariant: it belongs to its creator alone until it is installed |
| `EventPortTableSteps.InstallStep` | crates/dotnet-pal-build/native/system_native_io.c:85-95 | installing it keeps the invariant: the creator's reference becomes the slot's |
| `EventPortTableSteps.FirstFreeFinds` | crates/dotnet-pal-build/native/system_native_io.c:85-88 | the search gives the lowest free descriptor from 3 on, or there is none |
| `EventPortTableSteps.DupStep` | crates/dotnet-pal-build/native/system_native_io.c:96-104 | duplicating a descriptor keeps the invariant, in which descriptors count slots |
| `EventPortTableSteps.WakeStep` | crates/dotnet-pal-build/native/system_native_net.c:829-834 | sending an owed wake keeps the invariant: no round that relies on the wake is left without it |
| `EventPortLifeSteps.NewPortStep` | crates/dotnet-pal-build/native/system_native_net.c:847-870 | creating a port keeps the invariant: the channel it takes is nobody else's |
| `EventPortLifeSteps.FirstChannelFinds` | crates/dotnet-pal-build/native/system_native_net.c:855-858 | the lowest channel not in use, or all are |
| `EventPortLifeSteps.FreePlainStep` | crates/dotnet-pal-build/native/system_native_io.c:60-69 | destroying an object that is not a port keeps the invariant |
| `EventPortLifeSteps.FreePortStep` | crates/dotnet-pal-build/native/system_native_net.c:835-842 | destroying a port to which no wake is owed keeps the invariant: members are unregistered, the channel is free, no other port is disturbed |
| `EventPortListSteps.CloseStep` | crates/dotnet-pal-build/native/system_native_io.c:105-120 | closing a slot keeps the invariant: counts and lists agree, and a round that loses a member has its wake owed |
| `EventPortListSteps.CloseOutcome` | crates/dotnet-pal-build/native/system_native_io.c:111-118 | close wakes the object's port exactly with its last descriptor, a port that exists, and destroys exactly with the last reference |
| `EventPortListSteps.RegisterAt` | crates/dotnet-pal-build/native/system_native_net.c:898-907 | a registration change touches the registration of its object and the list of its port, and nothing else of any object |
| `EventPortSignalSteps.RearmKeeps` | crates/dotnet-pal-build/native/system_native_net.c:811-818 | re-arming keeps the invariant: whatever a sleeping waiter does not ask about any more has its wake owed |
| `EventPortSignalSteps.NotifyStep` | crates/dotnet-pal-build/native/system_native_net.c:819-824 | a notification keeps the invariant: it becomes the wake of the pipe's port, or the pipe has none |
| `EventPortScan.ScanCovers` | crates/dotnet-pal-build/native/system_native_net.c:951-968 | when the list fits, the poll asks about everything left to learn about every socket, and every ready pipe is reported |
| `EventPortScan.ScanShape` | crates/dotnet-pal-build/native/system_native_net.c:951-968 | the snapshot only adds to the parallel arrays, hands over sockets only, and stays within the limit |
| `EventPortWaiterSteps.ListFits` | crates/dotnet-pal-build/native/system_native_net.c:943-950 | a registered list never exceeds the descriptor table, so the clamp to the poll limit never cuts it |
| `EventPortWaiterSteps.SnapshotStep` | crates/dotnet-pal-build/native/system_native_net.c:951-968 | the snapshot keeps the invariant: it pins what it hands to the poll and leaves nothing unseen, or a wake is coming |
| `EventPortWaiterSteps.PollStep` | crates/dotnet-pal-build/native/system_native_net.c:969-974 | a poll that returns anything the boundary lets through, and consumes the wake or not, keeps the invariant |
| `EventPortWaiterSteps.ConvertStep` | crates/dotnet-pal-build/native/system_native_net.c:975-990 | turning a level into an edge keeps the invariant and hands the pin to the unpin that follows |
| `EventPortStepping.StepKeepsInv` | crates/dotnet-pal-build/native/system_native_net.c:793-998 | every step of every thread keeps the invariant, under the two disciplines |
| `EventPortTheorems.RunInv` | crates/dotnet-pal-build/native/system_native_net.c:793-998 | every state of every run satisfies the invariant, and every step is defined there |
| `EventPortTheorems.NoEdgeIsLost` | crates/dotnet-pal-build/native/system_native_net.c:922-991 | a sleeping waiter's poll asks about every condition left to learn about every registered socket, or its wake is pending or owed |
| `EventPortTheorems.NoPipeEdgeIsLost` | crates/dotnet-pal-build/native/system_native_net.c:953-960 | the same for a ready registered pipe, unless the caller lends no room |
| `EventPortTheorems.EveryObjectIsAccounted` | crates/dotnet-pal-build/native/system_native_internal.h:98-129 | descriptors count slots, references count slots and pins, the duty to destroy exists exactly at zero, destroyed objects are unreachable, streams stay |
| `EventPortTheorems.DestroyedAtZero` | crates/dotnet-pal-build/native/system_native_io.c:79-84 | only the thread that has the duty to destroy an object, or its creator before it is installed, destroys it, and only when nothing refers to it |
| `EventPortTheorems.DestroyedOnce` | crates/dotnet-pal-build/native/system_native_io.c:60-69 | a destroyed object stays destroyed and unreachable for the rest of the run |
| `EventPortTheorems.RegisteredListIsExact` | crates/dotnet-pal-build/native/system_native_net.c:795-809 | the list of a port is duplicate-free and holds exactly the objects registered with it, each with a descriptor |
| `EventPortTheorems.PolledSocketsStayAlive` | crates/dotnet-pal-build/native/system_native_net.c:965-990 | the port and every socket handed to a poll stay alive until it returns |
| `EventPortRounds.RoundsGiveBackPins` | crates/dotnet-pal-build/native/system_native_net.c:942-991 | a waiter in its round pins the port and the sockets still to be converted, and between rounds and on leaving the port alone |
| `EventPortTheorems.OnePollPerChannel` | include/dotnet_pal.h:467-475 | at most one poll is in progress on a channel |
| `EventPortTheorems.ChannelsHaveOneOwner` | crates/dotnet-pal-build/native/system_native_net.c:804-870 | a channel is in use exactly when one existing port has it |
| `EventPortTheorems.EdgesAreBounded` | crates/dotnet-pal-build/native/system_native_net.c:975-990 | records of a registration are bounded by the bits re-armed, and a hang-up is converted once |
| `EventPortTheorems.ReportedOnlyWithRecord` | crates/dotnet-pal-build/native/system_native_net.c:978-987 | a direction asked for becomes reported only in a step that adds a record carrying it: a full buffer swallows no edge |
| `EventPortHistory.StepRemembers` | crates/dotnet-pal-build/native/system_native_net.c:811-907 | whatever happens, an object that stays registered loses a reported condition only by a re-arm of it, or by a registration that newly asks for it |
| `EventPortHistory.MarkedOncePerArming` | crates/dotnet-pal-build/native/system_native_net.c:811-987 | between two steps of a run that mark one condition of one object in one registration, some step re-arms it or newly asks for it; a hang-up is marked once |
| `EventPortHistory.NothingIsRecordedTwice` | crates/dotnet-pal-build/native/system_native_net.c:975-987 | between two steps of a run that add a record carrying one condition of one object in one registration, some step re-arms it or newly asks for it, unless it is a direction and exactly one of the two records is that of the hang-up |
| `EventPortRecords.RecordsAreFaithful` | crates/dotnet-pal-build/native/system_native_net.c:953-990 | every record a waiter adds fits the room, is about an object registered with this port, carries its data and shows only what it asked for, or an error |
| `EventPortRecords.ConvertDelivers` | crates/dotnet-pal-build/native/system_native_net.c:978-986 | what the poll newly reports and the registration asks for goes into a record and is marked, as long as there is room |
| `EventPortRecords.HangupDelivers` | crates/dotnet-pal-build/native/system_native_net.c:978-986 | a new hang-up is marked together with a record that carries every direction asked for |
| `EventPortRecords.RegistrationMeans` | crates/dotnet-pal-build/native/system_native_net.c:898-907 | when a registration is refused, and otherwise its exact events and data, with everything newly asked for forgotten as reported |
| `EventPortHistory.RearmedUntilRecorded` | crates/dotnet-pal-build/native/system_native_net.c:811-991 | after a re-arm and while the socket stays registered for the direction, a later step has marked it and added a record that carries it, or no waiter sleeps without asking about it unless its wake is pending or owed |
| `EventPortTheorems.RegistrationNeedsDescriptor` | crates/dotnet-pal-build/native/system_native_net.c:893-907 | a registration keeps the invariant if and only if the object still has a descriptor at the lock |
| `EventPortTheorems.DestructionNeedsNoWake` | crates/dotnet-pal-build/native/system_native_net.c:830-842 | destroying a port keeps the invariant if and only if no thread still owes it a wake |
| `EventPortRace.RegistrationCanBeStranded` | crates/dotnet-pal-build/native/system_native_net.c:893-907 | without the discipline a run of eight steps ends with a registered object that no descriptor names, and three steps later the list names a destroyed object |
| `EventPortRace.PortCanBeDestroyedOwed` | crates/dotnet-pal-build/native/system_native_net.c:829-842 | without the discipline a run of sixteen steps ends with a thread about to wake a destroyed port |
| `PortList.List.Push` | crates/dotnet-pal-build/native/system_native_net.c:902-905 | a first registration puts the object at the head with its events and data and nothing reported |
| `PortList.List.Unlink` | crates/dotnet-pal-build/native/system_native_net.c:805-809 | the linked list loses exactly this object, whose registration is cleared; the names lose exactly its name |
| `PortList.NumbersWithout` | crates/dotnet-pal-build/native/system_native_net.c:805-809 | the list in memory and the model's list of names lose the same object |
| `PortList.List.Drain` | crates/dotnet-pal-build/native/system_native_net.c:836-837 | unlinking the head until the list is empty clears every member, its link included |
| `PortList.List.Count` | crates/dotnet-pal-build/native/system_native_net.c:944-945 | the walk counts the list |
| `PortList.List.TakeSnapshot` | crates/dotnet-pal-build/native/system_native_net.c:951-968 | the loop along the links fills the arrays, pins and marks exactly as the snapshot of the step system does on the objects that the list mirrors |
| `Monitor.StepKeepsInv` | crates/dotnet-pal-build/native/system_native_pal.c:193-229 | every step of waiters and signallers keeps the invariant |
| `Monitor.RunInv` | crates/dotnet-pal-build/native/system_native_pal.c:193-229 | every state of every run satisfies it, and every step is defined there |
| `Monitor.EventsMeanSignals` | crates/dotnet-pal-build/native/system_native_pal.c:198-209 | an event is set only while the current wait was signaled and the set not consumed, so every wait starts with a clear event and OK means signaled |
| `Monitor.WaitIsExact` | crates/dotnet-pal-build/native/system_native_pal.c:196-216 | a wait returns 1 exactly when a signal took its node out; otherwise it takes itself out; either way it leaves no trace |
| `Monitor.SignalsAreConserved` | crates/dotnet-pal-build/native/system_native_pal.c:205-209 | signals that found a waiter are waits that returned 1 plus signaled waits still returning |
| `Monitor.SignalsAreFifo` | crates/dotnet-pal-build/native/system_native_pal.c:221-229 | a signal takes the longest-queued waiter and only that one |
| `Monitor.NodesAreLive` | crates/dotnet-pal-build/native/system_native_pal.c:198-228 | a node in a queue or in a signaller's hands belongs to a wait that has not returned |
| `WaiterQueue.Queue.Append` | crates/dotnet-pal-build/native/system_native_pal.c:200-201 | the enqueue appends to the sequence and moves the tail |
| `WaiterQueue.Queue.RemoveHead` | crates/dotnet-pal-build/native/system_native_pal.c:222-225 | the dequeue takes the first node, flags it and keeps head and tail null together |
| `WaiterQueue.Queue.Find` | crates/dotnet-pal-build/native/system_native_pal.c:211-212 | the walk stops at the node or at the end, with the node before it |
| `WaiterQueue.Queue.Unlink` | crates/dotnet-pal-build/native/system_native_pal.c:211-213 | a waiter anywhere in the list takes exactly itself out and the tail stays the last node |
| `WaiterQueue.LastLeft` | crates/dotnet-pal-build/native/system_native_pal.c:213 | the last node of what remains is the one before the removed node if that was the tail |
| `Words.PowerOfTwoTest` | crates/dotnet-pal-build/native/gc_linear_adapter.h:32-33 | the adapter's `grain & (grain - 1)` test and a single one bit agree on every word |
| `Words.MaskClearsRemainder` | src/lib.rs:152 | masking with the complement of a power of two minus one subtracts the remainder, at any word width |
| `Rounding.RoundSizeIsLeast` | src/lib.rs:150-154 | round_size answers if and only if the least page multiple not below the size fits `isize::MAX`, and with that multiple |
| `Rounding.GeometryAccepts` | src/lib.rs:158-164 | geometry answers if and only if the arguments are valid and the padded block fits `isize::MAX`, with the least multiple and the larger alignment |
| `Rounding.GeometrySuffices` | src/lib.rs:158-164 | any page-aligned block of size + alignment - page bytes holds an aligned range of size bytes |
| `Rounding.GeometryIsTight` | src/lib.rs:158-164 | no smaller block does, at the first page boundary |
| `Rounding.RoundedIsLeast` | crates/dotnet-pal-build/native/gc_linear_adapter.h:36-40 | the adapter's rounding is the least grain multiple, or 0 exactly when there is no such word or the size is 0 |
| `Rounding.RoundedAgrees` | src/lib.rs:150-154 | wherever the boundary accepts, the adapter rounds to the same value |
| `Rounding.RoundedIsFixed` | crates/dotnet-pal-build/native/gc_linear_adapter.h:92-101 | a rounded size is a fixed point of both roundings, up to the boundary's limit |
| `Ledger.OwnedFits` | crates/dotnet-pal-build/native/gc_linear_adapter.h:70 | disjoint regions cannot add up past a word, so owned_bytes never wraps |
| `LedgerTheorems.GrantedRegion` | src/lib.rs:235-250 | what reserve hands out is on the alignment and the grain, holds the request, and ends below the word limit |
| `LedgerTheorems.ExecKeeps` | crates/dotnet-pal-build/native/gc_linear_adapter.h:57-101 | every call, accepted or refused, keeps the ledger's invariant |
| `LedgerTheorems.RunKeeps` | crates/dotnet-pal-build/native/gc_linear_adapter.h:57-101 | so does any sequence of calls with any answers of an exclusive provider |
| `LedgerTheorems.BooksBalance` | crates/dotnet-pal-build/native/gc_linear_adapter.h:11-23 | after any run regions are disjoint whole grains, owned_bytes is their sum and at most peak_bytes, and below saturation reserve_ok - release_ok is their number |
| `LedgerTheorems.FindIsExact` | crates/dotnet-pal-build/native/gc_linear_adapter.h:48-56 | find returns the one region that contains the whole range, and none only if there is none |
| `LedgerTheorems.ReservedIsZeroed` | crates/dotnet-pal-build/native/gc_linear_adapter.h:57-73 | a reservation starts zeroed on its alignment and changes no byte owned before |
| `LedgerTheorems.ReserveIsExact` | crates/dotnet-pal-build/native/gc_linear_adapter.h:57-73 | reserve succeeds exactly for a request the boundary takes, with a free slot and a granted, aligned range that does not wrap |
| `LedgerTheorems.CommitPreserves` | crates/dotnet-pal-build/native/gc_linear_adapter.h:74-81 | commit answers whether the grain range lies in one region and changes no byte |
| `LedgerTheorems.ZeroIsExact` | crates/dotnet-pal-build/native/gc_linear_adapter.h:82-91 | decommit and reset succeed exactly for an accepted grain range inside one region and then zero exactly it; a failure changes nothing but what a refusing provider leaves in that range |
| `LedgerTheorems.ReleaseIsExact` | crates/dotnet-pal-build/native/gc_linear_adapter.h:92-101 | release succeeds exactly for the base and rounded size of a live region and gives up exactly its bytes |
| `LedgerTheorems.ReleasePasses` | src/lib.rs:257-263 | a live region is accepted back by adapter and boundary for any request that rounds to its size |
| `LedgerTheorems.ReserveThenRelease` | crates/dotnet-pal-build/native/gc_linear_adapter.h:57-101 | reserving and releasing with the same request restores regions, bytes and owned_bytes |
| `LedgerTheorems.OtherRegionsKeep` | include/dotnet_pal.h:54-58 | no operation changes a byte of a live region other than the one its address is in |
| `LedgerCounters.CountersCount` | crates/dotnet-pal-build/native/gc_linear_adapter.h:23 | after any run each counter is the number of calls with its outcome, or stands at its limit |
| `LedgerCounters.PeakIsHighest` | crates/dotnet-pal-build/native/gc_linear_adapter.h:70-71 | peak_bytes is the most that was owned at any point of the run |
| `LedgerAdapter.Adapter.constructor` | crates/dotnet-pal-build/native/gc_linear_adapter.h:15-17 | 256 free slots and cleared counters |
| `LedgerAdapter.Adapter.Find` | crates/dotnet-pal-build/native/gc_linear_adapter.h:48-56 | the loop over the array computes the specified lookup |
| `LedgerAdapter.Adapter.Reserve` | crates/dotnet-pal-build/native/gc_linear_adapter.h:57-73 | the in-place reserve computes the specified state and address |
| `LedgerAdapter.Adapter.Commit` | crates/dotnet-pal-build/native/gc_linear_adapter.h:74-81 | so does commit |
| `LedgerAdapter.Adapter.Zero` | crates/dotnet-pal-build/native/gc_linear_adapter.h:82-91 | so do decommit and reset |
| `LedgerAdapter.Adapter.Release` | crates/dotnet-pal-build/native/gc_linear_adapter.h:92-101 | so does release |
| `WatchRecords.Translate` | crates/dotnet-pal-build/native/system_native_io.c:609-614 | the loop over the table computes the translated bits |
| `WatchRecords.TranslatedBit` | crates/dotnet-pal-build/native/system_native_io.c:603-614 | a translated bit is set exactly when some row of the table maps a set bit to it |
| `WatchRecords.BoundaryRoundTrip` | include/dotnet_pal.h:791-806 | the twelve boundary bits go to inotify's and come back unchanged |
| `WatchRecords.NativeRoundTrip` | crates/dotnet-pal-build/native/system_native_abi.h:55-57 | inotify's bits come back exactly when they are one of the twelve with a counterpart |
| `WatchRecords.MaskPads` | crates/dotnet-pal-build/native/system_native_io.c:638 | the mask expression is the length of a name field in whole words with its terminating zeroes |
| `WatchRecords.AcceptableBits` | src/watches.rs:108-115 | an event that passes the boundary's test has some kind of event, no bit that is not reported, and the overflow bit exactly without a watch |
| `WatchRecords.ParseEncoded` | crates/dotnet-pal-build/native/system_native_io.c:637-643 | parsing a record gives the descriptor, mask, cookie and name that went in, and leaves what follows |
| `WatchRecords.ParseEncodedAll` | crates/dotnet-pal-build/native/system_native_io.c:631-646 | a buffer of records parses as all its events in order |
| `WatchRecords.MeaningOfView` | crates/dotnet-pal-build/native/system_native_io.c:640-641 | a record means the event it was made from; only a watch that is no int32 reads as none |
| `WatchRecords.MeaningsOfViews` | crates/dotnet-pal-build/native/system_native_io.c:664-673 | records of watches that callers were given mean exactly the events they were made from |
| `Watcher.FillConserves` | crates/dotnet-pal-build/native/system_native_io.c:617-629 | waiting loses and invents no event, keeps their order, and is ready exactly with one in hand |
| `Watcher.FiniteWait` | crates/dotnet-pal-build/native/system_native_io.c:617-630 | a finite wait makes at most timeout/slice reads rounded up, asks in all of them together for at most its timeout, and gives up early only for a closed descriptor |
| `Watcher.EndlessWait` | crates/dotnet-pal-build/native/system_native_io.c:617-629 | a wait without limit ends for an event, an error or a closed descriptor only |
| `Watcher.WaitFails` | crates/dotnet-pal-build/native/system_native_io.c:624 | a wait fails only with the error that the provider has just answered |
| `Watcher.CheckedFit` | src/watches.rs:102-122 | every event that the boundary passes on fits a record |
| `Watcher.ReadConserves` | crates/dotnet-pal-build/native/system_native_io.c:631-646 | what a read takes and what it leaves is all there was, in order |
| `Watcher.ReadReturnsTaken` | crates/dotnet-pal-build/native/system_native_io.c:631-646 | a read returns the records of exactly what it took, within the buffer, and takes nothing when it fails |
| `Watcher.ReadIsMaximal` | crates/dotnet-pal-build/native/system_native_io.c:639 | a read leaves an event behind only because its record does not fit, and keeps it |
| `Watcher.ReadGivesUp` | crates/dotnet-pal-build/native/system_native_io.c:633-639 | a read returns nothing only for a closed descriptor and fails only with the provider's error or for a first record that does not fit |
| `Watcher.PollThenRead` | crates/dotnet-pal-build/native/system_native_io.c:596-600 | the event a poll reported is the first that the next read with room for any record takes |
| `Watcher.SessionConserves` | crates/dotnet-pal-build/native/system_native_io.c:617-646 | over any sequence of polls and reads, delivered, held and coming events are the events there were |
| `Watcher.EveryEventIsDeliveredOnce` | crates/dotnet-pal-build/native/system_native_io.c:596-646 | the buffers of all reads together parse as the events the boundary passed on, in order, none lost and none twice, and mean these events for every watch a caller can know |
| `WatchDescriptor.PutRecord` | crates/dotnet-pal-build/native/system_native_io.c:637-643 | the writes into the buffer put down exactly the record and nothing behind it |
| `WatchDescriptor.State.Fill` | crates/dotnet-pal-build/native/system_native_io.c:617-629 | the waiting loop computes the specified outcome and look-ahead |
| `WatchDescriptor.State.Read` | crates/dotnet-pal-build/native/system_native_io.c:631-646 | the reading loop returns the specified result, with the records in the buffer and nothing written behind them |
| `CopyFile.OverwriteAt` | include/dotnet_pal.h:364-370 | a write puts its data where it says, zeroes in a gap, and keeps every other byte |
| `CopyFile.OverwriteAppend` | crates/dotnet-pal-build/native/system_native_io.c:421-424 | writing in pieces, each where the last one ended, is writing at once |
| `CopyFile.FileRead` | src/files.rs:127-138 | a read gives the bytes at the offset or an error |
| `CopyFile.FileWrite` | src/files.rs:139-151 | a write stores a non-empty beginning of the data or fails; after a failed flush it is stored and not counted |
| `CopyFile.WriteChunk` | crates/dotnet-pal-build/native/system_native_io.c:421-424 | the inner loop ends, having stored the whole chunk or a beginning of it |
| `CopyFile.Copy` | crates/dotnet-pal-build/native/system_native_io.c:408-438 | the copy ends; between two handles it copies everything from cursor to end, keeps every other byte and moves both cursors equally, exactly when the files differ, the destination's cursor is not ahead, or nothing is left; then it fails only for a reason and leaves a beginning, otherwise it never succeeds; with one handle the exact content and cursor after each read, and success when nothing is in the way |
| `CopyFile.EchoAhead` | crates/dotnet-pal-build/native/system_native_io.c:413-425 | with one handle nothing is read that the copy wrote, and the cursor stays within twice the data |
| `CopyFile.NibblingOvershoots` | crates/dotnet-pal-build/native/system_native_io.c:413-425 | with one handle, a provider that reads byte by byte and the last two at once takes the cursor past the data, whatever the data |
| `CopyFile.CopyOntoItself` | crates/dotnet-pal-build/native/system_native_io.c:408-438 | with one handle and anything to read, a willing provider makes the call answer success with a copy that is not whole, so that one handle is sound only with nothing to copy |
| `Negotiation.StepKeepsInv` | src/lib.rs:357-392 | every step keeps one winner, moves the phase forward only, and only the winner writes the table |
| `Negotiation.RunInv` | src/lib.rs:375-392 | every state of every run satisfies the invariant |
| `Negotiation.BuiltOnce` | src/lib.rs:383-388 | build is called at most once, and nobody with the right version is answered before |
| `Negotiation.SameAnswer` | src/lib.rs:371-380 | all calls with the right version get the same answer, which is the table exactly if it was built; any other call gets null |
| `Negotiation.TableIsReady` | src/lib.rs:357-362 | who got the table finds it written, as it was built and unchanged ever after |
| `Negotiation.RejectionIsFinal` | src/lib.rs:373-380 | after a rejection nobody ever gets a table |
| `Faults.StepKeepsInv` | src/faults.rs:87-146 | installs, failures and faults keep the invariant |
| `Faults.RunInv` | src/faults.rs:87-146 | every state of every run satisfies it |
| `Faults.OneInstallSucceeds` | src/faults.rs:130-146 | at most one install returns OK |
| `Faults.LaterInstallsAreBusy` | src/faults.rs:131-132 | after it every install is turned away and the armed handler stays |
| `Faults.FreeSlotIsClean` | src/faults.rs:137-141 | after any failures a free slot has no handler, nothing armed and nobody in it |
| `Faults.FreeSlotInstalls` | src/faults.rs:130-146 | a free slot takes the next install, which succeeds when it is left alone and granted |
| `Faults.FaultsReachTheInstalled` | src/faults.rs:103-114 | every fault of a known kind calls the armed handler with the data of the same install; no other is claimed |
| `Notifications.StepKeepsInv` | src/notifications.rs:96-112 | every step keeps the mask in agreement with what was reported to callers, when calls overlap only calls they may join |
| `Notifications.MaskIsWanted` | src/notifications.rs:54-60 | with no call on a kind under way its bit says whether it is wanted |
| `Notifications.ReturnsMean` | src/notifications.rs:96-112 | a successful enable adds the kind, a failed one leaves it, a disable removes it whatever the provider said |
| `Notifications.OtherKindsKeep` | src/notifications.rs:100-108 | a call on one kind leaves the bits of all others |
| `Notifications.HandledIsWanted` | src/notifications.rs:64-72 | a report reaches the handler only for a wanted kind, or while an enable of it is under way |
| `Notifications.DeliveryIsExact` | src/notifications.rs:64-72 | with no call on its kind under way a report reaches the handler exactly when the kind is wanted |
| `NotificationRaces.DisciplineIsExact` | src/notifications.rs:96-112 | a call is permitted if and only if no way for the calls under way to return leaves the mask saying something else than callers were told |
| `NotificationRaces.ForbiddenCallBreaks` | src/notifications.rs:96-112 | from any state, a call that may not join another on its kind has a continuation that ends in disagreement |
| `NotificationRaces.MaskCanDisagree` | src/notifications.rs:51-112 | a run from the start in which an enable and a second call of either sort overlap ends in disagreement |

## Left out

- The providers (files, sockets, storage, processes) behind the boundary: they are represented by what the boundary's contracts say of their answers.
- Front ends that only validate, call and record (accounts, priority, terminal, volumes, topology, process, system, context): each is settled by reading one branch.
- errno and option translation tables, socket addresses, interface enumeration and name resolution: finite maps and copying.
- Progress of the event port: the theorems are about safety; that a poll with a pending wake returns is the provider's part.
- Readers of child process pipes: a pipe in the event port is a readiness flag that other threads raise and clear; closing, filling and failing to watch a pipe are modelled no further.
- The early return of a registration whose events do not change, and the refusal of a waiter on a port with neither channel nor event: they touch no state.
- MMap and MUnmap, AlignedRealloc and AlignedFree: they depend on caller discipline that the code does not check.
- Event masks in the event port are sets of conditions; only the watch masks, the notification mask and the sizes are modelled as machine words.
- Memory ordering: each atomic operation is one sequentially consistent step.
- Creating and destroying monitors and their thread events, and statuses of events and mutexes other than OK and TIMEOUT, on which the code stops the process.
- Ledger.LinearAllocate: the alignment of the output address is not modelled, since the adapter passes a local variable.
- CopyFile.Copy: other users of a cursor during the copy are not modelled.
- WatchRecords.Padded: names are at most 255 bytes, as the boundary guarantees, so 32-bit wrap-around of record sizes is not modelled.
- Watcher.Fill: a boundary without a watch provider (EBADF) is not modelled.
- Notifications.Apply: racing installs are not repeated there, since they follow the protocol of `Faults`; what matters is that the handler may be stored before the install has succeeded.
- Counters of the front ends, other than those of the adapter.
