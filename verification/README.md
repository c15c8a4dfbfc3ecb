# A verified model of the MapDB store's maps, queues, codecs and log writer

The store keeps records under numeric record ids (recids). On top of it sit a concurrent
B-link-tree map, two persistent queues, and the byte formats that nodes, tuples and the name
catalog are stored in; a write-ahead log makes commits durable. This project models those parts
and proves what they promise for all inputs and, for the map, over all interleavings.

`dafny verify dfyconfig.toml` checks everything.

## How the pieces fit

**The concurrent map** (`BLink*.dfy`). `BLinkTree` is the data: leaves and directories in a
recid-to-node map, each node with a right link, and the structural invariant `TreeOk`. Two
auxiliary maps give every node the low bound and the level it was created with.
`BLinkMachine` is the algorithm as a step machine. Each thread has a program counter; one step is
one access to shared memory: one record read or write, one lock operation, one listener call, one
read or write of the root pointer or the left-edge list. A thread's `Fault` is the code's
corruption error. `BLinkInvariant` states what each thread knows at each program counter, the
shared invariant, and what a step may do to the other threads. `BLinkSteps`, `BLinkWrites` and
`BLinkParents` prove each step against that; `BLinkRuns` puts them together. `BLinkRefinement`
relates a step to an atomic map, and `BLinkTheorems` and `BLinkProgress` state the results over
runs. What an operation is for is spelled out once, apart from the code, as `Performs`. `BLinkSolo`
shows that calls return. `BLinkScan` has both iterators on a tree at rest, `LiveScan` and `LiveScanDown` the same
iterators while the map is written to, `BLinkPump` the bulk loader, `BLinkOpen` opening a map and
the path from loader to runs. `Bindings` has the secondary indexes that synchronous listeners keep,
and `HandOver` a run in which one of them loses an entry. `ExternalMachine` and `ExternalValues` are
the mode in which a leaf holds the recid of a value record: the B-link machine with recids as its
values, and beside it the records, the barrier and a phase for each call; `ExternalSolo` shows that
those calls return.

**Queues** (`LongQueue`, `BlockingQueue`). Classes over a record map, with the linked list as a
ghost sequence of recids.

**Bytes** (`ByteStrings`, `PackedLong`, `FrontCoded`, `FrontExact`, `NodeCodec`, `TupleCodec`,
`Utf8Order`, `NameCatalog`). Readers are total on arbitrary bytes. Where a reader must agree with what a writer
stored, it takes that value as a ghost argument and its contract speaks of the case that the bytes
hold it.

**The log** (`WalWriter`). Any write or force may fail part way; a fault plan indexed by operation
number decides.

## Main results

- Every run of the map, from an empty, opened or bulk-loaded tree, with any number of threads and
  any interleaving, keeps the invariant and reaches no corruption error.
- Every call takes effect atomically at one of its own steps, and that effect, the result and the
  report to the listeners are those its operation is for; the calls in that order are a sequential
  history that explains every result and the contents.
- Every step brings its thread closer to its result. A lookup that then runs alone answers within as
  many steps as there are nodes, whoever holds locks; any other call that finds its locks free
  returns within a number of steps linear in the number of nodes.
- Synchronous listeners hear each key's changes in order, each once, at most one behind; the
  secondary indexes agree with the map on every key that is not being changed.
- Some thread can always move, also with external values and their barrier.
- With external values, in every run every recid in a published leaf names a live record that no
  other slot names, a lookup expands the record of its own key, no record is ever missing or leaks,
  and the map of values is atomic, although the store reuses recids.
- The descending scan is the reverse of the ascending scan for all bounds, with separators still
  pending, and both list exactly what point reads find. While the map is written to, both yield
  strictly monotone keys in bounds, each with a value the map held at some moment of the scan, and
  miss no key in bounds that was there throughout; the corruption error stays out of reach.
- The loader succeeds exactly on strictly ascending input, writes every recid it takes exactly once
  and builds a tree ready for concurrent use.
- An append to the log succeeds exactly if there is a segment, a rollover has a positive lsn, no
  operation fails and both passes of the producer agree; what it acknowledged is durable, and the
  segments of a log carry ascending sequence numbers.
- Tuple encoding preserves order, is injective, and decoding inverts it.
- Front-coded groups and nodes round-trip; searching the bytes answers as searching the objects.

## Where a promise fails

- A unique secondary index can lack an entry although the map never holds two entries with the same
  derived key: changes of different keys may be heard in another order than they were published.
  `HandOver.LosesEntry` gives such a run. If the derived keys are unique at the start, no claim is
  rejected if and only if, after every prefix of the withdrawals and claims heard, no two keys known
  to be there derive the same key, and then the index is complete (`UniqueIndexComplete`).
- Decoding a tuple accepts malformed text and repairs it, so the result need not encode to the bytes
  it came from (`MalformedTextAccepted`). It does if and only if every text in them is well-formed
  (`DecodingSound`).
- The UTF-8 comparison promises an error on malformed bytes, and answers some (`MalformedAnswered`).
  It gives an error if and only if characters that agree with the key so far are followed by bytes
  that begin no character (`RefusedExactly`).
- Decoding a node does not look at the restart table of its key group and bounds the declared length
  only from below. So it accepts records that no node is stored as, and the lookup in their bytes can
  refuse (`DecodesButRefuses`, `ForgedLeaf`) or, worse, say without an error that a key is absent that
  decoding finds (`SilentlyAbsent`). For every record that decodes to a node, searching its key group
  answers right for all keys if and only if the declared end lies within the record and from every
  restart the table leads to, the node's entries are read (`KeySearchExact`, and `SearchExact` for any
  bytes). It then stands at the body if and only if the declared length is that of the entries
  (`CursorExact`). Both together make the lookup in the bytes answer as the one in the node
  (`SearchableExact`, `SearchableAgrees`). The record of every node meets both (`ReadBothWays`).

## Model

| member | source | states |
|---|---|---|
| `BLinkTree.CoverUnique` | src/btree/map.rs:1148-1192 | on one level at most one node covers a key, so moving right cannot miss the node to lock |
| `BLinkTree.LowUnique` | src/btree/map.rs:1550-1559 | on one level at most one node starts at a given bound |
| `BLinkTree.CoverExists` | src/btree/map.rs:1167-1192 | a level that starts at minus infinity has a node covering any key: the walk to the right ends at one |
| `BLinkTree.ChainTiles` | src/btree/map.rs:1148-1162 | following the links from a level's left edge visits exactly the nodes of that level, each starting where the one before ends, and tiles the key space |
| `BLinkTree.LookupAtCover` | src/btree/map.rs:1070-1111 | the abstract map's answer for a key is the answer of the one leaf that covers it |
| `BLinkTree.EditLeafOk` | src/btree/map.rs:641-672 | replacing the group of a leaf by a sorted one within its bounds keeps the tree invariant |
| `BLinkTree.SplitLeafOk` | src/btree/map.rs:1338-1406 | publishing the halves of a split leaf keeps the tree invariant with the new sibling pending: reachable by link, not yet named by a parent |
| `BLinkTree.InsertChildOk` | src/btree/map.rs:1418-1544 | entering a separator and its child into the covering directory keeps the tree invariant and ends the child's pending state |
| `BLinkTree.SplitDirOk` | src/btree/map.rs:1418-1544 | the same for a directory that splits, the new sibling pending in turn |
| `BLinkTree.PublishRootOk` | src/btree/map.rs:1427-1471 | a new root over the two halves of the old one keeps the tree invariant |
| `BLinkTree.EditLeafLookup` | src/btree/map.rs:1241-1308 | a leaf edit changes the abstract map on the keys the leaf covers to its new group and nowhere else |
| `BLinkTree.SplitLeafLookup` | src/btree/map.rs:1338-1406 | a leaf split does the same, whichever half a key falls into |
| `BLinkInvariant.Stable` | src/btree/map.rs:1070-1559 | what a thread knows at any program counter survives every step another thread may take |
| `BLinkSteps.GoodReading` | src/btree/map.rs:1070-1111 | a reader's step keeps it at a node whose low bound is below its key or on the leaves, changes nothing, and ends the lookup or goes on at a node below or to the right |
| `BLinkSteps.GoodDescending` | src/btree/map.rs:1199-1223 | a writer's descent keeps a stack of nodes to the left of its key, one per level, and stops at a leaf or goes on at a node below or to the right |
| `BLinkSteps.GoodLeafHeld` | src/btree/map.rs:1167-1223 | a locked leaf is kept if it covers the key; otherwise the lock moves to a leaf that starts further right |
| `BLinkSteps.GoodDirHeld` | src/btree/map.rs:1418-1544 | the same for the directory that is to take a separator |
| `BLinkSteps.GoodRising` | src/btree/map.rs:1550-1559 | without a stack the climb starts from the left edge of the level and waits while a root is growing |
| `BLinkSteps.GoodFiring` | src/btree/map.rs:582-600 | the listener call of a writer that holds the leaf reports the change it published and nothing else |
| `BLinkWrites.GoodLeafOwned` | src/btree/map.rs:1241-1308 | the decision under the leaf lock, and an edit that does not split, keep the whole shared invariant |
| `BLinkWrites.GoodLeafPublish` | src/btree/map.rs:1338-1406 | publishing the left half makes both halves visible at once and keeps the whole shared invariant |
| `BLinkWrites.NewGroupGet` | src/btree/map.rs:641-690 | the group a writer builds answers as the operation says for its key and as before for every other |
| `BLinkWrites.NotHot` | src/btree/map.rs:582-600 | no other writer's unreported change concerns a key whose leaf one holds |
| `BLinkParents.GoodDirOwned` | src/btree/map.rs:1472-1544 | entering the separator, or deciding to split, keeps the whole shared invariant |
| `BLinkParents.GoodDirPublish` | src/btree/map.rs:1472-1544 | publishing a directory split keeps the whole shared invariant |
| `BLinkParents.NotYetNamed` | src/btree/map.rs:1418-1544 | a separator on its way up is in no directory of the level: the duplicate-separator error cannot occur |
| `BLinkParents.GoodRootPublish` | src/btree/map.rs:1427-1471 | switching the root pointer keeps the whole shared invariant |
| `BLinkParents.GoodRootEdge` | src/btree/map.rs:1427-1471 | extending the left-edge list finds it at the expected length |
| `BLinkRuns.EveryStepGood` | src/btree/map.rs:1061-1708 | every step of every thread keeps the shared invariant, its own knowledge and the guarantee to the others |
| `BLinkRuns.StepKeepsInv` | src/btree/map.rs:1061-1708 | the invariant of the whole system is inductive |
| `BLinkRefinement.StepAtomic` | src/btree/map.rs:1061-1708 | a step either leaves the abstract map and its caller's view alone or does all that its operation is for, spelled out for each operation apart from the code: the new value of its key, the result, the report to listeners, and no other key touched |
| `BLinkRefinement.OthersUnmoved` | src/btree/map.rs:1061-1708 | a step changes nothing in what the callers of other threads see |
| `BLinkTheorems.CreatedIsInitial` | src/btree/map.rs:745-796 | a new map is a valid initial state and holds nothing |
| `BLinkTheorems.RunInv` | src/btree/map.rs:1061-1708 | every state of every run satisfies the invariant |
| `BLinkTheorems.NeverFaults` | src/btree/map.rs:1418-1559 | no run reaches a corruption error |
| `BLinkTheorems.RunStep` | src/btree/map.rs:1061-1708 | each step of a run is atomic for its thread and invisible to the other callers |
| `BLinkTheorems.Linearizable` | src/btree/map.rs:1061-1708 | a call that settles took its whole effect at exactly one of its own steps between call and return |
| `BLinkTheorems.CallPerforms` | src/btree/map.rs:1061-1708 | from the beginning of a call to its return: at one of its own steps it met `was` under its key; a get returns it; a put returns it and stores unless it is conditional and `was` is there; a removal or replacement happens exactly if `was` is there and as expected, and returns it then and nothing otherwise |
| `BLinkTheorems.HistoryIsSequential` | src/btree/map.rs:1061-1708 | the calls of a run in effect order are a sequential execution in which each does what its operation is for, giving every recorded result and the final contents |
| `BLinkTheorems.ChangesChain` | src/btree/map.rs:641-690 | the published changes of a key lead from its first value to its current one, each from where the last ended |
| `BLinkTheorems.ListenersInOrder` | src/btree/map.rs:582-600 | listeners hear a key's changes in published order, each once, missing at most the one whose writer holds the leaf |
| `BLinkProgress.OneLock` | src/btree/map.rs:139-195 | a thread that holds a node lock holds no other and waits for none |
| `BLinkProgress.NoDeadlock` | src/btree/map.rs:161-195 | in every reachable state some thread can take a step, also while writers wait for a growing root |
| `BLinkProgress.KeyExclusion` | src/btree/map.rs:1199-1223 | at most one writer is between locking a key's leaf and publishing, and none while a change of the key is unreported |
| `BLinkProgress.EdgesAreLeftmost` | src/btree/map.rs:1550-1559 | the left-edge list names for each level its one leftmost node |
| `BLinkProgress.RootGrowsByOne` | src/btree/map.rs:1427-1471 | the root changes only from a node to its parent one level up, by the thread that split it |
| `BLinkProgress.LevelTiles` | src/btree/map.rs:1550-1559 | in every reachable state each level, followed from its left edge, tiles the key space |
| `BLinkSolo.ReadingLowers` | src/btree/map.rs:1070-1111 | every node a lookup reads leaves it fewer nodes below it and to its right; there are at most as many as published nodes |
| `BLinkSolo.StepLowers` | src/btree/map.rs:1061-1708 | every step of every thread, search, lock, split, climb or root growth, lowers a bound on its remaining steps |
| `BLinkSolo.TogoBound` | src/btree/map.rs:1061-1708 | that bound is linear in the number of published nodes |
| `BLinkSolo.SoloEnds` | src/btree/map.rs:1061-1708 | a thread that runs alone from any state that meets the invariant takes at most as many steps as the bound says |
| `BLinkSolo.SoloMoves` | src/btree/map.rs:161-195 | if the locks that are taken are its own and nobody else grows the root, a thread can take its next step |
| `BLinkSolo.LookupReturns` | src/btree/map.rs:1070-1111 | whoever holds locks, a lookup running alone is done within as many steps as there are nodes, with what is under its key, and changes nothing |
| `BLinkSolo.LookupEnds` | src/btree/map.rs:1070-1111 | no run of a lookup alone is longer |
| `BLinkSolo.CallEnds` | src/btree/map.rs:1061-1708 | however a call runs alone, it takes linearly many steps; once done it has done to the map it began with what its operation is for; until then only a lock of somebody else can stop it |
| `BLinkSolo.CallReturns` | src/btree/map.rs:1061-1708 | a call that begins with nobody else holding a lock and runs alone returns |
| `BLinkScan.RestLookup` | src/btree/map.rs:2492-2595 | the leaf chain lists exactly what point reads find |
| `BLinkScan.FirstLeaf` | src/btree/map.rs:1714-1731 | the descent for a lower bound ends at a leaf before which nothing is in bounds |
| `BLinkScan.AscendingScan.constructor` | src/btree/map.rs:1755-1808 | a new scan has yet to yield all entries in bounds |
| `BLinkScan.AscendingScan.Next` | src/btree/map.rs:2492-2595 | yields the first remaining entry, and none exactly if none remains |
| `BLinkScan.Collect` | src/btree/map.rs:2265-2280 | draining a scan yields all entries in bounds in ascending order |
| `BLinkScan.DropFrames` | src/btree/map.rs:1912-2057 | the frames kept from the last descent all lie left of the new bound |
| `BLinkScan.Descend` | src/btree/map.rs:1912-2057 | a descent resumed from kept frames ends at a leaf left of the bound, entered at the nearest separator |
| `BLinkScan.RideRight` | src/btree/map.rs:1912-2057 | moving right over siblings no parent names yet ends at the last leaf below the bound with no entry skipped |
| `BLinkScan.LastLeafBatch` | src/btree/map.rs:1912-2057 | the batch is the top of what remains below the bound, the next bound keeps the rest, and it is strictly lower |
| `BLinkScan.DescendingScan.constructor` | src/btree/map.rs:2065-2084 | a new scan has yet to yield all entries in bounds, reversed |
| `BLinkScan.DescendingScan.Next` | src/btree/map.rs:2646-2719 | yields the last remaining entry, never a corruption error, and ends exactly if none remains |
| `BLinkScan.ScanIsLookup` | src/btree/map.rs:2492-2595 | a scan lists in ascending order exactly the entries that point reads find and that meet each bound given: strictly, or with equality if that bound is inclusive |
| `BLinkScan.ScanBothWays` | src/btree/map.rs:2646-2719 | for all bounds and trees, separators pending or not, the ascending scan lists exactly the entries point reads find that meet each bound given, strictly or with equality if that bound is inclusive, and the descending scan the same from the last to the first |
| `LiveScan.SnapStays` | src/btree/map.rs:1890-1910 | a copy of a node stays usable while the tree grows: its bounds, link and children say the same |
| `LiveScan.CopyAnswers` | src/btree/map.rs:2492-2595 | a copied leaf answers for the keys in its interval as the map did when it was copied |
| `LiveScan.LiveFirstLeaf` | src/btree/map.rs:1714-1731 | a descent during writes ends at a leaf that starts left of the lower bound |
| `LiveScan.LiveAscending.constructor` | src/btree/map.rs:1755-1808 | at the start no key in bounds is passed over |
| `LiveScan.LiveAscending.Next` | src/btree/map.rs:2492-2595 | during writes: yields a greater key each time, in bounds, with a value the map held at some moment of the scan, and passes over no key that was there throughout |
| `LiveScan.LiveCollect` | src/btree/map.rs:2492-2595 | a drained scan is ascending, every entry was in the map at some moment and meets the bounds, and no key that meets them and was there throughout is missing |
| `LiveScanDown.FramesStay` | src/btree/map.rs:1898-1910 | directories kept from earlier descents stay valid although they may be stale |
| `LiveScanDown.LiveDescend` | src/btree/map.rs:1912-2057 | a descent during writes, resumed from stale frames, ends at a leaf that starts exactly at the separator it was reached by, left of the bound |
| `LiveScanDown.LiveRideRight` | src/btree/map.rs:1912-2057 | riding right leaves out no key that was there throughout |
| `LiveScanDown.LiveBatch` | src/btree/map.rs:1912-2057 | the next bound is strictly lower and below the whole batch; a key that was there throughout is in the batch or at or below the next bound |
| `LiveScanDown.LiveDescending.constructor` | src/btree/map.rs:2065-2084 | at the start no key in bounds is passed over |
| `LiveScanDown.LiveDescending.Next` | src/btree/map.rs:2646-2719 | during writes: yields a smaller key each time, in bounds, with a value the map held at some moment of the scan, and never the corruption error |
| `LiveScanDown.LiveCollectDown` | src/btree/map.rs:2646-2719 | a drained scan is descending, every entry was in the map at some moment and meets the bounds, and no key that meets them and was there throughout is missing; no corruption error comes up |
| `BLinkPump.Pump.constructor` | src/btree/pump.rs:75-88 | an empty loader with the fill and node size given |
| `BLinkPump.Pump.Put` | src/btree/pump.rs:97-115 | rejects a key not above the last one without change, and otherwise adds the entry to what the tree will hold |
| `BLinkPump.Pump.FlushLeaf` | src/btree/pump.rs:126-142 | writes the full leaf to a recid not written before, linked to a recid reserved for its sibling, and hangs it into the level above; nothing is written twice |
| `BLinkPump.Pump.PushUp` | src/btree/pump.rs:144-155 | a separator and its child enter the level above, closing full directories on the way |
| `BLinkPump.Pump.Finish` | src/btree/pump.rs:177-206 | every reserved recid is written, each exactly once, and the result is a tree with nothing pending |
| `BLinkPump.LoadSorted` | src/btree/pump.rs:97-206 | succeeds exactly if the keys strictly ascend; every recid taken from the store is written exactly once, the tree meets the invariant, every node but a level's last has exactly the fill, and its leaf chain is the input |
| `BLinkOpen.BuildLeftEdges` | src/btree/map.rs:925-952 | names the leftmost node of every level, and fails exactly if the root is not both ends of its level |
| `BLinkOpen.OpenedIsInitial` | src/btree/map.rs:858-922 | opening a well-formed tree gives an initial state, so all results on runs apply |
| `BLinkOpen.CreateFromSorted` | src/btree/map.rs:3280-3326 | bulk creation succeeds exactly on strictly ascending input; every node is written exactly once, the map holds exactly the input and is a valid start of concurrent runs |
| `Bindings.HeardInRun` | src/btree/map.rs:582-600 | in every run each change a listener hears starts from the value the changes before leave, and what it knows of a key not being changed is the key's value |
| `Bindings.SecondaryValue.constructor` | src/db/bind.rs:393-398 | the index derived from a full listing agrees with the map |
| `Bindings.SecondaryValue.Modify` | src/db/bind.rs:399-405 | the listener keeps the index in agreement with the changes heard |
| `Bindings.ValueIndexInRun` | src/db/bind.rs:376-407 | in every run the index gives a key not being changed exactly the value derived from the map |
| `Bindings.SecondaryKeys.constructor` | src/db/bind.rs:506-512 | the index filled from a full listing agrees with the map |
| `Bindings.SecondaryKeys.Modify` | src/db/bind.rs:513-525 | the listener keeps the index in agreement with the changes heard, also where old and new derive common keys |
| `Bindings.KeysIndexInRun` | src/db/bind.rs:490-527 | in every run the index pairs a key not being changed with exactly the keys its entry derives (the one-to-many value index is the same with the pair turned round) |
| `Bindings.SecondaryKey.PutUnique` | src/db/bind.rs:352-371 | accepts exactly if the derived key is free or already this key's |
| `Bindings.SecondaryKey.Populate` | src/db/bind.rs:469-473 | filling from a listing fails exactly if two entries derive the same key |
| `Bindings.SecondaryKey.Withdraw` | src/db/bind.rs:475-478 | the listener's first access gives up the key's derived key and leaves alone what another key holds |
| `Bindings.SecondaryKey.Claim` | src/db/bind.rs:479-482 | the second access is rejected exactly if another key holds the derived key; exactly the entries not lost are held |
| `Bindings.AcceptedIfUnique` | src/db/bind.rs:352-371 | while derived keys are unique and nothing is lost, a claim is accepted exactly if they stay unique |
| `Bindings.NoneRejected` | src/db/bind.rs:453-486 | from unique derived keys, no claim of a history is rejected if and only if the derived keys are unique after every prefix of it; then no key is lost |
| `Bindings.ListeningOk` | src/db/bind.rs:295-331 | in every run, however the accesses of different listeners interleave, what is heard is coherent and knows every key that is not being changed |
| `Bindings.UniqueIndexInRun` | src/db/bind.rs:453-486 | in every run and interleaving of accesses, the index finds a key not being changed by what its entry derives if and only if the history heard does not lose it, and by nothing else |
| `Bindings.UniqueIndexComplete` | src/db/bind.rs:453-486 | in every run, no claim is rejected if and only if after each access no two known keys derive the same key, and then the index finds every key not being changed |
| `HandOver.BothReport` | src/btree/map.rs:582-600 | a run of two threads on a tree of two leaves that publishes one change before the other and reports them the other way round |
| `HandOver.NeverTwice` | src/db/bind.rs:453-486 | in that run no two keys ever have the same derived key |
| `HandOver.LosesEntry` | src/db/bind.rs:352-371 | an index that heard that run rejects a claim and at the end lacks the only entry of the map |
| `ExternalValues.OwnedSlot` | src/btree/map.rs:1199-1223 | a writer that has locked its leaf knows what the whole tree says about its key |
| `ExternalValues.NotMinded` | src/btree/map.rs:641-672 | no other thread relies on the record linked by the leaf a writer has locked |
| `ExternalValues.GoodUpdate` | src/btree/map.rs:641-672 | overwriting a value record under the leaf lock keeps everything and changes the value of that key alone |
| `ExternalValues.GoodLink` | src/btree/map.rs:676-690 | publishing the leaf that links a new record, with or without a split, makes it the value of its key and of no other |
| `ExternalValues.GoodUnlink` | src/btree/map.rs:1602-1667 | taking a recid out of its leaf hands the record to the remover, while no lookup is inside the barrier |
| `ExternalValues.GoodDelete` | src/btree/map.rs:1602-1667 | deleting an unlinked record, whose recid the store may reuse at once, disturbs nobody |
| `ExternalValues.TurnKeepsWorld` | src/btree/map.rs:1061-1708 | every step of every thread keeps the invariant of tree and records, is invisible to other callers, and is silent or the whole operation on values for its own |
| `ExternalValues.CreatedAtRest` | src/btree/map.rs:728-796 | a new map with external values is a valid start |
| `ExternalValues.HistoryOk` | src/btree/map.rs:1061-1708 | every state of every run satisfies the invariant, and no value record is ever missing |
| `ExternalValues.LeavesLive` | src/btree/map.rs:625-639 | every recid in a published leaf names a live record, in nobody's hands, that holds the value of the key beside it |
| `ExternalValues.LeavesApart` | src/btree/map.rs:676-690 | no recid is in two slots of the published leaves |
| `ExternalValues.HistoryLeaves` | src/btree/map.rs:676-690 | both hold in every state of every run |
| `ExternalValues.ExpandsOwnRecord` | src/btree/map.rs:1061-1111 | the record a lookup is about to expand is the one the leaf of its key names at that moment, no other slot names it, and no removal is inside the barrier |
| `ExternalValues.NoLeak` | src/btree/map.rs:1602-1667 | when nobody is busy every record is linked |
| `ExternalValues.XHistoryIsSequential` | src/btree/map.rs:1061-1708 | the calls of every run in effect order are a sequential execution in which each does what its operation is for, giving every result and all values |
| `ExternalValues.XCallPerforms` | src/btree/map.rs:1061-1708 | a call does what its operation is for, on values, at one of its own steps between beginning and return |
| `ExternalValues.SomeoneMoves` | src/btree/map.rs:1061-1068 | as long as some call is under way, some thread can take a step, barrier included |
| `ExternalSolo.TurnLowers` | src/btree/map.rs:1061-1708 | every step of every thread, in the tree, on a record or at the barrier, lowers a bound on its remaining steps |
| `ExternalSolo.XSoloMoves` | src/btree/map.rs:1061-1068 | with locks and barrier otherwise free, a call can take its next step |
| `ExternalSolo.XCallEnds` | src/btree/map.rs:1061-1708 | however a call runs alone, it takes linearly many steps and has then done to the values it began with what its operation is for |
| `ExternalSolo.XCallReturns` | src/btree/map.rs:1061-1708 | a call that begins with locks and barrier otherwise free and runs alone returns |
| `LongQueue.QueueLong.constructor` | src/queue/long.rs:224-232 | an empty queue |
| `LongQueue.QueueLong.Put` | src/queue/long.rs:295-310 | appends at the sentinel's recid and reserves a new sentinel, which may be a recid freed before; or rejects an out-of-range field with no change |
| `LongQueue.QueueLong.Take` | src/queue/long.rs:322-352 | removes and returns the oldest node and gives its recid back to the store; none exactly if empty |
| `LongQueue.QueueLong.TakeUntil` | src/queue/long.rs:360-375 | removes exactly the longest prefix the callback accepts, in order |
| `LongQueue.QueueLong.Remove` | src/queue/long.rs:384-427 | unlinks exactly the node asked for, keeping the order of the rest; for a recid that is not queued an error that leaves the queue as it was; a deleted record's recid goes back to the store |
| `LongQueue.QueueLong.PutPreallocated` | src/queue/long.rs:451-475 | appends under the given recid and keeps the sentinel |
| `LongQueue.QueueLong.Bump` | src/queue/long.rs:430-447 | moves exactly the node asked for to the newest position with the new timestamp, or leaves the queue unchanged |
| `LongQueue.QueueLong.Values` | src/queue/long.rs:499-515 | the values in queue order |
| `LongQueue.QueueLong.Verify` | src/queue/long.rs:537-569 | on arbitrary records accepts exactly if the pointers form one doubly linked list from tail to head |
| `LongQueue.ValidIsSound` | src/queue/long.rs:537-569 | every reachable queue is accepted |
| `LongQueue.NotBackLinked` | src/queue/long.rs:384-427 | a removed node still stored is not pointed back to, which is why the check before unlinking is enough |
| `BlockingQueue.FifoKeepsOrder` | src/queue/blocking.rs:279-336 | inserting into an empty first-in-first-out queue gives the values in order |
| `BlockingQueue.LifoReverses` | src/queue/blocking.rs:279-336 | inserting into an empty last-in-first-out queue gives them reversed |
| `BlockingQueue.CircularKeepsLast` | src/queue/blocking.rs:279-336 | inserting into an empty circular queue keeps exactly the last `capacity` values in order |
| `BlockingQueue.Create` | src/queue/blocking.rs:186-210 | fails exactly for a circular queue of capacity zero or above the limit; otherwise the queue is empty, of the mode asked for, with the capacity given if circular and the largest one if not |
| `BlockingQueue.Fill` | src/queue/blocking.rs:186-336 | a new queue that has been offered `vs` holds it in order, reversed as a stack, or its last `capacity` elements if circular; only offers beyond the largest capacity are refused |
| `BlockingQueue.PersistentQueue.Enqueue` | src/queue/blocking.rs:279-336 | the contents change as the mode says, the oldest dropped from a full circular queue |
| `BlockingQueue.PersistentQueue.Dequeue` | src/queue/blocking.rs:339-374 | removes and returns the first element, none exactly if empty |
| `BlockingQueue.PersistentQueue.Offer` | src/queue/blocking.rs:377-388 | refuses exactly if full and not circular, with no change |
| `BlockingQueue.PersistentQueue.RemoveValue` | src/queue/blocking.rs:536-589 | removes exactly the first occurrence, false exactly if there is none |
| `BlockingQueue.PersistentQueue.DrainTo` | src/queue/blocking.rs:593-604 | moves exactly the first `max` elements in order and leaves the rest, the mode and the capacity |
| `BlockingQueue.PersistentQueue.Clear` | src/queue/blocking.rs:607-615 | empties the queue, frees every node record and leaves the mode and the capacity |
| `BlockingQueue.PersistentQueue.Verify` | src/queue/blocking.rs:676-699 | on arbitrary records accepts exactly if the header describes a list of its size, head and tail |
| `ByteStrings.BigEndianOrder` | src/ser/tuple.rs:58-66 | fixed-width big-endian bytes compare as the numbers they encode |
| `TupleCodec.EscapedOrder` | src/ser/tuple.rs:114-126 | escaped payloads compare as the payloads, whatever follows them, and differ before their ends |
| `TupleCodec.EncodedOrder` | src/ser/tuple.rs:58-107 | encodings of one component compare as the values and equal ones leave the decision to the rest |
| `TupleCodec.EncodingPreservesOrder` | src/ser/tuple.rs:158-204 | for every schema, unsigned comparison of encodings is comparison of tuples, prefixes included |
| `TupleCodec.EncodingInjective` | src/ser/tuple.rs:158-171 | different tuples have different encodings |
| `TupleCodec.UnescapedInverts` | src/ser/tuple.rs:128-152 | reading an escaped payload gives it back and consumes exactly its bytes |
| `TupleCodec.UnescapedSound` | src/ser/tuple.rs:128-152 | whatever is read was the escaped form of the result |
| `TupleCodec.DecodingInverts` | src/ser/tuple.rs:174-191 | decoding the encoding of a tuple gives the tuple |
| `TupleCodec.DecodingSound` | src/ser/tuple.rs:174-191 | whatever is decoded is a tuple of the schema, and it encodes to the input if and only if every text in the input is well-formed |
| `TupleCodec.RepairedSame` | src/ser/tuple.rs:84-87 | the repair of text leaves exactly well-formed text as it is |
| `TupleCodec.RepairedAfter` | src/ser/tuple.rs:84-87 | well-formed text in front of anything is kept and the rest repaired on its own |
| `TupleCodec.RepairsLongest` | src/ser/tuple.rs:84-87 | where no character begins, one replacement character stands for the longest beginning of a character, or for a single byte |
| `TupleCodec.DecodingRepairs` | src/ser/tuple.rs:174-191 | decoding accepts exactly what splits into components, and differs from them only in repaired texts |
| `TupleCodec.MalformedTextAccepted` | src/ser/tuple.rs:84-87 | an input with malformed text that is accepted and comes back as something else |
| `TupleCodec.WriteEscaped` | src/ser/tuple.rs:114-126 | the byte loop computes the escaping whose order and inverse are proved |
| `TupleCodec.ReadEscaped` | src/ser/tuple.rs:128-152 | the byte loop computes the reading proved inverse, errors included |
| `TupleCodec.EncodeTuple` | src/ser/tuple.rs:158-171 | the loop over the schema computes the encoding proved to preserve order |
| `TupleCodec.DecodeTuple` | src/ser/tuple.rs:174-191 | total on arbitrary bytes, it computes that decoding, repair and errors included |
| `Utf8Order.FirstCharSound` | src/ser/util.rs:52-138 | a character read is a scalar value and the bytes consumed are its shortest encoding |
| `Utf8Order.FirstCharComplete` | src/ser/util.rs:52-138 | every scalar value's encoding is read back |
| `Utf8Order.WellFormedIsUtf8` | src/ser/util.rs:52-138 | bytes that can be read to the end are the encoding of a string |
| `Utf8Order.ComparesAsUtf16` | src/ser/util.rs:27-138 | on every string, comparing its UTF-8 bytes with a key gives the order of the UTF-16 code units |
| `Utf8Order.AnswerOrRefusal` | src/ser/util.rs:52-138 | on arbitrary bytes, an answer is the order of the characters read, which are the whole string or already differ from the key; a refusal names the characters and the bytes that begin none |
| `Utf8Order.RefusedExactly` | src/ser/util.rs:52-138 | an error if and only if characters that agree with the key so far are followed by bytes that begin no character; never on well-formed bytes |
| `Utf8Order.MalformedAnswered` | src/ser/util.rs:49-51 | malformed bytes that get an answer |
| `Utf8Order.CompareUtf8` | src/ser/util.rs:52-138 | the streaming loop computes that comparison |
| `PackedLong.PackLong` | src/io.rs:88-100 | the shift loop writes the seven-bit groups of the value, most significant first, the last marked |
| `PackedLong.UnpackInverts` | src/io.rs:221-243 | every 64-bit value takes at most ten bytes and is read back, whatever follows |
| `PackedLong.UnpackCapped` | src/io.rs:221-231 | the loop computes that reading, errors included |
| `PackedLong.SkipAsUnpack` | src/io.rs:252-268 | skipping succeeds exactly if reading does and consumes the same bytes |
| `PackedLong.UnpackLongSkip` | src/io.rs:252-268 | skipping `count` values ends where reading them would |
| `PackedLong.BoundedSound` | src/db/catalog.rs:97-130 | the strict reader accepts only canonical encodings of 64-bit values |
| `PackedLong.BoundedInverts` | src/db/catalog.rs:97-130 | and accepts every one of them |
| `PackedLong.ReadBounded` | src/db/catalog.rs:97-130 | the loop computes the strict reading, errors included |
| `NameCatalog.ReadString` | src/db/catalog.rs:66-87 | accepts exactly a canonical length followed by that many bytes of UTF-8 within the record |
| `NameCatalog.Deserialize` | src/db/catalog.rs:145-186 | accepts exactly the encodings of entry lists with distinct keys, with no byte left over, and answers with the map listed |
| `NameCatalog.Serialize` | src/db/catalog.rs:133-143 | writes header, count and framed entries in order |
| `NameCatalog.RoundTrip` | src/db/catalog.rs:133-186 | decoding inverts encoding |
| `FrontCoded.CommonPrefixLen` | src/ser/util.rs:142-149 | a common prefix, and the strings differ right after it or one of them ends |
| `FrontCoded.Serialize` | src/ser/bytearray.rs:454-477 | writes blob length, restart table and front-coded blob |
| `FrontCoded.Deserialize` | src/ser/bytearray.rs:479-500 | gives back any group whose entries are there, whatever the restart table and a declared length that is too great; ends where the entries end; whatever it accepts has the count asked for |
| `FrontCoded.RoundTrip` | src/ser/bytearray.rs:454-500 | decoding inverts encoding, whatever lies before and after |
| `FrontCoded.EntryAt` | src/ser/bytearray.rs:341-373 | an element is decodable from its own entry and the element before it |
| `FrontCoded.ReadEntry` | src/ser/bytearray.rs:341-373 | reads the element whose entry is there and stops at its end |
| `FrontCoded.SeekRestart` | src/ser/bytearray.rs:316-335 | never leaves the blob, and finds the entry of every restart of a stored group |
| `FrontCoded.CompareRestart` | src/ser/bytearray.rs:378-417 | compares a restart element with the key without copying it |
| `FrontCoded.FindRestart` | src/ser/bytearray.rs:506-568 | on any bytes it computes the bisection specified; if the table leads to the entries, everything before the interval found is below the key and everything after it above |
| `FrontCoded.ScanInterval` | src/ser/bytearray.rs:506-568 | on any bytes it computes the scan specified; if the table leads to the entries, it finds the key or its insertion point in the whole group |
| `FrontCoded.StoredIsIndexed` | src/ser/bytearray.rs:454-477 | a group as it is written declares its length, and from every restart its entries are read |
| `FrontCoded.IndexedSearches` | src/ser/bytearray.rs:506-568 | whenever the table leads to the entries of a sorted group, searching the bytes finds the right answer for every key |
| `FrontCoded.SearchUnique` | src/ser/bytearray.rs:48-59 | a sorted group has one right answer for a key |
| `FrontCoded.Search` | src/ser/bytearray.rs:48-59 | binary search over the objects finds it |
| `FrontCoded.BinarySearch` | src/ser/bytearray.rs:506-568 | on any bytes it computes the search specified and ends at the declared end; on a stored group it finds the right answer and ends after the group |
| `FrontCoded.SearchBothWays` | src/ser/bytearray.rs:506-568 | on every sorted group and key, the search over the bytes answers as the one over the objects |
| `FrontCoded.BinaryGet` | src/ser/bytearray.rs:570-594 | on any bytes it computes the read specified; on a stored group it reads the element at a position; a position outside the group is an error |
| `FrontExact.SearchFound` | src/ser/bytearray.rs:506-568 | a search that finds a key at a position has read that key there, from the restart of that position |
| `FrontExact.SearchExact` | src/ser/bytearray.rs:506-568 | on any bytes and for any sorted group: every key is answered right if and only if the declared end lies within the input and from every restart the entries of the group are read |
| `FrontExact.GetExact` | src/ser/bytearray.rs:570-594 | on any bytes: every element is read right if and only if the same holds, or there are none |
| `NodeCodec.CheckSorted` | src/btree/node.rs:191-201 | true exactly if the keys strictly ascend |
| `NodeCodec.Serialize` | src/btree/node.rs:205-239 | writes header, link, keys and body of a sound node |
| `NodeCodec.ReadStart` | src/btree/node.rs:241-280 | reads header and link of any stored node and rejects a link that contradicts the flags |
| `NodeCodec.ReadChildren` | src/btree/node.rs:241-353 | accepts only non-zero children and gives back the ones stored |
| `NodeCodec.Deserialize` | src/btree/node.rs:241-353 | total on arbitrary bytes: whatever it accepts is a sound node whose header, link and children are where the byte-side reader looks for them; it gives back every stored node, also from records altered in the key group's restart table or declared length |
| `NodeCodec.RoundTrip` | src/btree/node.rs:205-353 | decoding inverts encoding on every sound node |
| `NodeCodec.OnObject` | src/btree/map.rs:2406-2436 | a leaf finds a key exactly if it has it, with its value, and sends a key above all its keys right; a directory routes to the child whose range holds the key |
| `NodeCodec.OnBytes` | src/btree/map.rs:2331-2404 | on any bytes it computes the lookup specified; on any stored node it answers right from the bytes alone; it refuses a record that overstates the length of its key group |
| `NodeCodec.ReadChild` | src/btree/map.rs:2331-2404 | skipping to a child's position reads that child |
| `NodeCodec.ReadBothWays` | src/btree/map.rs:2331-2436 | for every node and key, reading the bytes and reading the object give the same next recid, found flag and value, and the right ones |
| `NodeCodec.SearchableAgrees` | src/btree/map.rs:2331-2436 | on any bytes whose tables lead to what decoding finds, the lookup in the bytes answers as the lookup in the decoded node, and right |
| `NodeCodec.KeySearchExact` | src/btree/map.rs:2357-2362 | for every record that decodes to a node: its key group is searched right for all keys if and only if the declared end lies within the record and every restart leads to its entries |
| `NodeCodec.CursorExact` | src/btree/map.rs:2357-2362 | the search leaves the cursor at the body if and only if the declared length is that of the entries |
| `NodeCodec.SearchableExact` | src/btree/map.rs:2331-2404 | the tables of such a record lead to everything decoding finds if and only if both hold |
| `NodeCodec.ReadAnyBothWays` | src/btree/map.rs:2331-2436 | the same for whatever bytes decoding accepts: when keys are searched right, when values are read right, and that both readers then agree |
| `NodeCodec.SilentlyAbsent` | src/btree/map.rs:2331-2404 | a record in which decoding finds a key and the lookup in the bytes says without an error that it is absent |
| `NodeCodec.DecodesButRefuses` | src/ser/bytearray.rs:479-568 | for every node and every overstated length, a record that decodes to the node and that every lookup in the bytes refuses |
| `NodeCodec.ForgedLeaf` | src/ser/bytearray.rs:479-568 | one such record, byte by byte |
| `WalWriter.BodySink.constructor` | src/store/wal_write.rs:142-162 | a sink at the end of the file, with nothing fed |
| `WalWriter.BodySink.Write` | src/store/wal_write.rs:164-181 | flushed and buffered bytes together stay what the checksum was fed; it fails exactly if an operation fails; the measuring pass does no I/O |
| `WalWriter.BodySink.Flush` | src/store/wal_write.rs:183-192 | on success all buffered bytes are in the file; on failure, which some operation's failure causes, the file has only grown |
| `WalWriter.Wal.RollOver` | src/store/wal_write.rs:277-300 | succeeds exactly if no operation fails and the lsn is positive: the active segment is forced and sealed and an empty one opened with the next sequence number and its header; the number is used up once creation is attempted; on failure no section is lost; the numbers of a log ascend |
| `WalWriter.Wal.WriteSection` | src/store/wal_write.rs:321-352 | succeeds exactly if no operation fails and the second pass succeeds with the length and checksum of the first, and then the section is durable; otherwise the acknowledged sections are intact |
| `WalWriter.Wal.AppendBody` | src/store/wal_write.rs:302-352 | succeeds exactly if no operation fails and both passes succeed with the same length and checksum; a failure before any I/O changes nothing, one after it closes the log |
| `WalWriter.Wal.AppendSection` | src/store/wal_write.rs:256-352 | succeeds exactly if there is an active segment, a rollover has a positive lsn, no operation fails and both passes succeed with the same length and checksum; an acknowledged section is durable and exactly appended to the history; a failed one leaves the history and, if I/O had begun, closes the log; a segment is sealed exactly if full and not empty |
| `WalWriter.EmptyMeansNone` | src/store/wal_write.rs:269-276 | the emptiness test on offsets is right: only the header is valid exactly if there is no section |

## Left out

- Keys and values of the map are integers in `BLink*.dfy`: only their order and equality matter there. Their bytes are the subject of the codec modules.
- The cached root pointer is a choice: an operation may start from any root ever published, which covers every stale cache.
- Store errors in the middle of a map operation, and the poisoning of the map after one.
- The cycle guards that turn a damaged tree into an error instead of an endless walk.
- The optional size counter, deferred listeners, and listeners that fail (the rejection of a unique index changes nothing in the map).
- Transactional stores, and the refresh of left edges they need.
- `poll_first_entry`, `poll_last_entry`, `clear`, range views and the value-column visitor: compositions of the operations modelled.
- A scan of a map that is being written to takes no part in the run it reads; its loads happen at any later states of it.
- External values in scans, the leaf format that holds their recids, and what listeners hear of them (in that machine a change of a record is not reported).
- `Bind.size`, `Bind.histogram` and the log of deleted values: they use deferred listeners. A change published between the filling of an index and the installation of its listener, which the listener never hears: the source asks for a quiescent map there, and the model installs at one quiescent state. A secondary that is not empty when it is installed (the code then skips filling it), one that is itself a map, and the rejection of a map bound to itself.
- NodeCodec.Deserialize: only the front-coded byte-array format for keys and values; the offset-table and fixed-width formats share its structure.
- FrontCoded.Serialize: beyond 2^31 bytes of blob the code casts lengths to 32 bits; the contract speaks of groups below that.
- NameCatalog.Serialize: takes the entries in the order the sorted map iterates them; beyond 2^32 the code casts lengths, and the contract speaks of shorter ones.
- WalWriter.Wal.AppendSection: checksums and header layouts are parameters; reopening a released file handle, recovery and the segment directory are not modelled.
- LongQueue.QueueLong.TakeUntil: the callback decides on the position and the item and does not call back into the queue; the guard against that is left out, as are locks.
- LongQueue.QueueLong.PutPreallocated: asks for an allocated recid that is not queued and not the sentinel, as the source asks of its callers.
- BlockingQueue.PersistentQueue.Enqueue: waiting for room or for an element, timeouts and closing are not modelled; it asks for room unless circular, which its callers wait for.
- The paged file store, its free lists and its checksums.
