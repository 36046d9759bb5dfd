# scat: a verified model

scat is a backup pipeline. It splits a stream into chunks, adds parity shards, stripes them over stores, writes an
index of what it stored, and puts everything back in order on restore. This project models its hard logic in Dafny and
proves what that logic is for.

- `RoundRobin`, `Stripe`, `StripeLaws`: the striping allocator. Map iteration is an arbitrary choice, so every result
  holds for every order. The search loop has no counter; it ends by a lexicographic measure over priorities, existing
  locations, items not seen yet and the distance of the cursor. `StripeLaws` derives fault tolerance, idempotence and
  balance from the allocator's contract. `StripeCalls` runs whole calls step by step and says exactly when one can go on
  for ever; the contract of the allocator says that it does just that. `StripeOrder` runs one input in two orders of its
  items, with two outcomes.
- `Quota`, `Copies`, `Coordinator`: stores and their use, owners and their locks, and the object that turns a group of
  chunks into a striping problem. `CommitRuns` runs any number of its calls in any interleaving, over the one cursor
  they share, and carries the allocator's promise to the committed owners; `Deadlock` says which calls can block each
  other. `QuotaRuns` does the accounting, `QuotaExact` bounds what a store can be given, exactly where the striper has no
  choice, and `QuotaTurns` where the cursor decides.
- `SeriesSort`, `Sorting`, `Index`, `IndexRuns`, `IndexExact`: the rolling buffer with its real backing array, and the
  deduplicating index on top of it, first as a class, then as critical sections that any job may enter at any time.
- `Chain`: the staged pipeline as a step system of forwarders, with error routing and the end-of-stream protocol.
- `Group`, `Join`, `Parity`, `XorCode`: regrouping, in-order output and the parity round trip. `XorCode` shows that
  what `Parity` assumes of an erasure code is met by one.
- `Digits`, `IndexText`, `IndexLines`, `Restore`: the index as text, what texts are accepted as one, and the way of the
  shards from backup to the groups of a restore.
- `Recovery`: stripe, group and parity together: lost stores, and the data that comes back.
- `ArgScan`, `ArgParse`, `ArgRun`, `ArgPrint`, `ArgSound`, `ArgAccepts`, `ArgTail`: the process-string parsers, as
  recursive definitions with a termination measure, as the loops of the source proved against them, with a canonical
  printer they undo, with what they accept and refuse, and with what becomes of text they do not use.

Methods that update state are proved against functions on values; the theorems are about those functions. Goroutines
are modelled as step systems: a run is any sequence of enabled steps. What the code calls but does not define enters as
a parameter: checksums are values with equality, the erasure code is a record of functions (`Parity.Code`), a stage of
a chain is a pair of functions (`Chain.Proc`), a store is its identifier.

Where the code does less than one might expect, the project says exactly when:

- Equal shards are one item to the coordinator, so they are lost together. Losing `min` stores is survived if and only
  if every shard that occurs more than `nparity` times has more than `min` copies (`StripeLaws.FaultToleranceIff`); for
  fresh shards, if and only if no `nparity + 1` of them are equal (`StripeLaws.FreshToleranceIff`).
- The exclusivity of a placement with `min` below 1 holds only in trivial cases (`StripeLaws.ExclusivityNeedsCopies`).
- Groups in flight at the same time can overrun a quota (`QuotaExact.OverlapSpendsBoth`). On no schedule does a store
  get more than its use and the data of the groups that fit on it at the start (`QuotaExact.SpentWithinDemand`). That
  bound decides whether a quota holds, for groups with checksums of their own, where no more stores fit than copies are
  made (`QuotaExact.QuotaHoldsIff`). Where more stores fit, the shared cursor spreads the copies: for new chunks of one
  size, and as long as no copy fails, a quota holds if and only if the turns of the store fit in it
  (`QuotaTurns.QuotaInTurnsIff`). Spacing the groups in time is a way to keep it otherwise (`QuotaRuns.QuotasHold`).
- Without exclusivity, a call of the striper can go on for ever if and only if the sequence leaves out a destination in
  use and some item cannot be filled (`StripeCalls.EndlessIff`).
- With exclusivity, a call for at most two items is short if and only if there are fewer than min + items - 1
  destinations, and one for three items only then (`Stripe.Stripe`). With three items and fewer destinations it can
  depend on the order in which Go's map yields the items (`StripeOrder.OrderMatters`).
- The index depends on the schedule if and only if equal checksums come with different lines
  (`IndexExact.ScheduleMattersIff`).
- Text behind a process, up to the next pipe outside braces, is dropped (`ArgTail.TrailingTextIsDropped`); nothing is
  lost if and only if it is blank, in every segment (`ArgTail.NothingIsLostIff`).
- A failed striping leaves its locks held (`CommitRuns.FailureKeepsLocks`). Two calls can wait for each other's locks for
  ever if and only if their groups share two checksums (`Deadlock.CrossedIff`).

## Model

| member | source | states |
|---|---|---|
| `RoundRobin.RR.Next` | stripe/rr.go:8-16 | yields the item at the cursor and moves the cursor to its successor, back to 0 after the last; nil, and no move, on an empty sequence |
| `RoundRobin.RR.Reset` | stripe/rr.go:18-20 | puts the cursor back to the first item |
| `RoundRobin.ColdStepApproaches` | stripe/rr.go:8-16 | passing an item that is not wanted brings the next wanted one strictly nearer, across the wrap: what the allocator's termination rests on |
| `RoundRobin.DealingIsBalanced` | stripe/rr.go:8-16 | after any number of draws from any cursor, two positions have been dealt equally often, give or take one |
| `Stripe.Equal` | stripe/stripe.go:132-142 | true exactly when two location sets are equal |
| `Stripe.CountExclusives` | stripe/stripe.go:116-130 | the number of items whose location set no other item has |
| `Stripe.CountUses` | stripe/stripe.go:24-35 | lists every item once, in any order, and counts for each destination in use the items that use it |
| `Stripe.NextLoc` | stripe/stripe.go:48-63 | an existing location first, else one draw of the shared sequence; a draw seen before drops its priority and is short exactly when no priority is left |
| `Stripe.TryAdd` | stripe/stripe.go:93-103 | a location is kept exactly when min(excl, items) items stay exclusive, otherwise the placement is as before |
| `Stripe.TakeTurn` | stripe/stripe.go:70-103 | one iteration does what the value-level turn does, for whatever location it draws |
| `Stripe.TurnStaysSane` | stripe/stripe.go:69-104 | every turn keeps the bounds on locations, cursor and priorities, changes only its own item, and leaves a changed placement exclusive enough |
| `Stripe.TurnProgresses` | stripe/stripe.go:69-104 | every turn that goes on makes a lexicographic measure smaller: remaining priorities, existing locations left, items not seen, distance to an item worth drawing |
| `Stripe.TurnReuses` | stripe/stripe.go:49-52 | without exclusivity, existing destinations are all taken before the sequence is asked |
| `Stripe.TurnVisits` | stripe/stripe.go:53-62 | whatever is asked of exclusivity, each location dealt was tried or still waits for its priority, skips that un-see it included; each destination tried is held or was refused |
| `Stripe.ShortTriedAll` | stripe/stripe.go:53-62 | a search that comes up short has seen every destination dealt: the item holds it, or it was refused; and before any refusal it holds them all |
| `Stripe.TurnTakesOwn` | stripe/stripe.go:48-52 | an item with enough copies, any of which leave enough items exclusive, takes its own and draws nothing |
| `Stripe.BlockedIsFew` | stripe/stripe.go:93-103 | a destination is refused for making the item like another one, and each other item rules out one: with nothing left there are fewer destinations than min + items - 1 |
| `Stripe.TurnDeals` | stripe/stripe.go:69-104 | a fresh item takes exactly the next destinations of the sequence, and passes over what is no destination |
| `Stripe.FreshIsAccepted` | stripe/stripe.go:89-103 | as long as no location is dealt twice, every placement of fresh items is exclusive, so no location is ever rolled back |
| `Stripe.Fill` | stripe/stripe.go:69-104 | the search for one item ends, and fills it to min unless pass 0 gave up on exclusivity or it came up short; in pass 0 it comes up short only with fewer than min destinations; whenever it does, each destination dealt is held or was refused; its turns are the steps of the call |
| `Stripe.Pass` | stripe/stripe.go:37-106 | a pass serves every item unless it is short: never when every item can be filled, in pass 0 only with fewer than min destinations, in pass 1 only with an item stuck; fresh items take the destinations in turn |
| `Stripe.Stripe` | stripe/stripe.go:23-114 | for every map order: on success keys, destinations, disjointness, exactly min locations per item and exclusivity; without exclusivity ErrShort exactly when some item cannot be filled from what it has and what the sequence deals, otherwise the exact shortfall; with exclusivity, for at most two items exactly when there are fewer than min + items - 1 destinations, for three (or one exclusive item) only then, and for any number only with an item stuck; items with enough copies of their own are never short and get nothing; fresh items that fit into one turn are never short and take the destinations in turn, the cursor included; and the call is, step by step, one of the calls of StripeCalls |
| `StripeLaws.FewItemsDie` | stripe/stripe.go:93-103 | losing at most min locations kills at most one item, or leaves ndata items |
| `StripeLaws.FaultTolerance` | stripe/stripe.go:37-130 | losing any min locations leaves ndata of ndata + nparity shards, when no nparity + 1 shards are equal (README.md:136-140) |
| `StripeLaws.FaultToleranceIff` | stripe/stripe.go:37-130 | for every placement, earlier copies included: the loss of every set of min locations is survived if and only if each shard that occurs more than nparity times has copies on more than min locations |
| `StripeLaws.FreshToleranceIff` | stores/stripe/stripe.go:59-75 | for shards without earlier copies, if and only if no nparity + 1 shards have the same checksum |
| `StripeLaws.ExclusivityNeedsCopies` | stripe/stripe.go:89-103 | the exclusivity of a successful result holds if and only if min >= 1, at most one item, or none asked for |
| `StripeLaws.TopUpIsIdempotent` | stripe/stripe.go:43-112 | what a run completes lacks nothing: a second run on the merged placement adds no location to any item |
| `StripeLaws.TopUpTwice` | stripe/stripe.go:23-114 | two calls in a row without exclusivity, from any cursor and with any map orders: when the first succeeds the second does, and adds nothing to any item |
| `StripeLaws.EndlessGoesOn` | stripe/stripe.go:48-63 | exclusivity included: with too little to draw for an item and a destination in use that the sequence never deals, whatever a turn draws, it is not short and the next is in the same position |
| `StripeCalls.TellsReaches` | stripe/stripe.go:37-106 | what the striper does is a call of this step system, from the beginning to the end its outcome says |
| `StripeCalls.AliveEnds` | stripe/stripe.go:37-106 | without exclusivity, when each item can be filled or the sequence deals every destination in use, no state of a call, in any pass, has an endless continuation |
| `StripeCalls.DoomedStays` | stripe/stripe.go:37-106 | without exclusivity, once an item that cannot be filled is to come and the sequence leaves out a destination in use, every state the call reaches has a next one |
| `StripeCalls.EndlessIff` | stripe/stripe.go:23-106 | without exclusivity, for every order of the items: a call can go on for ever if and only if the sequence leaves out a destination in use and some item cannot be filled, which is what the precondition of Stripe shuts out |
| `StripeOrder.OrderMatters` | stripe/stripe.go:37-106 | with exclusivity, three items and min + 1 destinations: one input that is served when its items come up in one order and short when they come up in another |
| `StripeLaws.LoadIsBalanced` | stripe/stripe.go:48-104 | over any run of successful calls on fresh items, two locations never differ by more than one copy |
| `Quota.Man.AddResQuota` | stores/quota/quota.go:34-42 | sets the maximum, keeps the use of a store already managed |
| `Quota.Man.AddUse` | stores/quota/quota.go:44-64 | adds modulo 2^64, drops a store that reaches its maximum, ignores one not managed, leaves the others, and reports the use and maximum |
| `Quota.Man.Delete` | stores/quota/quota.go:66-70 | the store is no longer managed, the others are untouched |
| `Quota.Man.Resources` | stores/quota/quota.go:72-83 | each store whose use and the new use, modulo 2^64, do not go over its maximum, once, and no other |
| `Copies.List.Owners` | stores/copies/copies.go:68-76 | every owner once, in some order |
| `Copies.Reg.List` | stores/copies/copies.go:20-29 | the one list of a checksum, made empty on first sight; nothing else changes |
| `Copies.Reg.RemoveOwner` | stores/copies/copies.go:31-37 | takes the owner out of every list and out of nothing else |
| `Coordinator.Coordinator.constructor` | stores/stripe/stripe.go:26-48 | for every manager: the round-robin gets exactly the stores that are not over their maximum, once each; nothing is owned, locked or waited for |
| `Coordinator.OutsideStaysOver` | stores/stripe/stripe.go:28-34 | stores left out of the round-robin stay over their maximum as use is added, and are never destinations while their use does not wrap |
| `Coordinator.Coordinator.AddEntry` | stores/stores.go:75-86 | a copy listed on a store counts as use and makes the store an owner |
| `Coordinator.RefusalIsFirst` | stores/stripe/stripe.go:59-75 | a group is refused exactly when some chunk has an error or no size, for the error of the first such chunk |
| `Coordinator.Gather` | stores/stripe/stripe.go:59-75 | the first group or size error in group order, or the last chunk of every checksum and the use of all chunks |
| `Coordinator.InfosAreKeyed` | stores/stripe/stripe.go:59-75 | every chunk kept stands for its own checksum, and every checksum of the group has one |
| `Coordinator.Coordinator.LockAll` | stores/stripe/stripe.go:77-86 | takes every lock of the group, reads exactly the owners there are, and changes nothing else |
| `Coordinator.Coordinator.Place` | stores/stripe/stripe.go:76-97 | the allocator runs on the owners under the locks and on the stores that can take the whole group |
| `Coordinator.Schedule` | stores/stripe/stripe.go:110-144 | panics exactly when a checksum or a copier lookup fails, each panic only for its own reason; otherwise one copy process for each checksum and location added, with the chunk of that checksum, each once |
| `Coordinator.PlacedIsKnown` | stores/stripe/stripe.go:112-128 | neither lookup can fail on what the striper returns |
| `Coordinator.Emit` | stores/stripe/stripe.go:102-109 | the first process emits one chunk per checksum |
| `Coordinator.Coordinator.Procs` | stores/stripe/stripe.go:50-146 | errors before any lock, with nothing changed; never a panic; on shortage the locks stay held, the shared cursor is where the search has left it and the rest is as it was; on success a correct placement is scheduled and every lock has its own wait; fresh groups that fit are always placed, in turn; without exclusivity short exactly when some chunk cannot be filled |
| `Coordinator.Coordinator.EndCopy` | stores/stripe/stripe.go:132-140 | a failed copy takes its store, and no other, out of the managed ones and adds no owner, a successful one adds an owner and the use; either way it no longer counts as waiting |
| `Coordinator.Coordinator.Unlock` | stores/stripe/stripe.go:120-123 | the lock is released once nothing of its own is waited for |
| `CommitRuns.StepIsLocal` | stores/stripe/stripe.go:77-86 | in every interleaving a step touches no checksum but those its own job has locked, and takes no owner away |
| `CommitRuns.EventKeeps` | stores/stripe/stripe.go:50-146 | every step of every job, the look for stores and the placement apart, keeps locks disjoint and what each job read under its locks true |
| `CommitRuns.RingTurns` | stores/stripe/stripe.go:93 | every step, a failed search included, leaves the shared cursor within the stores it deals, and those as they were |
| `CommitRuns.FinishedIsCommitted` | stores/stripe/stripe.go:132-140 | once a job's locks are released and no copy failed, existing and planned copies are all owners |
| `CommitRuns.FinishedHasMinOwners` | stores/stripe/stripe.go:93-97 | then every checksum of the group has at least min owners |
| `CommitRuns.FinishedToleratesLosses` | integration_test/raid5_test.go:124-142 | then losing any min stores leaves ndata shards of the group, whatever other jobs did meanwhile |
| `CommitRuns.LocksBalance` | stores/stripe/stripe.go:120-123 | in every run, locks taken and locks released differ by exactly the locks held |
| `CommitRuns.FinishedReturnsLocks` | stores/stripe/stripe.go:110-123 | a finished job took and released the lock of each of its checksums exactly once, and no other |
| `CommitRuns.FailureKeepsLocks` | stores/stripe/stripe.go:95-97 | a job whose striping failed holds its locks for ever |
| `CommitRuns.CopyingIsNeverStuck` | stores/stripe/stripe.go:117-140 | a job that copies has a next step until it holds no lock |
| `CommitRuns.CopyingSettles` | stores/stripe/stripe.go:117-140 | its own steps shrink what is left to do, those of other jobs leave it alone |
| `CommitRuns.DroppedForGood` | stores/stripe/stripe.go:132-140 | in every run, a store on which a copy fails, or which a copy fills, is never managed again; a job that looks for stores after that has it among none of its destinations and plans no copy on it |
| `Deadlock.CrossedIff` | stores/stripe/stripe.go:77-86 | locks are taken one by one in map order: two calls can come to wait for each other if and only if their groups share two checksums |
| `Deadlock.WaitForEver` | stores/stripe/stripe.go:77-86 | and then neither goes on in any continuation, whatever the others do |
| `QuotaRuns.OwedAtMostSum` | stores/stripe/stripe.go:60-74 | what a group still has to copy to one store never exceeds the use it asked for, duplicates counted in |
| `QuotaRuns.EndMovesLoad` | stores/stripe/stripe.go:138-139 | a copy that ends well moves exactly its size from owed to spent; a failed one is no longer owed |
| `QuotaRuns.PlaceAddsLoad` | stores/stripe/stripe.go:87-97 | a placement adds at most the group's data to a store, and only to stores it uses |
| `QuotaRuns.QuotasHold` | stores/stripe/stripe.go:87-97 | when no job looks for stores while another is between its look and its placement, or while copies are on their way to a store that fits, and sums do not wrap, no store within its maximum is ever given more |
| `QuotaExact.SpentWithinDemand` | stores/stripe/stripe.go:87-97 | in every run, no spacing assumed, a store is never given more than its use and the data of all groups that fit on it at the start |
| `QuotaExact.OnlyPlacement` | stripe/stripe.go:69-112 | with exactly min destinations there is one correct placement, every item on all of them: what the striper must return, wherever its cursor is |
| `QuotaExact.DemandCanBeSpent` | stores/stripe/stripe.go:76-97 | with checksums of their own and no more stores that fit than copies are made, some run, with the forced placements, gives the store all of that |
| `QuotaExact.QuotaHoldsIff` | stores/quota/quota.go:72-83 | so where the striper has no choice, every run keeps the maximum of a store if and only if its use and the groups that fit on it at the start together do not exceed it |
| `QuotaExact.OverlapSpendsBoth` | stores/quota/quota.go:76-79 | the smallest case: two groups in flight that fit one by one are both placed on the one store there is, and it ends up with the sum |
| `QuotaTurns.InTurnTurns` | stripe/rr.go:8-16 | over the items of a call dealt to all stores but possibly one, every copy of that one costs a whole round of draws |
| `QuotaTurns.SpentInTurns` | stores/stripe/stripe.go:76-140 | new chunks of one size, more stores than copies: as long as no copy fails, no schedule gives a store more than its use and one chunk for each of its turns in the draws of all groups |
| `QuotaTurns.TurnsCanBeSpent` | stores/stripe/stripe.go:76-140 | some schedule gives it exactly that |
| `QuotaTurns.QuotaInTurnsIff` | stores/quota/quota.go:72-83 | so where the shared cursor decides, a quota is kept on every schedule without a failing copy if and only if the use and the turns together do not exceed it |
| `QuotaTurns.CursorSharesBoth` | stores/quota/quota.go:72-83 | the smallest case: two groups in flight demand two chunks of a store that takes one, and with a second store every schedule keeps its quota, wherever the cursor is |
| `SeriesSort.Series.Extend` | seriessort/series.go:16-23 | growing within the capacity or into a larger buffer keeps every value and uncovers only unset slots |
| `SeriesSort.Series.Add` | seriessort/series.go:11-25 | sets one absolute position and leaves every other one as it was |
| `SeriesSort.Series.Drop` | seriessort/series.go:29-38 | forgets the positions below the new start, clamped to what is tracked |
| `SeriesSort.Series.Sorted` | seriessort/series.go:41-51 | the values before the first unset position |
| `SeriesSort.View.Added` | seriessort/series.go:11-25 | as a partial map from positions: exactly one position changes |
| `SeriesSort.View.Dropped` | seriessort/series.go:29-38 | as a partial map: exactly the positions below the new start are gone |
| `SeriesSort.RunIsTheGaplessPrefix` | seriessort/series.go:41-51 | the run is the longest gapless stretch from the start |
| `Index.FinalTakenIff` | procs/index.go:71-91 | a final is taken exactly from the chunk that registered the checksum, until that chunk has ended; otherwise the state is untouched and the error says which |
| `Index.EndedIsFrozen` | procs/index.go:71-120 | whatever is called, in the protocol or against it, the finals of a chunk that has ended stay the same |
| `Index.FlushFreezes` | procs/index.go:132-159 | so does a whole flush leave them, up to their order |
| `Index.IndexProc.Process` | procs/index.go:55-69 | orders the chunk, registers its checksum once, and passes on the first chunk only |
| `Index.IndexProc.ProcessFinal` | procs/index.go:71-91 | unprocessed, ended and duplicate errors in that order, otherwise the final is appended |
| `Index.IndexProc.ProcessEnd` | procs/index.go:93-120 | completes the owner's finals only, then flushes; an unknown checksum is an error without a flush |
| `Index.IndexProc.Flush` | procs/index.go:132-159 | writes sorted finals in order up to the first position that is not complete, and drops what was written |
| `Index.IndexProc.WriteEntries` | procs/index.go:178-186 | writes the entries in order |
| `Index.IndexProc.Finish` | procs/index.go:122-130 | nil exactly when nothing is tracked |
| `IndexRuns.EventKeeps` | procs/index.go:55-120 | every critical section, from any job at any time, keeps the invariant |
| `IndexRuns.OrderNeverPanics` | seriessort/series.go:11-15 | a chunk still to come is never below the positions dropped |
| `IndexRuns.FinalKeeps` | procs/index.go:71-91 | under the chain's protocol ProcessFinal never fails |
| `IndexRuns.WrittenIsByOwner` | procs/index.go:132-159 | at every moment of every run the output is, chunk by chunk, the number-sorted finals of the first-registered chunk of that checksum |
| `IndexRuns.WrittenIsSequential` | procs/index.go:132-159 | with equal lines for equal checksums it is what a sequential run writes |
| `IndexRuns.OutputIgnoresTheSchedule` | procs/index.go:55-120 | the outputs of any two runs are prefixes of one another, equal at equal positions |
| `IndexRuns.AllDoneIsAllWritten` | procs/index.go:93-99 | once every chunk 0..n-1 has ended the buffer is empty and everything is written |
| `IndexRuns.EmptyBufferIsAllWritten` | procs/index.go:122-130 | an empty buffer with no flush in progress means everything ordered is written |
| `IndexRuns.NeverStuck` | procs/index.go:55-120 | while a chunk is not done some step is enabled |
| `IndexExact.EveryScheduleEnds` | procs/index.go:55-159 | no run is longer than the work of its start |
| `IndexExact.RunCanEnd` | procs/index.go:55-159 | every run can be continued until every chunk is done, and owners stay owners: for any chunks there are runs the theorems about finished runs speak of |
| `IndexExact.TwoOutputs` | procs/index.go:61-69 | two chunks with one checksum and different lines make two finished runs write different indexes |
| `IndexExact.ScheduleMattersIff` | procs/index.go:55-69 | all finished runs write the same index if and only if chunks with equal checksums have equal lines |
| `Digits.SignedInverts` | index/write.go:10-12 | a decimal number reads back, up to where it ends |
| `IndexText.Scanner.Next` | index/scanner.go:27-59 | a chunk with the next number, the end of the text, or an error that is remembered |
| `IndexText.Unprocess` | procs/procfunc.go:60-73 | all chunks of a text in order, numbered from the start number, up to the first line that cannot be read, and whether there was one |
| `IndexText.LineInverts` | index/write.go:10-12 | a written line scans back to its checksum and size |
| `IndexText.ScanInvertsWrite` | index/scanner.go:39-59 | scanning a written index gives every line back, numbered in order |
| `IndexLines.LineReads` | index/scanner.go:39-59 | a line of 64 hexadecimal digits in either case, a space, a decimal and a newline is read as what it means, whatever follows |
| `IndexLines.ReadIsLine` | index/scanner.go:39-59 | and what is read as a line is such a line |
| `IndexLines.ScansIff` | index/scanner.go:27-37 | the scanner reaches the end of a text without an error if and only if the text is made of such lines, and its chunks are what they mean |
| `IndexLines.WriteIsLine` | index/write.go:10-12 | a written line is such a line, means the line written, and is in lower case without superfluous zeros |
| `Restore.JobLinesAreShards` | procs/parity.go:46-50 | in whatever order the shards of a chunk arrive, its lines are its shards in order |
| `Restore.WrittenIndexIsAligned` | procs/index.go:132-186 | once every chunk has ended, on any schedule, line k*n+i of the index is shard i of chunk k, duplicates included |
| `Restore.ScannedIndexIsAligned` | index/scanner.go:39-59 | and scanning the text of the index gives exactly those lines, numbered in order |
| `Restore.GroupsAreRebuilt` | procs/group.go:61-92 | grouping those lines in any order of arrival emits each chunk's group once, and the aggregate emitted holds exactly its shards in order |
| `Restore.RestoredGroupsAreOriginal` | procs/group.go:61-92 | from any finished run of the index, over its text, to the groups in any order of arrival: every original chunk gets one aggregate, of exactly its shards in order |
| `Group.Group.Process` | procs/group.go:46-92 | one arrival changes the waiting chunks, and yields nothing, an aggregate or an error, as the value-level step says |
| `Group.Group.Contiguous` | procs/group.go:94-101 | true exactly when every number is its predecessor plus one |
| `Group.Group.Finish` | procs/group.go:103-108 | nil exactly when no chunk waits |
| `Group.Pigeonhole` | procs/group.go:77-87 | size distinct numbers within one head's range sort into exactly that range |
| `Group.ArrivalOutcome` | procs/group.go:61-92 | the aggregate comes out on the arrival that completes the group, in order; neither error can happen |
| `Group.EmittedOnce` | procs/group.go:61-92 | a complete group is emitted exactly once, an incomplete one never |
| `Group.CompleteIsEmitted` | procs/group.go:77-92 | at some arrival the aggregate that comes out is the whole group, sorted |
| `Group.CompleteIffFull` | procs/group.go:61-76 | a group is full exactly when all its numbers have arrived |
| `Group.FinishIffComplete` | procs/group.go:103-108 | nothing waits if and only if every number seen lies in a complete group |
| `Group.OutcomeIff` | procs/group.go:61-92 | whatever arrives, duplicates included: an aggregate comes out exactly when the chunk completes a whole group of distinct numbers, and is that group in order; size chunks with a duplicate are an error; there are never too many |
| `Group.AfterIsSane` | procs/group.go:46-76 | in every run of arrivals, what waits under a number belongs there and is fewer than a group |
| `Group.HeadTruncates` | procs/group.go:66 | the number of the group is the division of Go, towards zero |
| `Sorting.SortIsCanonical` | procs/group.go:81-86 | sorting by distinct numbers forgets the order of arrival |
| `Join.Slots.constructor` | slots/slots.go:6-12 | as many tokens as the capacity |
| `Join.Sort.Process` | procs/sort.go:15-27 | releases the gapless stretch the arrival completes, keeps the rest |
| `Join.Sort.Finish` | procs/sort.go:29-37 | nil exactly when nothing is kept |
| `Join.SlotsAddUp` | procs/backlog.go:20-32 | in every run, for every capacity, free slots and calls in progress add up to the capacity |
| `Join.OutputIsInOrder` | procs/join.go:7-9 | under one slot, for every order of arrival and at every moment, the bytes written are a prefix of the chunks in number order |
| `Join.AllGoneIsAllWritten` | procs/join.go:7-9 | at the end everything was written once, and Sort keeps nothing |
| `Join.NeverStuck` | procs/sort.go:15-27 | in every run, while a call is not over some call has a next step: the series never refuses a chunk as dropped |
| `Chain.MoveConserves` | procs/chain.go:49-72 | one result moving through one stage loses and adds nothing, at every stage |
| `Chain.EveryScheduleEnds` | procs/chain.go:13-34 | no schedule is longer than the work of the input and one close per stage |
| `Chain.ScheduleDoesNotMatter` | procs/chain.go:13-34 | every schedule that is over yields the multiset of results of the sequential bind |
| `Chain.EndComesLast` | procs/chain.go:72-78 | when the last stage closes, every stage has seen all it will ever see |
| `Chain.ErrorsBypass` | procs/chain.go:52-62 | an error passes every stage that does not accept it and comes out unchanged |
| `Chain.ErrorsAreRecovered` | procs/chain.go:54-56 | an error with a chunk is handed to the first stage that accepts errors, and what that makes of it goes on from the next stage |
| `Chain.RunRecovers` | procs/chain.go:13-72 | on every schedule: an error for a chunk, stages that accept none, then one that recovers: what comes out is what the stages behind it make of the recovered chunk |
| `Parity.Process` | procs/parity.go:32-53 | shard i of chunk k is numbered k*n+i and carries the size of the data |
| `Parity.Gather` | procs/parity.go:86-103 | the shards of a group in order, the damaged ones empty, and whether there is one; any other error of a chunk, or data that cannot be read, ends it |
| `Parity.Join` | procs/parity.go:78-126 | the data come out exactly when the group is there, of the right size and without an unrecoverable error, and the shards, the own ones if none is damaged and the reconstructed ones otherwise, pass verification and join to them; shards that fail it are an error |
| `Parity.JoinVouches` | procs/parity.go:78-126 | each outcome, said about the chunks and the code: missing group, size, chunk, reconstruction and verification errors, and the data |
| `Parity.JoinedAgrees` | procs/parity.go:113-126 | for a code that verifies encodings only: what comes out begins something whose encoding agrees with every undamaged shard that went in |
| `Parity.JoinInvertsEncode` | procs/parity.go:78-126 | with at most nparity damaged shards the join returns the data |
| `Parity.ParityRoundTrip` | procs/parity.go:32-66 | shards in any order, grouped, at most nparity damaged, join to the original data |
| `Recovery.LostStoresAreRecovered` | integration_test/raid5_test.go:124-142 | the promise as a whole (README.md:136-140): once the shards of some data are committed, on any schedule, and any min stores are lost, what is left of them, read in any order, is grouped and joined to the original bytes |
| `XorCode.XorIsACode` | procs/parity.go:14-29 | what is assumed of the erasure code is met by a real one |
| `XorCode.XorIsStrict` | procs/parity.go:113-117 | and so is what is assumed of a strict one |
| `ArgScan.CountLeftSpaces` | argparse/argparse.go:22-30 | the number of leading spaces |
| `ArgScan.FindClose` | argparse/lambda.go:34-53 | where the nesting first comes down to 0 |
| `ArgScan.FindPipe` | argparse/piped.go:27-50 | the first pipe outside brackets |
| `ArgScan.CloseSkips` | argparse/lambda.go:36-53 | balanced text does not close the bracket around it |
| `ArgScan.PipeSkips` | argparse/piped.go:32-45 | balanced text hides the pipes inside its brackets |
| `ArgSound.CloseIs` | argparse/lambda.go:34-53 | for every text: the bracket found is the first place where as many are closed as opened, and none is found only if there is none |
| `ArgSound.FirstPipe` | argparse/piped.go:27-50 | for every text: the pipe found is the first one before which as many brackets are closed as opened |
| `ArgParse.Parse` | argparse/lambda.go:25-71 | recursion through chains and calls ends; on success the position is within the input, past its first character, and at its end for argument lists and chains |
| `ArgParse.ParseFn` | argparse/fn.go:20-49 | the position of a call is within the input although brackets are added to it |
| `ArgParse.ParseLambda` | argparse/lambda.go:25-71 | a lambda takes at least its brackets and never more than the input; what it accepts is said by ArgSound.LambdaIsClosed |
| `ArgSound.LambdaIsClosed` | argparse/lambda.go:34-50 | what a lambda accepts opens with its bracket, is closed at its end and nowhere before, counted over all brackets; a bracket that is never closed is refused as such |
| `ArgSound.CallIsClosed` | argparse/fn.go:20-49 | so is a call with brackets, and a call whose bracket is never closed is refused, the brackets it is given notwithstanding |
| `ArgSound.ProcIsClosed` | argproc/argproc.go:45-74 | an accepted process is a closed chain or a call of a known function, closed if it has brackets |
| `ArgSound.UnclosedIsRefused` | argproc/argproc.go:45-74 | a process whose bracket is never closed is refused with that error |
| `ArgSound.TopIsRefused` | argproc/argproc.go:22-30 | so is a process string that begins with one, pipes in it or not |
| `ArgAccepts.IntIff` | argparse/int.go:9-13 | an integer is accepted exactly when the text up to the first space is a decimal with an optional sign within 64 bits, and is what it is worth |
| `ArgAccepts.StrIff` | argparse/str.go:12-50 | a string is what is between the quotes when they are closed before a space or the end, otherwise the text up to the first space |
| `ArgAccepts.ArgsIff` | argparse/args.go:14-46 | arguments are accepted if and only if the text can be cut into one piece for each, spaces in between and nothing but spaces left over |
| `ArgAccepts.VariadicIff` | argparse/variadic.go:11-28 | and any number of them if and only if it can be cut into that many |
| `ArgAccepts.OrIsFirst` | argparse/or.go:5-14 | the outcome is that of the first alternative that does not complain about the syntax, or of the last |
| `ArgParse.ParseStr` | argparse/str.go:12-50 | a string argument takes something and stays within the input |
| `ArgParse.ParseInt` | argparse/int.go:9-13 | so does an integer |
| `ArgRun.Run` | argproc/argproc.go:45-74 | the parsers as loops compute what the recursive definition says |
| `ArgRun.RunArgs` | argparse/args.go:14-46 | arguments one after the other; only variadic ones may be empty; nothing may be left |
| `ArgRun.RunVariadic` | argparse/variadic.go:11-28 | arguments up to the end |
| `ArgRun.RunPiped` | argparse/piped.go:18-60 | segments between top-level pipes |
| `ArgRun.RunLambda` | argparse/lambda.go:25-71 | the text up to the matching bracket |
| `ArgRun.RunFn` | argparse/fn.go:20-49 | a name, and brackets that are added when there are none |
| `ArgRun.RunOr` | argparse/or.go:5-14 | the first alternative that does not complain about the syntax, or the last |
| `ArgPrint.ParseInverts` | argproc/argproc.go:45-74 | every tree of chains and calls over delimiter-free atoms, printed, parses back to itself, whatever follows it |
| `ArgPrint.TopInverts` | argproc/argproc.go:22-30 | so does every process string |
| `ArgPrint.PrintIsInjective` | argproc/argproc.go:138-147 | different trees have different texts |
| `ArgTail.PipedGoesOn` | argparse/piped.go:21-58 | a chain goes on behind a segment as if it began there: same values, same original error, same text lost |
| `ArgTail.TrailingTextIsDropped` | argparse/piped.go:47-57 | for every text behind a process: what there is up to the next pipe outside braces is dropped, and the values are the process and what the text behind the pipe gives on its own |
| `ArgTail.NothingIsLostIff` | argparse/piped.go:47-57 | nothing is lost if and only if that text is blank and nothing is lost behind the pipe |
| `ArgPrint.BracketsAreOptional` | argparse/fn.go:32-48 | a call without brackets at the end of the text parses like the call with them |

## Left out

- Stripe.Stripe: requires that the sequence deals every destination in use, or that every item can be filled, or that all have enough copies of their own; without exclusivity this is exactly what lets a call end (`StripeCalls.EndlessIff`), with exclusivity it is sufficient only. Its completeness clause is for a sequence without duplicates.
- Stripe.Stripe: when exclusivity is asked for, the exact condition for ErrShort is given for at most two items, and for items with enough copies of their own; from three items on there is none on the input alone, as the outcome depends on the order of the items (`StripeOrder.OrderMatters`), and the contract says what is necessary (an item for which nothing is left).
- StripeLaws.TopUpTwice: is about calls without exclusivity; with it, a second call draws from another cursor position and may add copies, or be short.
- StripeLaws.LoadIsBalanced: is about fresh items on all items of the sequence without exclusivity; reused copies unbalance the load by design.
- Coordinator.Coordinator.Procs: requires that the search under its locks ends (`Searchable`): a store in use that was over its maximum when the coordinator was made is never dealt, so it must not count as a destination, or every chunk can be filled, or all have enough copies on stores of their own; `Coordinator.OutsideStaysOver` shows that it does not count while use does not wrap around, and `StripeCalls.EndlessIff` what happens otherwise.
- Coordinator.Coordinator.Procs: returns only once all locks are free, so its contract requires them to be; `CommitRuns` has the interleavings.
- Deadlock.CrossedIff: is about two calls; three or more can also wait for each other in a circle, and for the locks of a failed one.
- CommitRuns.EventKeeps: the owner removal of stores/multireader.go is not a step of these runs.
- QuotaRuns.QuotasHold: the spacing of looks and placements is a property of the run, which the caller must arrange; the code does not, and `QuotaExact.SpentWithinDemand` is the bound that can be checked beforehand.
- QuotaExact.QuotaHoldsIff: exact for checksums of their own, no copies on the store yet, without exclusivity, when exactly min stores fit each group that fits on the store, and sums below 2^64; with more stores that fit, only `QuotaExact.SpentWithinDemand` is claimed, or `QuotaTurns.QuotaInTurnsIff` under its own conditions.
- QuotaTurns.QuotaInTurnsIff: exact for new chunks of one size with checksums of their own, more stores than copies, all in the round-robin, room on the other stores for everything and on this one for each group by itself, and runs in which no copy fails; a failing copy takes its store out, and the others get its turns.
- IndexRuns.WrittenIsSequential: assumes that equal checksums are processed into equal lines; `IndexRuns.WrittenIsByOwner` does without, and `IndexExact.ScheduleMattersIff` shows that it is needed.
- Recovery.LostStoresAreRecovered: reading a shard back, and marking one without an owner as missing data, is an assumption on what is read (`ReadBack`), not a model of stores/multireader.go; any min stores may be lost provided no nparity + 1 shards are equal.
- Index.IndexProc.Flush: a write error in the middle of a flush, and what a later flush then repeats, is not modelled.
- IndexText.Scanner.Next: reads the lines the writer produces exactly; formatted input also accepts a plus sign, tabs, several spaces, carriage returns and a last line without its newline, which are errors here, and how much of a malformed line is consumed is not modelled.
- Chain.ScheduleDoesNotMatter: is about stateless procs with finite outputs; procs with state are modelled one by one (index, group, sort).
- Chain.EndComesLast: the end-of-stream calls of all enders appear as one outcome; their order, and stopping at the first error, is not modelled.
- Join.SlotsAddUp: the slot is released after the output is closed, so a Finish that looks in between can still find slots missing; no claim is made about ErrUnreturnedSlots.
- Parity.Process: data of unknown size and a failing split are one error, None; Reed-Solomon itself is a parameter.
- ArgParse.Parse: process strings are ASCII; the code counts spaces in runes and uses the count as a byte offset.
- ArgParse.Parse: argument pairs (argparse/pair.go), humanized sizes (argparse/bytes.go) and filters are not modelled, so stores inside `stripe` and `mincopies` are not printed or parsed; errors of the functions a lambda runs are left out.
- ArgPrint.ParseInverts: atoms with quotes or delimiters, and functions in other brackets than the ordinary ones, are not printed.
- Group.Group.Process: an error recorded for a chunk (ProcessErr) is a part of the chunk's value here.
- Machine integers other than quota use are unbounded: chunk numbers, sizes and slot counts do not overflow.
- tmpdedup/man.go: a file can be removed right after it is handed out, so the natural invariant does not hold of the code.
- Subprocess and filesystem stores, checksums, compression, the splitter, statistics, terminal output and the command line: input and output, or library code.
- stores/strpart.go, concur/concur.go, procs/concur.go, procs/cascade.go, procs/filter.go, procs/onend.go, procs/discardchunk.go: only easy members.
