# lanxfer: a verified model

This project models the parts of lanxfer that carry state, and proves what they promise: how the chat store regroups
messages when the peer list changes, how the transfer manager runs, cancels and closes, how a folder travels as an entry
stream and is unpacked, how received items get their names, and six small protocols (throttle, event queue, notification
window, history log, peer registry, device ID). `dafny verify dfyconfig.toml` checks all of it.

Each component has a specification on values (datatypes and functions, or a step system whose steps are the sections that
run under a lock, one system call or one callback) and, where the program updates state in place, a class or a loop whose
methods are proved equal to those functions. The promises are lemmas about the functions and about every run.

| area | files |
|---|---|
| chats | `KeyOrder`, `Directory`, `Classification`, `Sequences`, `Merging`, `Regroup`, `RegroupFacts`, `RegroupInvariants`, `AliasChains`, `OpenChatExamples`, `Loading`, `StoreRuns`, `Refiling`, `StoreSteps`, `ChatStore` |
| transfers | `Progress`, `TransferModel`, `TransferFacts`, `TransferGuarantees`, `TransferOutcomes`, `TransferProgress`, `TransferManager` |
| folders | `Filenames`, `FolderPaths`, `FolderSend`, `FolderPlans`, `FolderSender`, `FolderExtract`, `FolderAcceptance`, `FolderStreams`, `FolderExtractor`, `FolderRoundTrip` |
| storage | `StorageModel`, `StorageRuns`, `StorageGuarantees`, `StorageClass` |
| small protocols | `Throttle`, `ThrottleTiming`, `EventQueue`, `Toaster`, `ToasterGuarantees`, `HistoryLog`, `HistoryCodec`, `HistoryRuns`, `DeviceId`, `Registry`, `RegistryRuns`, `RegistryClass`, `Identity` |
| throughout | `Wrappers`, and `Runs`: what a run of a step system is |

What the model takes from outside is a parameter: lowercasing and IP parsing (`Directory.Rules`, any functions), the
platform's name rules and a function that maps a name to the name by which a file system knows it (letter case, Unicode
normalisation), the length of a tar header (any positive multiple of 512, as in the ustar and pax formats of IEEE Std
1003.1), the JSON encoding of a history entry with the laws it is used for (RFC 8259, sections 2 and 7), and times as
integers. A byte string is a `string` whose characters stand for bytes.

## Where code and documentation differ

- `SetPeers` ends by resolving the open key (`internal/chat/chat.go:344`), but lines 311-318 have rewritten it while the loop
  ran, and the last line then changes nothing. The open key can take a second hop, and when the open chat is emptied and
  refilled the open key leaves while readers of the old key stay. `AliasChains.OpenFollowsResolve` gives the exact condition,
  `AliasChains.OpenFollowsResolveIff` the one that a caller can check; `OpenChatExamples` has one store for each way it fails.
- `internal/history/history.go:127-130` says that a writer overtaken between its check and its write costs at most an empty
  line. If the other write is cut short, the entry is lost: `HistoryRuns.TornBetween`. `HistoryRuns.GluesOnlyInDoubt` and
  `HistoryRuns.GlueLoses` say when.
- `internal/identity/identity.go:54-58` promises one ID to concurrent callers, except without hard links. A corrupt file is
  a second exception: `Identity.AgreementIff`.
- `gui/queue.go:66-69` promises one call per interval. That holds for the recorded start times in every run, and for the
  calls themselves where each begins at its recorded time (`ThrottleTiming.PromptCallsAreApart`). A call that is held up on its
  way to the second lock can begin together with the next (`ThrottleTiming.CallsCanBunchUp`), and so can calls behind a long
  one: where a call that finds the lock free takes it at once, calls are always an interval apart if and only if none lasts
  longer than the interval (`ThrottleTiming.ApartIffBrief`).
- `internal/server/storage.go:74-78` reserves the pattern of temporary names so that cleanup spares received files. The
  pattern is exact about letter case. A received item stays in every run if and only if the file system never takes a
  candidate for a valid name and a temporary name for the same (`StorageGuarantees.NeverLosesIffSeparates`). A file system
  that tells all names apart meets that; the usual one of macOS does not, where a file named `.LANXFER-1.PART` is removed when
  the upload that drew `.lanxfer-1.part` fails after its entry was swept (`StorageGuarantees.CaselessLoses`).

## Model

| member | source | states |
|---|---|---|
| KeyOrder.LessTotal | internal/chat/chat.go:138 | byte order on keys is a strict total order |
| KeyOrder.LessMeans | internal/chat/chat.go:138 | a key is less exactly if it is a proper beginning of the other or has the smaller character where they first differ |
| KeyOrder.AscendsUnique | internal/chat/chat.go:305-310 | a set of keys has one ascending listing, so the sort removes the map's iteration order |
| KeyOrder.Sort | internal/chat/chat.go:310 | a sorting loop returns the ascending listing of a set of keys |
| Directory.BetterStrictTotal | internal/chat/chat.go:129-139 | of two peers with different keys exactly one is preferred |
| Directory.BetterTransitive | internal/chat/chat.go:129-139 | the preference is transitive |
| Directory.IndexIsArgmax | internal/chat/chat.go:141-169 | for distinct keys the tables hold exactly the listed peers, and for an address or a name the preferred one, which `Classification.TablesHoldFavourites` tells by its fields |
| Directory.IndexIgnoresOrder | internal/chat/chat.go:141-169 | every permutation of a peer list with distinct keys gives the same tables |
| Directory.IdKeysNotScanned | internal/chat/chat.go:82-84 | the key of a device ID is never a name or address key |
| Classification.TablesHoldFavourites | internal/chat/chat.go:129-169 | for distinct keys the tables hold, for each address and each name that a listed peer has, the one to use, told by its fields: online before offline, then the one seen later, then the smaller key |
| Classification.FavouriteIsOne | internal/chat/chat.go:129-139 | there is at most one peer to use |
| Classification.ClassifiedByPeers | internal/chat/chat.go:171-190 | the chat of an entry, told from the peer list alone: its device ID decides; else the peer to use at its address; else the peer to use of its name; else its name; else its address |
| Merging.MergeLists | internal/chat/chat.go:347-369 | the two-index loop computes the specified merge, with its append shortcut |
| Merging.MergeByTimeInterleaves | internal/chat/chat.go:347-369 | on any input the merge is an interleaving: nothing lost, added, or reordered within either list |
| Merging.ShortcutAgrees | internal/chat/chat.go:353-355 | on time-sorted lists the append shortcut gives what the general merge gives |
| Merging.MergeIsStableSort | internal/chat/chat.go:347-369 | on time-sorted lists the result is the stable sort of the concatenation: sorted, and entries of one time in order, those of dst first |
| Regroup.TargetsMeaning | internal/chat/chat.go:273-299 | the targets of a chat are exactly the other chats its entries are classified into, each once |
| Regroup.LastToMeaning | internal/chat/chat.go:298 | the last target is the chat of the last entry that leaves |
| Regroup.TargetsInOrder | internal/chat/chat.go:273-299 | the targets are in the order in which their first entries stand in the chat |
| Regroup.UnreadCounts | internal/chat/chat.go:320-341 | the unread count of a list is the number of its unread items |
| RegroupFacts.RegroupedShape | internal/chat/chat.go:305-345 | which chats and aliases exist after both phases: emptied chats go and leave an alias to the chat of their last entry, receiving chats exist and have no alias |
| RegroupFacts.PartsCover | internal/chat/chat.go:273-299 | what a chat keeps and what its batches carry is together what it held |
| RegroupFacts.RegroupedConserves | internal/chat/chat.go:240-345 | SetPeers conserves the multiset of entries over all chats |
| RegroupInvariants.RegroupedFiled | internal/chat/chat.go:240-243 | entries with a device ID stay in the chat of that ID, and every entry still in a name or address chat k is classified as k |
| RegroupInvariants.RegroupedKeepsOrder | internal/chat/chat.go:305-309 | entries that share a source and a target keep their order, also when the emptied source is itself a target |
| AliasChains.RegroupedOpenRead | internal/chat/chat.go:320-345 | after SetPeers each chat's unread count equals its number of unread items, and the open chat, once resolved, has none |
| RegroupInvariants.RegroupedSorted | internal/chat/chat.go:305-309 | chats that were in time order still are |
| AliasChains.ResolveReachesChat | internal/chat/chat.go:103-118 | resolve takes every key with a chat or an alias to a live chat, and its length bound is never what ends the loop |
| AliasChains.ResolveFollows | internal/chat/chat.go:103-118 | a key with a chat resolves to itself, one with neither chat nor alias too, and any other as its alias does |
| AliasChains.RegroupedRouted | internal/chat/chat.go:311-331 | regrouping keeps alias chains acyclic, and no key that had a chat or an alias loses both |
| AliasChains.RegroupedReachable | internal/chat/chat.go:240-243 | after SetPeers every old key resolves to a live chat |
| AliasChains.OpenFollowsResolve | internal/chat/chat.go:310-345 | the open key equals the resolved old one if and only if its chat was not emptied or the hops of the first loop end where a reader of the old key ends; the final resolve changes nothing |
| AliasChains.OpenFollowsResolveIff | internal/chat/chat.go:310-345 | where no other emptied chat passes its key to the open chat or to its last target, the open key follows resolve if and only if its chat, if emptied, is not refilled and its last target is not emptied later in key order |
| AliasChains.OpenFollowsResolveSimply | internal/chat/chat.go:310-345 | whatever the other chats do, it follows resolve when the emptied chat is not refilled and its last target is not emptied later in key order |
| AliasChains.RegroupedIdempotent | internal/chat/chat.go:240-345 | a second call with the same directory changes nothing |
| Refiling.RefiledExactly | internal/chat/chat.go:240-345 | after SetPeers a chat holds exactly the items classified into it, from whatever scanned chat, with their unread flags; in the open chat none is unread |
| Refiling.RefiledChats | internal/chat/chat.go:305-345 | exactly the chats exist that something goes to; none is empty |
| Refiling.RefiledAliases | internal/chat/chat.go:311-343 | a chat that is gone leaves an alias to the chat its last entry went to; the other aliases stay until their key is a chat again |
| OpenChatExamples.TwoChatsReached | internal/chat/chat.go:201-223 | a load of two entries and an Open lead to the store of the two examples |
| OpenChatExamples.SecondHop | internal/chat/chat.go:311-318 | a store in which the open key takes a second hop |
| OpenChatExamples.EmptiedAndRefilled | internal/chat/chat.go:311-331 | a store in which the open chat is emptied and refilled |
| Loading.LoadedAt | internal/chat/chat.go:201-223 | whatever the store held and in whatever order its map is met, a chat then holds the loaded entries that belong to it, all read, and after them the earlier ones that do, as read or unread as they were |
| Loading.LoadedConserves | internal/chat/chat.go:201-204 | a load keeps every entry that was there and adds each loaded one once |
| Loading.LoadedAtHome | internal/chat/chat.go:201-204 | where every entry is in the chat it belongs to, every chat keeps its items behind the loaded ones, and the map's order does not matter |
| StoreRuns.LoadableUntilSetPeers | internal/chat/chat.go:201-204 | that is so at any time before the first SetPeers, so the runs below may load then |
| StoreRuns.RunKeepsInv | internal/chat/chat.go:61-73 | after any run of Load, Add, Open and SetPeers: entries are filed under their ID or current classification, counts are exact, the open chat is read, aliases are acyclic |
| StoreRuns.RunConserves | internal/chat/chat.go:201-345 | after any run the chats hold exactly the entries that arrived, each as often as it arrived |
| StoreRuns.EverLiveKeysResolve | internal/chat/chat.go:120-127 | a key that ever had a chat resolves to a live chat from then on |
| StoreRuns.RunSorted | internal/chat/chat.go:347-369 | when entries arrive in nondecreasing time, loaded ones counting as earlier than what was there, every chat is in time order after any run |
| StoreRuns.SetPeersIgnoresListOrder | internal/chat/chat.go:240-345 | permuting a peer list with distinct keys does not change the result of SetPeers |
| StoreRuns.SetPeersTwice | internal/chat/chat.go:240-345 | a second SetPeers with the same list changes nothing, lookup tables included |
| StoreSteps.AddMeans | internal/chat/chat.go:225-238 | Add puts the entry at the end of its chat and counts it as unread exactly if it came in and the chat is not open; all else stays |
| StoreSteps.OpenMeans | internal/chat/chat.go:381-391 | Open makes the chat that the key leads to the open one and its entries read; all else stays |
| StoreSteps.NeverEmpty | internal/chat/chat.go:201-345 | in no run is there a chat without an entry |
| StoreSteps.SetPeersMeans | internal/chat/chat.go:240-345 | in any run SetPeers takes over the new directory and refiles every chat by it |
| StoreSteps.UnreadUntilOpened | internal/chat/chat.go:225-238 | in any run, until the next SetPeers, an entry that came with Add stands where it must and is unread exactly if it came in and its chat has not been open from its arrival on |
| ChatStore.ChatObject.Receive | internal/chat/chat.go:332-341 | a batch is merged in place and counted, and counts as read in the open chat |
| ChatStore.ChatObject.ClearUnread | internal/chat/chat.go:371-379 | the backward loop that stops when the count is used up marks every item as read |
| ChatStore.Store.IndexPeers | internal/chat/chat.go:141-169 | the single pass builds the specified tables, which hold the peers of `Classification.TablesHoldFavourites` |
| ChatStore.Store.Classify | internal/chat/chat.go:171-190 | the lookups give the specified chat of an entry |
| ChatStore.Store.ResolveKey | internal/chat/chat.go:106-118 | the bounded loop is the specified resolve |
| ChatStore.Store.Load | internal/chat/chat.go:201-223 | the loops refile the loaded and then the earlier entries as specified, in whatever order the map yields the chats; the invariant of the store holds again if every entry was in the chat it belongs to |
| ChatStore.Store.Add | internal/chat/chat.go:225-238 | the store becomes the one of `StoreSteps.AddMeans`, and its invariant holds again |
| ChatStore.Store.Open | internal/chat/chat.go:381-391 | the resolved chat is open and read, and nothing else changes |
| ChatStore.Store.Scan | internal/chat/chat.go:269-299 | the scan with its memo finds what a chat keeps, its batches in order of first appearance, and the last target |
| ChatStore.Store.Collect | internal/chat/chat.go:260-303 | in any iteration order the scan finds exactly the chats that entries leave |
| ChatStore.Store.ShrinkSources | internal/chat/chat.go:311-327 | the first loop is phase one of the specification |
| ChatStore.Store.MergeSources | internal/chat/chat.go:328-343 | the second loop is phase two of the specification |
| ChatStore.Store.SetPeers | internal/chat/chat.go:240-345 | the store's value becomes the specified one, whatever order the map was scanned in, and the invariant of the store holds |
| Progress.Mul64 | internal/transfer/transfer.go:440 | the two words are the full 128-bit product |
| Progress.Div64 | internal/transfer/transfer.go:441 | defined only if the high word is below the divisor; then the exact quotient, which fits one word |
| Progress.HighWordBelowDivisor | internal/transfer/transfer.go:438-441 | an incomplete stream always meets the condition of the division |
| Progress.ScaleProgress | internal/transfer/transfer.go:429-443 | floor(sent * content / tarSize) while the stream is incomplete, content from then on, 0 where nothing was sent or there is nothing to send |
| Progress.ScaleProgressMonotone | internal/transfer/transfer.go:429-443 | more bytes sent never show as fewer |
| TransferFacts.StepKeepsInv | internal/transfer/transfer.go:174-427 | every locked section and callback keeps what is known of each item, its log and the tracked set |
| TransferFacts.RunKeepsInv | internal/transfer/transfer.go:174-427 | so it holds in every interleaving of workers, late callbacks, Cancel and Close |
| TransferGuarantees.EveryItemHasALifecycle | internal/transfer/transfer.go:64-78 | the first update is the queued one; at most one record, then at most one done update, both there exactly when the item is finished; none after it; sent never exceeds total or goes down; `TransferOutcomes.OutcomeIsTold` says which status they carry |
| TransferGuarantees.AfterClose | internal/transfer/transfer.go:224-232 | when Close returns every accepted item is recorded and reported done, none is tracked, and later calls change nothing |
| TransferGuarantees.CancelFindsUnsettled | internal/transfer/transfer.go:206-222 | Cancel answers true exactly for items that were accepted and not settled |
| TransferGuarantees.CancelBeforeStart | internal/transfer/transfer.go:206-222 | an item cancelled before it started is never uploaded and is recorded as cancelled |
| TransferGuarantees.CancelWhileRunning | internal/transfer/transfer.go:216-217 | an item cancelled while it runs never counts as failed |
| TransferGuarantees.SentInOrder | internal/transfer/transfer.go:174-178 | of the items of one call, those before one that has started are finished |
| TransferOutcomes.OutcomeIsTold | internal/transfer/entry.go:67-77 | told from the actions of any run: an item is recorded and reported as sent exactly if its upload did not fail, as failed if it failed while the item was neither cancelled nor the manager closing, as cancelled if it failed while one of these held or its turn found one of them |
| TransferOutcomes.TurnMeans | internal/transfer/transfer.go:251-263 | an item whose turn comes runs, unless it was cancelled before or the manager is closing |
| TransferOutcomes.SentWasUploaded | internal/transfer/transfer.go:301-351 | in any run what is recorded as sent was uploaded |
| TransferOutcomes.EveryPathIsAccepted | internal/transfer/transfer.go:174-196 | before Close each path becomes an item, in order, that Cancel can find; after it nothing changes |
| TransferOutcomes.AnnouncedBeforeStart | internal/transfer/transfer.go:197-203 | no item of a call starts before all of that call are announced |
| TransferOutcomes.OnlyItsCallHoldsItUp | internal/transfer/transfer.go:174-178 | in any run an announced item may start exactly when all items of its own call are announced and those before it are finished; other calls do not hold it up |
| TransferOutcomes.ScanShows | internal/transfer/transfer.go:309-312 | while a folder is scanned its update says that it is one |
| TransferOutcomes.ExaminedShows | internal/transfer/transfer.go:389-397 | the update after the examination carries path, kind and size |
| TransferOutcomes.ProgressShows | internal/transfer/transfer.go:399-414 | a reading of the bytes sent shows as the specified part of the total, and goes out exactly if 100 ms have passed and the item is not done |
| TransferOutcomes.UpdatesAreSpaced | internal/transfer/transfer.go:399-414 | in any run with a clock that goes on, an update of progress comes at least 100 ms after the update before it |
| TransferOutcomes.FinishedShows | internal/transfer/transfer.go:416-427 | the last update carries the recorded status, and all bytes if the item was sent |
| TransferProgress.NeverStuck | internal/transfer/transfer.go:242-288 | while an accepted item is unfinished some worker has a step to take |
| TransferProgress.WorkersFinish | internal/transfer/transfer.go:242-297 | in every schedule, once nothing new is accepted, the workers take at most a fixed number of steps, and none has a step left exactly when every accepted item is finished |
| TransferProgress.WorkersCanFinish | internal/transfer/transfer.go:242-297 | from any state of a run there is a schedule of worker steps alone that finishes everything |
| TransferProgress.CloseReturnsAlways | internal/transfer/transfer.go:224-232 | once Close has marked the manager and cancelled every upload, in every schedule the workers take a bounded number of steps, and come to rest exactly where Close returns |
| TransferManager.TransferItem.EmitLocked | internal/transfer/transfer.go:377-387 | an update goes out, and marks the item done, only if it is not done |
| TransferManager.TransferItem.Begin | internal/transfer/transfer.go:389-397 | the base is replaced and reported at once |
| TransferManager.TransferItem.ShowProgress | internal/transfer/transfer.go:399-414 | a reading is kept, and reported only when the interval has passed and the item is not done |
| TransferManager.TransferItem.Finish | internal/transfer/transfer.go:416-427 | the last update carries the outcome, and the full size if it was sent |
| TransferManager.Manager.Accept | internal/transfer/transfer.go:180-195 | the loop does to the manager and its items what SendPaths does to the interleaved system: nothing after Close, otherwise one new tracked item per path with the next ID |
| TransferManager.Manager.Cancel | internal/transfer/transfer.go:209-222 | the locked section is the system's Cancel: exactly the tracked item is aborted or marked; the answer is the specified one |
| TransferManager.Manager.StartItem | internal/transfer/transfer.go:251-262 | the locked section is the system's start of an item, which runs unless it was cancelled while queued or the manager is closing |
| TransferManager.Manager.Drop | internal/transfer/transfer.go:291-294 | the locked section is the system's drop of a settled item from the tracked ones |
| TransferManager.Manager.BeginClose | internal/transfer/transfer.go:226-228 | the locked section is the system's Close |
| Filenames.Ext | internal/server/storage.go:219 | the suffix from the last dot, empty exactly when there is no dot |
| Filenames.ValidFilenameMeans | internal/server/storage.go:36-100 | a name is valid exactly if it has the right length for the platform, consists of characters that are allowed there, does not end in a dot or a space, is no device name, no dot name, and no temporary name |
| Filenames.PartMeans | internal/server/storage.go:103-104 | a temporary name is .lanxfer-, anything without a slash, and .part |
| Filenames.NumberedSplits | internal/server/storage.go:209-222 | the i-th candidate has " (i)" before the extension of a file, and behind the name of a folder |
| Filenames.ItoaReads | internal/server/storage.go:219-221 | a decimal reader reads the number back, and there is no leading zero |
| Filenames.CandidatesDistinct | internal/server/storage.go:209-222 | the candidates for one name are pairwise distinct |
| Filenames.CandidateIsNotPart | internal/server/storage.go:74-78 | no candidate for a valid name matches the pattern of temporary names |
| FolderPaths.SplitJoin | internal/server/extract.go:177 | splitting a joined path gives its components back |
| FolderPaths.EntryPathOfJoin | internal/server/extract.go:166-187 | the receiver reads a header's name, with or without the slash of a folder, as the path it was made from |
| FolderPaths.EntryPathSendable | internal/server/extract.go:166-187 | a path the receiver accepts has valid components and meets the limits that the sender checks |
| FolderPaths.EntryPathMeans | internal/server/extract.go:166-187 | a header name is read as a path exactly if it is the path with or without "./" before and "/" behind, each component is a valid name, and the limits of 64 levels and 4096 bytes hold |
| FolderPaths.EntryPathOfFolder | internal/server/extract.go:170-173 | the names that stand for the folder itself |
| FolderSend.PlanListsWhatIsKept | internal/client/senddir.go:75-161 | a plan lists a file or folder exactly when it is on disk and neither it nor a folder above it is left out |
| FolderSend.PlanIsGood | internal/client/senddir.go:102-153 | in every plan the paths are distinct and acceptable to the receiver, and a folder comes before what is in it |
| FolderSend.StreamLengthIsTarSize | internal/client/senddir.go:188-239 | writing succeeds exactly when no file changed, and then the stream is as long as announced |
| FolderPlans.SkipsMeans | internal/client/senddir.go:48-72 | what is left out: the listed system files and folders, files with a name that begins with "._", links and special files |
| FolderPlans.ScanMeans | internal/client/senddir.go:102-173 | a scan succeeds exactly if everything that is not left out has a valid name and meets the limits on paths |
| FolderPlans.TarSizeMeans | internal/client/senddir.go:188-201 | an entry adds its header and its size rounded up to whole blocks, and the end of the archive 1024 bytes |
| FolderPlans.HeaderMeans | internal/client/senddir.go:175-186 | a header is read as the path of its entry, a folder's name ends in a slash, only the owner gets access, and a file is executable as the entry says |
| FolderSender.DirPlan.WalkFolder | internal/client/senddir.go:103-153 | the walk appends the entries of the folder and keeps the counts of files and bytes right |
| FolderSender.DirPlan.Scan | internal/client/senddir.go:102-161 | the plan, its counts and its announced length, or the error |
| FolderSender.SizeOf | internal/client/senddir.go:188-201 | the loop adds up the announced length |
| FolderSender.TarWriter.PutHeader | internal/client/senddir.go:209-211 | owed padding and the header go out, and the body's length is owed |
| FolderSender.TarWriter.PutEntry | internal/client/senddir.go:209-239 | one entry goes out, or the file changed |
| FolderSender.TarWriter.Write | internal/client/senddir.go:203-239 | the loop writes the specified stream or stops at the first file that changed |
| FolderExtract.MakeFromKeepsInv | internal/server/extract.go:189-219 | creating folders component by component keeps the invariant and leaves every prefix a folder |
| FolderExtract.WriteEntryKeepsInv | internal/server/extract.go:221-262 | writing a file keeps the invariant |
| FolderExtract.ExtractAllKeepsInv | internal/server/extract.go:63-72 | for any stream on any folding file system: created paths are closed under parents and in bijection with the nodes on disk; folders and bytes are within budget |
| FolderExtract.ExtractAllPathsValid | internal/server/extract.go:166-187 | every component on disk is a valid file name and no path is too deep |
| FolderExtract.ExtractedWithinBudgets | internal/server/extract.go:74-81 | for an accepted stream at least the announced length arrived, and what it made is at most length / 512 + 64 folders and no more file bytes than that length |
| FolderAcceptance.AcceptedIff | internal/server/extract.go:104-262 | an entry is accepted exactly if it is admissible: read whole, not sparse, a valid path, a folder or a file; all folders it needs are there or can be made within the limit; and a file fits into what is left, came whole, and has nothing in its place |
| FolderAcceptance.NotBlamed | internal/server/extract.go:189-262 | an entry that could be taken, were it not for the file system or the connection, is not called invalid |
| FolderStreams.AcceptedStreamIsThere | internal/server/extract.go:83-164 | after any accepted stream each entry is there as what it is, with all its bytes and executable if anyone may execute it, and there is nothing but what the entries name and the folders above it |
| FolderStreams.AcceptedStreamIsCounted | internal/server/extract.go:83-164 | the answer counts the file entries and their bytes |
| FolderExtractor.PrefixAt | internal/server/extract.go:194-198 | the byte scan for slashes visits exactly the prefixes of the path, shortest first |
| FolderExtractor.Extractor.MkdirAll | internal/server/extract.go:189-219 | the scan creates what the specification creates or stops with its error |
| FolderExtractor.Extractor.WriteFile | internal/server/extract.go:221-262 | the file and its folders are created as specified, or the error |
| FolderExtractor.Extractor.ExtractInto | internal/server/extract.go:83-164 | the loop's counts and tree are the specified ones, or its error |
| FolderRoundTrip.BudgetCovers | internal/server/extract.go:74-81 | the folder budget covers every plan whose stream has at most 512 * 2^30 bytes |
| FolderRoundTrip.ExtractsExactly | internal/server/extract.go:104-143 | the entries sent for a good plan are extracted exactly when the file system keeps its paths apart and its folders are within the limit, and then the tree is the plan |
| FolderRoundTrip.RoundTrip | internal/client/senddir.go:175-239 | the written stream is accepted under exactly these conditions, and recreates folders, files, contents and executable bits |
| FolderRoundTrip.ScannedFolderArrives | internal/client/senddir.go:75-78 | every folder that a scan accepts arrives whole: unchanged files, no folding collision, at most 512 * 2^30 bytes |
| StorageModel.Pick | internal/server/storage.go:163-194 | the first candidate that is not in use, or the error that all are |
| StorageModel.FinalMeans | internal/server/storage.go:163-194 | a finished entry gets the i-th name exactly if that is the first free one, up to 9999, its entry is there, and it can be moved |
| StorageModel.StaleMeans | internal/server/storage.go:224-274 | an old temporary entry has such a name, is a file or a folder, and nothing touched it for long enough |
| StorageRuns.StepKeepsInv | internal/server/storage.go:106-108 | no step breaks the promises, unless it creates an entry under the name of a temporary entry that a running upload still counts on |
| StorageGuarantees.CommittedStays | internal/server/storage.go:106-108 | on a file system that keeps final and temporary names apart, over any run of uploads, crashes and sweeps a committed item is never changed and never deleted |
| StorageGuarantees.OnlyCommittedAdded | internal/server/storage.go:122-124 | there, when all uploads have ended the directory holds what it held, less stale temporary entries, and the committed items, each complete; failed uploads left nothing and nothing was overwritten |
| StorageGuarantees.FinishMeans | internal/server/storage.go:122-194 | a finished upload is placed under the first free candidate unless its entry is gone or cannot be moved; otherwise nothing is left of it and nothing else changes |
| StorageGuarantees.CommittedIsWhole | internal/server/storage.go:122-161 | whatever is committed was announced in the run under this name and with this size, came in the run, and is as long as announced or what a stream of the announced length makes |
| StorageGuarantees.WritesNow | internal/server/storage.go:126-135 | a new upload has an empty entry of now, and what is received replaces what is there, as of now |
| StorageGuarantees.RunningIsSpared | internal/server/storage.go:224-233 | there, in any run, a running upload is not swept before it was idle for as long as the sweep allows |
| StorageGuarantees.InjectiveSeparates | internal/server/storage.go:74-78 | a file system that tells all names apart keeps final and temporary names apart |
| StorageGuarantees.NeverLosesIffSeparates | internal/server/storage.go:106-108 | no run loses a committed item if and only if the file system keeps final and temporary names apart |
| StorageGuarantees.ClashNeedsASweptUpload | internal/server/storage.go:224-233 | no step clashes while every running upload still has its temporary entry |
| StorageGuarantees.ClashLosesTheItem | internal/server/storage.go:136-141 | a commit that clashes is undone when the other upload fails |
| StorageGuarantees.ClashArises | internal/server/storage.go:224-233 | wherever any accepted candidate for a valid name and a temporary name are the same to the file system, a run leads to such a clash |
| StorageGuarantees.CaselessLoses | internal/server/storage.go:74-78 | on a file system that ignores letter case, with the name rules of macOS, a received file can be lost |
| StorageClass.Storage.Commit | internal/server/storage.go:168-194 | the loop takes the first free candidate, named as in `Filenames.NumberedSplits`, and moves the entry, or changes nothing |
| StorageClass.Storage.Save | internal/server/storage.go:122-161 | the file is added complete under the first free name, named as in `Filenames.NumberedSplits`, or nothing changes; exactly when it fails |
| StorageClass.Storage.SaveDir | internal/server/extract.go:31-61 | the extracted folder is added under the first free name with its counts, or nothing changes; exactly when it fails |
| StorageClass.Storage.RemoveStaleParts | internal/server/storage.go:224-274 | exactly the stale temporary entries that can be removed go, and the answer is their number |
| Throttle.StepKeepsInv | gui/queue.go:86-134 | every locked section, timer and call keeps the invariant |
| Throttle.RunKeepsInv | gui/queue.go:66-69 | in every interleaving recorded starts are an interval apart, at most one timer is set and goes off within an interval, calls do not overlap, reports do not go back, and an unanswered trigger has a timer or a committed call until stop |
| Throttle.QuietMeansReported | gui/queue.go:66-69 | when nothing is under way the last call has seen the last trigger |
| ThrottleTiming.PromptCallsAreApart | gui/queue.go:66-69 | in every run in which each call begins at its recorded start, calls begin an interval apart |
| ThrottleTiming.ApartIffBrief | gui/queue.go:119-123 | where a call that finds the second lock free takes it at once, calls begin an interval apart in every run if and only if no call lasts longer than the interval |
| ThrottleTiming.CallsCanBunchUp | gui/queue.go:119-123 | a run in which two calls begin at the same time although their recorded starts are an interval apart |
| ThrottleTiming.AnsweredInTime | gui/queue.go:66-69 | in every run with prompt entry, punctual timers and calls no longer than the interval, a trigger that no call has seen is at most an interval old until stop |
| ThrottleTiming.UnseenIsYoung | gui/queue.go:66-69 | in the same runs, told by the actions: as long as no call began after a trigger and the throttle was not stopped, the trigger is at most an interval old |
| ThrottleTiming.TriggerIsAnswered | gui/queue.go:86-104 | and a trigger is answered at once if the interval has passed, otherwise exactly when it ends: a run that does so |
| ThrottleTiming.CountsUntilStop | gui/queue.go:125-134 | in every run the throttle is stopped exactly from the first stop on, and counts the triggers before it |
| ThrottleTiming.NoneStartsAfterStop | gui/queue.go:125-134 | after stop no call starts that was not recorded before |
| Throttle.Timed.Trigger | gui/queue.go:86-104 | the locked section: ignore, set a timer, or start a call |
| Throttle.Timed.Flush | gui/queue.go:106-117 | the trailing call, unless stopped |
| Throttle.Timed.Stop | gui/queue.go:125-134 | the pending timer is cancelled and later triggers are ignored |
| EventQueue.FirstInFirstOut | gui/queue.go:8-11 | in every interleaving items are handled once each in push order, none is dropped, the consumer sleeps only with nothing to do or a wake-up on its way, and returns only when all was handled |
| EventQueue.PushesAreAccepted | gui/queue.go:25-43 | in every run exactly what is pushed before the queue is closed is accepted |
| EventQueue.DrainReturns | gui/queue.go:36-64 | once closed, in every schedule the consumer takes a bounded number of steps and rests only when it has returned and handled everything accepted |
| EventQueue.Queue.Push | gui/queue.go:25-34 | an item is appended unless the queue is closed |
| EventQueue.Queue.Take | gui/queue.go:49-56 | the whole batch is taken, or the consumer has to wait |
| EventQueue.Queue.Drain | gui/queue.go:45-64 | the nested loops hand over every item in order, what is there and what others push while the consumer waits, and return once the queue is closed |
| Toaster.StepKeepsInv | gui/notify.go:208-337 | every locked section, poke, timer and worker step keeps the invariant |
| ToasterGuarantees.LastsItsTime | gui/notify.go:140-143 | a toast that was not clicked lasts its full time: no timer of an older generation ends it |
| ToasterGuarantees.WindowIsRight | gui/notify.go:224-234 | with no wake-up under way the window shows the newest notification on the current page with a live timer, or nothing |
| ToasterGuarantees.ClickOpensNewest | gui/notify.go:236-252 | a click opens the newest chat, and between two clicks that open one a Show came |
| ToasterGuarantees.ComesToRest | gui/notify.go:304-337 | undisturbed, the toaster takes a bounded number of steps of its own in every schedule |
| ToasterGuarantees.RestIsRight | gui/notify.go:224-234 | where it rests the window shows the newest wanted notification with a timer that has yet to go off, or nothing |
| ToasterGuarantees.ShowAppears | gui/notify.go:208-222 | in every undisturbed schedule a notification is on screen where the toaster rests before the time of a toast is over and the page listens |
| ToasterGuarantees.GoesAway | gui/notify.go:279-337 | in every undisturbed schedule the toast is hidden where the toaster rests once its time is over |
| ToasterGuarantees.GoesAwayInTime | gui/notify.go:279-337 | in every run and every undisturbed schedule from where the toaster rests, nothing is on screen where it rests a toast's time later |
| ToasterGuarantees.PresentedWhileFresh | gui/notify.go:323-335 | what is sent to the page is not older than a toast lasts and was the newest when the worker looked; nothing else puts a toast on screen |
| ToasterGuarantees.RoundMeans | gui/notify.go:323-335 | in a round a wanted toast is dropped if a page reported and it is too old, sent if it is not and this page did not get it yet, and one no longer wanted is taken off the screen |
| ToasterGuarantees.TimersAreArmed | gui/notify.go:236-302 | a timer is set only behind what was sent, for the time of a toast; a click that opens a chat and Close leave none |
| ToasterGuarantees.EachPageGetsIt | gui/notify.go:224-234 | in every run, once a page reported and the worker is done with it, the toast that is wanted was sent after that report |
| ToasterGuarantees.ClosedForGood | gui/notify.go:254-269 | after Close nothing more is shown or opened, and the worker makes no further round |
| Toaster.Window.Show | gui/notify.go:208-222 | a newer generation is wanted, unless closed |
| Toaster.Window.Clicked | gui/notify.go:236-252 | the current chat is opened and the toast ends, or nothing happens |
| Toaster.Window.Expire | gui/notify.go:279-289 | only the current generation ends |
| Toaster.Window.Arm | gui/notify.go:291-302 | only the current generation gets a timer |
| Toaster.Presenter.Round | gui/notify.go:323-335 | the worker drops, presents, dismisses or rests as specified and remembers what it sent |
| HistoryCodec.SuchACodecExists | internal/history/history.go:106-147 | the laws that the log needs of its encoding can be met |
| HistoryLog.ReadsOn | internal/history/history.go:149-181 | behind whole lines more text reads on its own |
| HistoryLog.CloseLine | internal/history/history.go:127-136 | a line break closes a torn line without changing what can be read |
| HistoryLog.AppendsOne | internal/history/history.go:106-147 | a write on a line of its own adds exactly its entry |
| HistoryLog.AddsIffTailBlank | internal/history/history.go:127-136 | a write without a line of its own adds its entry if and only if the last line is blank |
| HistoryLog.TornAdds | internal/history/history.go:127-130 | a write cut short adds its entry if only the last line break is missing, else nothing |
| HistoryLog.StampedMeans | internal/history/history.go:106-125 | what is written has version 1 and a time, its own or that of the write; it is written exactly if its fields are of the allowed values and its text has at most 1 MiB |
| HistoryLog.ReadsLineByLine | internal/history/history.go:149-181 | a file is read line by line, the last with or without its line break, and a line counts if it decodes to an entry of version 1 |
| HistoryRuns.LogKept | internal/history/history.go:88-91 | unless a write goes behind a torn line, the file reads as at first and then every entry in write order |
| HistoryRuns.AppendsInterleave | internal/history/history.go:88-91 | for any first bytes and any interleaving of checks and writes that succeed, what could be read stays and every entry follows in write order |
| HistoryRuns.GluesOnlyInDoubt | internal/history/history.go:127-136 | only a writer whose check failed or that was overtaken by a write cut short can write behind a torn line |
| HistoryRuns.LookMeans | internal/history/history.go:106-135 | a writer sets out to write its stamped entry, with a line break before it exactly if it saw that the last line is torn |
| HistoryRuns.GlueLoses | internal/history/history.go:127-136 | such a write loses its entry unless the torn line is blank |
| HistoryRuns.TornBetween | internal/history/history.go:127-130 | a run in which an entry is lost although its write succeeded |
| HistoryRuns.LogFile.Append | internal/history/history.go:106-147 | one writer adds its stamped entry, or reports an error and has added it or nothing |
| HistoryRuns.LogFile.ReadAll | internal/history/history.go:149-181 | the loop returns the specified entries |
| DeviceId.CheckValid | internal/identity/identity.go:32-44 | the loop accepts exactly 32 lowercase hexadecimal characters |
| DeviceId.ValidMeansSixteenBytes | internal/identity/identity.go:32-44 | an ID is valid exactly if it is the lowercase hexadecimal form of 16 bytes |
| Registry.ObservedKeepsSound | internal/presence/registry.go:71-133 | after a sighting every key is the key of its peer, and names, addresses and IDs are valid |
| Registry.LoadedIsSound | internal/presence/registry.go:172-210 | so it is after a load, and everyone is offline |
| Registry.OneEntryEach | internal/presence/registry.go:60-69 | an ID has one entry, and so has a name among peers without an ID |
| Registry.ChangesExactly | internal/presence/registry.go:71-73 | a sighting counts as a change exactly when something besides LastSeen changed |
| Registry.TickChangesExactly | internal/presence/registry.go:135-147 | a tick counts as a change exactly when something besides LastSeen changed |
| Registry.OnlineAfterTick | internal/presence/registry.go:135-147 | in every run with a nondecreasing clock a peer is online after a tick exactly when it was sighted since the last load and at most 90 seconds ago |
| Registry.SavedIsLoaded | internal/presence/registry.go:172-224 | loading what was saved, in any order, gives back every peer, offline |
| RegistryRuns.SightingMeans | internal/presence/registry.go:71-133 | a sighting, field by field: which are accepted; with a port the entry then has its name, system, address and time and is online, and an entry under the name alone goes; without one only IP, time and online change; all other entries stay |
| RegistryRuns.TickMeans | internal/presence/registry.go:135-147 | a tick marks a peer as offline if it was last seen more than 90 seconds ago, and changes nothing else |
| RegistryRuns.LoadMeans | internal/presence/registry.go:172-210 | a load keeps, of each key, the last entry that has a valid name and address, offline and without an invalid ID |
| RegistryRuns.EntryShowsLastSighting | internal/presence/registry.go:71-133 | in every run an entry seen since the last load has the IP of its last accepted sighting, and the name, system and port of its last one that had a port, if there was one |
| RegistryClass.PeerRegistry.Observe | internal/presence/registry.go:79-133 | the map is updated as specified and field by field as in `RegistryRuns.SightingMeans`, and the answer says whether something besides LastSeen changed |
| RegistryClass.PeerRegistry.Tick | internal/presence/registry.go:137-147 | the loop over the map marks exactly the peers that were missed, and answers whether any was |
| RegistryClass.PeerRegistry.Load | internal/presence/registry.go:177-210 | the loop keeps valid entries, the last of each key; a missing file gives nothing, a corrupt one nothing and an error, an unreadable one an error and the old list, and without a path nothing happens |
| Identity.TrimmedId | internal/identity/identity.go:110-120 | reading what was written gives the ID |
| Identity.TrimMeans | internal/identity/identity.go:110-120 | what is trimmed is white space only, at both ends, and all of it |
| Identity.NoTempSurvives | internal/identity/identity.go:77-84 | however calls fail, nobody returns half an ID and no temporary name is left once all have returned |
| Identity.FailsOnlyByFault | internal/identity/identity.go:54-106 | a process fails only if it cannot read the file, write a temporary one or rename it: not for want of hard links, a corrupt file or another process |
| Identity.AllAgree | internal/identity/identity.go:54-58 | with a missing or valid file and hard links every process that gets an ID gets the one that is stored |
| Identity.RaceDisagrees | internal/identity/identity.go:86-105 | a run of two processes that return different IDs |
| Identity.AgreementIff | internal/identity/identity.go:54-58 | any number of processes agree in every run if and only if the file holds a valid ID at first, or is missing where hard links work |
| Identity.ConfigFolder.LoadOrCreate | internal/identity/identity.go:59-106 | one process: a valid stored ID is returned and kept, otherwise the new one is stored and returned; no temporary name is left |

## Left out

- Peers, summaries, previews and paging of the chat store: read-only views.
- StoreRuns.RunKeepsInv: covers a load only while every entry is in the chat it belongs to, which the comment at internal/chat/chat.go:201-204 asks for; `Loading.LoadedAt` and `Loading.LoadedConserves` hold of any load.
- Sharing of the backing array between the slices of two chats in `mergeByTime`: chats hold sequences, which are values.
- `sort.Slice` over the sources is a selection sort over their keys; keys are distinct, so the result is the same.
- `SendText`, the lookup of the receiver and its cache, `OnUnrecorded`, and a manager without a `Record` function.
- Names, error texts, file counts and skipped counts in updates and history entries.
- Scheduling: that a part which can go on does go on. What is shown is that it takes a bounded number of steps and where it then is.
- The name and kind checks of the folder to be sent, the list of skipped items, cancellation and I/O errors of the scan, and modification times.
- Overflow of 64-bit sums in `tarSize`, and a receiver that shares the 32-bit `int` limit for its folder count.
- The encoding of tar headers: only their length and the fields that are read back.
- FolderExtractor.Extractor.MkdirAll: keeps its record by component list instead of by slash path; the two correspond one to one.
- Reserving, freeing and renaming a final name are one step, as the comment at internal/server/storage.go:163-167 allows.
- Symbolic links in the receive directory are the `Special` entries that a sweep passes over; the modification time of a folder is given with its entry.
- The draws of os.CreateTemp: an upload does not draw the name of another that is running, even one whose entry was swept.
- `readyTimer`, which only logs a warning, and the window's position and text.
- History entries hold the fields that are checked and one field for the rest; their text is valid UTF-8, which JSON keeps as it is.
- `Peers` and `Choose` of the registry, and the file write of `Save`: a sorted copy, two filters and a rename.
- White space other than ASCII around a stored device ID, and processes that die before they remove their temporary file.
- HTTP, UDP, the tray, the window toolkit and the command line.
