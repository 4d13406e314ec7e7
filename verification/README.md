# Proofs about the model runtime's stateful core

This project models the parts of the runtime where state is kept over many calls, and proves what every
run of them keeps. Each part has value-level functions that say what an operation does to the whole
state, theorems about all runs of these functions, and, where the program updates an object in place, a
class whose methods are proved against the functions.

- **Causal KV cache** (`CacheCells`, `CausalRanges`, `CausalView`, `CausalSlide`, `CausalRuns`,
  `CausalCache`). Cells hold a position and the sequences that share it; a range per sequence bounds
  where its cells are. Runs follow the runner: evaluate a batch, reuse a prefix, fork a prefix, discard a
  middle part. Behind the cells stands a plain view, one interval of positions for each sequence.
- **Keys and mask** (`KeyRows`, `KeyRuns`). The mask as the flat table that is sent to the backend, and
  for each key row what was put there and the rotation applied to it so far.
- **Wrapped caches** (`WrapperCache`). Several causal caches side by side, with the unwinding of a batch
  that one of them refuses.
- **Recurrent state next to the KV cache** (`SlotTable`, `CheckpointRing`, `RecurrentState`,
  `RecurrentRuns`, `HybridRuns`, `CheckpointSpacing`, `UnsafeForkRun`, `RecurrentCache`). Slots shared copy
  on write, rings of checkpoints, passes that update one buffer after the other, and the roll-back to a
  checkpoint. What a model computes is an arbitrary function on rows, so a row stands for the history it
  was computed from.
- **Placing layers on devices** (`GreedyFit`, `BestFit`, `Layout`, `ServerLayout`, `LoadRecord`,
  `LoadSearch`). The greedy packer, the search for the least capacity factor, the layout from a memory
  report, its accounting, and the search for a layout that can be allocated, with the record it leaves.
- **Streams of tagged text** (`TagSearch`, `Harmony`, `HarmonyMessages`, `FunctionNames`).
- **Modelfiles** (`Modelfile`, `ModelfileRoundTrip`, `ModelfileLines`).
- **Event streams** (`StreamGrammar`, `StreamConverter`, `StreamContents`, `WebSearchStream`).
- **Tensor repacking** (`GridIndex`, `RopePermute`, `PatchRepack`).

Where the program does not keep what it is meant to keep, the code is modelled as it is, a lemma gives an
input, and an if-and-only-if says when it does keep it:

- Forking a prefix onto a sequence that has a slot of its own with live checkpoints frees the slot and
  leaves the checkpoints (kvcache/recurrent.go:421-444; `ForkInStep`, `UnsafeForkHarms`, `StaleRestored`).
- The digit test on a converted function name looks at one byte, so a digit outside ASCII stays in front
  (harmony/harmonyparser.go:515; `ValidName`, `ForeignDigitStays`), and a built-in name takes over the
  entry of a name converted to it (`InvertsIff`, `OverwriteHappens`).
- A quoted value with a line that ends in three quotes, a bare value that begins with a quote, and a model
  name that would need quotes are not read back from a printed Modelfile (`RoundTripIff`,
  `LostValues`).
- Removing the middle of a sequence from a cache that slides its window may leave a window incomplete
  (kvcache/causal.go:616-621); runs permit it exactly when it does not (`WindowAfterRemovalIff`,
  `WindowLost`).
- Thinking after text, or a new tool call while thinking, breaks the order of stream events
  (`RunKeepsGrammarIff`, `BrokenRuns`), and so does a chunk with something to tell after the last one.

`dafny verify dfyconfig.toml` checks the project.

## Model

| member | source | states |
|---|---|---|
| CausalRuns.EveryBatchSeesItsWindow | kvcache/causal.go:198-389 | in every run of permitted calls every batch is stored in the first unused cells, and then each of its tokens sees, in any range that spans what the code computed, exactly one cell for each position of its window and no other cell |
| CausalCache.MaskRowExact | kvcache/causal.go:362-389 | carries that to the table: row t of the mask shows exactly those cells, one for each position of the window, and hides every other column, padding included |
| CausalCache.ExceptionsSeeLater | kvcache/causal.go:362-389 | a token whose causality was lifted also sees the later positions of its sequence, no other token does, and none sees past its window or chunk |
| CausalCache.Evaluate | kvcache/causal.go:198-248 | the same for the object: from an object that is in step with its view a permitted batch never fails, the object stays in step, each row of its mask table shows exactly the window of its token, and only the keys of the batch are still to be put |
| CausalRuns.NeverFull | kvcache/causal.go:153-176 | capacity: at the size Init derives, and after the windows have slid, a permitted batch always finds as many unused cells as it has tokens, with and without a window |
| CausalRuns.InitSizesExact | kvcache/causal.go:130-176 | the window, memory and number of cells in use, for all arguments, and the one combination that is refused: a memory below the window that neither sharing nor the capacity raises |
| CausalRuns.StepKeepsInv | kvcache/causal.go:198-666 | each operation on the cells refines its counterpart on plain intervals of positions: afterwards every sequence stores exactly the positions of its interval, once each, and no remembered range misses a cell |
| CausalRuns.EveryReachableState | kvcache/causal.go:130-666 | the same in every state of every run |
| CausalRuns.StepExists | runner/ollamarunner/cache.go:96-158 | a permitted batch, load or fork has a next state, so the statements about runs are not about runs that stop |
| CausalRuns.ResumeMeansWindowStored | kvcache/causal.go:520-547 | a cache that slides its window agrees to resume at n exactly when every position of the window before n is still stored |
| CausalRuns.WindowAfterRemovalIff | kvcache/causal.go:615-666 | after a middle removal in a cache that slides its window the window of the next token is still stored if and only if the oldest position left, moved down if it was behind the range, is not after the start of that window |
| CausalRuns.WindowLost | kvcache/causal.go:615-621 | an input for which it does not hold: one position removed inside a window of four |
| CausalRuns.DiscardAllowedIff | kvcache/causal.go:615-621 | the same condition, in terms of the stored interval and the range, is when a middle removal is permitted in a run; without a window it always is |
| CausalView.SlideRefines | kvcache/causal.go:273-349 | sliding trims the interval of every sequence to its newest `memory` positions before the batch, and changes nothing else |
| CausalView.CopyRefines | kvcache/causal.go:497-518 | the target then stores exactly the positions of the source below the prefix length, whatever it had before; all other sequences are as they were |
| CausalView.RemoveMovesPositions | kvcache/causal.go:615-666 | after a removal that gets through, a position before the range is stored as before, and a position from its start on is stored exactly when the one a range length further was |
| CausalView.BlockedIff | kvcache/causal.go:615-666 | a removal is refused exactly when some token behind the range is shared with another sequence |
| CausalView.TruncateNeverBlocked | kvcache/causal.go:615-666 | removing up to the end is never refused |
| CausalView.RemoveSparesOthers | kvcache/causal.go:615-666 | a removal, refused ones included, changes neither the cells nor the positions nor the ranges of any other sequence |
| CausalView.ClearRefines | runner/ollamarunner/cache.go:283-324 | clearing a sequence after a removal that failed half way leaves nothing of it and everything of the others |
| CausalRanges.SlidingKeepsMask | kvcache/causal.go:273-349 | no cell that a token of the batch may see is dropped: for every cell of the cache the mask bit is the same before and after sliding |
| CausalRanges.NarrowingSound | kvcache/causal.go:351-389 | every cell that a token of the batch attends to lies inside the range that the mask is narrowed to |
| KeyRuns.EveryKeyAtItsPosition | kvcache/causal.go:449-666 | in every state of every run, refused and half-failed shifts included, the key in each used cell has been rotated to exactly the position that the cell says it holds |
| KeyRuns.EveryKeyOfItsToken | kvcache/causal.go:449-666 | in every run the key of each used cell is the very key that was put for its token, rotated to where the token is now, for every sequence that shares the cell; the token is followed back through the removals and forks on the way |
| KeyRuns.EveryValueOfItsToken | kvcache/causal.go:449-666 | the same for the values, which no operation but a batch changes |
| KeyRows.PutSettlesRows | kvcache/causal.go:449-495 | between StartForward and Put exactly the rows of the batch are out of step; putting the keys, rotated to their positions, settles them |
| KeyRows.RemoveKeepsRows | kvcache/causal.go:549-666 | the tile-wise rotation after a removal moves exactly the keys of the moved cells, by exactly the distance the cells moved |
| KeyRows.ClearRestoresRows | runner/ollamarunner/cache.go:283-324 | when a rotation fails half way, the keys left in doubt belong to the sequence alone, and clearing it makes all keys right again |
| CausalCache.Create | kvcache/causal.go:130-182 | Init gives an object with the sizes derived from its arguments, in step with an empty view, or the error that the memory is below the window |
| CausalCache.Causal.FindLocs | kvcache/causal.go:258-271 | the first n unused cells in order, or nothing exactly when there are too few |
| CausalCache.Causal.UpdateSlidingWindow | kvcache/causal.go:273-349 | the nested loops, in whatever order the sequences are visited, end in the state of the one-step sliding, and the range they leave is the tightest around everything the batch may look at |
| CausalCache.Causal.BuildMask | kvcache/causal.go:351-389 | the current range is widened to the padding inside the cache, and the mask is the table of mask bits over it |
| CausalCache.Causal.StartForward | kvcache/causal.go:198-248 | the whole call on the object: slide, place in the first unused cells or refuse, span what the batch looks at, build the mask; when it only reserves, nothing is stored |
| CausalCache.Causal.SetCausal | kvcache/causal.go:402-409 | the exceptions take effect in a rebuilt mask over the same range, since padding an already padded range changes nothing |
| CausalCache.Causal.Put | kvcache/causal.go:449-495 | each token of the batch has its value, and its key rotated to its position, at its own location of the layer; every other row is as it was, or zero in a layer used for the first time |
| CausalCache.Causal.CopyPrefix | kvcache/causal.go:497-518 | one pass over the cells in place computes the value-level copy |
| CausalCache.Causal.CanResume | kvcache/causal.go:520-547 | the scan over the cells decides whether the window at the position is stored |
| CausalCache.Causal.Shift | kvcache/causal.go:549-613 | tile by tile, with offset vectors trimmed to the first and last moved cell, every layer is rotated as by one pass over all cells; after a failure every layer has been rotated up to the same tile, and no layer beyond it |
| CausalCache.Causal.Remove | kvcache/causal.go:615-666 | the metadata of the value-level removal in every case; refused exactly when blocked; truncation neither fails nor touches keys; on success every layer is rotated, on failure every layer up to the same tile |
| CausalCache.Load | runner/ollamarunner/cache.go:96-158 | reusing a prefix of n tokens keeps the object in step and its keys right; it reuses n exactly when the window before n is stored, else nothing |
| CausalCache.Fork | runner/ollamarunner/cache.go:183-227 | forking a prefix and resuming in the fork keeps the object in step and its keys right |
| CausalCache.ShiftOut | runner/ollamarunner/cache.go:283-324 | discarding the middle of a sequence, and dropping the sequence when that is refused or fails half way, keeps the object in step and its keys right |
| WrapperCache.UnwoundExactly | kvcache/wrapper.go:44-60 | undoing a batch token by token removes from every cell exactly the entries at or after the position of a batch token of the sequence, and moves nothing |
| WrapperCache.UnwindRestores | kvcache/wrapper.go:44-60 | a cache that took a batch and was unwound stores exactly what it stored before the batch, up to what had slid out of its windows |
| WrapperCache.Wrapper.StartForward | kvcache/wrapper.go:44-60 | all caches take the batch or none keeps it: those before the one that refuses are unwound, those after it are untouched; when only reserving none refuses and none changes |
| WrapperCache.StartInStep | kvcache/wrapper.go:44-60 | the same for objects in step with their views: when every cache permits the batch none refuses it and each is in step with its grown view; when one refuses, it and those before it are in step with their slid views, and those after it with their old ones |
| WrapperCache.Wrapper.CanResume | kvcache/wrapper.go:90-98 | resuming is safe exactly when it is safe in every wrapped cache |
| WrapperCache.Wrapper.Remove | kvcache/wrapper.go:100-110 | the caches up to and including the first that fails are changed, the later ones are not; truncation reaches all of them |
| HybridRuns.CachesAgree | kvcache/recurrent.go:179-552 | in every run, at every point up to the first unsafe fork: the causal cache stores exactly the positions of a token history, the recurrent rows of the sequence are the fold of that very history, and each live checkpoint at p is the fold of its first p + 1 tokens |
| HybridRuns.ForkInStep | kvcache/recurrent.go:421-444 | a fork keeps the joint invariant if and only if the target does not leave live checkpoints in a slot that becomes unused (or the fork takes that very slot back at once) |
| UnsafeForkRun.UnsafeForkHarms | kvcache/recurrent.go:421-444 | a run of five calls, with the default checkpoint interval and minimum, that starts with an empty cache, contains an unsafe fork, and ends with new tokens in the causal cache and rows of an older prompt in the recurrent state |
| HybridRuns.HStepExists | kvcache/recurrent.go:179-552 | a permitted pass, roll-back or fork has a next state |
| RecurrentRuns.StaleRestored | kvcache/recurrent_checkpoints.go:302-389 | the harm in general: a new sequence that is given a slot with checkpoints left behind and then goes back, gets the rows of the other history for its own first tokens; they are right exactly when the two histories lead to the same rows |
| RecurrentRuns.UnsafeFork | kvcache/recurrent.go:421-444 | after every unsafe fork the checkpoints of the target are in an unused slot at the top of the stack, ready for the next new sequence |
| RecurrentState.ForkKeepsIff | kvcache/recurrent.go:421-444 | the fork alone keeps coherence exactly when the target leaves no live checkpoint in a slot that becomes unused |
| RecurrentRuns.PassKeeps | kvcache/recurrent.go:179-325 | a forward pass (slots assigned and zeroed, checkpoints planned, shared slots copied, rows updated buffer by buffer, checkpoints captured on the way) keeps the state coherent, each sequence of the batch with its tokens appended, the others as they were |
| RecurrentRuns.BackKeeps | kvcache/recurrent.go:456-552 | rolling back leaves tokens, rows and remaining checkpoints of the sequence at one and the same prefix, and the other sequences as they were |
| RecurrentRuns.CheckpointLeft | kvcache/recurrent_checkpoints.go:215-259 | a pass for which a checkpoint is planned leaves it, at the last position of the pass, in a slot of the sequence alone |
| CheckpointSpacing.CheckpointNear | kvcache/recurrent_checkpoints.go:215-259 | in every run, up to the first unsafe fork, after each forward pass every sequence of the batch has a live checkpoint less than an interval behind its last token, unless that token lies below the least position for a checkpoint |
| CheckpointSpacing.CheckpointsApart | kvcache/recurrent_checkpoints.go:215-259 | in every such run any two live checkpoints of a slot are at least an interval apart, none lies below the least position, and the last position on record is that of the highest one |
| CheckpointSpacing.PassSpaced | kvcache/recurrent_checkpoints.go:215-259 | the same for one pass from any coherent state |
| RecurrentState.DetachKeeps | kvcache/recurrent.go:367-419 | copy on write: the sequence gets a slot of its own with the same rows and the complete checkpoints, and no sequence sees different rows |
| RecurrentState.ClearKeeps | kvcache/recurrent.go:456-552 | dropping a sequence keeps coherence: the last user of a slot takes its checkpoints along |
| RecurrentState.RestoreKeeps | kvcache/recurrent_checkpoints.go:330-389 | restoring a checkpoint at p leaves rows, tokens and checkpoints at the first p + 1 tokens, also when the slot had been shared |
| SlotTable.AllocNeverFails | kvcache/recurrent.go:327-340 | with no more sequences than slots, a new sequence and one that needs a private copy always find an unused slot |
| CheckpointRing.RebuiltExact | kvcache/recurrent_checkpoints.go:86-126 | after pruning or shifting, size counts exactly the live checkpoints, and the next write hits an unused entry, or the oldest when all are live |
| CheckpointRing.BestIsHighest | kvcache/recurrent_checkpoints.go:67-84 | the scan finds the live checkpoint with the highest position below the target, or none exactly when there is none |
| CheckpointRing.LatestKept | kvcache/recurrent_checkpoints.go:54-66 | a ring of n entries holds exactly the last n positions recorded in it |
| CheckpointRing.PrunedHolds | kvcache/recurrent_checkpoints.go:86-126 | after pruning exactly the checkpoints up to the position are left |
| CheckpointRing.ShiftedHolds | kvcache/recurrent_checkpoints.go:128-183 | after a removal a position has a checkpoint exactly when it lies before the range and had one, or the position a range length further had one |
| CheckpointRing.ShiftedLast | kvcache/recurrent_checkpoints.go:128-183 | and the last position on record is that of the highest checkpoint left |
| CheckpointRing.SlotCheckpointStore.Record | kvcache/recurrent_checkpoints.go:33-65 | the in-place ring follows the value-level one and stays well formed; the entry it hands out is the one that is overwritten |
| CheckpointRing.SlotCheckpointStore.BestIndex | kvcache/recurrent_checkpoints.go:67-84 | the index and position of that highest checkpoint, found exactly when one lies below the target |
| CheckpointRing.SlotCheckpointStore.PruneAfter | kvcache/recurrent_checkpoints.go:86-126 | exactly the checkpoints after the position are forgotten, in place, and the bookkeeping is rebuilt |
| CheckpointRing.SlotCheckpointStore.ShiftRange | kvcache/recurrent_checkpoints.go:128-183 | exactly the checkpoints inside the range are forgotten and the later ones moved down by its length, in place |
| RecurrentCache.Recurrent.constructor | kvcache/recurrent.go:96-142 | an object with all slots unused, in a stack with slot 0 on top, no buffers, no checkpoints and no pending restore |
| RecurrentCache.Recurrent.StartForward | kvcache/recurrent.go:179-305 | every outcome: refused by the causal cache with nothing changed, refused for sequences of different lengths after the causal cache took the batch, or started with a slot for each sequence, new ones zeroed, and the plan from which CheckpointNear and CheckpointsApart follow; when only reserving, slots 0, 1, ... are pretended and nothing but the plan and its empty rings is made |
| RecurrentCache.Recurrent.EnsureWritableOnce | kvcache/recurrent.go:637-658 | the first use in a pass gives every sequence a private slot; later uses repeat the first outcome and change nothing |
| RecurrentCache.Recurrent.ContiguousSlots | kvcache/recurrent.go:563-574 | the fast path is taken exactly when the current slots are consecutive and in order |
| RecurrentCache.Recurrent.WriteCurrentSlotRows | kvcache/recurrent.go:626-635 | one block write or row by row: each current slot ends with its own new row, all other rows stay |
| RecurrentCache.Recurrent.Capture | kvcache/recurrent_checkpoints.go:441-493 | the checkpoints planned for the pass receive the new rows of their slots, one entry per slot and pass |
| RecurrentCache.Recurrent.RunLayer | kvcache/recurrent.go:661-743 | reading, advancing and writing back one buffer is one buffer update of the pass; it fails only when no private slot can be found |
| RecurrentCache.Recurrent.CopyPrefix | kvcache/recurrent.go:421-444 | the target gives up its slot and joins that of the source; the checkpoints of the slot it leaves stay |
| RecurrentCache.Recurrent.CanResume | kvcache/recurrent.go:446-454 | resuming is possible exactly when the causal cache can and, beyond the start, a checkpoint lies below the position |
| RecurrentCache.Recurrent.Remove | kvcache/recurrent.go:456-552 | the three kinds of removal with every refusal: a shared or unshiftable middle leaves the recurrent state alone, a missing spare slot is reported exactly when a private copy would need one, the tail needs a prepared restore and goes back to it, the middle moves private checkpoints along, everything gives up the slot |
| RecurrentCache.Evaluate | kvcache/recurrent.go:179-325 | a forward pass of a model on the object is a step of the joint system and never fails for an even, permitted batch, so what holds in every run holds for the object |
| RecurrentCache.Load | kvcache/recurrent_checkpoints.go:302-355 | the roll-back calls of the runner on the object are the roll-back step of the joint system |
| RecurrentCache.Fork | kvcache/recurrent.go:421-454 | the fork calls of the runner on the object are the fork step, safe or not, and keep the joint invariant exactly when it is safe |
| GreedyFit.GreedyOptimal | llm/server.go:1139-1164 | no in-order assignment that fits the devices places more layers than the packer, up to the request, and as many as it places can be placed |
| GreedyFit.CountMonotone | llm/server.go:1139-1164 | more space on the devices never places fewer layers, which is what makes the binary search sound |
| GreedyFit.Greedy | llm/server.go:1139-1164 | the loop, last layer and last device first, yields the packing with that number of layers: consecutive blocks, one device each, none over its room |
| BestFit.ByPerformance | ml/device.go:371-390 | the devices in groups of one speed, in order of first appearance, each device once |
| BestFit.ByLibrary | ml/device.go:392-411 | the devices in groups of one library, in order of first appearance, each device once |
| BestFit.GroupsInOrder | ml/device.go:371-411 | the groups are those of the keys in the order in which they first appear, each with all its devices in their own order |
| BestFit.FitGroup | llm/server.go:1106-1136 | the binary search ends, with a factor that places as many layers as the largest one and is within a millionth of the least that does |
| BestFit.FindBestFit | llm/server.go:1106-1136 | group after group takes the most layers it can, each at a factor that is within a millionth of the least for it, and every device stays within its room at the factor of its group; together they are the last layers, in order, on distinct devices, never more than requested |
| BestFit.BestFitOptimal | llm/server.go:1106-1164 | taking the groups one after the other loses nothing: no in-order assignment to all devices at once, the groups in a line, places more layers, up to the request, and as many can be placed |
| Layout.FewestDevices | llm/server.go:1064-1100 | from one past the last device in use on, a smaller number of devices is never enough: no in-order assignment to them, whatever their speeds, holds all layers or as many as requested |
| Layout.EnoughDevices | llm/server.go:1064-1100 | the number chosen is enough: some in-order assignment to these devices holds all layers or as many as requested, unless they are all devices |
| Layout.AssignLayers | llm/server.go:1064-1100 | the layout and its number of layers: all layers on as few devices as hold them, or else all but the output layer |
| Layout.AssignedSane | llm/server.go:1064-1100 | such a layout is one block of consecutive layers on distinct devices, and without force no device holds more than its room |
| Layout.EverythingAssigned | llm/server.go:1064-1100 | without a request, all layers are placed whenever some in-order assignment of all layers fits, for devices of any speeds in groups |
| Layout.SpeedIgnored | llm/server.go:1065-1070 | with a number of layers asked for, or all devices to be used, the devices are one line in their own order, whatever their speeds |
| Layout.RequestMet | llm/server.go:1072-1100 | a number of layers below all of them, unless everything has to fit, is placed exactly, without the output layer, whenever that fits into a thousand times the memory |
| ServerLayout.BuildLayout | llm/server.go:939-998 | a layout of one library group, with the most layers of all groups; the sizes add weights and cache of each layer |
| ServerLayout.NeverOversubscribed | llm/server.go:939-1164 | each device used has room for its layers on top of overhead, backoff, graph and minimum memory; the layers are one block; each device appears once |
| ServerLayout.UsedDevicesStay | llm/server.go:956-968 | a device with a graph on it stays among the devices that the next layout may use, however few would do |
| ServerLayout.Account | llm/server.go:1001-1061 | every layer is counted once, on the processor or on a device: the two sums add up to all layers, all graphs and the input weights |
| ServerLayout.GraphsOfUsed | llm/server.go:1001-1012 | the graphs counted are those reported for the devices in use, each once |
| ServerLayout.BuiltParts | llm/server.go:939-1061 | for a layout that the server built these sums are those of its block of layers and of the layers before and after it |
| ServerLayout.VerifyLayout | llm/server.go:1001-1061 | when a layout is refused, and for which of the two reasons, both directions; where memory is unified an oversized layout switches offloading off instead |
| LoadSearch.UniverseExists | llm/server.go:759-882 | there are finitely many layouts of n layers on these devices, with a bound in the two numbers |
| LoadSearch.BuiltIsPossible | llm/server.go:759-1164 | every layout that the server builds, whatever was reported, is one of them |
| LoadSearch.Operate | llm/server.go:759-882 | the retry loop of one operation ends; the layouts it sends, probes aside, are pairwise different; the number of requests is bounded by the possible layouts and the rounds of exploration; every entry of the record, which holds all layouts made and all requests, was called for and heeded (LoadRecord.Heeded); what it settles on is what the record says was tried last or passed as a probe |
| LoadSearch.LoadServer | llm/server.go:746-899 | the whole search ends for all reports and answers of the runner, with a number of requests that depends only on the numbers of devices and layers; its record is orderly: a layout worth trying is tried next, a gap is explored from the top until a probe passes, what passes is kept, nothing else is sent, and the backoff rises by a tenth only after a refusal; a layout it returns was built by the server, settled on, and accepted for commit; when it fails, the last layout or response explains the error, and the runner gives up what it loaded |
| LoadRecord.NothingLeftUntried | llm/server.go:795-802 | in an orderly record every layout that was made, not for a probe, and not tried next, has the key of one sent before or more layers than the layout chosen last |
| LoadRecord.GapExplored | llm/server.go:804-850 | in an orderly record that was not cut short every number of layers in a gap was asked for, or a probe for more passed |
| Harmony.ChunksDoNotMatter | harmony/harmonyparser.go:93-184 | however the input is cut into chunks, the parser ends in the same state with the same buffer and emits the same events up to merging adjacent content |
| Harmony.GivenAway | harmony/harmonyparser.go:244-252 | content given away early, up to the longest overlap with the end tag, is exactly the beginning of what would have been emitted with more input |
| TagSearch.KeptIndex | harmony/harmonyparser.go:244-252 | searching on in the text kept back finds the tag exactly when, and where, searching in all of the text would |
| HarmonyMessages.ComesBackIff | harmony/harmonyparser.go:93-184 | rendered messages come back, header by header and content by content, exactly when no header contains the header tag and no content the end tag |
| HarmonyMessages.HarmonyTagsClear | harmony/harmonyparser.go:274-282 | the tags of the harmony format meet what that statement asks of tags |
| HarmonyMessages.HarmonyParser.AddContent | harmony/harmonyparser.go:93-184 | the parser object, one step after the other on its buffer, does what the parser function does |
| HarmonyMessages.MessageHandler.AddContent | harmony/harmonyparser.go:289-334 | the handler sorts the events of a chunk into content, thinking and tool content by channel and recipient |
| HarmonyMessages.OutputsDoNotSeeChunks | harmony/harmonyparser.go:289-334 | content, thinking and tool content collected over all chunks are those of the whole text |
| HarmonyMessages.ContentSorted | harmony/harmonyparser.go:289-334 | rendered messages, in any chunks: the thinking is the contents of the analysis messages without recipient, the tool content that of analysis and commentary with one, the content everything else, each in order |
| FunctionNames.ValidName | harmony/harmonyparser.go:497-525 | the converted name is not empty and has valid characters only; it has no digit in front exactly when the first character kept is not a digit outside ASCII, since the code looks at one byte |
| FunctionNames.ForeignDigitStays | harmony/harmonyparser.go:497-525 | such a name: the Arabic digit three in front stays in front |
| FunctionNames.KeptInPlace | harmony/harmonyparser.go:497-525 | in a name of valid characters, spaces, dashes and dots each character stays where it is, the latter three as underscores, behind one more underscore when a digit would be in front |
| FunctionNames.DroppedDoNotMatter | harmony/harmonyparser.go:497-525 | any other character might as well not be there, and a name of nothing else becomes unnamed |
| FunctionNames.FunctionNameMap.DeriveName | harmony/harmonyparser.go:527-544 | the first of name, name_2, name_3, ... that is not in use; the search ends |
| FunctionNames.FunctionNameMap.ConvertAndAdd | harmony/harmonyparser.go:464-473 | the name returned and both maps afterwards; a built-in name takes its entry over |
| FunctionNames.InvertsIff | harmony/harmonyparser.go:464-544 | after any run of calls every name returned leads back to the name it was made from, exactly when no built-in name took over the entry of another name |
| FunctionNames.OverwriteHappens | harmony/harmonyparser.go:464-485 | a run in which it does: a name that becomes python, then python itself |
| ModelfileRoundTrip.RoundTripIff | parser/parser.go:331-598 | a printed file is read back as the same commands exactly when the argument of every command survives quoting (for a quoted one: no three quotes that end a line too early; for a bare one: no quote in front) |
| ModelfileRoundTrip.WholeValue | parser/parser.go:567-598 | a quoted value that is complete gives the value back, blanks and quotes inside included |
| ModelfileRoundTrip.BrokenFile | parser/parser.go:331-598 | one command that does not survive spoils the file: it is not read back as its commands, whatever follows |
| ModelfileRoundTrip.LostValues | parser/parser.go:331-598 | three such values, each of which is printed into a file that is not read back |
| Modelfile.ParseFile | parser/parser.go:377-506 | the loop over the characters, with its states and its buffer, computes the parse that the statements on whole files are about, errors included |
| ModelfileLines.ReadsCommands | parser/parser.go:377-565 | a file with keywords in any letter case, values as they are written, and any comments and blank lines before, between and after is read as its commands in order, or refused when it names no model |
| ModelfileLines.CommentsDoNotMatter | parser/parser.go:331-565 | a printed file with comments and blank lines put between its commands is read back as the same commands |
| ModelfileLines.WrongKeyword | parser/parser.go:412-420 | a word that is no keyword, or is not followed by a space, makes the file an error, whatever follows |
| ModelfileLines.WrongRole | parser/parser.go:438-444 | a message with an unknown role makes the file an error |
| ModelfileLines.EndsTooSoon | parser/parser.go:479-497 | a file that ends inside a quoted value or right after a keyword ends too soon |
| StreamGrammar.AcceptsPrefixes | anthropic/anthropic.go:719-741 | the state machine of the stream grammar accepts exactly the prefixes of complete streams: start, blocks numbered in order, each opened, filled and closed, then delta and stop |
| StreamConverter.RunKeepsGrammarIff | anthropic/anthropic.go:750-957 | the events of a run are a prefix of a complete stream exactly when no chunk thinks inside an open text block or calls a new tool inside a thinking block, and only silent chunks follow the end |
| StreamContents.ClientReads | anthropic/anthropic.go:750-957 | for every run that fits, and so after each of its chunks, a client that joins the deltas of each block reads: in the text blocks the contents of the chunks, in the thinking blocks the thinking up to the first answer to it, and one tool block in order, with id, name and arguments, for each call that encodes and was not told before |
| StreamGrammar.ReadByKind | anthropic/anthropic.go:744-748 | in an unbroken stream every delta belongs to the newest block, and that block is of its kind |
| StreamConverter.BrokenRuns | anthropic/anthropic.go:750-957 | three runs that break the grammar: thinking after text, a tool call with thinking, text after the end |
| StreamConverter.ProcessStep | anthropic/anthropic.go:750-957 | the same for one chunk, with the state the converter is in afterwards: where it fits the stream goes on at the right place, where not it breaks |
| StreamConverter.NothingToldIff | anthropic/anthropic.go:750-957 | which chunks lead to no event, said of the chunk: not the last, no text, no thinking that is still awaited, only tool calls sent before or that cannot be encoded with no text block open |
| StreamConverter.Converter.ProcessChunk | anthropic/anthropic.go:750-957 | the converter object follows the function, field by field and event by event, texts and arguments included; what the events tell is ClientReads |
| WebSearchStream.SearchKeepsGrammarIff | middleware/anthropic.go:137-197 | with web search, whenever the search cuts the converter off and whatever it returns, the stream is a prefix of a complete one exactly when the chunks that the converter gets to see fit, with at most one stop |
| WebSearchStream.WriteStep | middleware/anthropic.go:598-777 | the same for one chunk: passed on, swallowed, or answered with the blocks of the search and the end of the stream |
| WebSearchStream.SearchResultShown | middleware/anthropic.go:137-197 | when the model calls the search, the client reads the blocks told before the call, then exactly the blocks of the result of the search, and nothing of what comes later |
| WebSearchStream.WebSearchWriter.WriteChunk | middleware/anthropic.go:137-197 | the writer object follows the function: blocks left open are closed before those of the search are numbered on |
| RopePermute.Repack | convert/convert_glmocr.go:22-77 | for weights and biases: position r of a head holds the value of its source row, and when the head size divides the first dimension every position is written exactly once |
| RopePermute.RowsBijective | convert/convert_glmocr.go:50-72 | the row order is a permutation, given with its inverse, and leaves the rows that are not rotary alone |
| RopePermute.PairsSplit | convert/convert_glmocr.go:50-72 | the two rows of a rotary pair, next to each other before, end up half the rotary rows apart, even one first |
| RopePermute.PermutedInjective | convert/convert_glmocr.go:50-72 | nothing is lost: the original is determined by the result |
| PatchRepack.Repack | convert/convert_lfm2_vl.go:380-417 | accepted exactly for tensors of the right shape; then every position is written exactly once with the value of its coordinates |
| PatchRepack.PixelMoved | convert/convert_lfm2_vl.go:397-414 | the value of a channel of a pixel, found behind the other channels of the pixel, ends up in the plane of its channel |
| PatchRepack.RepackInverse | convert/convert_lfm2_vl.go:380-417 | a tensor is the repack of the unpacked one and of nothing else |

## Left out

Causal cache and keys:

- The sequences of a cell are a set, the batch is a list of sequence and position pairs, and mask entries
  are booleans for minus infinity and zero.
- Positions stay below the largest 32-bit integer, which the program uses as the end marker.
- What attention does with keys, values and mask: tensors are rows with one opaque content each and, for
  keys, the rotation applied. Keys arrive at `Put` already rotated to their positions, as the models do it.
- The batch-wise permuted layout of values and the copying between tensor types.
- CausalCache.Causal.Shift: the backend may fail at any layer of any tile; which one is arbitrary.
- CausalCache.Create: the panic for a memory below the window is an error result.
- CausalCache.Causal.constructor: has no row of its own; `Create` states what Init does.
- The encoder cache, and the choice of the wrapped cache that a layer uses.

Recurrent cache:

- The object keeps its rings and buffers as values in maps that the methods reassign. The in-place form of
  a ring is `SlotCheckpointStore`, proved against the same functions; sharing of tensor memory between a
  ring and a buffer is not captured.
- RecurrentCache.Recurrent.constructor: the allocation of checkpoint tensors ahead of time is left out.
- RecurrentCache.Recurrent.Remove: removing a middle part moves positions and checkpoints but leaves the
  rows with the removed tokens in them, as the program does; no history describes such rows, so middle
  removals are not part of the joint runs. Removing from position 0 up to a later one drops the whole
  recurrent state, also as the program does.
- Batches of unequal sequence lengths, refused after the causal cache has taken them, are not part of the
  joint runs; `StartForward` states the outcome.
- HybridRuns.CachesAgree: up to the first unsafe fork, since an unsafe fork does harm (`UnsafeForkHarms`).

Layers and devices:

- Capacity factors are exact reals and sizes unbounded naturals; rounding of 32-bit floats and overflow of
  64-bit sums are not modelled.
- ServerLayout.BuildLayout: holds for the devices in any order, so sorting them by free memory is not modelled.
- LoadSearch.Operate: what an operation settles on need not be what the runner accepted last: a probe may
  have been accepted without being adopted (llm/server.go:857-865), and the contract says so.
- The hash of a layout is taken to tell layouts apart that differ in a device with layers.
- The runner's answers and the reports of memory are arbitrary; time limits, processes and logging are
  left out. The older llama runner's load is left out.

Tagged text and Modelfiles:

- Parsing a header into role, channel and recipient is an arbitrary function.
- Which characters are letters and digits is a parameter; only the ASCII digits are fixed.
- The prefill of a message and the rendering of prompts.
- ModelfileRoundTrip.RoundTripIff: is about commands that can be printed as one: printable ASCII arguments,
  a word for the name of a parameter, a known role for a message, and at least one model.
- Reading a file: byte order marks, encodings other than ASCII, line numbers in errors, and the
  expansion of paths.

Event streams:

- Encoding of events as JSON and server-sent events, usage numbers, stop reasons, message identifiers, and
  responses that are not streamed. The arguments of a call are the text they encode to.
- The search itself: its result is an arbitrary list of blocks, and the moment its result is looked at is
  any chunk; the interleaving of its worker with the writer is not modelled further.

Elsewhere:

- Scheduling of models, request handling, downloads, templates, tokenizers and the numeric kernels.
