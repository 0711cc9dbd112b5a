# Verified models of the dynamic module examples

The repository holds example Envoy filters written as dynamic modules: a Go SDK with its filters, and Rust filters.
This project models the parts of it with real state, concurrency or arithmetic, and proves what they are for.

- **Pinning (Go SDK).** Every filter and configuration whose address Envoy holds is kept alive by 256 mutex-guarded,
  intrusive doubly linked lists and one list for configurations. `SplitMix.dfy` proves that the shard hash is a
  bijection on 64-bit words and splits the addresses exactly evenly. `PinTable.dfy` verifies the lists on the heap.
  `Lifecycle.dfy` adds the event hooks and a garbage collector that reuses addresses; `Session.dfy` runs whole scripts
  of hook calls and says, from the script alone, what every object sees. `PinConcurrency.dfy` splits pin and unpin into
  single pointer writes of any number of threads and proves that every interleaving refines an atomic set;
  `PinCalls.dfy` proves that every call takes effect and can be completed.
- **Access log (Rust).** `WorkerPool.dfy` is the step system of filters, the channel, the mutex around its receiver and
  the workers; `PoolRuns.dfy` reads senders, messages and shutdown off the schedule; `LogFiles.dfy` says what the files
  hold after shutdown.
- **Bodies.** `BodyReaders.dfy` has both readers over scattered chunks, the Go one and the Rust one; `Waf.dfy` the regex
  filter on top of the Rust reader; `Passthrough.dfy` the rewrite-and-restore filter on top of the Go reader.
- **Headers.** `Headers.dfy` is the SDK's grouping of a flat header list; `HeaderStore.dfy` Envoy's store by its
  contract; `ShadowMap.dfy` the script filter's map beside that store; `JavaScript.dfy` the hooks and the scripts;
  `HeaderMutation.dfy` the set/remove filter.
- **Delay.** `Delay.dfy` is the delay filter's object and the protocol between its goroutine and Envoy.

`Common.dfy` holds what several of them share.

Objects that the code updates in place are classes, its loops are loops, and each such method is proved against a
function or relation of the old state. The concurrent parts are step systems: a run is any sequence of enabled steps,
so a statement about every schedule is a statement about every interleaving. Fields named as history are read by no
step.

Three statements that one might expect are false of the code, and are settled exactly:

- The script filter's map compares names exactly, Envoy's store without regard to case. A get can then miss a header
  that Envoy has, or return a stale value after a set in another spelling. `ShadowMap.UpperCaseGoesWrong` is the
  concrete case. `ShadowMap.SpellingDecides` is the exact condition: after sets of given names a get returns Envoy's
  value, for all values and all initial headers, if and only if it uses the spelling of the last set of that name, or
  the lower case if there was none. Whole streams are proved under that condition, call by call; scripts that keep to
  lower case always meet it.
- Request headers can change after the request hook. Its object goes on working: a script may keep it and call it in
  the response hook, and so may a script of another stream on the same engine in between.
  `JavaScript.KeptObjectWrites` is a concrete script. `JavaScript.Serve` says what then happens: the request map and
  Envoy's request headers change by the sets through that object and by nothing else on the filter's side, and
  `ShadowMap.UnchangedIffNoSet` that they are unchanged for all values if and only if there is no such set.
- The passthrough filter can panic at the end of an empty body, although it restores the bytes in every case.
  `Passthrough.OnBody` says for which answers of Envoy it does; a body with bytes is never met with a panic.

## Model

| member | source | states |
|---|---|---|
| SplitMix.ShardIndex | go/gosdk/mem.go:101-103 | every address has a shard among the 256 lists |
| SplitMix.UnmixMix | go/gosdk/mem.go:105-111 | an explicit inverse undoes splitmix64: the add, both multiplications and all three xorshifts |
| SplitMix.MixUnmix | go/gosdk/mem.go:105-111 | splitmix64 undoes the inverse, so every word is a hash |
| SplitMix.Bijection | go/gosdk/mem.go:105-111 | splitmix64 maps exactly one word to each word |
| SplitMix.KnownHashes | go/gosdk/mem.go:105-111 | the hashes of three words, written out |
| SplitMix.ShardMembers | go/gosdk/mem.go:101-103 | the enumerated members of a shard are exactly the addresses whose key is that shard |
| SplitMix.ShardSize | go/gosdk/mem.go:10-13 | each of the 256 key values is the one of exactly 2^56 addresses |
| SplitMix.IndexIsKey | go/gosdk/mem.go:66-68 | the index into the lists is the key as a number |
| SplitMix.ListsAreBalanced | go/gosdk/mem.go:10-22 | for every index below 256, exactly 2^56 addresses have that index |
| SplitMix.AllWords | go/gosdk/mem.go:10-13 | the counting covers all 2^64 words |
| PinTable.PinnedList.Pin | go/gosdk/mem.go:65-77 | one list: the new node comes first, the order of the others and both link directions stay |
| PinTable.PinnedList.Unpin | go/gosdk/mem.go:80-94 | one list: exactly the given node leaves (head, middle, tail or only), the rest keeps its order, and no link is broken |
| Common.WithoutSkips | go/gosdk/mem.go:86-93 | removing a node of a duplicate-free list leaves every other one, in order, and no other |
| PinTable.PartitionMembers | go/gosdk/mem.go:18-23 | the 256 lists are pairwise disjoint, and every pinned node is in the list its address hashes to |
| PinTable.PartitionUpdate | go/gosdk/mem.go:67-75 | adding or removing a node in the shard of its address keeps that partition |
| PinTable.MemoryManager.constructor | go/gosdk/mem.go:8 | the manager starts with empty, disjoint lists |
| PinTable.MemoryManager.PinHttpFilterConfig | go/gosdk/mem.go:38-45 | the configuration list grows by exactly the new node at its front, the filter lists do not change |
| PinTable.MemoryManager.UnpinHttpFilterConfig | go/gosdk/mem.go:48-57 | the configuration list loses exactly the given node |
| PinTable.MemoryManager.PinHttpFilter | go/gosdk/mem.go:65-77 | exactly the new node is pinned, at the front of its shard's list, and the table stays valid |
| PinTable.MemoryManager.UnpinHttpFilter | go/gosdk/mem.go:80-94 | the index recomputed from the address finds the right list, and exactly the given node leaves it |
| PinTable.MemoryManager.MarkFilters | go/gosdk/mem.go:16-17 | following the pointers from the manager reaches exactly the pinned nodes, so these and only these are kept alive |
| Lifecycle.Module.OnHttpFilterConfigNew | go/gosdk/abi.go:173-189 | a refused configuration yields handle 0 and changes nothing, else the handle denotes the new configuration |
| Lifecycle.Module.OnHttpFilterConfigDestroy | go/gosdk/abi.go:192-196 | the object created for the handle is told, and only this handle ends |
| Lifecycle.Module.OnHttpFilterNew | go/gosdk/abi.go:199-213 | the handle's own configuration makes the filter; a refused filter yields 0, else the handle denotes the new filter |
| Lifecycle.Module.OnHttpFilterEvent | go/gosdk/abi.go:226-305 | a stream hook reaches the very object created for the handle, with its arguments, and changes nothing else |
| Lifecycle.Module.OnHttpFilterDestroy | go/gosdk/abi.go:216-223 | the filter created for the handle is told, and only this handle ends |
| Lifecycle.Module.Collect | go/gosdk/mem.go:16-17 | a collection of whatever the manager does not reach leaves every handle valid, and frees every address that is no handle |
| Lifecycle.Module.NothingPinned | go/gosdk/mem.go:18-23 | once Envoy holds no handle, every list is empty |
| Session.Run | go/gosdk/abi.go:172-305 | after every legal script of hook calls, with collections and address reuse in between, each object has seen exactly the calls that the script addresses to it, in order, and each live handle leads to its own object |
| Session.OutcomeAsRead | go/gosdk/abi.go:172-305 | the outcome read off the script: the k-th FilterNew makes filter k, absent if it failed, gone if destroyed, alive otherwise, with its own events in order; a configuration has one NewFilter per filter made from it |
| Session.LegalAsRead | go/gosdk/abi.go:172-305 | a script is legal if and only if every call uses a handle that was given out and not destroyed before it |
| Session.OneScript | go/gosdk/abi.go:172-305 | one script and what its objects see, written out |
| Session.Session.AllDestroyed | go/gosdk/abi.go:216-223 | when every handle has been destroyed, every list is empty |
| Session.OutcomeExtends | go/gosdk/abi.go:172-305 | the outcome of a longer script is the outcome of the shorter one and one more call |
| PinConcurrency.WriteKeepsShape | go/gosdk/mem.go:65-94 | each pointer write takes its list from one intermediate shape to the next, and one write per operation changes its content |
| PinConcurrency.EffectKeepsPlace | go/gosdk/mem.go:71-93 | the one write that changes a list's content adds or removes exactly the operation's node |
| PinConcurrency.WriteStaysInside | go/gosdk/mem.go:65-94 | each pointer write touches nodes of its own list, and the operation's own node, only |
| PinConcurrency.Keep | go/gosdk/mem.go:65-94 | every step of every thread keeps the invariant of the table |
| PinConcurrency.StepRefines | go/gosdk/mem.go:65-94 | each operation takes effect at one step, inside its critical section, as a permitted action of an atomic set |
| PinConcurrency.ScheduleRefines | go/gosdk/mem.go:65-94 | every schedule from a good state refines the atomic set |
| PinConcurrency.EveryRunRefinesASet | go/gosdk/mem.go:65-94 | every run from the empty table refines an atomic set of pinned filters |
| PinCalls.EveryCallActs | go/gosdk/mem.go:65-94 | in every interleaving each pin and unpin call takes effect once, in six or five steps of its own; unless one is running, an address is in the lists if and only if the last call about it was a pin, and if and only if it is a handle |
| PinCalls.AtRest | go/gosdk/mem.go:65-94 | with nothing running the lists hold exactly the handles |
| PinCalls.AllCanComplete | go/gosdk/mem.go:65-94 | from every reachable state all running operations can be completed by their own steps |
| PinCalls.CallsArePossible | go/gosdk/abi.go:210-222 | whatever is running, every handle can be given back and every free address pinned, and either can be completed, after which the table is as it asks |
| PinConcurrency.FreeListsAreWellFormed | go/gosdk/mem.go:68-76 | a list whose mutex is free is well formed, and every handle is in the list its address hashes to |
| PinConcurrency.HandlesStayReachable | go/gosdk/mem.go:16-17 | at any moment, mutex held or not, every handle is reached from the head of its shard through the forward links |
| PinConcurrency.EveryRunKeepsHandles | go/gosdk/mem.go:16-17 | so in every run a collector that looks between any two pointer writes keeps every handle alive |
| PinConcurrency.TouchesOwnShardOnly | go/gosdk/mem.go:67-93 | a thread inside one shard writes no node of another, and does the same whatever those nodes hold, so it reads none |
| PinConcurrency.NoDeadlock | go/gosdk/mem.go:68-70 | while an operation runs, some operation can take a step |
| WorkerPool.Keep | rust/src/http_access_logger.rs:44-73 | every step of the constructor, the filters and the workers keeps the pool's invariant |
| WorkerPool.TakenAtPositions | rust/src/http_access_logger.rs:58-62 | what one worker received is the subsequence of all receipts at its own positions |
| WorkerPool.EveryRunConserves | rust/src/http_access_logger.rs:44-73 | accepted = received then queued; each worker's receipts are in order what it wrote or failed to write and at most one in hand; no position has two workers; each file is its log |
| WorkerPool.NobodyLeavesEarly | rust/src/http_access_logger.rs:68-69 | no worker leaves its loop while a sender is alive or a message is queued |
| WorkerPool.QuietStepsRank | rust/src/http_access_logger.rs:57-72 | once all senders are gone, every step lowers the rank |
| WorkerPool.QuietCanStep | rust/src/http_access_logger.rs:57-72 | once all senders are gone, some worker can step until all have ended |
| WorkerPool.QuietSchedulesEnd | rust/src/http_access_logger.rs:57-72 | no schedule after that is longer than the rank |
| WorkerPool.ShutdownDrains | rust/src/http_access_logger.rs:47-74 | once no sender is left, every schedule ends within the rank, with an empty queue, all workers gone and every message handled, also when the constructor gave up on a later file |
| PoolRuns.SendersAsScheduled | rust/src/http_access_logger.rs:81-92 | read off the schedule: a filter's sender exists if and only if it was made and not dropped since, the configuration's until it is dropped or the constructor gives up |
| PoolRuns.QuietAsScheduled | rust/src/http_access_logger.rs:47-69 | no sender is left if and only if the constructor gave up, or it finished and the configuration and every filter made have been dropped |
| PoolRuns.AcceptedAsScheduled | rust/src/http_access_logger.rs:142-153 | the accepted messages are exactly the ones sent, in order, if there is a worker, and none otherwise |
| PoolRuns.FiltersSendOnce | rust/src/http_access_logger.rs:142-153 | a filter sends exactly one message, when it is dropped |
| PoolRuns.EveryRunCanEnd | rust/src/http_access_logger.rs:44-74 | every run can be continued to an end with all workers gone and the queue empty |
| PoolRuns.ThreeRuns | rust/src/http_access_logger.rs:47-69 | a written line, a write that fails part way, and a second file that cannot be created, written out |
| LogFiles.SendsAreAccepted | rust/src/http_access_logger.rs:149-152 | a send is accepted if and only if the pool was configured with a worker |
| LogFiles.SplittingUndoesWriting | rust/src/http_access_logger.rs:64 | splitting a file into lines gives back the messages written to it |
| LogFiles.SharesAddUp | rust/src/http_access_logger.rs:58-62 | the workers' receipts add up to all receipts: no message has two receivers or none |
| LogFiles.FilesHoldTheMessages | rust/src/http_access_logger.rs:14 | after shutdown each accepted message was handled exactly once; without write failures and raw newlines the lines of all files are exactly the accepted messages |
| LogFiles.FilesAfterShutdown | rust/src/http_access_logger.rs:14 | read off the schedule: after the constructor has finished and configuration and filters are dropped, and nothing can happen any more, the lines of all files are exactly the messages sent |
| Chunks.FlatConcat | go/gosdk/abi.go:392-395 | the flat body of two chunk lists is the two flat bodies one after the other |
| GoBodyReader.BodyReader.Read | go/gosdk/abi.go:398-416 | a call delivers exactly the next bytes and touches nothing behind them; the end is reported just when no chunk is left to move to, only after all bytes, and from then on; each call with room uses up fuel, also one that returns no byte for an empty chunk |
| GoBodyReader.ReadAll | go/passthrough.go:55 | reading with any positive buffer sizes gives exactly the rest of the body, within bytes + later empty chunks + 1 calls, a bound that one-byte buffers reach |
| RustBodyReader.BodyReader.Read | rust/src/http_zero_copy_regex_waf.rs:101-119 | a call copies min(room, bytes left), exactly the next bytes, touches nothing behind them, never underflows, and ends although a round may copy nothing |
| RustBodyReader.ReadToEnd | rust/src/http_zero_copy_regex_waf.rs:80-83 | reading until a call returns 0 gives exactly the rest of the body, within bytes + 1 calls |
| SameStream.ReadBoth | rust/src/http_zero_copy_regex_waf.rs:100-120 | both readers give the same bytes for every chunking and every two schedules of buffer sizes |
| Waf.DeadAll | rust/src/http_zero_copy_regex_waf.rs:67-70 | once the matcher is in a dead state no continuation is accepted, so stopping early is safe |
| Waf.RunConcat | rust/src/http_zero_copy_regex_waf.rs:67-70 | matching in pieces is matching the whole |
| Waf.MatchesIffPath | rust/src/http_zero_copy_regex_waf.rs:67-70 | a body matches if and only if the automaton has an accepting path over its bytes in order |
| Waf.ReadMatches | rust/src/http_zero_copy_regex_waf.rs:66-70 | the verdict through the reader, with any buffer sizes and early stop, is the verdict on the flat body |
| Waf.Filter.OnRequestBody | rust/src/http_zero_copy_regex_waf.rs:50-77 | before the end the body is buffered; at the end a match sends 403 and stops, no match continues, a missing body panics |
| Waf.Deliver | rust/src/http_zero_copy_regex_waf.rs:50-77 | one arrival of data: what Envoy forwards and replies under each status of the hook |
| Waf.Serve | rust/src/http_zero_copy_regex_waf.rs:50-77 | a whole stream: nothing is forwarded before its end; then the whole body unchanged, or one 403 "Access forbidden" and nothing, depending on the flat body only |
| Passthrough.EnvoyBody.GetBody | go/gosdk/abi.go:571-590 | no body and no chunk are told apart, else the reader delivers the current bytes |
| Passthrough.ReadAll | go/passthrough.go:55 | only a reader made since the last drain or append may be read; it gives all bytes |
| Passthrough.Rewrite | go/passthrough.go:60-66 | drain all, append, fetch and read back: the body is the appended data and so is what is read |
| Passthrough.OnBody | go/passthrough.go:45-151 | the body is drained, set to "hello world", drained and set back, and its bytes are what they were; a body with bytes never meets a panic; the exact outcome for an empty one |
| Passthrough.Serve | go/passthrough.go:45-89 | a whole stream with bytes is held back until its end and then forwarded unchanged |
| Passthrough.EmptyBodyPanics | go/gosdk/abi.go:581-585 | an empty body whose chunk vector is empty makes the hook panic |
| Passthrough.MissingBodyPanics | go/passthrough.go:51-54 | an empty body that is not found makes the hook panic for that reason |
| Passthrough.HelloWorldSpelled | go/passthrough.go:61 | the eleven bytes of the text that is written |
| Headers.GetHeaders | go/gosdk/abi.go:488-507 | the map has exactly the names of the list, each with its values in list order; an empty list panics, an unfilled array gives no groups |
| Headers.GroupIsStable | go/gosdk/abi.go:500-505 | a group's values are those at increasing positions of its name |
| Headers.GroupIsComplete | go/gosdk/abi.go:500-505 | no position of the name is left out of its group |
| Headers.GroupNotEmpty | go/javascript.go:113-115 | a group of a name that occurs is not empty, so its first value exists |
| Headers.FirstOfGroup | go/gosdk/abi.go:308-329 | the first value of a group is what the lookup at index 0 answers |
| Headers.GroupsPartition | go/gosdk/abi.go:488-507 | visited in any order, the groups together are a permutation of the list |
| Headers.SizesSumToCount | go/gosdk/abi.go:499 | the sizes of the groups add up to the number of headers |
| Headers.TakeFirstValues | go/javascript.go:112-115 | in every iteration order the map gets exactly the first value of each name |
| Headers.FirstValuesUnique | go/javascript.go:112-115 | hence the map does not depend on the iteration order |
| HeaderStore.ValuesOfSet | go/gosdk/gosdk.go:37-38 | a set replaces all values of its name in any spelling, and no other |
| HeaderStore.ValuesOfWithout | rust/src/http_header_mutation.rs:64-66 | a removal takes away all values of its name in any spelling, and no other |
| HeaderStore.LowerLetters | rust/src/http_header_mutation.rs:79 | the letters in lower case, written out |
| ShadowMap.SpelledIsRight | go/javascript.go:120-136 | after any sets a get in the right spelling returns Envoy's current first value, or the empty string |
| ShadowMap.SpellingDecides | go/javascript.go:120-136 | a get is right for all values and initial headers if and only if it uses the spelling of the last set of the name, or lower case if there was none |
| ShadowMap.MissedUnlessLower | go/javascript.go:120-126 | a name never set and not in lower case: some header that Envoy has is missed |
| ShadowMap.StaleUnlessSpelled | go/javascript.go:127-136 | a name last set in another spelling: some values make the get stale |
| ShadowMap.LowerCaseIsSpelled | go/javascript.go:120-136 | a script that keeps to lower case meets the condition |
| ShadowMap.FreshGetRightIff | go/javascript.go:120-126 | a get on a fresh snapshot is right if and only if the name is in lower case or Envoy has no or an empty value |
| ShadowMap.UpperCaseGoesWrong | go/javascript.go:120-136 | a concrete header that a get misses and a set leaves stale |
| ShadowMap.SetsChangeBoth | go/javascript.go:127-136 | on any map and any store, some values of at least one set change both |
| ShadowMap.UnchangedIffNoSet | go/javascript.go:127-136 | map and Envoy's request headers stay as they are for all values if and only if nothing is set |
| JavaScript.Filter.Perform | go/javascript.go:120-180 | one call through either hook's object, whenever it is made, function by function: its result, what it writes, and that it writes nothing else; a missing function throws |
| JavaScript.Filter.RequestHeaders | go/javascript.go:111-142 | for any adaptive script, every get in the right spelling returns Envoy's current first value or the empty string, and Envoy's store is as the sets leave it; a script that ends lets the request continue, one that throws stops it |
| JavaScript.Filter.ResponseHeaders | go/javascript.go:145-186 | the same for response headers; the request map and Envoy's request headers change by the sets through a kept request object, and by nothing else; a request get is right in the spelling of all sets of the stream |
| JavaScript.Wait | go/javascript.go:120-136 | between the hooks, scripts of other streams may use the stream's request object: their gets are right, their sets reach map and store |
| JavaScript.Serve | go/javascript.go:111-186 | a whole stream: every result of every call is right, and the request map after the request hook is the one it left with the later sets through its object on top, whatever Envoy did in between |
| JavaScript.KeptObjectWrites | go/javascript.go:127-136 | a concrete script whose response hook changes the request map and Envoy's request headers through the kept object |
| JavaScript.KeptBetween | go/javascript.go:120-136 | a set through the kept object between the hooks, after a change by Envoy, written out |
| JavaScript.ThrowingStops | go/javascript.go:137-141 | a throwing script stops the iteration in either hook, and one that ends does not |
| HeaderMutation.Filter.OnRequestHeaders | rust/src/http_header_mutation.rs:56-68 | for every name in any spelling: absent if removed, else the last configured set, else the original values |
| HeaderMutation.Filter.OnResponseHeaders | rust/src/http_header_mutation.rs:70-100 | the same with the three built-in sets first, and what is set before each missing attribute panics |
| HeaderMutation.ClosedForm | rust/src/http_header_mutation.rs:61-66 | the closed form for one name, written out over the configured lists |
| HeaderMutation.ResponseClosedForm | rust/src/http_header_mutation.rs:75-98 | removed, else last configured set, else built-in value with the response code as its decimal numeral, else original values |
| HeaderMutation.DecimalIsDecimal | rust/src/http_header_mutation.rs:90-91 | the text of a code is its one decimal numeral: digits without extra zeros, a minus sign if negative, and the right value |
| HeaderMutation.SomeNumerals | rust/src/http_header_mutation.rs:90-91 | some codes, written out |
| HeaderMutation.ConfiguredOverBuiltIn | rust/src/http_header_mutation.rs:93-95 | a configured set of the same name overrides a built-in header |
| HeaderMutation.MutatingAgain | rust/src/http_header_mutation.rs:56-100 | running the same mutation on its result changes no value |
| HeaderMutation.Filter.RunTwice | rust/src/http_header_mutation.rs:56-100 | running both hooks again with the same attributes changes no value of any header |
| Delay.Filter.RequestHeaders | go/delay.go:33-52 | exactly a request with the header is stopped, stamped and given a goroutine |
| Delay.Filter.Scheduled | go/delay.go:55-64 | event 0 records the lapsed time, sets the header and continues once; any other event panics and changes nothing |
| Delay.Filter.ResponseHeaders | go/delay.go:72-78 | the lapsed header is set just if a lapsed time was recorded |
| Delay.Play | go/delay.go:33-78 | a filter object whose hooks are called along any schedule is in step with the protocol: fields, continuations and headers |
| Delay.ExecuteKeeps | go/delay.go:33-64 | every interleaving of goroutine and Envoy keeps the protocol's invariant |
| Delay.EveryRunIsLegal | go/delay.go:33-78 | continued at most once, only after stop and commit and before destruction; committed once, then closed once; the panic is unreachable; the lapsed header is on exactly the responses after a delivery, with the exact time, at least 2 s |
| Delay.EventsInOrder | go/delay.go:33-78 | the order of events in every run, written out: continued after stop and commit and before destruction, closed after the commit, the lapsed header just after a continuation, with at least 2 000 000 000 ns |
| Delay.NothingAfterDestroy | go/delay.go:30-64 | after the stream is destroyed it is neither continued nor answered on |
| Delay.StepsRank | go/delay.go:43-50 | six steps are owed after a delaying request, and each is used up once |
| Delay.ProgressPersists | go/delay.go:43-64 | an owed step stays possible until it is taken |
| Delay.NeverStuck | go/delay.go:43-64 | while steps are owed one is possible, at once or when the sleep is over |
| Delay.DelayedStreamsContinueOnce | go/delay.go:40-64 | no run takes more than the six owed steps; exactly when all are taken, committed and closed once, and continued exactly once unless destroyed |
| Delay.FairRunsContinue | go/delay.go:40-64 | under fair scheduling every delayed stream gets there: committed once, closed once, and continued exactly once unless destroyed |
| Delay.FairRunExists | go/delay.go:40-64 | fair runs with a delayed stream exist |
| Delay.ResponsesOfFairRun | go/delay.go:72-78 | a response before the delivery has no header, one after it reports two seconds |
| Delay.UndelayedRun | go/delay.go:35-38 | the events of a stream without the header, written out |
| Delay.DestroyedEarly | go/delay.go:43-50 | the events of a stream destroyed during the sleep: the event is committed and dropped, the scheduler closed |
| Delay.UndelayedStreamsFlow | go/delay.go:34-38 | a stream without the header is never stopped, committed or marked |

## Left out

- The foreign-function layer: pointer casts, marshalling, the keep-alive calls. Envoy's store, body and scheduler appear
  by the contracts of go/gosdk/gosdk.go only.
- Libraries: the JavaScript engine is any strategy that picks calls from earlier results, the regular expression any
  automaton, the JSON text of a log message any string (without newlines where that is said), a write to a file a step
  that succeeds or stops part way.
- The heap model of pinning is sequential; interleavings are in `PinConcurrency`, where mutexes are steps, a running
  operation stands for its thread, and a read-and-write of one pointer is one step. Memory below sequential
  consistency is not modelled.
- The generic Go list node is one class, and the 256 heads and the configuration head are objects of one class
  `PinnedList`, so the pointer code that the Go file has twice appears once. A second unpin of a node is outside the
  contract: the first leaves the node's own pointers dangling. Addresses are 64-bit (Dockerfile:45-46). Configurations are pinned from the main thread
  only (go/gosdk/gosdk.go:9), so their list is not in the concurrent model.
- Panics of the allocator and of mutexes, and a poisoned lock in the worker pool.
- WorkerPool.Keep: the constructor's steps other than the per-worker ones (parsing the configuration) are not modelled.
- The access logger's collection of headers into the message (rust/src/http_access_logger.rs:101-133): one filtering
  loop per direction, its result opaque to the pool.
- Waf.Deliver: that Envoy offers the whole buffered body to the hook at the end of the stream is taken from
  rust/src/http_zero_copy_regex_waf.rs:55, not derived; Envoy's watermarks and trailers are not modelled.
- Passthrough.OnBody: the request hook and the response hook are the same code and are modelled once; the logging is
  left out, and so is the status that drain and append return, which the filter ignores.
- HeaderStore.ValuesOfSet: sets are assumed to succeed and to replace all values; where the new header is placed among
  the others is not claimed of Envoy, and no property depends on it. Only ASCII letters have case.
- JavaScript.Filter.RequestHeaders: each hook runs once per stream and Envoy fills the header array; arguments arrive
  as strings. The engine's own state and calls on objects of other streams appear in the arbitrary strategy only; calls
  by other streams on this stream's request object are the steps of `Wait`.
- JavaScript.Serve: calls are taken one at a time, as the engine's mutex orders them; that a kept object may not outlive
  its hook by Envoy's rules (go/gosdk/gosdk.go:29) is not enforced by the code, and the object is modelled as still
  reaching the stream's headers. Calls after the response hook has ended are not modelled.
- Delay.Filter.RequestHeaders: Envoy returns a scheduler, as its contract says for this hook; times are unbounded
  integers, so the saturation of a duration after 292 years is not modelled.
- Delay.FairRunsContinue: fairness is assumed of the run (an owed step that stays possible is taken, and time passes
  every bound), not derived from an operating system.
- Filters with one branch or none, name dispatch, metrics, configuration files and integration tests: they would only
  add easy members.
