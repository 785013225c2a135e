# Cring: the event loop, its requests and the chat room, verified

Cring is an event loop in C. An `Executor` keeps tasks (coroutines on `ucontext`) in an
array of frame pointers with a live prefix; slot 0 is the frame of the caller of `run`. A
task that asks for I/O takes a token from the pool of its `IOContext`, fills a submission
entry, is suspended, and is marked ready by a callback when the kernel has completed the
request. This project models that loop twice, on values and in place, and proves what it
keeps over whole runs, for every program and every behaviour of the kernel.

The files, from the bottom up:

- `Types`, `Collections`: frames, saved contexts, tokens; facts about finite sets and sequences.
- `Scheduler`, `Requests`: the operations of `lib/Executor.h`, `src/Executor.c`,
  `lib/IOContext.h` and `src/IOContext.c` as functions on values, with what each does.
- `Machine`: the loop as a transition system. A program is an arbitrary transition system
  (`act` says what a point of the code does next, `resume` where it goes on with a return
  value); the kernel completes any request it holds, at any time, with any result. `IsRun`
  says which sequences of states are runs of one call of `run` after `init_executor` and
  some `async_exec`s.
- `Invariant`, `RunLoop`: the invariant and its proof for every step.
- `AbstractLoop`, `Refinement`, `AbstractRuns`: the same loop without frames, slots, tokens
  and contexts, as a bag of tasks; every step refines it, and results are traced there.
- `Theorems`, `Calls`, `Delivery`, `Fairness`, `Termination`, `Teardown`, `LastSlot`: the main results.
- `Structs`, `IoContext`, `EventLoop`, `Run`: the C code in its own form: objects in
  memory, arrays of pointers changed in place, the scan loop, the loop in `process`, and
  `run`. Each method is proved against the functions and steps above, and `Run.Run` yields
  a trace that satisfies `IsRun`, so the results about runs are results about it.
- `Rounding`: `align32pow2` and `align64pow2`.
- `Text`, `ChatHistory`, `Chat`, `ChatRuns`: the lists of the chat server in the heap, what
  its members hear, and sequences of calls.

Conventions. A frame or a token is named by its index in the block that `calloc` returned;
`FrameStruct.id` and `TokenStruct.id` are these indices, and `user_data` in a ring entry is
one. `History` in `Machine` is bookkeeping that no operation reads: serial numbers of tasks
and requests, and which tasks the current pass still owes a slice. `swapcontext(a, b)`
(POSIX.1-2001, System Interfaces, `makecontext`) is a save into `a` and a load from `b`;
saves leave `uc_stack` alone, as they do in the GNU C library. The callback of a request is
chosen by its token's type and is the function stored in the token. Some proofs begin with
`hide`; it only takes definitions away from the solver.

Where code and comments differ, the model follows the code. The comments in
`lib/IOContext.h:66-80` call the token array a circular buffer; the code uses it as a stack.
The comments of `init_executor` speak of `count` frames; the code makes the next power of
two above `count`. The comments of `free_executor` promise complete cleanup;
`Teardown.TeardownIff` says when `free` gets the bases of the blocks of stacks, frames and
tokens. `current < size` does not hold in every state: `LastSlot.PastEndIff` says when it
does not, and `LastSlot.PastEndHappens` gives a run.

## Model

| member | source | states |
|---|---|---|
| `Scheduler.FirstReadyIsFirst` | lib/Executor.h:126-137 | the scan stops at a ready slot and passes only slots that are not ready |
| `Scheduler.ScanIsCyclic` | lib/Executor.h:126-137 | the scan ends within one round, at the first ready frame in cyclic order behind `current`, also from `current == size` |
| `Scheduler.AdvanceLands` | lib/Executor.h:126-137 | from a position with no ready slot before it, the scan lands on the run loop with no task ready, or on the first ready task |
| `Scheduler.SuspendEffect` | lib/Executor.h:151-157 | suspending saves the task in its own frame, clears its flag, keeps every other frame and the order of slots, and lands on the first ready slot |
| `Scheduler.SwapKeepsShape` | lib/Executor.h:375-388 | swapping with the last slot and shrinking removes exactly the current frame from the live ones |
| `Scheduler.FinishEffect` | lib/Executor.h:401-415 | the end of a task removes exactly it from the live frames, writes no other frame, and switches to the first ready slot or returns to the main context with no task ready |
| `Scheduler.FinishSlots` | lib/Executor.h:375-388 | the ended task and the last one trade slots; every other slot keeps its frame, so the order of the others stays |
| `Scheduler.FinishedFrame` | lib/Executor.h:401-415 | the dead frame keeps its flag and result, and its context unless the switch saves into it |
| `Scheduler.AsyncExecEffect` | src/Executor.c:41-53 | a spawn fails exactly when the frames are used up, without a change; otherwise a frame outside the live ones becomes ready in the last slot |
| `Scheduler.InitExecIs` | src/Executor.c:112-125 | all frames in order in the slots, only the main frame live and ready |
| `Requests.PoolFacts` | lib/IOContext.h:81-161 | pool and ring share no token, repeat none and lack none; their sizes add up to the capacity |
| `Requests.RequestEffect` | src/IOContext.c:60-145 | a request fails exactly when the pool is empty: a request that holds a token always finds a free submission entry; otherwise the top token moves into the ring, filled in |
| `Requests.RequestRollsBack` | src/IOContext.c:67-70 | without a submission entry the token goes back, -1 is returned and nothing has changed |
| `Requests.ReleaseEffect` | lib/IOContext.h:151-161 | the token of a completion is put back without meeting the full-pool guard, and the pool and the ring still partition the tokens |
| `Requests.FullPool` | lib/IOContext.h:153-157 | a full pool takes no further token |
| `Requests.SubmitEffect` | src/IOContext.c:156-158 | the kernel gets all queued requests in the order in which they were made; the tokens in flight stay |
| `Requests.CompleteEffect` | src/IOContext.c:160-167 | a completion out of order posts its own token and result behind those before and loses no token |
| `Requests.InitIocPool` | src/IOContext.c:22-58 | the pool starts with every token once |
| `Requests.InitIocIs` | src/IOContext.c:27-45 | all tokens in order in the pool, blank, and a ring as large as the pool with empty queues |
| `Requests.BatchIs` | src/IOContext.c:153-160 | with the batch size of `run`, as many completions as there are are handled, at most 1024 |
| `RunLoopInvariant.StartInv` | src/Executor.c:81-128 | `init_executor` and the spawns before `run` establish the invariant |
| `RunLoopInvariant.SaveRunLoopEffect` | src/Executor.c:141-147 | the save in `run` writes the context of one frame, the main frame or one that no live slot holds, and leaves the run loop saved in the main frame |
| `RunLoopInvariant.DeliverKeeps` | src/IOContext.c:169-193 | running callbacks keeps the pool, the link between waiting frames and tokens, the order of slots, the main frame and every saved task |
| `RunLoopInvariant.StepKeepsInv` | src/Executor.c:130-158 | every step of tasks, run loop and kernel keeps the invariant |
| `RunLoopInvariant.RunInv` | src/Executor.c:130-158 | the invariant holds in every state of every run |
| `Refinement.StepRefines` | src/Executor.c:130-158 | every step is a step of the bag of tasks: frames, slots, tokens, saved contexts and the scan are invisible to a program |
| `Refinement.RunRefines` | src/Executor.c:130-158 | the same for any two consecutive states of a run |
| `AbstractRuns.OwnResultOnTrace` | lib/Executor.h:233-243 | on the bag of tasks, a resumed task goes on with the completion of the request it made last |
| `Theorems.OwnResult` | lib/Executor.h:188-342 | what an `async_*` call returns after a suspension is the very result with which the kernel completed the request of that call, and 0 for a wait |
| `Theorems.Quiescence` | src/IOContext.c:160-167 | whenever `run` checks its size or is in `process`, every live task is parked on one request in flight, `size - 1 == capacity - tail`, and a blocking wait has a request to wait for |
| `Theorems.ReadinessBijection` | src/Executor.c:8-33 | in every state a live task is not ready iff a token in flight carries its frame; that token is unique, and none carries main or a dead frame |
| `Theorems.ScanPosition` | lib/Executor.h:126-157 | a task runs at the first ready slot; after a switch to the run loop no task is ready; `current <= size`, with equality only while main runs |
| `LastSlot.PastEndIff` | lib/Executor.h:401-406 | after a step `current == size` iff the task in the last slot has just ended, or it was so before and the step is not the scan of the run loop |
| `LastSlot.PastEndHappens` | src/Executor.c:141-142 | a run in which `current == size` |
| `Theorems.ContextIntegrity` | src/Executor.c:35-53 | no stale context is ever resumed, every live task that does not run is saved in its own frame, the run loop is saved in the main frame while a task runs |
| `Theorems.RunLoopStaysSaved` | src/Executor.c:142-147 | once saved in the main frame the run loop stays there, whatever happens |
| `Theorems.FramesPermuted` | lib/Executor.h:375-388 | the frame array is a permutation of the allocated frames in every state |
| `Theorems.SpawnBeforeResume` | examples/echo/echo-server.c:37-40 | when a task is resumed from a suspension, every task it spawned before has started, so `&fd` was read |
| `Calls.SpawnCall` | src/Executor.c:41-53 | `async_exec` in a task returns -1 without a change, or 0 with a new unstarted task that has the given code and the caller as its spawner |
| `Calls.FirstSlice` | src/Executor.c:35-49 | a task that is switched to for the first time starts with the code it was spawned with |
| `Calls.RequestRefused` | lib/Executor.h:281-289 | an `async_*` call without a token returns -1 at once and changes nothing |
| `Calls.RequestQueued` | lib/Executor.h:281-292 | one with a token queues exactly this request, with its operands and carried by the caller's frame, and parks the caller at its call |
| `Calls.CheckTurn` | src/Executor.c:149-152 | the size check returns with nothing changed exactly when only main is live, and otherwise submits every request |
| `Calls.ProcessTurn` | src/IOContext.c:158-167 | `process` handles what is there, up to 1024, or blocks, and then handles one |
| `Calls.StartTasks` | src/Executor.c:41-53 | the first tasks get the frames behind main in order, each with its code, as long as there are frames |
| `Theorems.TokensConserved` | lib/IOContext.h:127-161 | in every state pool and ring hold every token once; with a token in the pool there is a free submission entry; pending and completed requests fit the ring; a completion never meets a full pool |
| `Theorems.ExactlyOneCallback` | src/IOContext.c:169-193 | in every state each request made so far has had its callback run once or is in flight once; when `run` has returned all have |
| `Delivery.DeliverInOrder` | src/IOContext.c:169-196 | `process` takes the first `n` completions off the queue; each frame that one of their tokens carries becomes ready and gets that completion's result unless it was a wait, each token goes back on the pool in queue order, each request is logged in queue order, and no other frame is written |
| `Fairness.ExactFairness` | src/Executor.c:141-157 | between two calls of `process` each task ready at the start and each task spawned since runs one slice, and no other task runs |
| `Termination.RunLightens` | src/Executor.c:141-157 | every step of a run of a program with finite work decreases a measure of work, requests and position in the loop |
| `Termination.RunTerminates` | src/Executor.c:130-158 | such a run is bounded by the measure of its first state; where nothing can go on, `run` has returned, and unless the ring failed only main is live, nothing is in flight and every token is back |
| `Termination.NeverStuck` | src/IOContext.c:160-167 | until `run` returns it can go on, or it waits for a request that the kernel holds |
| `Termination.ExitIsClean` | src/Executor.c:149-150 | when `run` returns by its size check no task, request or token is left behind and every callback has run once |
| `Teardown.TokensSuffice` | lib/IOContext.h:127-137 | with a token for every frame `get_token` never fails and `tail` never reaches 0 |
| `Teardown.TeardownSafe` | src/Executor.c:55-79 | with a token for every frame the bases of the blocks of stacks, frames and tokens stay where teardown looks for them in every state of every run |
| `Teardown.TeardownUnsafe` | src/IOContext.c:6-20 | with fewer tokens there is a run that returns normally and leaves another token in slot 0, so `free` gets a pointer into the block |
| `Teardown.TeardownIff` | src/Executor.c:68-75 | what teardown frees are the bases of the blocks of stacks, frames and tokens after every run of every program iff there are at least as many tokens as frames |
| `Structs.FrameStruct.ResultFn` | src/Executor.c:8-33 | the read, write and accept callbacks set the result and the flag |
| `Structs.FrameStruct.WaitFn` | src/Executor.c:22-26 | the wait callback sets the flag and keeps the result |
| `Structs.TokenStruct.Fill` | src/IOContext.c:72-77 | what a request writes into its token |
| `IoContext.InitIoContext` | src/IOContext.c:22-58 | -1 for a zero capacity or without resources; otherwise all tokens in the pool in order, the ring as large as the pool, the capacity rounded |
| `IoContext.IOContext.GetToken` | lib/IOContext.h:127-137 | pops the token on top of the pool, or returns NULL exactly when the pool is empty |
| `IoContext.IOContext.ReleaseToken` | lib/IOContext.h:151-161 | pushes a token unless the pool is full |
| `IoContext.IOContext.Request` | src/IOContext.c:60-145 | the four requests in place, including the roll-back when there is no submission entry |
| `IoContext.IOContext.PeekBatch` | src/IOContext.c:153-160 | `process` takes as many completions as there are, at most `batch` and at most 1024 |
| `EventLoop.InitExecutor` | src/Executor.c:81-128 | -1 for a zero count or capacity or without resources; otherwise the first state of the machine, with both capacities rounded, and stacks of 8192 bytes that do not overlap |
| `Types.StacksApart` | src/Executor.c:118 | the stacks of two frames lie at least 8192 bytes apart |
| `EventLoop.Executor.MoveToNextReadyFrame` | lib/Executor.h:126-137 | the loop ends and stops where `Scheduler.Advance` says |
| `EventLoop.Executor.SwapContext` | lib/Executor.h:151-157 | saves one context and resumes the other |
| `EventLoop.Executor.SuspendCurrentFrame` | lib/Executor.h:151-157 | suspension in place is `Scheduler.Suspend` followed by a resumption |
| `EventLoop.Executor.AsyncRequest` | lib/Executor.h:188-342 | an `async_*` call in place is the request step of the machine, failing or suspending |
| `EventLoop.Executor.SwapCurrentFrameWithLastFrame` | lib/Executor.h:375-388 | swaps two pointers and keeps all others, or returns NULL exactly when the two are one |
| `EventLoop.Executor.ManageAsyncFinish` | lib/Executor.h:401-415 | the end of a task in place, with the return through `uc_link`, is the end step of the machine |
| `EventLoop.Executor.AsyncExec` | src/Executor.c:41-53 | a spawn in place |
| `EventLoop.Executor.TaskStep` | src/Executor.c:35-39 | any action of a task in place is a task step of the machine |
| `EventLoop.Executor.RunTop` | src/Executor.c:141-147 | the switch at the top of `run` in place |
| `EventLoop.Executor.CallBack` | src/IOContext.c:175-190 | the switch on the token's type changes exactly the frame the token carries |
| `EventLoop.Executor.HandleBatch` | src/IOContext.c:169-196 | the loop over the completions in place is a delivery step of the machine |
| `Run.WaitCqe` | src/IOContext.c:161-165 | the blocking wait is entered only with a request to complete and returns with a completion or an error |
| `Run.Process` | src/IOContext.c:147-197 | `process` extends the run and returns how many completions it handled, from 1 to 1024, with as many tokens back, or fails with no token back |
| `Run.Run` | src/Executor.c:130-158 | all that `run` does is a run of the machine, watched for as many steps as one likes; it returns for every program with bounded work; without a ring error one frame is live and the pool is full |
| `Run.LimitEnough` | src/Executor.c:130-158 | for a program with bounded work `run` has returned once it is watched for more steps than the measure of its first state |
| `Run.Lifecycle` | src/Executor.c:55-158 | init, spawns, `run` and teardown together: main and `count` tasks fit iff `count < 2^31`, and with at least as many tokens as frames the pointers given to `free` are the block bases |
| `Rounding.AlignIsLeast` | lib/Common.h:28-51 | for every word size the smeared word plus one is the least power of two not below the argument, and 0 for 0 and above the highest power |
| `Rounding.Align32Pow2` | lib/Common.h:41-51 | the 32-bit function step by step |
| `Rounding.Align64Pow2` | lib/Common.h:28-39 | the 64-bit function step by step |
| `Rounding.CapacityFits` | src/Executor.c:95 | `count < capacity` iff `count < 2^31`, and then `capacity <= 2 * count` |
| `Rounding.CapacityPower` | src/Executor.c:95 | below 2^31 the capacity is the power of two next above the count |
| `Rounding.CapacityMonotone` | src/IOContext.c:28 | `capacity >= count` gives at least as many tokens as frames |
| `Text.ZeroedIdentity` | examples/chat/chat-server.c:45 | a copied text is the original iff no non-zero byte follows a zero byte |
| `Text.ZeroedTwice` | examples/chat/chat-server.c:77 | the second copy of a message changes nothing |
| `Text.StrNCpy` | examples/chat/chat-server.c:45 | `strncpy` byte by byte (section 7.24.2.4 of ISO/IEC 9899:2011): the text up to its first zero, then zeros, and nothing past `n`; also from a shorter text that ends in a zero |
| `ChatHistory.Messages` | examples/chat/chat-server.c:10-11 | the bytes of the two announcements |
| `Chat.ChatSession.Push` | examples/chat/chat-server.c:36-60 | appends the copied text to the queue in new memory, or nothing for length 0 |
| `Chat.ChatSession.Pop` | examples/chat/chat-server.c:62-81 | hands out the oldest text, byte for byte, and unlinks it; nothing else of the destination changes |
| `Chat.QueuesDisjoint` | examples/chat/chat-server.c:36-60 | two sessions share no message |
| `Chat.ChatRoom.SendToRoom` | examples/chat/chat-server.c:83-95 | a text is an event of the history: every other member gets one copy for each time it is in the room, the sender none; all that is linked is old or new memory |
| `Chat.ChatRoom.Join` | examples/chat/chat-server.c:97-121 | the new member is appended and the others are told; its own queue stays |
| `Chat.ChatRoom.Unlink` | examples/chat/chat-server.c:128-141 | unlinks exactly the first participant of the session and keeps the order of the rest |
| `Chat.ChatRoom.Leave` | examples/chat/chat-server.c:123-145 | the first participant of the session is gone before the rest is told; the queue of a session that is then out of the room stays |
| `Chat.ChatRoom.TakeFrom` | examples/chat/chat-server.c:62-81 | a `pop` is a take of the history and leaves the other queues alone |
| `ChatHistory.RemoveFirstAt` | examples/chat/chat-server.c:132-139 | stopping at the first match removes the first occurrence |
| `ChatHistory.OneEvent` | examples/chat/chat-server.c:83-145 | one event adds to what a member took and has queued exactly its copy of that event |
| `ChatHistory.History` | examples/chat/chat-server.c:83-145 | for any sequence of events, what a member took followed by its queue grows by every event but its own, in order |
| `ChatHistory.HistorySinceJoin` | examples/chat/chat-server.c:97-145 | the same, once each, from its join to its leave |
| `ChatHistory.LeaveIsSilent` | examples/chat/chat-server.c:138-143 | a session that leaves for good gets no message about it |
| `ChatHistory.FullHistory` | examples/chat/chat-server.c:36-145 | the history of any session for any sequence of events, its own joins and leaves included |
| `ChatRuns.Play` | examples/chat/chat-server.c:36-145 | any sequence of `join`, `leave`, `sendto_room` and `pop` on the lists in the heap does to them what the events do to the room of the history, and keeps all queues sound and disjoint |
| `ChatRuns.PlayAndHear` | examples/chat/chat-server.c:36-145 | `ChatHistory.FullHistory` on the lists in the heap, for every session at once |
| `ChatRuns.JoinAndStay` | examples/chat/chat-server.c:36-145 | on the lists in the heap: after a join and any such sequence without another join or leave of its own, what a session popped followed by its queue has grown by every event of the others, once, in order |
| `ChatRuns.PushPop` | examples/chat/chat-server.c:36-81 | what is pushed is popped as it was iff no non-zero byte follows a zero byte, and otherwise up to its first zero |

## Left out

- `Run.Run`: takes a limit on how long it is watched, or a bound on the work of the tasks, because a Dafny method must end; the results about runs need neither.
- `Termination.RunTerminates`: the bound on the work of a task depends on its own code and results only. Tasks that talk to each other through memory, as the reader and the writer of the chat server do, are not covered by it; the results about what holds in every run are, because the codes of a given run can be numbered so that they carry what was read.
- `Teardown.TeardownIff`: is about pools of at least two tokens; `init_io_context` makes no smaller pool for a capacity from 1 to 2^31 - 1.
- `IoContext.IOContext.Request`: one method for the four requests, which differ in the kind and in whether they store a descriptor; what the kernel does with buffers, sizes and time values is not modelled.
- `IoContext.IOContext.Submit`: submission fails or hands over the whole queue; a partial submission is not modelled.
- `Chat.ChatSession.Push`: lengths up to 1024, and texts with that many readable bytes or a zero before, because the C code writes past the buffer or reads past the text otherwise.
- `Chat.ChatRoom.Leave`: requires that the session is in the room, because the C code dereferences NULL otherwise; `free` of the node is not modelled beyond its leaving the list.
- `EventLoop.InitExecutor`: requires that both rounded capacities are positive, because the C code reads slot 0 of an empty array otherwise; NULL arguments are not modelled, and which allocation fails is not told apart.
- A second `run` on one executor, and `async_*` calls made by main: outside what the code maintains.
- Ring errors from `process`: modelled as the end of `run` and no more.
- `process` called with a batch of 0 or with a NULL `user_data`: `run` does neither.
- Widths of `size_t` and `uint32_t` counters: `current`, `size` and `tail` stay between 0 and the capacity, which is proved, so they do not wrap.
- Stacks, registers and signal masks of `ucontext`, and overflow of the 8192-byte stacks.
- liburing and the kernel beyond a bounded submission queue, a set of requests and a completion queue.
- `free_executor` and `free_io_context`: only which pointers they free.
- `ChatRuns.Play`: the sessions are allocated before the sequence starts; a session that joins later is one with an empty queue until then.
- The coroutines of the chat server, the echo programs, benchmarks and sockets: I/O plumbing.
