# A model of the rgpu session protocol and its server state

rgpu runs a program's CUDA calls on another machine. A client library numbers the calls, batches
them, and sends them over one connection at a time; a server carries them out against the real
driver, keeps a session alive across lost connections, and releases what a client leaves behind.
This project models that core in Dafny and proves what its design depends on.

It has four larger parts and some smaller exact cores.

1. **The replayable session protocol** (`ReqIds`, `Wire`, `ClientState`, `Protocol*`, `Coverage`,
   `*Steps`, `Replies`, `RpcClient`). One machine of 24 steps holds the client's globals, the session, the
   accept threads, the serving thread and every connection. The network, failed writes, grace
   periods and results are parameters of the steps. Over every run: each request is dispatched at
   most once and in mint order, nothing is skipped that the client did not give up, a waiting
   client can only read its own reply, and a client has one session for life. `RpcClient` carries
   the client's locked operations out on bytes and 32-bit ids and proves each to be the machine's
   operation.
2. **Client threads on one serving thread** (`Contexts`, `ContextLaws`, `Seats`, `Admission`, `ClientThreads`). A
   driver stack never more than one deep gives every client thread the answers of a context stack
   of its own, for any interleaving, including contexts destroyed, addresses handed out again,
   threads announced gone, and requests refused.
3. **What a session holds** (`Inventory`, `Teardown`, `Primaries*`). The reverse index agrees with a scan of
   every map; the generation scheme lets expiry destroy only what the session itself made, in the
   primary context alive at that moment, whatever the other sessions do meanwhile; retains are
   conserved.
4. **Who owns a connection** (`Connections*`). Accept threads, pending slots and serving threads:
   one owner at a time, closed once, and a session table that expiry never spoils.
5. **Smaller cores**: deferred failures (`ThreadTable`, `Deferred*`), framing over any chunking
   (`Bytes`, `Framing`, `Sockets`), the generated encoder and decoder (`Marshal`), the outstanding
   work record (`Pending`), the runtime library's context generation (`RuntimeContexts`), and the
   notices of exited threads (`Retirement`).

A machine is a `State`, a `Step` and the two functions `Enabled` and `Apply`; `IsRun` says what a
run is, `Inv` what every state of one satisfies, and the theorems quantify over all runs. What the
source does in place is a class or a method here, tied by its `ensures` to the functions the
theorems are about.

## What is assumed, and where it matters

- **The id window.** The machine compares 32-bit ids. A step that compares ids assumes that they are
  fewer than 2^31 - 1 mints from the newest one, and a step that compares none assumes nothing
  (`ProtocolInvariant.Window`): a read, the frame it reads and the two numbers the session keeps; a
  snapshot, the reply kept and the one the handshake names; a reply or a resume, the frames held and
  the number they are compared with; giving a call up a second time, the last frame held. The 64 MiB
  cap bounds the number of frames held, not the span of their ids, because calls given up leave
  holes; and a stale connection left in the pending slot is not bounded by it either.
- **Lengths.** Both length fields are cast to 32 bits and nothing splits a large copy. A run assumes
  that every payload sent or returned is shorter than 2^32 bytes (`ProtocolRuns.Short`).
  `FrontExact`, `FramesOfStream` and `ReplyExact` say that a frame is read back exactly when its
  payload is, and `ForgedReply` what a longer reply does: the memory it copies is read as the next
  reply, to any request and with any result.
- **Replay.** `NothingSkipped` needs that the client has not resumed after it threw frames away
  (`h.gapped`). `ReplayMeansNoGap` says that holds while `g_replay_possible` has stayed true, and
  `SkippedAfterOverflow` is a run that skips a request once it has not.
- **Dead handles.** A thread that selects a handle already dead is saved as if the handle were
  good. `AppendKeeps` says the saved stack is faithful after a selection exactly when the handle
  names a context, and `DeadHandleServed` is a run in which a thread's work then runs in another
  thread's context.
- **Primary handles.** The driver has one handle for a device and does not move it. `LearnPrimary`
  says exactly when learning a handle keeps what `ForgetPrimary` needs.
- **An unreadable primary context.** If the driver cannot say whether a context is inactive, the
  program records nothing. `UnreadableLosesTrack` says the generations stay right exactly when it
  can be read, and `UnreadableFreesAnothers` is a run in which expiry then frees another session's
  object.
- **Settling.** `Pending` assumes that a settle follows a wait the server answered, with nothing
  launched on that stream in between (`Fair`); `SettleExact` says exactly when a settle keeps the
  record right, and `LateLaunchIsForgotten` and `FailedWaitForgets` are the two ways it goes wrong.
- **The drivers and sockets** are small classes with a body: what they may do is what those bodies
  allow. The context driver accepts any handle, as the source says real hardware does, and may
  refuse to switch unless it is `obliging`. A socket moves any number of bytes at a time, is
  interrupted a finite number of times, and may fail at any moment.
- **Frees.** A client may free any address, and the driver asks nobody whose it is. A run of
  `PrimariesTheorems` assumes that no client frees what another session has (`FreesOwn`). `FreeKeeps`
  says that is exactly when a free keeps every inventory right, and `StolenAddressIsFreed` is a run
  in which expiry then destroys another session's object. The driver makes nothing in a primary
  context nobody retains.
- **Room for threads.** A session keeps the slots of as many live threads as it may have and of the
  last 64 announced gone or refused. What is pushed out of there is forgotten: the thread starts with
  an empty stack if it comes back, and a failure it never learned of is lost and counted.
  `Deferred.Table.ServeAll` says what holds for every thread that has lost nothing, and
  `FailureIsForgotten` is a run of 65 threads in which one has. `EveryoneServed` and
  `NobodyForgotten` say when nobody is refused, and when nobody is forgotten.

Where the source's comments and its code differ, the code is followed. `common/wire.h` says ids are
ordered correctly when they are less than 2^31 requests apart; crossing the skipped 0 costs one, so
the bound is one smaller (`OrderExact`, `WindowIsTight`). `server/main.cpp` says that a copy whose
reply is no longer kept should not arrive; a late hand-over brings one (`StaleCopyIsRead`), though
never on the connection the client is using (`CopyIsAnswered`).

Counters the source keeps in 64 bits (generations, lengths summed in memory) are unbounded here;
32-bit ids, the 32-bit payload length field and 64-bit sizes on the wire are not.

## Model

| member | source | states |
|---|---|---|
| `ReqIds.Mint` | client/rpc.cpp:480-489 | minting from the wrapping counter hands out the id of the next place, skips 0, and leaves the counter where the place after that starts |
| `ReqIds.OrderExact` | common/wire.h:60-64 | for requests less than a turn apart, the 32-bit order is the mint order if and only if their distance, plus one for a crossed 0, is under half the id space |
| `ReqIds.OrderInWindow` | common/wire.h:25-64 | fewer than 2^31 - 1 mints apart, order and equality of ids are those of the places, over any number of wraps |
| `ReqIds.WindowIsTight` | common/wire.h:33-36 | one mint more, across the skipped 0, is misordered, so "less than 2^31" is not right |
| `Wire.HeldFramesBound` | client/rpc.cpp:209-214 | a cap on held bytes is a cap on held frames |
| `ClientState.HeldFramesCap` | client/rpc.cpp:209-214 | never more than 2,796,202 frames are held for replay |
| `ClientState.ReplayLostExactly` | client/rpc.cpp:556-575 | replay is given up at the very frame that takes what is held past 64 MiB, headers counted, and everything held goes |
| `ClientState.QueueOneKeepsHeld` | client/rpc.cpp:545-577 | queueing keeps the byte count true, the cap, and the queue a tail of what is held |
| `ClientState.ForgetKeepsHeld` | client/rpc.cpp:218-224 | forgetting what is acknowledged keeps them |
| `ClientState.AbandonKeepsHeld` | client/rpc.cpp:251-263 | giving up a call keeps them |
| `RpcClient.Client.QueueOne` | client/rpc.cpp:545-577 | on bytes and 32-bit ids, queueing a frame is the machine's `QueueOne`: same id, same queue, held or thrown away at 64 MiB |
| `RpcClient.Client.ForgetAcked` | client/rpc.cpp:218-224 | the loop over the deque drops exactly the acknowledged front and its bytes |
| `RpcClient.DropAcked` | client/rpc.cpp:218-224 | what the loop leaves is the frames from the first one not acknowledged, with their true size |
| `RpcClient.DropCall` | client/rpc.cpp:251-255 | the call's own frame goes if it is still the last one held, and nothing else |
| `RpcClient.Hold` | client/rpc.cpp:556-575 | the buffers stand for the machine's frames before and after, in all three cases |
| `RpcClient.Client.AbandonCall` | client/rpc.cpp:251-263 | giving up a call drops its own frame and no other, names it as answered, and drops the connection |
| `RpcClient.Client.Flush` | client/rpc.cpp:581-588 | one write of everything queued: all of it in order, or a prefix and the connection dropped |
| `RpcClient.Client.LoseSession` | client/rpc.cpp:378-395 | nothing queued or held survives being told the session is gone |
| `RpcClient.Client.TakeReply` | client/rpc.cpp:678-679 | a reply acknowledges everything up to its own request |
| `RpcClient.Client.Attach` | client/rpc.cpp:397-417 | a resume forgets what the session completed, empties the queue and writes the rest in order |
| `RpcClient.Client.Resend` | client/rpc.cpp:406-412 | the frames held are written byte for byte, or a prefix of them |
| `ProtocolInvariant.WindowHolds` | common/wire.h:25-64 | a client that has minted fewer than 2^31 - 1 requests compares no ids outside the window |
| `ProtocolSteps.StepKeeps` | server/main.cpp:606-677 | every one of the 24 steps keeps the invariant of the protocol, if the ids that step compares are in the window |
| `ProtocolTheorems.AtMostOnceInOrder` | server/main.cpp:606-677 | in every run each request is dispatched at most once and dispatches are in mint order |
| `ProtocolTheorems.ExecutionsGrow` | server/main.cpp:790-861 | the record of dispatches only grows, whatever the ids and lengths |
| `ProtocolTheorems.NothingSkipped` | client/rpc.cpp:397-412 | when a request runs, every earlier one ran before it or is a call that wanted a reply and that the client gave up, unless frames were thrown away; so no request sent without a reply is skipped |
| `ProtocolTheorems.OnlyCallsGivenUp` | client/rpc.cpp:251-263 | in every run, whatever the ids and lengths, only calls that want a reply are given up |
| `ProtocolTheorems.ReplayMeansNoGap` | client/rpc.cpp:570-574 | nothing has been thrown away while replay is still possible |
| `ProtocolGap.SkippedAfterOverflow` | client/rpc.cpp:570-574 | for any call too big to hold there is a run that dispatches a later request and never that one, which was not given up |
| `HandshakeSteps.ReplyIsForCall` | client/rpc.cpp:671-676 | the first frame a waiting client can read is the reply to its call, recorded at its execution |
| `ProtocolTheorems.NoMismatchedReply` | client/rpc.cpp:663-676 | "response id mismatch" cannot be reached: the first reply in the bytes that reach a waiting client has its call's id and carries the recorded result |
| `ProtocolRuns.RunMeasured` | client/rpc.cpp:545-577 | in every state of a run, every frame on its way and every result fits its length field |
| `ProtocolTheorems.RequestsArriveWhole` | common/net.h:143-156 | the bytes on a connection are read as the very frames written to it, and understood as what was asked |
| `ProtocolTheorems.ResultsAreRecorded` | server/main.cpp:852-860 | a result taken from a reply is the one recorded at that request's single execution |
| `ProtocolTheorems.ResumeSendsOrAnswers` | server/main.cpp:1129-1154 | after a resume the awaited call is sent again exactly when the session has not completed it, and otherwise its reply is on the connection: never both, and never neither while the connection holds |
| `ProtocolTheorems.CopyIsAnswered` | server/main.cpp:655-671 | a copy that wants a reply and already ran, read on the connection the client uses, is the one whose reply is kept |
| `ProtocolStale.StaleCopyIsRead` | server/main.cpp:655-671 | for any two calls, a run in which the late hand-over of an old connection brings a copy whose reply is not kept |
| `ProtocolTheorems.OneSession` | server/main.cpp:1085-1127 | only the first handshake starts a session, at most one session is made, and everything runs in it |
| `ProtocolGone.LookupAnswers` | server/main.cpp:1085-1127 | over every run, a session that is there is taken back, the first handshake starts one unless there is no room and then it is told so, and whoever comes back to a session that is gone is told that |
| `ProtocolGone.GoneIsTold` | server/main.cpp:959-980 | a client that comes back to a session that is gone knows it is gone once it has read an answer |
| `ProtocolGone.GoneIsTrue` | client/rpc.cpp:378-395 | a client is told its session is gone only if it is, and no other is ever made |
| `ProtocolGone.SessionIsGone` | client/rpc.cpp:378-395 | a run in which a session expires and its client learns it |
| `ProtocolTheorems.SilentOnceGone` | client/rpc.cpp:378-395 | once told the session is gone the client opens no connection and writes no request |
| `ProtocolTheorems.HeldFramesTrue` | client/rpc.cpp:556-575 | in every reachable state the queue is a tail of what is held, the byte count is the true sum, and the cap holds |
| `ServingSteps.ReadRunKeeps` | server/main.cpp:606-677 | dispatching a frame that has not run keeps the invariant, what it settles included |
| `ServingSteps.ReadCopyKeeps` | server/main.cpp:624-675 | a frame that already ran is only answered, if its reply is the one kept |
| `ServingSteps.CompleteKeeps` | server/main.cpp:790-861 | completing a request and keeping its reply is one step |
| `AcceptSteps.SnapshotKeeps` | server/main.cpp:1129-1154 | the advice and the reply sent again are read together, so they agree |
| `AcceptSteps.HandOverKeeps` | server/main.cpp:1187-1241 | handing the connection over, or closing it if the session finished, keeps the invariant |
| `HandshakeSteps.ResumeKeeps` | client/rpc.cpp:397-412 | taking a session back leaves held exactly what it has not completed |
| `ProtocolLife.RequestIsQueued` | client/rpc.cpp:545-577 | a request is minted next, queued behind the others, and held while replay is possible |
| `ProtocolLife.FlushWrites` | client/rpc.cpp:581-588 | what is queued goes onto the connection in order, behind what is there |
| `ProtocolLife.ReadDispatches` | server/main.cpp:606-677 | the server dispatches a frame minted after everything that ran, and answers any other only with its own reply, if that is kept |
| `ProtocolLife.CompletionIsKept` | server/main.cpp:790-861 | a request that ran is the last completed, and its own reply is the one kept |
| `ProtocolLife.ReplyIsWritten` | server/main.cpp:862-862 | the reply goes to the connection the request came from |
| `ProtocolLife.ReceiveReturns` | client/rpc.cpp:663-682 | a waiting client that reads a frame has its call's reply, and the call returns what its execution recorded |
| `ProtocolLife.BrokenTwiceIsGivenUp` | client/rpc.cpp:656-670 | the first break of a call is a reason to come back, the second gives it up, and then its frame is not held |
| `ProtocolLife.OutOfReachIsGivenUp` | client/rpc.cpp:419-469 | a call is given up when time is up or it could not be sent again, and then its frame is not held |
| `ProtocolLife.HandshakeNamesLastReply` | client/rpc.cpp:315-329 | a handshake names the last reply the client had, and whether it had a session |
| `ProtocolLife.AdviceIsTrue` | server/main.cpp:1129-1154 | the advice is what the session has completed, and the reply kept goes with it exactly if the client has not had it |
| `ProtocolLife.AdviceIsWritten` | server/main.cpp:1129-1186 | that advice is the answer to the handshake, and the reply is written behind it |
| `ProtocolLife.UnansweredIsClosed` | server/main.cpp:1155-1186 | a handshake that cannot be answered closes the connection, and a session nobody was told of goes with it |
| `ProtocolLife.ResumeResends` | client/rpc.cpp:397-417 | a client taken back forgets exactly the frames the session completed and sends the others again, in order |
| `ProtocolLife.HandedOverIsNext` | server/main.cpp:1187-1241 | a connection handed over is the one served next, in place of one that was waiting, unless the session is over |
| `ProtocolLife.ServingThread` | server/main.cpp:872-926 | the serving thread takes up the connection waiting, closes one that broke, and ends when the grace period does |
| `ProtocolTour.CallReturns` | client/rpc.cpp:639-689 | a run in which a call returns what its execution recorded |
| `ProtocolTour.LostReplyIsSentAgain` | server/main.cpp:1129-1154 | a run in which the connection is lost after the call ran: it returns all the same, and ran once |
| `ProtocolTour.LostCallIsSentAgain` | client/rpc.cpp:397-417 | a run in which the call was never written: it is sent again and returns |
| `ProtocolTour.CallIsGivenUp` | client/rpc.cpp:251-263 | a run in which the server stays out of reach and the call is given up |
| `Bytes.LittleInverse` | common/wire.h:143-160 | an integer written in any number of bytes that can hold it is read back |
| `Bytes.HeaderInverse` | common/wire.h:115-131 | a request header is read back from the front of any stream, magic included |
| `Bytes.HeaderLayout` | common/wire.h:115-131 | where each field of a request header is, byte by byte, the magic included |
| `Framing.FrontExact` | client/rpc.cpp:553-556 | a request frame is read back, its flag included, if and only if its payload is shorter than 2^32 bytes |
| `Framing.ArrivedIsUnderstood` | common/wire.h:105-131 | what the server makes of a frame, the no-reply flag included, is what the client sent |
| `Framing.FramesOfStream` | common/net.h:143-156 | the frames of what was written, followed by anything, are the frames written and then the frames of the rest, if and only if every payload is shorter than 2^32 bytes |
| `Framing.CutStream` | common/net.h:143-183 | a connection cut after any number of bytes delivers a whole number of the frames, from the first, and nothing else unless the next is too long for its length field |
| `Replies.FirstOfReply` | common/net.h:124-138 | a client takes as many bytes as the cut length says, and reads on from there |
| `Replies.ReplyExact` | server/main.cpp:831-834 | a reply is read back, and nothing of it is left over, if and only if its payload is shorter than 2^32 bytes |
| `Replies.ReplyLayout` | common/wire.h:133-141 | where each field of a reply header is, byte by byte |
| `Replies.OnlyTheMagic` | common/net.h:124-138 | anything but the magic at the front of the stream is no reply |
| `Replies.ForgedReply` | server/main.cpp:831-834 | the memory copied by a reply of 2^32 bytes or more is read as the next reply, whatever request and result it names |
| `Sockets.ReadExact` | common/net.h:31-49 | reads exactly the bytes asked for, in order, however they arrive, or fails only if they never do |
| `Sockets.WriteExact` | common/net.h:51-69 | writes exactly the bytes, or a prefix and fails |
| `Sockets.WriteTwo` | common/net.h:84-115 | emits header and payload exactly, for every sequence of short writes |
| `Sockets.StepPast` | common/net.h:101-112 | stepping over a short write leaves exactly the bytes not sent |
| `Sockets.FrameReader.Read` | common/net.h:158-178 | what is read is the next bytes of the stream, buffered and direct reads mixed |
| `Sockets.FrameReader.NextFrame` | common/net.h:147-155 | the next frame of the stream, or a failure only if there is not a whole one |
| `Sockets.FrameReader.ReadAll` | common/net.h:143-183 | the frames read are those of the concatenated bytes, for every way the socket splits them |
| `Contexts.AppendKeeps` | server/client_threads.cpp:123-149 | a handle saved on a faithful stack leaves it faithful if and only if it names a context |
| `Contexts.CreateKeeps` | server/client_threads.h:35-48 | a context made at an address handed out before brings no saved entry back to life |
| `Contexts.DestroyKeeps` | server/client_threads.cpp:424-448 | marking every entry that names a destroyed context keeps the marks exact |
| `ContextLaws.CreateThenDestroy` | server/client_threads.cpp:424-448 | destroying the context just made undoes the create: the thread's stack, what is current and which contexts there are |
| `ContextLaws.DestroyPopsOnlyTheCaller` | server/client_threads.cpp:424-448 | destroying a current context pops it from the caller's stack alone; another thread still names it and its work fails as destroyed |
| `ContextLaws.MadeIsCurrent` | server/client_threads.cpp:408-422 | a context made is new, current and the one work runs in, and is refused exactly if the stack is full or the address taken |
| `ContextLaws.PushThenPop` | server/client_threads.cpp:153-194 | a push is taken exactly if the handle is not null and the stack not full, and a pop names it and undoes it |
| `ContextLaws.SelectReplaces` | server/client_threads.cpp:123-149 | a handle selected is current in place of what was, over the same stack below |
| `ContextLaws.SelectNothing` | server/client_threads.cpp:123-149 | selecting null takes the current context off as a pop does, and is no error on an empty stack |
| `ContextLaws.ExchangeTwice` | server/client_threads.cpp:309-320 | exchanging the capture mode twice gives both modes back and changes nothing else |
| `ContextLaws.NewThread` | server/client_threads.h:1-23 | a thread seen for the first time has no context and the default capture mode |
| `ContextLaws.AskingChangesNothing` | server/client_threads.cpp:200-209 | asking what is current, and working, change nothing |
| `ContextLaws.OthersUntouched` | server/client_threads.h:1-23 | no call of one thread changes what another's stack answers |
| `ContextLaws.StackIsOwn` | server/client_threads.h:1-23 | over any run, nothing but a thread's own calls, or the loss of its slot, changes its stack and mode |
| `Contexts.DeadHandleIsMisbound` | server/client_threads.cpp:123-149 | in the saved stacks, a handle dead when selected is taken for whatever is made at its address next |
| `ClientThreads.DeadHandleServed` | server/client_threads.cpp:123-149 | served, that run answers RanIn the other thread's context where CUDA's own answer is CUDA_ERROR_CONTEXT_IS_DESTROYED |
| `ClientThreads.SweepOne` | server/client_threads.cpp:103-109 | one thread's filtered sweep is the full scan of its stack |
| `ClientThreads.Sweep` | server/client_threads.cpp:103-112 | the sweep filtered by `stack_ctxs` marks exactly what a full scan of all stacks would |
| `ClientThreads.DestroyIn` | server/client_threads.cpp:431-440 | the caller pops the context it destroys, and every other entry naming it is marked |
| `ClientThreads.Threads.Clear` | server/client_threads.cpp:48-67 | leaves nothing current, in a bounded number of pops, or says so |
| `ClientThreads.Threads.ShowContext` | server/client_threads.cpp:226-254 | makes the thread's top current unless it is destroyed, and then nothing |
| `ClientThreads.Threads.Show` | server/client_threads.cpp:282-286 | shows the thread's context and capture mode, or refuses and believes nothing the driver contradicts |
| `ClientThreads.Threads.SetCurrent` | server/client_threads.cpp:123-149 | answers and changes what CUDA's own call would for that thread; the view stays faithful if and only if no dead handle was selected |
| `ClientThreads.Threads.PushCurrent` | server/client_threads.cpp:153-172 | the same for a push, with the cap on the depth |
| `ClientThreads.Threads.PopCurrent` | server/client_threads.cpp:177-194 | the same for a pop, which names a destroyed context too |
| `ClientThreads.Threads.GetCurrent` | server/client_threads.cpp:200-209 | names the thread's own top, destroyed or not |
| `ClientThreads.Threads.CreateContext` | server/client_threads.cpp:408-422 | the new context goes on the caller's stack and the driver's comes back to one entry |
| `ClientThreads.Threads.DestroyContext` | server/client_threads.cpp:431-448 | the destroy CUDA documents, for the caller and for every other thread |
| `ClientThreads.Threads.ExchangeMode` | server/client_threads.cpp:309-320 | each thread gets back its own previous capture mode |
| `ClientThreads.Threads.RunInContext` | server/client_threads.h:35-63 | a call never runs in another context than the one its thread selected alive, even when the address was reused |
| `ClientThreads.Threads.After` | server/client_threads.cpp:322-393 | what a call left current is recorded, and a failure for want of a context becomes CUDA_ERROR_CONTEXT_IS_DESTROYED |
| `ClientThreads.Threads.Serve` | server/main.cpp:709-754 | one admitted request answers as if its thread had a stack of its own, with `applied` the driver's current context and the driver's stack one deep; the view stays faithful if and only if no dead handle was selected |
| `ClientThreads.Threads.Admit` | server/main.cpp:298-353 | a known thread finds the slot kept for it, a new one gets an empty slot, and a thread past the cap changes nothing |
| `ClientThreads.Threads.Trim` | server/main.cpp:383-389 | the oldest retired slot past 64 is forgotten, and no other |
| `ClientThreads.Threads.RetireAll` | server/main.cpp:405-418 | threads announced gone keep their stacks in the retired set, but for the oldest pushed out |
| `ClientThreads.Threads.Park` | server/main.cpp:426-439 | a refused thread with a failure to hold gets an empty slot set aside, which may push out the oldest |
| `ClientThreads.Threads.ServeCall` | server/main.cpp:688-754 | a call that names no thread, or comes past the cap, is answered with CUDA_ERROR_INVALID_VALUE and no context is touched; any other answers as if its thread had a stack of its own |
| `ClientThreads.Threads.ServeNotice` | server/main.cpp:691-708 | a notice retires the threads it names, unless it is short or names no sender, and then it is refused |
| `ClientThreads.Threads.Appear` | server/client_threads.h:37-43 | a context made elsewhere in the process, another session's or a primary one, changes nothing that is saved |
| `ClientThreads.Threads.ServeAll` | server/client_threads.h:1-23 | for any interleaving of calls and notices of any number of threads, with contexts made elsewhere at any moment, the answers are those of every thread having a stack of its own for as long as its slot is kept, and of requests refused exactly as the table says |
| `Admission.EveryoneServed` | server/main.cpp:298-353 | calls of no more threads than may be live are all carried out, and none of those threads is ever forgotten |
| `Admission.NobodyForgotten` | server/main.cpp:280-280 | whatever up to 64 threads send, refusals and notices included, nobody is forgotten |
| `Seats.AdmitKeeps` | server/main.cpp:298-353 | being let in leaves every other thread where it sat, live or retired |
| `Seats.ParkKeeps` | server/main.cpp:426-439 | a slot set aside costs at most the oldest retired one |
| `Inventory.IndexUnique` | server/inventory.h:106-123 | the entries determine the index: nothing about it is left open |
| `Inventory.Inventory.Note` | server/inventory.cpp:258-275 | records the entry under its new stamp and leaves the index exact, a re-note included |
| `Inventory.Inventory.Forget` | server/inventory.cpp:277-289 | removes the entry and leaves the index exact, with no empty bucket |
| `Inventory.Inventory.ForgetUnder` | server/inventory.cpp:307-320 | removes exactly what a scan of every swept map and the captures would |
| `Inventory.Inventory.ForgetContext` | server/inventory.cpp:326-332 | the context goes, and every allocation, module, stream, event, graph, graph exec and library handle made under it, and nothing else |
| `Inventory.KeepingExact` | server/inventory.cpp:317-319 | the captures kept are those the test keeps |
| `Inventory.Inventory.EndGeneration` | server/inventory.cpp:98-101 | one device's generation moves on by one, from 0 |
| `Teardown.Session.Make` | server/inventory.cpp:788-796 | what is made in a created context is recorded there |
| `Teardown.Session.MakeFromAnothers` | server/inventory.cpp:239-256 | what is made from an object the session did not make is recorded, and expiry leaves it alone |
| `Teardown.Session.DestroyContext` | server/inventory.cpp:548-556 | after a context is destroyed the record is still right: all that is on it exists and is the session's own, and all the session made is on it |
| `Teardown.Session.Expire` | server/inventory.cpp:1112-1154 | for created contexts, expiry destroys only what exists and is the session's own, each once, and leaves nothing of it, whoever was given the addresses of what went before |
| `Teardown.TornDown` | server/inventory.cpp:307-332 | tearing a context down leaves the record right about everything that is left |
| `Inventory.EraseStale` | server/inventory.cpp:364-377 | the erase-while-iterating loop drops exactly the ended entries from map and bucket |
| `Inventory.Inventory.ForgetPrimary` | server/inventory.cpp:350-394 | removes exactly what a scan of every entry and capture for the device's ended generations would, kind by kind |
| `Inventory.Inventory.LearnPrimary` | server/inventory.cpp:79-83 | learning a handle keeps every entry findable if and only if no entry made under it names another device; null is never learned |
| `Inventory.Inventory.StampContext` | server/inventory.cpp:110-121 | a stamp has a device exactly when its context was learned for it |
| `Inventory.Inventory.StampOf` | server/inventory.cpp:239-256 | a copied stamp is the source's, and one from an unknown source has already ended; both name a learned context if they name a device |
| `Inventory.Inventory.PrimaryHandles` | server/inventory.cpp:139-146 | exactly the handles learned for the device |
| `Inventory.PlacedIsFound` | server/inventory.cpp:133-146 | so every ended entry of a device is in the bucket of one of its handles |
| `PrimariesSteps.StepKeeps` | server/inventory.cpp:63-131 | every step of every session keeps generations, entries and retain counts right, if the driver's state can be read and nobody frees what another session has |
| `PrimariesSteps.FreeKeeps` | server/inventory.cpp:438-443 | a free of any address keeps every session's inventory right if and only if no other session has a live object there |
| `PrimariesSteps.RecordKeeps` | server/inventory.cpp:487-498 | a death is recorded before anything can bring the context back |
| `PrimariesSteps.ExpiryDestroysItsOwn` | server/inventory.cpp:1116-1128 | an entry of the current generation names the session's own object, still there, in the live incarnation |
| `PrimariesTheorems.ExpiryFreesOnlyItsOwn` | server/inventory.cpp:1116-1154 | so in every interleaving, although stamping and making are not under the lock |
| `PrimariesComplete.NothingOffRecord` | server/inventory.cpp:258-275 | in every run, what a serving session made and still exists is on its record |
| `PrimariesComplete.DeathIsForgotten` | server/inventory.cpp:350-394 | recording the death of a device's context drops the caller's entries on that device and no others |
| `PrimariesComplete.PassedOverEntry` | server/inventory.cpp:1116-1128 | expiry leaves something that exists if and only if its stamp is not of the incarnation it was made in |
| `PrimariesComplete.OnlyMisstampedStays` | server/inventory.cpp:102-107 | what a session leaves behind expiry came to and passed over, because it was stamped before a death and made after it, or its place was not known |
| `PrimariesComplete.GoneLeavesOnlyMisstamped` | server/inventory.cpp:1116-1154 | a session that has expired leaves nothing else |
| `PrimariesComplete.ResetIsAlone` | server/inventory.cpp:500-531 | in every run, a reset happens only when no other session is bound |
| `PrimariesComplete.ResetIfAlone` | server/inventory.cpp:509-520 | a serving session's reset is let through if and only if no other is bound |
| `PrimariesTheorems.UnknownPlaceIsLeft` | server/inventory.cpp:239-256 | a run in which something made from an object the session did not make is left at expiry |
| `PrimariesTheorems.ResetStillOwes` | server/inventory.cpp:341-349 | a run in which a session resets a device and at expiry still releases its retain |
| `PrimariesTheorems.RetainsConserved` | server/inventory.cpp:291-301 | the driver's count never exceeds what the sessions recorded, and equals it if and only if nothing was over-released |
| `PrimariesTheorems.OnlyOverReleaseWidens` | server/inventory.cpp:291-301 | only a serving client releasing a retain it does not hold opens that gap; expiry and resets never do |
| `PrimariesTheorems.ExpiryReleasesWhatItHeld` | server/inventory.cpp:1407-1437 | expiry releases at most what the session held, and all of it unless refused |
| `PrimariesTheorems.RefusedOnlyAfterOverRelease` | server/inventory.cpp:1407-1437 | a release at expiry is refused only if some session over-released |
| `PrimariesTheorems.UnreadableLosesTrack` | server/inventory.cpp:466-479 | recording a last release keeps generations right if and only if the state could be read |
| `PrimariesTheorems.UnreadableFreesAnothers` | server/inventory.cpp:466-479 | a run with the state unreadable in which expiry frees what another session made |
| `PrimariesTheorems.StolenAddressIsFreed` | server/inventory.cpp:438-443 | a run in which a client frees another session's address, makes something there, and that session's expiry destroys it |
| `ThreadTable.Conservation` | server/main.cpp:779-850 | held is told, waiting in a live or retired slot, or lost with its slot |
| `ThreadTable.WaitersCount` | server/main.cpp:779-800 | at most one failure waits for a thread, so slots and waiting failures are as many |
| `Deferred.Table.ThreadSlot` | server/main.cpp:298-353 | a thread gets back the slot kept for it, live or retired, or an empty one, or is refused at the cap |
| `Deferred.Table.Trim` | server/main.cpp:383-389 | the oldest retired slot past 64 goes, and only its failure is lost |
| `Deferred.Table.Retire` | server/main.cpp:394-400 | the slot moves to the retired set unchanged; live and retired stay disjoint |
| `Deferred.Table.ThreadGone` | server/main.cpp:405-418 | a whole notice retires its threads one by one, each slot moved unchanged and the oldest past 64 gone; a short one changes nothing |
| `Deferred.Table.DeferredHome` | server/main.cpp:426-439 | the slot of a request given none: the thread's own if it has one, else a new one if there is a failure to hold |
| `Deferred.Table.Complete` | server/main.cpp:779-850 | a failure with no reply is held if none waits; a reply to its own thread, that succeeded and is not read as state, carries it and the history says so; no other slot changes but one evicted for room |
| `Deferred.OwedIsOwn` | server/main.cpp:779-850 | what a thread has coming depends on its own requests alone |
| `Deferred.Table.Serve` | server/main.cpp:688-850 | one call changes what waits for its own thread and for no other, exactly if no slot holding a failure was pushed out for it; a call past the cap or naming no thread fails with its own error |
| `Deferred.Table.ServeNotice` | server/main.cpp:691-708 | a notice completes like a call of its thread, without a slot, exactly if no failure was lost by it; one that names no sender is refused |
| `Deferred.Table.ServeAll` | server/main.cpp:688-850 | for any interleaving of calls, refusals and notices of any number of threads, every reply to a thread that has lost no failure is what its own requests make it; every failure held was told, waits, or is counted as unreported; and none is lost with up to 64 threads, or with calls alone of as many threads as may be live |
| `Deferred.LostOrKept` | server/main.cpp:369-389 | when slots are pushed out, what waits for a thread is what waited, unless its failure is recorded as lost, and then nothing waits |
| `Deferred.LostCount` | server/main.cpp:369-389 | the count of unreported failures goes up exactly if some thread's failure was lost |
| `DeferredLoss.FailureIsForgotten` | server/main.cpp:280-280 | for any failure, a run of 65 threads in which it is lost and the thread's next call is answered with success |
| `Deferred.RetiredSeats` | server/main.cpp:405-418 | the tables of `Deferred` seat threads as `Seats` says, which `ClientThreads` follows |
| `Deferred.Table.Expire` | server/main.cpp:927-943 | at the end everything held was told or is counted as unreported |
| `Deferred.SettleCount` | server/main.cpp:369-389 | settling a slot moves one count by one at most |
| `Marshal.ArgBack` | codegen/emit.py:128-159 | each mode's field is decoded from the front of whatever follows it |
| `Marshal.RequestRoundTrip` | codegen/emit.py:255-322 | for every list of modes the server decodes what the client encoded and reads no further |
| `Marshal.HonestSizesPass` | codegen/emit.py:305-316 | an honest request passes every size check if and only if no buffer to be filled has size 0 |
| `Marshal.SizesExact` | codegen/emit.py:299-316 | a request is let through if and only if every buffer has the size its own parameters work out to, and one to be filled has some |
| `Marshal.ArgSize` | codegen/emit.py:128-159 | how many bytes each mode's field takes, and the byte that says whether a pointer is null |
| `Marshal.DriverSeesArgs` | codegen/emit.py:299-320 | the driver is called with the client's arguments if and only if no block is present and empty and nothing is ignored |
| `Marshal.ReplyRoundTrip` | codegen/emit.py:162-179 | the client decodes what the server wrote for it, and nothing else |
| `Marshal.SameWants` | codegen/emit.py:276-316 | both sides agree which outputs a reply carries and how long each is |
| `Marshal.WrongStructIsRefused` | codegen/emit.py:162-179 | a struct of another size than the client's is not written through its pointer |
| `Marshal.WantedExactly` | codegen/emit.py:162-179 | a reply carries an output if and only if the parameter is one and the client's pointer is not null |
| `Marshal.OutSize` | codegen/emit.py:162-179 | how many bytes each output takes |
| `Marshal.Buffer.Take` | common/wire.h:229-238 | takes the next bytes or stops for good, for any length up to the largest |
| `Marshal.WriteRequest` | codegen/emit.py:182-187 | the stub writes the fields of every parameter in order |
| `Marshal.ReadRequest` | codegen/emit.py:255-324 | the case decodes every parameter, refuses exactly the requests with a size that is not what its parameters work out to, and passes on what it decoded |
| `Marshal.Deliver` | codegen/emit.py:182-324 | from stub to driver call, an honest request is refused exactly when a buffer to be filled has size 0, and otherwise arrives as passed, empty blocks and ignored parameters as null |
| `Pending.PendingRecord.Ask` | client/pending.cpp:37-45 | an answer that there is nothing to wait for is right, for the default stream and every other |
| `Pending.SettleExact` | client/pending.cpp:27-35 | settling keeps the record right if and only if nothing placed there is outstanding |
| `Pending.NoWaitIsSafe` | client/shim.cpp:575-591 | in every interleaving a synchronize that does not wait has nothing to wait for |
| `Pending.RecordIsHistory` | client/pending.cpp:17-35 | the record is exactly the work counted and not settled since, on each stream and somewhere |
| `Pending.WaitsExactly` | client/shim.cpp:575-591 | a synchronize waits always, never, or exactly if work it covers was counted and not settled since, as the mode says |
| `Pending.WorkIsHistory` | client/shim.cpp:575-591 | what is counted and what is running are told from what happened |
| `Pending.WaitIsHistory` | client/shim.cpp:586-589 | a wait is spoiled exactly if work it covers was underway at its return or has come since |
| `Pending.SynchronizeReturns` | client/shim.cpp:575-591 | a run in which a kernel is waited for and the next synchronize returns at once |
| `Pending.UnplacedBlocksAll` | client/pending.cpp:22-25 | work that cannot be placed makes every stream wait until everything was waited for |
| `Pending.LateLaunchIsForgotten` | client/shim.cpp:586-589 | work launched between a wait's return and its settle is forgotten |
| `Pending.FailedWaitForgets` | client/shim.cpp:586-589 | a wait that failed is settled all the same, and the work it waited for is forgotten |
| `RuntimeContexts.StepKeeps` | client/cudart_impl.cpp:112-143 | every step of every thread keeps selections and generations in step |
| `RuntimeContexts.SkippingIsSafe` | client/cudart_impl.cpp:93-143 | outside a reset, a thread whose generation is current last selected a context that is still retained, of the device of its own last cudaSetDevice |
| `RuntimeContexts.DeviceIsOwn` | client/cudart_impl.cpp:401-414 | a thread is on the device of its own last cudaSetDevice, 0 before any, whatever the others do |
| `RuntimeContexts.SameDeviceKeeps` | client/cudart_impl.cpp:408-411 | asking again for the same device changes nothing |
| `RuntimeContexts.NothingRetainedTwice` | client/cudart_impl.cpp:123-139 | outside a reset each retain is in the table, for one device, and a reset releases them all |
| `RuntimeContexts.SkippingHappens` | client/cudart_impl.cpp:113-143 | a run in which a thread skips, on any device, after a reset |
| `RuntimeContexts.ContextIsShared` | client/cudart_impl.cpp:113-143 | a run in which two threads share a context, one after failing to select it |
| `Retirement.StepKeeps` | client/rpc.cpp:497-543 | every step keeps an exited thread listed, in hand, or announced |
| `Retirement.ExitIsAnnounced` | client/rpc.cpp:497-543 | after a thread exits its id is listed or a notice followed its last frame; no frame names its own thread; no id is listed twice |
| `Retirement.ListIsAnnounced` | client/rpc.cpp:497-543 | a call that takes the list announces every thread on it but its own |
| `Retirement.OnlyExitedAnnounced` | client/rpc.cpp:497-543 | no thread is announced that has not exited, and the flag says whether anybody is listed |
| `Retirement.EveryCallQueued` | client/rpc.cpp:497-543 | each call queues one frame of its own, in order |
| `Retirement.SelfStaysListed` | client/rpc.cpp:497-543 | a thread that calls after it exited stays listed while its call takes the others off |
| `Retirement.LateCallIsRelisted` | client/rpc.cpp:497-543 | a run in which a thread calls after it exited, and is listed after the call |
| `Retirement.ExitIsTold` | client/rpc.cpp:497-543 | a run in which an exit is announced in front of the next call |
| `ConnectionsSteps.StepKeeps` | server/main.cpp:1024-1241 | every step keeps each connection owned once and the table right |
| `ConnectionsSteps.OneOwner` | server/main.cpp:872-920 | every connection has one owner until it is closed, and is closed once |
| `ConnectionsSteps.FinishedHoldNothing` | server/main.cpp:1005-1020 | no finished session holds a connection, and the table never exceeds its cap |
| `ConnectionsSteps.NewerSessionsStay` | server/main.cpp:911-919 | an unfinished session stays in the table under its key, which no other unfinished session has |
| `ConnectionsTheorems.LookupFinds` | server/main.cpp:1085-1127 | a handshake finds the unfinished session of its key if there is one, starts one if it may and there is room, and is closed otherwise |
| `ConnectionsTheorems.OnlyItsOwnConnections` | server/main.cpp:1085-1241 | a session is only ever given connections whose handshake named its key |
| `ConnectionsTheorems.HandedToItsSession` | server/main.cpp:1187-1241 | handing over gives the connection to its session, in place of any before it, unless the session has finished |
| `ConnectionsTheorems.GivenUpIsClosed` | server/main.cpp:1000-1020 | a connection given up is closed, and a session nobody was told of leaves the table with it |
| `ConnectionsTheorems.TableIsTheLiving` | server/main.cpp:911-919 | the table holds the unfinished sessions, and besides them only some still on their way out |
| `ConnectionsTheorems.UnansweredStart` | server/main.cpp:1000-1020 | a run in which a client that cannot be answered leaves no session behind |
| `ConnectionsTheorems.SessionLives` | server/main.cpp:1024-1241 | a run of a session from its first connection to its end |

## Left out

- Sockets options, DNS, timeouts as durations, environment variables, logging, statistics and test
  hooks: losses, refusals and grace periods are steps or nondeterministic results instead.
- The real CUDA driver: context, primary-context and capture-mode calls are the small drivers of
  `ClientThreads` and `Primaries`; every other driver call is work that runs in a context.
- A second session destroying a context this session has selected, which the server documents as
  out of its reach: in `ClientThreads` contexts appear from elsewhere and do not vanish.
- cuBLAS, cuBLASLt and cuDNN forwarding, the generated stubs and tables, the header parser and the
  name heuristics of the generator, the rest of the shim and of the runtime library, the Python
  backend, the web site and the scripts: volume without new properties.
- `plan_param` and `_server_expr` themselves: a list of modes is the input of `Marshal`, and a size
  expression is any function of the parameters passed by value.
- Everything a request does besides the call: malformed requests are dispatched and recorded like
  any other, and end the connection in the protocol as `Break` does.
- The slots of `ClientThreads` are one map, with the live set and the order of the retired beside it,
  since the sweep treats live and retired alike.
- `Inventory` keys one map by which of the source's maps an entry is in, rather than six maps and a
  handle map; `vmm` ranges and mappings, which no teardown touches, and the order of releases at
  expiry are not modelled.
- `PrimariesTheorems.ExpiryFreesOnlyItsOwn`: for entries stamped with a device; for the others it is
  `Teardown.Session.Expire`.
- `PrimariesComplete.DeathIsForgotten`: assumes that a device's generation has not come to the one
  that marks an unknown place, 2^64 - 1 deaths on.
- `ClientThreads.Threads.ServeAll`: one way only, from runs that select no dead handle, because a view
  that was spoilt is right again once the dead entry is popped; the exact condition is on each call,
  in `ServeCall`.
- `Pending.NoWaitIsSafe`: one way only over runs; the exact condition is on each settle, in
  `SettleExact`.
- Liveness: that a reconnect succeeds, that a notice is ever sent, that a failure is ever told.
- Memory order of the relaxed flags: a flag read late delays a notice and nothing else, which is the
  `Pass` step.
