# Shared-memory min/max server: a Dafny model

The system is a POSIX shared-memory client/server pair. The server creates:

- a named semaphore `/sem_free`, the admission gate;
- a shared-memory segment `/shm_query`, which holds one query record.

The record carries the operation (`max = 0`, `min = 1`), a 30-byte name field, the element count, the result, and two process-shared semaphores, `sem_start` and `sem_stop`.

A client goes through these steps:

1. Count the integers in its input file.
2. Create its own data channel, `/shm_data_<pid>`, size and map it, and copy the integers in.
3. Wait on the gate.
4. Write the request into the record and post `sem_start`.
5. Wait on `sem_stop` and print the result the server left in the record.
6. Post the gate and release everything it created.

The server runs two threads:

- A processing thread. Each time it wakes on `sem_start`, it either exits (when the termination flag is set) or opens and maps the named channel and scans it for the leftmost minimum or maximum. It then updates a statistics counter and posts `sem_stop`.
- A user-interface thread. It reads the commands `stat`, `reset` and `quit`.

The project consists of these modules:

- `Common` (`common.dfy`) holds the shared pieces:
  - the constants;
  - the `find_type` encoding;
  - the query record;
  - the fixed-size name field with `strncpy` plus terminator;
  - `%d` rendering of the process id.
- `Reduction` (`reduction.dfy`) is the scan. It is a recursive definition that follows the loop, with a method that runs the loop itself. It is related to an independent "leftmost extremum" description in both directions.
- `Processing` (`processing.dfy`) covers one wake of the processing thread and the loop as a run over a sequence of wakes, including the accounting of `sem_stop` posts and statistics.
- `Control` (`control.dfy`) covers the user-interface thread: one command, and a run over a token sequence.
- `Client` (`client.dfy`) is the client's main function, as the sequence of resource actions it performs. Every outcome the client cannot decide is an input of the run. The trace is checked by `Replay` against `Allowed`, an independent statement of the client's obligations:
  - the record is touched only while the gate is held;
  - one size is used for `ftruncate`, `mmap` and `munmap`;
  - the request is complete before `sem_start` is posted;
  - the result is read only after `sem_stop`;
  - every path releases what it acquired.
- `Startup` (`startup.dfy`) is the server's main function in the same style. It covers every setup failure, the order of the cleanup ladder, and the shutdown after both threads finish.
- `Handshake` (`handshake.dfy`) is a transition system in which any number of clients, the processing thread and the user-interface thread interleave freely. All three semaphores are natural-number counters. Its inductive invariant `Inv` gives the results below:
  - at most one client holds the gate;
  - `sem_start`, `sem_stop` and the gate stay in {0, 1} until `quit`;
  - the record a waiting client's request is served from is that client's request;
  - the value a client reads is the extremum of its own numbers, or 0 when the server could not map its channel.

`Handshake.QuitStrandsWaitingClient` exhibits a behaviour of the program as written. Suppose `quit` arrives after a client posted `sem_start` but before the processing thread woke. The thread then takes the client's token, sees the flag and exits without posting `sem_stop`, so the client stays blocked forever.

Behaviours of the code worth noting:

- A request with `data_size <= 0` whose channel maps successfully leaves `return_value` as the previous request left it. The record has no status field, and no sentinel value is written.
- When the stop semaphore's initialisation fails, the start semaphore that was already initialised is not destroyed (`src/server.c:162-171`). `Startup.StartServing` and `Startup.ServerMain` state this in their contracts.

## Model

| member | source | states |
|---|---|---|
| Common.SystemNamesDistinct | src/common.h:15-18 | The gate and the record segment have different names, both shorter than the 30-byte name field. |
| Common.FindTypeEncoding | src/common.h:21-25 | `max` is stored as 0 and `min` as 1, and reading a stored kind back yields the kind that was stored. |
| Common.FromCode | src/common.h:22-25 | Decoding accepts exactly the codes 0 and 1, and each accepted code encodes back to itself. |
| Common.ZeroQuery | src/server.c:142-152 | The freshly sized record reads as all zeros: kind `max`, count 0, result 0, and a 30-byte name of NULs. |
| Common.WriteRequest | src/client.c:113-117 | The client writes kind, name field and count, and leaves the result slot as the server last left it. |
| Common.SingleRequestSlot | src/common.h:28-35 | The record has room for one request: writing a request replaces the previous one entirely, whatever else the record held, apart from the result slot. |
| Common.StoreName | src/client.c:114-115 | The name field is exactly 30 bytes, and its last byte is always a terminator. |
| Common.StoreNameReadsBack | src/client.c:114-115 | After `strncpy` of 29 bytes and an explicit terminator, the field always holds a terminator, and a C reader gets back the first 29 characters of the source name. |
| Common.FormatInt32Length | src/client.c:47-48 | Any 32-bit process id renders in at most 11 characters. |
| Common.FormatIntInjective | src/client.c:48 | Different integers render to different `%d` strings. |
| Common.DigitsRoundTrip | src/client.c:48 | Parsing the decimal digits of a number gives the number back. |
| Reduction.Extremum | src/server.c:86-96 | The scan's result is an element of the data, and no element is strictly better than it for the requested kind. |
| Reduction.ExtremumIndex | src/server.c:88-94 | The result is taken from the leftmost position that no element beats: every earlier element is strictly worse. |
| Reduction.LeftmostUnique | src/server.c:91 | Because the comparison is strict, at most one position is the leftmost extremum. |
| Reduction.ExtremumIsLeftmost | src/server.c:88-94 | A position is the leftmost extremum if and only if it is the one the scan took its result from. |
| Reduction.ExtremumMatchesReference | src/server.c:86-96 | A value is a member that no element beats if and only if it equals the scan's result. |
| Reduction.FindExtremum | src/server.c:87-96 | The loop over 32-bit elements returns the recursive definition's value, taken from the leftmost extremal position. |
| Reduction.WorkedExample | src/server.c:86-96 | For `3 1 4 1 5 9 2 6`, MIN gives 1 from the first of the two ones, and MAX gives 9. |
| Processing.ProcessWake | src/server.c:55-116 | One wake does one of four things. With the flag set, it exits with no post and no change. After an open or map failure, the result reads 0 and the statistics are unchanged. With `data_size <= 0`, it changes nothing. Otherwise the result is the leftmost extremum of the mapped data and exactly the matching counter goes up by one. Every wake that does not exit posts `sem_stop` exactly once, and the request fields are never written. |
| Processing.WakesBeforeQuit | src/server.c:57-64 | The number of wakes before the first one that sees the flag, which is the first wake at which the thread stops. |
| Processing.LoopAccounting | src/server.c:52-119 | Over any sequence of wakes, the loop posts `sem_stop` once per wake before the first one that sees the flag. It exits exactly when such a wake arrives. Each counter ends at its start plus the number of served requests of its kind. |
| Processing.CountersCountRequests | src/server.c:98-105 | Starting from zero and with no `quit`, K served MIN requests and M served MAX requests leave the counters at K and M. |
| Control.ParseCommand | src/server.c:23-44 | A token is `quit`, `stat` or `reset` exactly when it equals that word; anything else is unknown. |
| Control.Execute | src/server.c:19-46 | `quit` raises the flag, posts `sem_start` once and ends the loop. `reset` zeroes both counters and nothing else. `stat` reports the counters and changes nothing. An unknown word changes nothing. |
| Control.UiRunEffects | src/server.c:13-49 | Over any token sequence, the thread posts `sem_start` once if `quit` occurs and never otherwise, and raises the flag exactly then. It stops right after the first `quit`. The counters end at zero if a `reset` came before that point and are untouched otherwise. |
| Client.OpKind | src/client.c:117 | The kind written is `min` exactly for the token `min`. |
| Client.ChannelNameFits | src/client.c:47-48 | `snprintf` never truncates the channel name. The name is at most 21 characters and NUL-free, and two process ids give the same name if and only if they are equal. |
| Client.ReplayRecords | src/client.c:50 | A run creates a channel only under its own name. The holdings remember exactly whether a channel was created and whether the gate was waited on. |
| Client.LeaveGate | src/client.c:26-27 | Closing the gate handle completes the release of everything else. |
| Client.LeaveFile | src/client.c:37-41 | With no channel yet, closing the file and the gate handle releases everything. |
| Client.LeaveChannel | src/client.c:58-74 | A sizing or mapping failure closes and unlinks the channel, then the file and the gate handle. |
| Client.LeaveHeld | src/client.c:89-98 | A failure to open the record while holding the gate unmaps, closes and unlinks the channel, then gives the gate back. |
| Client.LeaveLinked | src/client.c:95-97 | Unlinking the channel, posting the gate once and closing the gate handle releases everything. |
| Client.LeaveRecord | src/client.c:132-133 | After the gate is given back, unmapping and closing the record releases it. |
| Client.LeaveMapped | src/client.c:134-137 | The channel is unmapped, closed and unlinked, and the gate handle is closed. |
| Client.LeaveUnmapped | src/client.c:136-137 | Unlinking the channel and closing the gate handle releases everything. |
| Client.DataPhase | src/client.c:37-84 | Zero integers fail with no channel created and no gate wait. Success happens exactly when every later step succeeds. Every path releases what it acquired. |
| Client.ChannelPhase | src/client.c:50-75 | The channel is sized and mapped with `count * 4` bytes. Either failure removes the channel and exits 1. |
| Client.FillPhase | src/client.c:77-87 | The channel is filled and the file closed before the gate is waited on. |
| Client.RequestPhase | src/client.c:89-139 | With the gate held, failing to open or map the record gives the gate back and exits 1. Otherwise the request is answered and everything is released. |
| Client.WriteRequest | src/client.c:113-117 | The name, count and kind are written while the gate is held and before `sem_start`. |
| Client.Signal | src/client.c:119-126 | The client posts `sem_start`, waits on `sem_stop`, and only then reads the result. |
| Client.Teardown | src/client.c:128-137 | Posting the gate, then unmapping and closing the record and the channel and unlinking the channel, releases everything. |
| Client.Session | src/client.c:15-28 | Without a server, the client fails holding nothing. Without the file, it closes the gate handle and fails. |
| Client.ClientMain | src/client.c:3-140 | A bad argument count or operation fails before anything is opened. Zero integers fail without creating a channel or waiting on the gate. Exit is 0 exactly when every step succeeded, and then the printed value is the one read from the record. Every run keeps the client's obligations and releases everything. |
| Startup.ReleaseGate | src/server.c:133-137 | Closing and unlinking the gate releases everything that is left. |
| Startup.ReleaseSegment | src/server.c:141-148 | Closing and unlinking the record segment, then the gate, releases everything. |
| Startup.ReleaseMapping | src/server.c:164-172 | Unmapping the record, then releasing the segment and the gate, releases everything. |
| Startup.ReleaseSemaphores | src/server.c:178-186 | Both record semaphores end destroyed, and unmapping and releasing the rest releases everything. Threads and the gate's opening are left as they were. |
| Startup.CreateObjects | src/server.c:126-161 | The gate is created first, with value 0. A failure of any later creation step releases the objects made so far and exits 1. Success leaves the record sized and mapped. |
| Startup.StartServing | src/server.c:162-186 | Exit is 0 exactly when no step fails, and only then does the gate open. Every failure releases the names and the mapping with no thread started. A failed thread start destroys both semaphores. A failed stop initialisation leaves the start semaphore initialised. |
| Startup.FinishSetup | src/server.c:162-186 | With the start semaphore initialised, a failed stop initialisation releases the names and the mapping but leaves the start semaphore initialised. Otherwise the threads start as `StartThreads` states. |
| Startup.StartThreads | src/server.c:173-205 | On success, the user-interface thread starts, then the processing thread, then the gate is posted. On failure, both semaphores are destroyed and everything is released without opening the gate. |
| Startup.OpenGate | src/server.c:176-205 | The gate is posted only after both semaphores exist and both threads run, the user-interface thread first. |
| Startup.Shutdown | src/server.c:208-221 | The threads are joined first. Then both semaphores are destroyed and everything is unmapped, closed and unlinked. |
| Startup.ServerMain | src/server.c:120-226 | Exit is 0 exactly when setup succeeded. If the gate cannot be created, nothing else is attempted. The gate is opened exactly when setup succeeded. Every run keeps the server's obligations and leaves no name, mapping or running thread behind. Both record semaphores end destroyed, except that a failed stop initialisation leaves the start semaphore initialised. |
| Startup.PostedRecorded | src/server.c:204-205 | The holdings record that the gate was posted exactly when the trace posts it. |
| Startup.GateAtMostOne | src/server.c:126-205 | The server's own contribution to the gate is at most one token, and exactly one once it has posted. |
| Handshake.Lookup | src/server.c:67-84 | The server maps exactly the channel whose name the record's field reads as, when it exists with the recorded size. Otherwise the open or the mapping fails. |
| Handshake.WaitingChannelMatches | src/server.c:67-84 | While a client waits, the server opening the channel named in the record finds that client's channel, with exactly the recorded number of elements, so the mapping succeeds and yields that client's numbers. |
| Handshake.InitialInv | src/server.c:126-166 | Right after setup, the gate and both record semaphores are zero, and no client holds or waits. |
| Handshake.StepInv | src/client.c:86-129 | Every step of any client, of the processing thread and of the user-interface thread keeps the invariant. |
| Handshake.OpenGateInv | src/server.c:204-205 | The server's single post of the gate creates the one admission token. |
| Handshake.CreateInv | src/client.c:50-84 | Creating and filling a channel does not disturb any other client's channel, because names are distinct. |
| Handshake.AcquireInv | src/client.c:87 | Taking the gate moves its token from the semaphore to the client. |
| Handshake.AbortInv | src/client.c:89-111 | A client that cannot reach the record gives the token back and removes only its own channel. |
| Handshake.PostInv | src/client.c:113-120 | Only the holder writes the record, and no other client is waiting when it does. |
| Handshake.CollectInv | src/client.c:123-126 | The value a client reads after `sem_stop` is the answer to its own request. |
| Handshake.ReleaseInv | src/client.c:129-136 | Posting the gate returns the token, and unlinking removes only the client's own channel. |
| Handshake.ServeInv | src/server.c:55-116 | A wake with the flag clear serves the waiting client's request from that client's own channel and posts exactly one answer. |
| Handshake.UniqueHolder | src/client.c:86-129 | No two clients hold the gate at once. |
| Handshake.RunKeepsInv | src/client.c:86-129 | Every state a schedule reaches keeps the invariant, and the client requests never change. |
| Handshake.OneClientAtATime | src/client.c:86-129 | Under any interleaving, at most one client is between its wait on the gate and its post of it. |
| Handshake.SemaphoresStayBinary | src/server.c:57-115 | Until `quit`, the gate, `sem_start` and `sem_stop` hold only 0 or 1. |
| Handshake.AnswersAreOwn | src/client.c:113-126 | Whatever the interleaving, the value a client reads is the extremum of its own numbers when the server mapped its channel, and 0 when it could not. |
| Handshake.QuitStrandsWaitingClient | src/server.c:57-64 | Suppose `quit` comes between a client's post and the server's wake. The thread exits on the client's token, and the client is left waiting on `sem_stop` with nobody left to post it. |

## Left out

- Parsing the input file with `fscanf` is not modelled, including the second pass that stops early at a read error (`src/client.c:31-35`, `src/client.c:78-83`). The integers are an input sequence, and the fill is one action.
- Reading commands with `scanf("%9s")` is not modelled. Tokens are an input sequence, and the 9-character cut and whitespace splitting are not.
- `printf` and `perror` output is not modelled. The client's printed value is the run's `output`; the server's messages are omitted.
- The server's stale-name cleanup at startup (`src/server.c:123-124`) is not modelled. The model starts from a system with neither name present.
- The failure path when the processing thread cannot start (`src/server.c:188-202`) is not modelled. It sets the flag and joins a user-interface thread that only a `quit` can end.
- Crashes and signals are not modelled. Every party runs its code to completion or blocks.
- Real operating-system semantics are abstracted. Semaphores are counters. Each open, size or map call succeeds or fails as an input says. `sizeof(struct query_t)` is left abstract.
- Processing.ProcessWake: the statistics counters are natural numbers, so the wrap-around of the C `int` counters after 2^31 requests is not modelled.
- Client.ClientMain: requires at most `2^31 - 1` integers, because `num_of_data` is an `int` and a larger count would overflow before `ftruncate`.
- Handshake.Lookup: a channel whose size disagrees with the record counts as a failed mapping. The source behaves differently. For a smaller channel it maps `data_size * 4` bytes and reads past the object's end. For a larger channel it maps and scans only the first `data_size` elements. No reachable state has such a mismatch: `Handshake.WaitingChannelMatches` shows that the record and channel invariants make the sizes equal whenever a client waits.
- Handshake.StepInv: one wake of the processing thread is a single step. Between its check of the flag and its post of `sem_stop`, the thread shares only the mutex-protected counters with the other thread, so finer interleavings add no new states of the record or the semaphores.
- Handshake.StepInv: the client steps before channel creation (argument checks, gate handle, file) and after unlinking (closing handles) are left to `Client`. The handshake starts from a filled channel.
