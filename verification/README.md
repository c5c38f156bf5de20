# A model of redis-cerberus

redis-cerberus is a proxy for a Redis Cluster.  Each of its threads runs one event loop: it reads
requests from clients, cuts them into commands for single slots, sends those to the nodes of the
cluster, matches the replies, follows redirections by fetching a new slot map, and writes the replies
back in the order of the requests.

The project models five parts of it and proves what they promise.

**The life of a command.**  `ThreadState` gives the state of one thread and every transition of its
event loop; a callback is one atomic step, and sockets and nodes are an environment that does what it
likes: nodes may redirect, fail, reset or refuse connections, clients may send garbage, hang up or read
slowly.  `ThreadInvariants` states what every reachable state satisfies, `CommandSteps`, `ServerSteps`,
`ClientSteps` and `RoundSteps` prove it step by step, `ThreadSafety` puts the steps together for every
event and every run, `ThreadTheorems` draws the conclusions, and `Stalling` shows when a client gets
stuck.  What the events do is stated apart: `Selecting` says where commands go, `Reading` what becomes of
requests, `Replying` what becomes of replies, and `Rounds` which slot map is adopted and when.
`EventLoop` is the loop as it runs, an object whose methods update its fields in place; every method is
proved to make the transition of the model (`LoopSteps` holds the lemmas its loops need).

**The splitter.**  `Resp` is the grammar of the Redis serialization protocol, `SplitterModel` the parser
as a function, `SplitterProofs` and `Streams` its behaviour on whole and cut messages and on any chunking
of a stream, `Splitter` the parser as it runs.  `Responses` and `ClientSplitter` are its two consumers,
with `ClientLoop` the latter as it runs.

**The gather writer.**  `Gather`: buffers, offsets and partial writes.

**Slots.**  `Crc16`, `CrcTable` and `SlotCalc`: the slot of a key.  `SlotTable`: the table of servers.
`Routing`: the table of a thread is that table, and its slots lead to their nodes.

**Fan-out.**  `Commands` and `ClientRequests`: what node commands a request becomes.  `Fanout` and
`FanoutGroups`: MGET, MSET and DEL.  `RenameSteps`: RENAME.  `Decimal` and `DecimalText`: the numbers in
the headers.

`Layers` joins the parts: the requests and replies that the splitters cut out of the bytes are those the
events of a thread carry, and the stages of a RENAME in a thread are those of the command.  `Journeys` follows
a request from its bytes to the queue of the node that has its key.

## Laws that fail

Eight laws one would expect do not hold of the code.  Each has a concrete counterexample and the exact
condition under which it does hold.

- Answered replies are always written in the end.  Not if the first `writev` of a callback stops short
  while more than 256 groups are ready or awaited and the second one completes
  (`Stalling.StallsExactly`); once such a client is no longer watched for writing it is stuck for good
  (`StuckStays`, `WatchedRecovers`, `StallHappens`).
- A server connection sends every request whole.  Not after `BufferSet::clear`, which keeps the offset
  into a buffer that is gone, if one was partly written (`Gather.Reuse`, `LosesBytes`, `OverrunsVector`).
- The address map leads to open servers at their addresses.  Not once a connection is refused: the
  server stays in the pool, yet is registered, and the next node gets the same one
  (`ThreadTheorems.GetServerAddressedIff`, `RefusedMisroutes`).
- A RENAME that answers OK has renamed.  Not if its DEL fails (`RenameSteps.ToldOkRenamedIff`,
  `FailedDelHidden`).
- An MSET that answers OK has set its keys.  Not if a SET fails that no later pair overtakes
  (`FanoutGroups.MSetKeepsMeaningIff`, `FailedSetHidden`).
- A DEL answers the number of keys removed.  Not if an error of a node holds the character 1
  (`FanoutGroups.DelKeepsMeaningIff`, `ErrorCountsAsKey`).
- The servers closed by a new slot map are those no longer in the table.  Not if the map is partial and
  a server keeps an uncovered slot while it loses another (`SlotTable.ClosesExactlyIff`,
  `PartialCoverCloses`).
- A sub-command is what `format_command` would print.  Not if the client wrote a length with leading
  zeros; it is still read as the same command (`ClientRequests.FormatsIff`, `LeadingZeroDiffers`,
  `FanoutGroups.EachKeyOps`).

## Conventions of the model

- Objects are records in tables, named by identity; a reference to a command is the triple of its
  client, group and position.  A client's peers are kept in a table beside it.  The set of servers to
  close is walked in the order of identities.
- A group of one command counts down from 1, where the program tells its client at once.
- `wire`, `log`, `arrived`, `written`, `conn` and the thread's `refused` are histories that the program
  does not keep.
- An event is one callback.  A client's may read and write; one that fails while writing is such a
  callback followed by `HangUp`, and a server's that fails while writing is `Serve` followed by `Reset`.
  `interest` is the client's entry in `_conn_poll_type`, `watched` what the poller was last told; the
  poller reports writing only of what is watched.
- The registrations are carried out twice at the end of every turn.  The source does so the second time
  only after a new round, and otherwise there is nothing left to carry out.
- What a node answers, which bytes a descriptor takes, what an updater learns and how many updaters
  connect are arguments of events, or any choice of a `Socket`.  A `write` of some bytes takes at least
  one or fails.
- The notices a splitter gives its consumer are kept in a list and handed on afterwards; the consumers
  never influence the parser.
- `btoi` on an empty range is interrupted.  A negative length of a bulk string is `Undefined`.

## Model

| member | source | states |
|---|---|---|
| `ThreadTheorems.CommandsConserved` | core/server.cpp:47-176 | in every reachable state an issued command that is not answered is in exactly one place, once (one server's queue, one server's sent queue, or the retry list), its group is awaited by its client, and no other command is in any place |
| `ThreadTheorems.RepliesMatch` | core/server.cpp:47-111 | every reply ever handed to a command was the node's answer to that command, at that stage, on that connection; and the sent queue of each connection stands entry by entry against what its node was asked, nulled and READONLY entries included |
| `ThreadTheorems.NothingSleeps` | core/proxy.cpp:281-321 | at the end of every turn, a command to retry or an expired slot map implies an update round with an updater still open, and no closed client is left |
| `ThreadTheorems.SweptOnce` | core/proxy.cpp:185-193 | the commands swept when a round fails are all the outstanding ones, each once |
| `ThreadTheorems.GivingUpDrains` | core/proxy.cpp:159-194 | after a failed round: mapped servers closed, every queue and the retry list empty, every awaiting count 0, and each command that was outstanding answered |
| `ThreadTheorems.FailedRoundDrains` | core/proxy.cpp:93-100 | the same for the event in which the last updater of a reachable state reports too few slots |
| `ThreadTheorems.NoNodeDrains` | core/proxy.cpp:196-217 | the same for a turn that ends with a round due and no node to ask |
| `ThreadTheorems.RepliesInOrder` | core/client.cpp:74-119 | for every client, groups written, then in the output, then awaited, then parsed, form the arrival order without repetition, and every command of a group in the output is answered |
| `ThreadTheorems.CountersAndBounds` | core/client.cpp:121-185 | for every client: the awaiting count is the number of awaited groups with an unanswered command, each group counter is the number of its unanswered commands, at most 256 ready and 128 awaited groups, 64 while output is pending; output is pending exactly while ready groups are kept; an open client with parsed groups awaits some or has output |
| `ThreadTheorems.NoDanglingReference` | core/server.cpp:89-111 | every reference in a queue is to a live command of a live client, and a server that holds one is a peer of that client |
| `ThreadTheorems.ClosedClientsForgotten` | core/client.cpp:24-30 | a client that closed is gone at the end of the turn, and no queue refers to any of its commands |
| `ThreadTheorems.OutputWatched` | core/proxy.cpp:264-321 | at the end of every turn each client with replies to be written is watched for writing |
| `ThreadTheorems.PoolDiscipline` | core/server.cpp:126-133 | the pool holds exactly the closed servers, each once and with empty queues; as long as no connection has been refused, the address map holds exactly the open ones, each under its own address |
| `ThreadTheorems.GetServerAddressedIff` | core/server.cpp:204-232 | asking for the server of an address keeps the address map right if and only if the address is known or its connection is not refused |
| `ThreadTheorems.RefusedMisroutes` | core/server.cpp:204-232 | a run of one round in which the first of two nodes refuses its connection: its slot is then served by the second node |
| `Stalling.StallsExactly` | core/client.cpp:109-119 | the law that answered groups never wait with no output pending is false; an event breaks it if and only if it is a callback with a write notification, on a client that after the reading is crowded, in which the first writev stops short and the second completes |
| `Stalling.StuckStays` | core/client.cpp:32-60 | a stalled client that is not watched for writing keeps the same groups unsent through every event whatsoever, until it leaves |
| `Stalling.WatchedRecovers` | core/client.cpp:32-60 | a stalled client that is still watched goes on with its next write notification |
| `Stalling.StallHappens` | core/client.cpp:145-179 | a concrete run of whole turns after which a client is stuck: five reads of requests that need no node, then one split write |
| `ThreadSafety.OnEventsCore` | core/client.cpp:32-60 | a callback of a client, with any reading and writing, keeps the invariant and the bounds, and stalls exactly by a split write |
| `ThreadSafety.GarbleSafe` | core/client.cpp:52-55 | requests before a bad byte are parsed and never issued; the invariant is kept |
| `ThreadSafety.PollSafe` | core/proxy.cpp:264-279 | carrying out the registrations keeps the invariant, and every open client with output is then watched for writing |
| `ThreadSafety.ApplySafe` | core/proxy.cpp:281-321 | every event keeps the whole invariant of the thread |
| `ThreadSafety.RunSafe` | core/proxy.cpp:281-321 | so does every run |
| `ThreadSafety.TurnEndSafe` | core/proxy.cpp:308-321 | the end of a turn keeps the invariant and leaves nothing asleep and no output unwatched |
| `ServerSteps.RecvFromCore` | core/server.cpp:58-87 | matching replies to sent commands keeps every reference conserved and every connection aligned |
| `ServerSteps.CloseConnCore` | core/server.cpp:148-176 | closing a server moves all it held to the retry list and keeps the invariant |
| `ClientSteps.DepartCore` | core/client.cpp:24-30 | destroying a client removes every reference to its commands, nulls its sent entries in place and keeps the invariant |
| `ClientSteps.WriteResponseCore` | core/client.cpp:109-119 | writing keeps the order and bounds of the client's lists |
| `RoundSteps.ReplaceMapCore` | core/slot_map.cpp:56-61 | replacing the table leaves commands only on servers of the new table |
| `RoundSteps.DiscardAllCore` | core/proxy.cpp:185-193 | discarding leaves nothing outstanding |
| `Journeys.KeyFindsNode` | core/command.cpp:1109-1119 | from bytes to node: after an updater has reported a full map of the cluster, a standard command, read as part of any stream of requests, is queued on an open connection to the node that covers the slot of its key |
| `Journeys.MapReportRoutes` | core/proxy.cpp:218-227 | after the event in which an updater reports a full map, every slot leads over an open connection to the address chosen for its node; the round is over |
| `Journeys.CommandReaches` | core/client.cpp:121-133 | every command of a request that is read and issued is queued, in that event, for the address its slot leads to |
| `Journeys.StandardReachesNode` | core/command.cpp:37-53 | a standard command goes where the slot of its first argument leads |
| `Journeys.FanReachesNodes` | core/command.cpp:202-268 | each command of an MGET, MSET or DEL goes where the slot of the key its node will read in it leads |
| `Selecting.SelectRoutes` | core/command.cpp:25-53 | a command of one slot joins the queue of the open server the table has for that slot, and nothing else changes but its peers |
| `Selecting.SelectRetries` | core/command.cpp:25-35 | if the table has no open server for it, it joins the retry list, and nothing else changes |
| `Selecting.SelectRename` | core/command.cpp:55-78 | the SET of a RENAME goes by the slot of the new key, its GET and DEL by that of the old one |
| `Selecting.ProcessIssues` | core/client.cpp:145-179 | exactly the first 64 parsed groups, or all if there are fewer, are issued, in order |
| `Selecting.ProcessPlaces` | core/client.cpp:145-179 | and each of their commands is in the queue of the server its slot leads to, or in the retry list |
| `Reading.PushedInOrder` | core/client.cpp:192-195 | requests become parsed groups in order, each with one unanswered command for each it needs, none issued |
| `Reading.ReadArrives` | core/client.cpp:121-133 | whatever a client awaits and however its writes go, every request read arrives, in order |
| `Reading.ReadEvent` | core/client.cpp:121-133 | each new group has the commands of its request; the first 64 are issued if nothing was awaited, else all wait |
| `Reading.ReadPlaces` | core/client.cpp:121-133 | the commands issued by a read are in the queue of the server their slot leads to, or in the retry list |
| `Reading.WriteEvent` | core/client.cpp:109-119 | what is ready counts as written exactly when a writev says so |
| `Reading.LastReplyWritten` | core/client.cpp:74-88 | when the last reply has gone out, its groups are freed and the client has no peers |
| `Reading.AskedStays` | core/proxy.hpp:101-109 | a registration for writing asked for in a turn is not withdrawn by any callback of it |
| `Replying.ReplyReaches` | core/server.cpp:58-87 | the i-th reply of a batch reaches the command sent i-th: redirected, it is retried as it was; else a command of one slot is answered and a RENAME goes on |
| `Replying.NulledDropped` | core/server.cpp:58-87 | replies to nulled entries change nothing |
| `Replying.ServeSends` | core/server.cpp:47-56 | what is queued is sent, in order, each command at the stage it is in |
| `Replying.ServeDrains` | core/server.cpp:17-45 | after any batch of replies the queue is empty, and what was queued stands behind what is still to be answered |
| `Replying.ResetEnds` | core/server.cpp:148-176 | a lost connection: closed, unregistered, pooled, and all it held in the retry list |
| `Replying.ResetKeepsOrder` | core/server.cpp:156-167 | commands are retried in the order they were queued and sent |
| `Replying.ExcessEnds` | core/server.cpp:66-75 | more replies than were asked for end the connection likewise |
| `Rounds.RetryAllPlaces` | core/proxy.cpp:142-152 | every command retried is in the queue of the server its slot leads to, or in the retry list; the map expires exactly if some slot leads nowhere |
| `Rounds.FullMapAdopted` | core/proxy.cpp:218-227 | a report that covers every slot ends the round, its table is in force, and the commands that waited have been retried |
| `Rounds.PartialMapWaits` | core/proxy.cpp:159-165 | a lesser report, with another updater open, is only kept |
| `Rounds.LargestMapAdopted` | core/proxy.cpp:168-182 | when full coverage is not required, the last report brings a map that covers the most slots of all those reported |
| `Rounds.ReportsOnce` | core/proxy.cpp:93-100 | an updater that has closed changes nothing any more |
| `Rounds.RoundStarts` | core/proxy.cpp:234-238 | with no round under way, a turn starts one, with every updater that could connect, if and only if a command waits, the map has expired, or a server that had events is closed |
| `Rounds.RoundGoesOn` | core/proxy.cpp:234-238 | a round under way is left alone |
| `Rounds.ResetStartsRound` | core/server.cpp:135-140 | losing a connection starts a round, even if it held nothing |
| `Rounds.ExpireStartsRound` | core/proxy.cpp:229-232 | so does a notice to update |
| `Rounds.OpenClientsStay` | core/client.cpp:62-67 | exactly the clients that have not closed outlive a turn |
| `Rounds.HangUpLeaves` | core/client.cpp:34-36 | a client that hangs up is gone at the end of the turn, and the others stay |
| `Rounds.ConnectGreets` | core/server.cpp:191-202 | a new connection has nothing on it but, in read-slave mode, the greeting |
| `EventLoop.ProxyThread.SelectRemote` | core/command.cpp:249-254 | every command of a group selects its server, in order |
| `EventLoop.ProxyThread.PushAwaitingsToReady` | core/client.cpp:90-107 | moves all awaited groups to the output, unless one is unanswered or too many responses are kept |
| `EventLoop.ProxyThread.PushToBufferSet` | core/server.cpp:47-56 | the queue joins the sent queue in order |
| `EventLoop.ProxyThread.Requeue` | core/server.cpp:156-167 | queued commands, then sent ones that are not nulled, go back for retrying |
| `EventLoop.ProxyThread.CloseConn` | core/server.cpp:148-176 | the transition of a closing server, registration and pool included |
| `EventLoop.ProxyThread.RecvFrom` | core/server.cpp:58-87 | walks the live sent queue while callbacks run, then shortens it: the same as taking the replies off first |
| `EventLoop.ProxyThread.IssueGroups` | core/client.cpp:149-163 | issuing while the parsed list is still whole is issuing its first groups one by one |
| `EventLoop.ProxyThread.Process` | core/client.cpp:145-179 | issues at most 64 parsed groups |
| `EventLoop.ProxyThread.SendBufferSet` | core/client.cpp:74-88 | when the output is drained, its groups are freed and more are issued |
| `EventLoop.ProxyThread.WriteResponse` | core/client.cpp:109-119 | the two writes of a write notification |
| `EventLoop.ProxyThread.PushCommands` | core/client.cpp:192-195 | every request becomes a parsed group |
| `EventLoop.ProxyThread.ReadRequest` | core/client.cpp:121-133 | requests are parsed, and issued if nothing is awaited |
| `EventLoop.ProxyThread.OnEvents` | core/client.cpp:32-60 | one callback: what was read, the two writes, and the registration asked for |
| `EventLoop.ProxyThread.Garble` | core/client.cpp:32-60 | one callback in which a bad byte follows some requests: they are pushed, not processed, and the client closes |
| `EventLoop.ProxyThread.PopClient` | core/server.cpp:95-111 | queued commands of the client are erased, sent ones nulled in place |
| `EventLoop.ProxyThread.ForgetRetries` | core/proxy.cpp:349-361 | the retry list forgets the client |
| `EventLoop.ProxyThread.Depart` | core/client.cpp:24-30 | every peer, the retry list and the tables forget the client |
| `EventLoop.ProxyThread.Connect` | core/server.cpp:191-232 | the last pooled server is opened, greeted in read-slave mode, and registered; or, refused, it is closed, stays in the pool and is registered all the same |
| `EventLoop.ProxyThread.GetServer` | core/server.cpp:223-232 | the open server of an address, allocated, and perhaps refused, if there is none |
| `EventLoop.ProxyThread.AssignSlots` | core/slot_map.cpp:40-46 | slots are pointed at a server; the servers they pointed at are returned |
| `EventLoop.ProxyThread.AssignTargets` | core/slot_map.cpp:34-47 | the loop over the nodes |
| `EventLoop.ProxyThread.CloseServers` | core/slot_map.cpp:56-61 | a set of servers is closed, in order |
| `EventLoop.ProxyThread.ReplaceMap` | core/slot_map.cpp:56-61 | the table is replaced, and servers that lost slots and got none are closed |
| `EventLoop.ProxyThread.RetryCommands` | core/proxy.cpp:142-152 | every command to retry selects a server again; one that finds none expires the map |
| `EventLoop.ProxyThread.SetSlotMap` | core/proxy.cpp:129-157 | the new table, then the retries |
| `EventLoop.ProxyThread.AnswerCommands` | core/proxy.cpp:189-192 | every command given up is answered with the error |
| `EventLoop.ProxyThread.Candidate` | core/proxy.cpp:170-176 | the first updater that covers the most slots |
| `EventLoop.ProxyThread.UpdateFailed` | core/proxy.cpp:159-194 | waits, adopts the best partial map, or gives up |
| `EventLoop.ProxyThread.RetrieveSlotMap` | core/proxy.cpp:196-217 | a round is opened, or fails at once |
| `EventLoop.ProxyThread.AfterEvents` | core/proxy.cpp:310-312 | closed clients are destroyed |
| `EventLoop.ProxyThread.ServeServer` | core/server.cpp:17-45 | one callback: replies are matched, then what is queued is sent |
| `EventLoop.ProxyThread.PollControl` | core/proxy.cpp:264-279 | the registrations asked for are carried out, whatever their order |
| `EventLoop.ProxyThread.EndTurn` | core/proxy.cpp:309-321 | the end of a turn: nothing is left asleep and no output unwatched |
| `EventLoop.ProxyThread.Dispatch` | core/proxy.cpp:293-307 | one callback makes the transition of the model and keeps the invariant |
| `EventLoop.ProxyThread.HandleEvents` | core/proxy.cpp:281-335 | any list of events and the end of the turn: the invariant holds, nothing sleeps, and output is watched |
| `Gather.WriteSingle` | core/buffer.cpp:100-112 | what was accepted and what is left of the buffer are together what was left before; done exactly when the offset reaches the end |
| `Gather.Advance` | core/buffer.cpp:134-141 | after n bytes the vector describes exactly the buffers from the offset the n-th byte falls in; the loop stays within the vector |
| `Gather.WriteVec` | core/buffer.cpp:114-144 | accepted bytes followed by pending bytes are unchanged by any pattern of partial writes; stops only when the descriptor refuses |
| `Gather.NextGroup` | core/buffer.cpp:146-163 | the vector describes a non-empty prefix of the buffers, its size is the bytes pending in it, and it is as long as the two limits allow |
| `Gather.BufferSet.Writev` | core/buffer.cpp:165-183 | for any buffers and offset: the vector overruns its buffer exactly when the offset is past the first of two gathered ones; else accepted followed by pending is kept, true exactly when nothing is left, false only when the descriptor took no more; after a broken connection only a prefix went out |
| `Gather.Drive` | core/buffer.cpp:165-183 | for every sequence of appends and writev calls, every pattern of partial writes and every offset left over from before: nothing is repeated or reordered, exactly the bytes the offset takes off the first buffer are lost, and accepted followed by pending is all that was appended if and only if there was no such offset (or it meets only an empty buffer, within bounds) |
| `Gather.Reuse` | core/buffer.hpp:121-124 | the same after clear: what a server object sends on its next connection is whole if and only if no buffer was partly written when it closed |
| `Gather.LosesBytes` | core/buffer.hpp:121-124 | a run: a blocked writev, clear, append, writev, and the first two bytes of the next request are lost |
| `Gather.OverrunsVector` | core/buffer.cpp:114-144 | a run in which the next writev gathers two requests and its vector leaves the first |
| `Crc16.EightLinear` | core/slot_calc.cpp:40-43 | eight shifts of the CRC are linear |
| `Crc16.HighByte` | core/slot_calc.cpp:40-43 | eight shifts move the low byte up and leave the shifts of the high byte |
| `Crc16.ByteStep` | core/slot_calc.cpp:40-43 | one table lookup is the eight shifts of one byte, whatever the unmasked upper bits are |
| `CrcTable.TableRight` | core/slot_calc.cpp:5-38 | every one of the 256 entries is eight shifts of its index |
| `SlotCalc.CrcNextByte` | core/slot_calc.cpp:40-43 | the low 16 bits of the accumulator take one byte of the bit-by-bit CRC-16/XMODEM |
| `SlotCalc.KeySlotCalc.NextByte` | core/slot_calc.cpp:64-93 | one more byte, in any of the four states |
| `SlotCalc.KeySlotCalc.BetweenByte` | core/slot_calc.cpp:73-88 | between the braces: an empty tag falls back to the whole key |
| `SlotCalc.TaggedKey` | core/slot_calc.cpp:64-93 | of a key with a hash tag only the tag counts |
| `SlotCalc.PlainKey` | core/slot_calc.cpp:64-71 | a key without an opening brace counts whole |
| `SlotCalc.OpenKey` | core/slot_calc.cpp:73-88 | so does one whose first opening brace is never closed |
| `SlotCalc.BareBraces` | core/slot_calc.cpp:73-80 | and one whose first opening brace is closed at once |
| `SlotCalc.SlotOfFoo` | core/slot_calc.cpp:59-62 | the slot of "foo" is 12182 |
| `SlotCalc.SlotOf` | core/slot_calc.cpp:45-93 | for every key the streaming automaton gives the slot of the Redis Cluster specification |
| `SplitterProofs.ParseWhole` | core/message.hpp:91-132 | a whole well-formed message is consumed, reports what it holds, and completes one element of whatever array is open |
| `SplitterProofs.ParseShort` | core/message.hpp:91-132 | a message cut anywhere adds no split point and does not look finished |
| `Streams.SplitStream` | core/message.hpp:302-313 | on every prefix of a well-formed stream the split points are exactly the boundaries of the whole messages, and the splitter looks finished if and only if the bytes end on one |
| `Streams.KeptTail` | core/response.cpp:115-125 | clearing when finished and truncating at the last split point otherwise both keep exactly the incomplete tail |
| `Streams.AnyChunks` | core/message.hpp:302-313 | for any splitter with that property and every way of cutting a stream into chunks, append-split-truncate yields the outputs of the whole messages in order and keeps the incomplete tail |
| `Streams.SplitGarbled` | core/message.hpp:302-313 | when a byte that starts no message follows whole ones, it is met after everything before it has been reported |
| `Splitter.ReadUnsigned` | core/message.hpp:26-41 | computes the number and where it ends, or is interrupted |
| `Splitter.ParseSimple` | core/message.hpp:54-67 | the end of a line, or interrupted |
| `Splitter.MessageSplitter.OnElement` | core/message.hpp:141-153 | counts down the open arrays, recursively, and splits when none is open |
| `Splitter.MessageSplitter.Parse` | core/message.hpp:91-132 | the recursive descent on live fields is the descent of the model |
| `Splitter.MessageSplitter.ParseElements` | core/message.hpp:120-123 | the loop over the elements of an array |
| `Splitter.SplitBy` | core/message.hpp:302-313 | splitting a buffer is the fold of the model; finished exactly when the model is |
| `Responses.StartsWith` | utils/string.cpp:10-26 | prefix test without regard to case |
| `Responses.MessageConsumed` | core/response.cpp:107-110 | what a message reports leaves behind its last error, at any depth |
| `Responses.ServerSplits` | core/response.cpp:115-125 | on a prefix of a stream of replies: one response for each whole reply, a retry exactly when its last error redirects, and the rest stays |
| `Responses.ServerAnyChunks` | core/response.cpp:115-125 | however the replies are cut into chunks: the response of each whole one, in order, and exactly the incomplete one kept |
| `Responses.ErrorReply` | core/response.cpp:81-93 | an error is retried if and only if its text begins with MOVED, ASK or CLUSTERDOWN in any case of letters; any other is handed on with its bytes |
| `Responses.ErrorBytes` | core/response.cpp:115-125 | the same from the bytes on the wire |
| `Responses.ArrayReply` | core/response.cpp:81-110 | an array is judged by the last error in it |
| `Responses.CleanArrayReply` | core/response.cpp:81-110 | an array without errors is handed on |
| `Responses.SplitServerResponse` | core/response.cpp:115-125 | the split of the model, computed |
| `Commands.Join` | utils/string.cpp:111-131 | values with a separator between them |
| `Commands.FormatCommand` | core/message.cpp:4-15 | prints exactly the encoding of the command |
| `Commands.FormatRoundTrip` | core/message.cpp:4-15 | for every command and arguments of any bytes, splitting the print reports exactly those strings, in order, and one split point, at the end |
| `DecimalText.NumeralReads` | core/message.hpp:26-41 | a numeral reads back as its number |
| `ClientRequests.NameCaseIgnored` | core/command.cpp:1042-1057 | names that differ in the case of ASCII letters only make the same kind of request, by the same slots |
| `ClientRequests.LookedUpApart` | core/command.cpp:1042-1048 | names that are looked up as one differ in case only |
| `ClientRequests.LookedUpAsIs` | core/command.cpp:1042-1048 | a name without lower-case letters is looked up unchanged |
| `ClientRequests.StandardRequest` | core/command.cpp:1059-1067 | a standard command goes out byte for byte, by the slot of its first argument; without one it is an error |
| `ClientRequests.RenameRequest` | core/command.cpp:667-700 | a RENAME goes out whole if its keys share a slot; else each key goes by its own |
| `ClientRequests.MalformedRequest` | core/command.cpp:448-463 | the numbers of arguments for which a client gets an error at once, for each kind of command, and no others |
| `ClientRequests.AnswersAreErrors` | core/command.cpp:1062-1064 | what is answered at once is an error reply |
| `ClientRequests.NodeCommandFormats` | core/command.cpp:448-463 | a sub-command over canonically written arguments is what format_command prints for it |
| `DecimalText.NumeralIff` | core/message.cpp:4-15 | a decimal text is the numeral of its number if and only if it has no leading zero |
| `ClientRequests.CanonicalIff` | core/command.cpp:438-463 | an argument is written as format_command writes it if and only if its length has no leading zero |
| `ClientRequests.FormatsIff` | core/command.cpp:438-463 | a sub-command is byte for byte what format_command prints if and only if the client wrote its lengths without leading zeros |
| `ClientRequests.LeadingZeroDiffers` | core/command.cpp:438-463 | a well-formed request whose sub-command is written in other bytes |
| `ClientSplitter.SpawnEachKey` | core/command.cpp:438-463 | the points kept by the parser of MGET and DEL cut out exactly the encoding of each key |
| `ClientSplitter.SpawnPairs` | core/command.cpp:553-581 | those of MSET cut out each key with its value; an odd number of arguments is an error |
| `ClientSplitter.SpawnRename` | core/command.cpp:667-700 | RENAME with two keys goes to one slot whole, or to two slots with its keys apart; any other number of arguments is an error |
| `ClientSplitter.RequestConsumed` | core/command.cpp:1007-1075 | a request, consumed string by string, makes exactly what the request means |
| `ClientSplitter.ClientSplits` | core/command.cpp:1109-1119 | on a prefix of a stream of requests: one request for each whole message, and the rest stays |
| `ClientSplitter.ClientAnyChunks` | core/command.cpp:1109-1119 | however the requests are cut into chunks: each whole one handled as what it means, in order, and exactly the incomplete one kept |
| `ClientSplitter.GarbledSplits` | core/command.cpp:1109-1119 | when a bad byte follows some requests, exactly they have been pushed by then, each as what it means |
| `ClientLoop.SpawnKeys` | core/command.cpp:456-461 | the loop that builds the commands of MGET and DEL |
| `ClientLoop.SpawnPairs` | core/command.cpp:574-579 | the loop that builds the commands of MSET |
| `ClientLoop.SplitClientCommand` | core/command.cpp:1109-1119 | the split of the model, computed; when it throws on a bad byte, the requests before it are there |
| `Fanout.StepConsistent` | core/command.cpp:249-254 | a node running the next command of its queue keeps every key and reply as the commands in order would have them |
| `Fanout.AnyInterleaving` | core/command.cpp:202-268 | for every assignment of keys to nodes and every interleaving of their queues, the stores together and every reply are those of the commands in order on one store |
| `FanoutGroups.EachKeyOps` | core/command.cpp:448-463 | each node command of an MGET or DEL is read by its node as the command for its key |
| `FanoutGroups.PairOps` | core/command.cpp:566-581 | each node command of an MSET is read as the SET of its pair |
| `FanoutGroups.FanBySlot` | core/command.cpp:448-463 | each of them goes by the slot of the very key its node reads in it |
| `FanoutGroups.AppendAll` | core/command.cpp:222-238 | the array header, then every buffer |
| `FanoutGroups.CountOnes` | core/command.cpp:490-498 | the number of buffers that hold the character 1 |
| `FanoutGroups.MGetKeepsMeaning` | core/command.cpp:202-268 | the joined reply is that of one MGET, duplicates included, with the error of a failing node in the place of its value, and nothing changes |
| `FanoutGroups.MSetLeaves` | core/command.cpp:521-582 | every key ends with the last value given for it that no node failed, and every other key keeps its value |
| `FanoutGroups.MSetKeepsMeaningIff` | core/command.cpp:521-582 | the client is told OK whatever the nodes reply; the store is that of one MSET if and only if every failed SET was overtaken by a later pair or changed nothing |
| `FanoutGroups.FailedSetHidden` | core/command.cpp:531-534 | an MSET whose one SET fails: told OK, and the key is not there |
| `FanoutGroups.DelKeepsMeaningIff` | core/command.cpp:479-519 | the keys that reach a node are gone; the count told is that of the keys removed, each once, if and only if no error text holds the character 1 |
| `FanoutGroups.ErrorCountsAsKey` | core/command.cpp:490-498 | an error that counts as a key removed |
| `RenameSteps.RenameCommand.OnRemoteResponsed` | core/command.cpp:74-77 | one reply at a time |
| `RenameSteps.SetReads` | core/command.cpp:621-623 | the bytes of the SET are read as the new key and exactly the value that was read |
| `RenameSteps.RenameOutcomes` | core/command.cpp:611-649 | reply and store for every way the three round trips can succeed or fail |
| `RenameSteps.RenameIsAtomic` | core/command.cpp:584-701 | with no other writer and no failure, reply and store are those of one atomic RENAME; a missing key changes nothing |
| `RenameSteps.ToldOkRenamedIff` | core/command.cpp:639-649 | once the value is written the client is told OK; the key is renamed if and only if the DEL does not fail |
| `RenameSteps.RepliesSpelled` | core/command.cpp:22-23 | the bytes of OK, and that a missing key is an error |
| `RenameSteps.FailedDelHidden` | core/command.cpp:639-649 | a concrete RENAME that answers OK and leaves both keys |
| `SlotTable.SlotMap.Fill` | core/slot_map.cpp:41-45 | one range of slots is pointed at a server |
| `SlotTable.SlotMap.ReplaceMap` | core/slot_map.cpp:26-54 | the nested loops on the array are the fold of the model, and the servers to close are those that lost a slot and got none |
| `SlotTable.SlotMap.Clear` | core/slot_map.cpp:63-72 | every server of the table is to be closed, and the table is empty |
| `SlotTable.ClosesLosers` | core/slot_map.cpp:48-53 | the servers told to close, in terms of the old table and the nodes |
| `SlotTable.ClosesExactlyIff` | core/slot_map.cpp:48-53 | they are exactly those of the old table that are not in the new one, if and only if no server with an uncovered slot loses another and gets none |
| `SlotTable.FullReplacement` | core/slot_map.cpp:26-61 | with full coverage every slot gets the server of its node, and exactly the servers no longer in the table are closed |
| `SlotTable.PartialCoverCloses` | core/slot_map.cpp:40-53 | a partial map that closes a server a slot still leads to |
| `SlotTable.ChooseReplicas` | core/slot_map.cpp:149-163 | for each master with a replica: the first whose host matches the filter, else the last |
| `SlotTable.ReplaceWithReplicas` | core/slot_map.cpp:144-190 | the table in read-slave mode |
| `SlotTable.ReplicaOfEverySlot` | core/slot_map.cpp:144-190 | with full coverage every slot leads to the replica that stands for its node, or to the node if it has none |
| `SlotTable.ReplicaByHost` | core/slot_map.cpp:149-163 | told by hosts: the first replica whose host begins with the filter, letters in either case, or the last if none does |
| `Routing.GetServerRight` | core/server.cpp:223-232 | when nothing is refused, the server of an address is the one it is registered with afterwards, and no other registration changes |
| `Routing.ReplacesAlike` | core/slot_map.cpp:26-61 | when nothing is refused, the thread replaces its table as the array of slots does: the same server in every slot, the same servers closed |
| `Routing.RoutesRight` | core/slot_map.cpp:26-61 | and then every slot of a node is served, over an open connection, by a server at the address chosen for that node |
| `Layers.RequestInTable` | core/command.cpp:1042-1075 | every command of a request goes by a slot below 16384, and a RENAME in three steps by two different ones |
| `Layers.RequestsRead` | core/client.cpp:121-133 | the requests a read gives the thread: on any prefix of a stream, the commands of each whole request, in order |
| `Layers.ReadPushes` | core/client.cpp:121-133 | from the bytes of a stream to the groups of the thread: whatever the client awaits, each whole request arrives, in order, with the commands it needs |
| `Layers.GarblePushes` | core/client.cpp:52-55 | the same for the requests before a bad byte, which wait unissued on a closed client |
| `Layers.BodyReads` | core/response.cpp:81-105 | what the thread takes a reply for is how it reads: redirected by its last error, another error, nil, or a value |
| `Layers.RepliesRead` | core/server.cpp:58-87 | the replies a read gives a server: on any prefix of a stream, each whole one as what it reads as, in order |
| `Layers.RenameAgrees` | core/command.cpp:611-649 | whatever the nodes reply, the thread has a RENAME in the stage the command is in and sends it to the slot the command asks for |
| `Decimal.CountDigits` | cppformat/format.h:696-702 | for every 64-bit value the table index is in bounds and the result is the number of decimal digits |
| `Decimal.CountDigitsByDivision` | cppformat/format.h:704-718 | the fallback loop gives the same |
| `Decimal.IndexRight` | cppformat/format.cc:593-606 | the table holds the powers of ten, and the bits behind each index put a number between two of them |
| `Decimal.DigitsRight` | cppformat/format.cc:574-580 | every pair of the table spells its index |
| `Decimal.FormatDecimal` | cppformat/format.h:730-753 | with that count, exactly those cells are filled, and with the numeral |
| `Decimal.Print` | cppformat/format.h:730-753 | what is written reads back as the value |

## Left out

- A socket that cannot be created when a server is opened: the program then drops the server from the pool.
- Reported slot maps give no slot to two nodes and stay within the 16384 slots; overlapping maps are not modelled.
- A node that has ranges but, all of them being empty, no slot, and a node with an empty address, are not told apart from nodes without slots in the thread model.
- Long connections (SUBSCRIBE, BLPOP, BRPOP), which leave the pipeline and relay bytes.
- Poll registration of servers: a server may have a callback at any time it is open.
- The checks of `on_array` for client requests (nested arrays and more than 1048576 arguments close the client): requests are arrays of at least one bulk string.
- Inline forms of other special commands (PING, INFO, PROXY, EVAL, PUBLISH, KEYSINSLOT and the rest), and the table of command names, which is a parameter.
- Malformed bytes beyond the interrupted, bad-byte and negative-length cases, and overflow of lengths and sizes: integers are unbounded.
- Text of CLUSTER NODES and of addresses; statistics, timing, logging, configuration, threads and their notification; the rest of the formatting library.
- Stalling.StallsExactly: stated for states in which no client is stalled yet.
- ServerSteps.RecvFromCore: takes the bodies of the replies as given; which bytes they are is the subject of Responses.
- ThreadTheorems.RepliesMatch: every request is taken to leave its server whole; after a reset in the middle of a buffer that is so only under the condition of Gather.Reuse.
- FanoutGroups.MGetKeepsMeaning: no redirection and no other writer during the command.
- FanoutGroups.MSetKeepsMeaningIff: the same.
- FanoutGroups.DelKeepsMeaningIff: the same; a failing node is one that does not run its command.
- RenameSteps.RenameIsAtomic: string values only, no redirection and no other writer.
- Gather.WriteSingle: error numbers are reduced to "again" and "broken".
- EventLoop.ProxyThread.Process: without the branch of long connections.
- EventLoop.ProxyThread.CloseConn: without long connections; what happens to its output buffers is the subject of Gather.Reuse.
- EventLoop.ProxyThread.SetSlotMap: without the list of remotes to ask next time.
- ClientLoop.SplitClientCommand: a negative length, where the source's iterators leave the buffer, gives no requests at all.
- Journeys.MapReportRoutes: the same as for Routing.RoutesRight, which see.
- Journeys.CommandReaches: stated for a client that awaits nothing and for the first 64 groups it has parsed; the others are issued later by the same `_process`, for which Selecting.ProcessPlaces holds.
- Routing.RoutesRight: stated for a thread that has had no connection refused, as the law fails otherwise.
- Decimal.CountDigits: the 32-bit form, which differs only in its table, is not repeated.
- SlotTable.SlotMap.ReplaceMap: the server of an address is a parameter; opening and pooling servers is part of EventLoop.
