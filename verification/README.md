# Peroxo chat gateway: a verified model

Peroxo is a chat gateway. WebSocket sessions hand client frames to one router, the router feeds
one actor per room, persistence tasks write messages to a chat service over gRPC with retries,
and acks travel back to the session that asked. This project models that protocol, the chat
service's tables and cursor reads, the get-or-insert of conversation ids, and the fixed-window
rate limiter of the tenant endpoint, and proves what they promise over every run.

`dafny verify dfyconfig.toml` checks everything.

## How it is laid out

- `Types`, `Sequences`, `Channels`, `Registry`: shared values, order facts, bounded channels and
  mailboxes, the router's tables.
- `Room`, `RouterViews` and `MessageRouter`, `UserSession`: the room actor, the router and the
  session as objects whose methods update their fields and push into shared channels, and what whole
  runs of their loops compute.
- `Protocol`: sessions, router, rooms, persistence tasks and store as one interleaved transition
  system of 24 kinds of steps. Every `try_send` of a broadcast, every entry of a cleanup sweep and
  both halves of a direct message are steps of their own.
- `Invariants`, `*Proof`: the inductive invariant, by concern, and the proof that every step keeps
  it. `Theorems`, `DirectOrder`, `Membership`, `Complete`, `Broadcast`, `Progress`, `Response`,
  `Acks`: what follows for every reachable state and run. `Provenance`, `Answers`: what comes out of a
  run, said only in terms of the frames and calls that went into it. `EndToEnd`, `Rejoin`: runs that show a whole exchange and a refused rejoin.
  `Simulation`: the steps of the protocol are the transitions the objects are proved to make.
- `Store`, `RetryLoop`, `Paging`, `PagingRuns`, `Conversations`, `RateLimit`: the chat service and
  the limiter.

## Assumptions

- A server message id is fresh when it is minted. Nothing is assumed about the order of ids: an id
  is an integer, the rank of the UUID in whatever strict total order the table puts on its
  clustering key. Its text form is injective and never blank.
- A connection task is not dropped between registering and unregistering, and only sessions send
  RegisterUser and UnregisterUser. The router itself never stops.
- `abort()` takes effect at any later moment: the end of the receive task, the closing of the
  channels and the queueing of the Unregister are separate steps in any order the code allows. The
  send task may end at any time, which includes every way its loop can break.
- A message popped by the send task can always be turned into JSON. `session.rs:88-90` and `108-110`
  would drop it and go on with the session open; what is written there are strings, numbers, UUIDs and
  enums of these.
- Popping a message and writing it to the socket is one step. In `session.rs:75-111` the popped message
  sits in the send task across an await, while its channel already has a free slot and an abort may
  strike. To the rest of the system that is a channel with one slot more, and a message that an abort
  catches there is lost as it would be in the closed channel.
- Batches are atomic and there is one copy of the data. A call that was abandoned or answered with
  an error may still commit, at any later moment and any number of times.
- Clock readings, oneshot results, failures and the order in which a map yields its entries are
  chosen freely by each step.
- An insert of a conversation id that got no answer may likewise be applied at any later moment and
  any number of times.
- A Redis command is carried out at most once, and possibly after its caller has given up. A key whose
  expiry is the present millisecond may be gone or may still be there.

## Where the code does less than it seems to

- The limiter is documented as allowing 3 calls per window. Counted from the call that opened the
  window that holds (`AtMostThreeFromItsStart`); over a sliding window of the same length 5 calls can
  pass, and never more (`AtMostFivePerWindow`; `SlidingBoundIsMet` for every length). If the EXPIRE of the first caller is
  lost, the key never expires; `RecoversIff` gives the exact condition.
- After a reconnect, a stale entry blocks rejoining a room: `RejoinMayBeRefused` reaches that state for
  every user and room, `JoinTakesEffectIff` and `HoldsIff` say exactly when it does and how long. No
  client frame leads to a RemoveMember: sessions ignore leave frames, so leaving is modelled as a
  request from outside.
- A select reply that cannot be read as rows is taken for an empty one (`queries.rs:352`), so a call can
  overwrite a row that is there (`MisreadSplits`). Where that does not happen, calls of get-or-insert for
  one pair return one id in every run if and only if the pair had a row to begin with
  (`AgreeAlwaysIff`). Without one, two overlapping calls may disagree (`OverlapMayDisagree`), and so may
  calls that follow one another once an insert went unanswered (`LateInsertSplits`); otherwise they
  agree (`OneConversationPerPair`).

## Model

| member | source | states |
|---|---|---|
| Theorems.SingleOwner | peroxo/src/actors/message_router/handlers.rs:16-39 | In every reachable state a user is in `users` iff some session of that user is accepted, running or has its Unregister queued; there is at most one such session and `users` holds exactly its channel. |
| Theorems.UnregisterRemovesItsSender | peroxo/src/actors/user_session/session.rs:274-289 | Whenever an Unregister reaches the head of the router's queue, the entry it removes is that of the session which sent it, although the message names only the user. |
| Theorems.RegistryAgrees | peroxo/src/actors/message_router/handlers.rs:22-38 | Over every run `online_users` has no duplicates and lists exactly the keys of `users`. |
| Theorems.RoomsAreUnique | peroxo/src/actors/message_router/handlers.rs:152-171 | At most one actor is ever spawned per room id, the router always holds its handle, and its loop can never end. |
| Theorems.AckImpliesDurable | peroxo/src/actors/user_session/handlers.rs:9-104 | Every ack queued for or shown to a session answers a request that session made under that client id; if it says Persisted, the message table holds the row with that id, sender, addressee and text. |
| Answers.AckSaysWhatHappened | peroxo/src/actors/persistance_actor/handlers.rs:80-105 | Over every run, each ack answers a frame of that very session under its client id; it says Persisted iff the first of at most four calls to be answered said yes, and Failed iff it said no, or four calls broke, or the router did not know the room and no call was made. |
| Answers.OneshotSaysWhatHappened | peroxo/src/actors/room_actor.rs:185-215 | The same for a resolved oneshot; a task still at work has had broken calls only, at most three, and nothing is called for an id nobody was given. |
| Answers.ShotArises | peroxo/src/actors/message_router/handlers.rs:73-90 | A step resolves a oneshot in three ways only: Failed for a room the router does not know, Persisted iff the task's reply was success, Failed when the task's fourth call broke. |
| Answers.AnswersAsPersist | peroxo/src/actors/persistance_actor/handlers.rs:155-191 | The protocol's task answers Persisted exactly when the retry loop is proved to on the same calls. |
| Answers.ServiceAnswers | chat-service/src/chat_services.rs:111-158 | In every reachable state any call under way can be carried out: the reply is success iff the batch goes through and neither project nor conversation (room) is blank, and then the row holds the request's sender, addressee, text and the time it was taken up; a refused call changes nothing, a failed batch may still be applied. |
| Answers.BrokenMayCommit | peroxo/src/actors/persistance_actor/handlers.rs:155-191 | Any call under way can break; one with proper names may be applied later all the same. |
| Answers.OrphanStoresRow | chat-service/src/queries.rs:226-328 | Such a late batch can commit at any time and stores that request's row. |
| Answers.DmRowIsFrame | chat-service/src/queries.rs:258-286 | Over every run, each stored direct row is one client's frame, column by column: project and sender are the connected user's, conversation, addressee and text the frame's, and its time the one clock reading with which the router took that request up. |
| Answers.RoomRowIsFrame | chat-service/src/queries.rs:311-325 | Likewise each stored room row, with the reading of the room actor. |
| Theorems.ExactlyOnePlace | peroxo/src/actors/message_router/handlers.rs:204-232 | Every accepted request is at all times in exactly one place, once: router queue, room queue, persistence task, resolved oneshot, ack queue, socket, or lost with its closed session. |
| Theorems.NeverDropped | peroxo/src/actors/message_router/handlers.rs:219-221 | The branch that forgets a message because its room's mailbox is gone is never taken. |
| Theorems.RoomOrder | peroxo/src/actors/room_actor.rs:70-100 | Each room has one duplicate-free processing log, and what enters any session's channel, and what its client is shown, are subsequences of it. |
| Theorems.SameOrderForAll | peroxo/src/actors/room_actor.rs:219-236 | No two clients are ever shown two messages of a room in opposite orders. |
| Complete.NoGaps | peroxo/src/actors/room_actor.rs:219-236 | Over any run in which a member is not removed and its channel is open with space whenever the room offers it a message, what enters the channel for that room is exactly the part of the log that was offered meanwhile. |
| Theorems.SenderOrder | peroxo/src/actors/message_router/handlers.rs:212-221 | What one session has in a room's log is an unbroken stretch of its sends to that room, in send order. |
| Theorems.AtMostOnce | peroxo/src/actors/message_router/handlers.rs:97-122 | A server id enters a session's channel at most once; every entry copies a client's request under that sender's own user, a direct one only in a channel of its addressee; what is shown is a prefix of what entered, and while the channel is open the rest is still queued. |
| Provenance.ShownIsFrame | peroxo/src/actors/user_session/session.rs:127-262 | Over every run, whatever a client is shown is one client's frame: the same text, under the user that session connected as; a direct message names this user, and a room message is for a room that this very session asked to join. |
| Provenance.RequestsAreFrames | peroxo/src/actors/user_session/handlers.rs:9-104 | Every accepted request is one frame of the run, field by field, from the user its session connected as. |
| Provenance.MembersAsked | peroxo/src/actors/message_router/handlers.rs:145-195 | Whoever is in a room asked to join that room, as that user and on that channel. |
| Theorems.ChannelsBounded | peroxo/src/actors/user_session/session.rs:25-26 | No session or ack channel ever holds more than 100 entries. |
| Theorems.IndexAgreesInEveryState | chat-service/src/queries.rs:226-328 | In every reachable state, with retries and late commits, the list tables agree with the message tables. |
| Progress.EveryScheduleAnswers | peroxo/src/actors/message_router/router.rs:40-134 | From every reachable state, every schedule of router, rooms and tasks that works while there is work comes to an end, and then every request ever accepted has its answer, with no client or connection doing anything. |
| Progress.WorkFalls | peroxo/src/actors/room_actor.rs:70-100 | Every router, mail, cast, sweep and task step, retries included, lowers one lexicographic measure of the work left. |
| Progress.EveryRequestCanBeAnswered | peroxo/src/actors/message_router/handlers.rs:41-123 | Such schedules exist, so from every reachable state all requests can still be answered. |
| Response.ResponseBound | peroxo/src/actors/message_router/router.rs:40-134 | However clients and all other tasks interleave: as many router steps as the inbox is long and then as many mail steps of its room as that mailbox is long bring a request to its task or past it. From there its task takes at most 12 steps, however long the run; until the answer is there it has taken fewer and its next step can be taken at once. |
| Response.RouterServes | peroxo/src/actors/message_router/router.rs:43-130 | Over any run, the request behind i others is taken up by the router's (i + 1)-th step and not before. |
| Response.RoomServes | peroxo/src/actors/room_actor.rs:70-83 | Over any run, the request behind j others in a room is taken up by that room's (j + 1)-th mail step and not before. |
| Response.TaskServes | peroxo/src/actors/persistance_actor/handlers.rs:155-191 | Over any run, every step of a request's own task lowers what that task has left to do, nobody else's changes it, and it takes at most 12, none if it is already done. |
| Response.StepForward | peroxo/src/actors/message_router/handlers.rs:204-232 | No step of anybody moves a request back, and only its own task's steps change its task. |
| Acks.AnswerWaits | peroxo/src/actors/user_session/handlers.rs:41-54 | Over any run without its ack task, a resolved oneshot stays as it is, and the ack task can run iff the session's ack queue has a slot or its receiver is gone. |
| Acks.AnswerReaches | peroxo/src/actors/user_session/session.rs:97-114 | Once queued, an ack with that client id, server id and status reaches the socket right behind every ack handed over or queued before it, by one ack write more than were queued, while the send task runs. |
| Acks.AckServes | peroxo/src/actors/user_session/session.rs:97-114 | Over any run of the send task, the ack behind k others reaches the socket by the session's (k + 1)-th ack write and not before. |
| DirectOrder.DirectOrderKept | peroxo/src/actors/message_router/handlers.rs:97-122 | The direct messages of one session that enter a given channel, or reach that client, come in the order in which the session sent them. |
| EndToEnd.AnyoneCanReachAnyone | peroxo/src/actors/user_session/session.rs:61-271 | However many users are online, any of them can send any of them any text: some run shows it to the recipient's client and hands the sender's client a Persisted ack. |
| StepProof.InvStep | peroxo/src/actors/message_router/router.rs:40-134 | The whole invariant (owners, places, order, pipes, durability, bounds) is kept by every step of every task. |
| OwnerProof.OwnerUnregister | peroxo/src/actors/message_router/handlers.rs:35-39 | Handling an Unregister removes its own sender's entry and keeps one owner per user. |
| PipeProof.PipeOfRoom | peroxo/src/actors/message_router/handlers.rs:212-221 | Forwarding a room message moves it within the pipe of its room and leaves every room's pipe the same. |
| DurableProof.DurableExecute | chat-service/src/chat_services.rs:111-158 | Whatever the service does with a call, a task that was told success has its row stored, and all earlier Persisted answers keep theirs. |
| PlaceProof.PlaceClose | peroxo/src/actors/user_session/session.rs:274-283 | When a send task ends, exactly the acks queued for it, which are that session's requests standing there, become lost; no other request moves. |
| OrderProof.OrderCast | peroxo/src/actors/room_actor.rs:226-236 | Each single `try_send` of a broadcast keeps every channel a subsequence of every room's log, with other tasks pushing in between. |
| Membership.MembersOwnTheirChannels | peroxo/src/actors/room_actor.rs:145-166 | Each channel stored in a room belongs to a session of that user which the router accepted, and the channels of one room are pairwise distinct. |
| Membership.EntryStaysIff | peroxo/src/actors/room_actor.rs:145-166 | A step leaves a stored channel in place iff it is neither a sweep of that entry while its channel is closed nor its RemoveMember; nothing ever overwrites it. |
| Membership.HoldsIff | peroxo/src/actors/room_actor.rs:76-97 | Over any run, an entry is there at every moment iff no step of the run removes it in one of these two ways. |
| Membership.JoinTakesEffectIff | peroxo/src/actors/room_actor.rs:151-157 | An AddMember puts its channel in iff the user has no entry of another channel; otherwise the members stay as they are. |
| Membership.StaleEntryBlocks | peroxo/src/actors/room_actor.rs:151-154 | Through any run that neither sweeps nor removes a closed entry, it stays that closed channel and every AddMember of its user is refused. |
| Rejoin.RejoinMayBeRefused | peroxo/src/actors/room_actor.rs:151-154 | For every user and room a run ends with the user reconnected and running, the first channel closed and still listed, the new AddMember next in line, and that AddMember refused. |
| Membership.TickRemovesStale | peroxo/src/actors/room_actor.rs:84-95 | A tick and whatever interleaves with it: entries closed when it began are gone, entries still open at its end are kept, none is added. |
| Membership.RejoinAfterTick | peroxo/src/actors/room_actor.rs:76-97 | After a tick that began once the channel was closed, whatever the room and everybody else do then, other mail and further ticks included, the next AddMember of that user takes effect. |
| Broadcast.CastsCommute | peroxo/src/actors/room_actor.rs:226-236 | Reaching two members in either order gives the same state. |
| Broadcast.BroadcastInAnyOrder | peroxo/src/actors/room_actor.rs:226-236 | However the map yields the members, every channel ends up the same: each member's is offered exactly one copy, all others are untouched. |
| Broadcast.OtherMembersUnaffected | peroxo/src/actors/room_actor.rs:226-236 | Replacing one member's channel by any other (full, closed, empty) changes no other member's outcome. |
| Room.RoomActor.HandleSendMessage | peroxo/src/actors/room_actor.rs:168-237 | Spawns the write and offers exactly one copy to every member, in whatever order the loop takes them. |
| Room.SendsAreRecorded | peroxo/src/actors/room_actor.rs:178-198 | After any events the spawned writes are, one for one and in order, the room messages taken up, with sender's project, room, id, sender, text and the time of each. |
| Room.RoomActor.Cleanup | peroxo/src/actors/room_actor.rs:84-95 | Keeps exactly the entries whose channel is open. |
| Room.RoomActor.Run | peroxo/src/actors/room_actor.rs:70-100 | Members, spawned writes and every channel's contents after any sequence of mail and ticks, with other tasks filling, reading and closing channels in between. |
| Room.MemberIff | peroxo/src/actors/room_actor.rs:76-97 | After any such sequence a user is a member through a channel iff some event let them in with it and no later RemoveMember, or tick that found it closed, put them out. |
| Room.ChannelHolds | peroxo/src/actors/room_actor.rs:219-236 | A channel no other task touches ends up with what it held and then, in order, exactly those messages sent while it was a member's that fit. |
| MessageRouters.MessageRouter.HandleRegisterUser | peroxo/src/actors/message_router/handlers.rs:16-33 | Refuses a user already online and changes nothing; otherwise enters both tables. |
| MessageRouters.MessageRouter.HandleUnregisterUser | peroxo/src/actors/message_router/handlers.rs:35-39 | Removes the user from both tables, keeping the order of the others. |
| MessageRouters.MessageRouter.HandleDirectMessage | peroxo/src/actors/message_router/handlers.rs:41-123 | Spawns the write whether or not the recipient is online, and tries the recipient's channel once. |
| RouterViews.DirectsAreRecorded | peroxo/src/actors/message_router/handlers.rs:52-71 | After any list of messages the spawned writes are, one for one and in order, the direct messages, with sender's project, conversation, id, both users, text and the time each was handled. |
| MessageRouters.MessageRouter.HandleJoinRoom | peroxo/src/actors/message_router/handlers.rs:145-195 | Opens the room on its first join, never replaces a mailbox, and queues AddMember behind what is there. |
| MessageRouters.MessageRouter.HandleLeaveRoom | peroxo/src/actors/message_router/handlers.rs:197-202 | Queues RemoveMember for an existing room; an unknown room changes nothing. |
| MessageRouters.MessageRouter.HandleRoomMessage | peroxo/src/actors/message_router/handlers.rs:204-232 | Queues the message for an existing room; an unknown room is answered Failed at once. |
| MessageRouters.MessageRouter.Run | peroxo/src/actors/message_router/router.rs:40-134 | Tables, room mailboxes, spawned writes and every session's channel after draining any list of messages; no mailbox is ever replaced. |
| RouterViews.RoomMailAfter | peroxo/src/actors/message_router/handlers.rs:145-232 | What is then queued for a room: all the mail meant for it, in order, if it existed, and otherwise the mail from its first join on; without a join it does not exist. |
| RouterViews.OnlineIff | peroxo/src/actors/message_router/handlers.rs:16-39 | A user is then registered with a channel iff that registration was accepted and no Unregister of the user came after it. |
| RouterViews.ChannelHolds | peroxo/src/actors/message_router/handlers.rs:97-122 | A channel nobody else touches then holds what it held and, in order, exactly the direct messages that fit among those whose recipient had it when they were handled. |
| Simulation.RouterRefines | peroxo/src/actors/message_router/router.rs:43-130 | In every reachable state of the protocol a router step is one transition of the router object and spawns exactly the writes that object spawns. |
| Simulation.DispatchIsNext | peroxo/src/actors/message_router/handlers.rs:16-232 | Handling any message changes tables and room mailboxes exactly as the router object's specification says. |
| Simulation.DeliveryIsNext | peroxo/src/actors/message_router/handlers.rs:97-122 | The two protocol steps of a direct message together do to every channel what the router object does. |
| Simulation.BroadcastIsNext | peroxo/src/actors/room_actor.rs:168-237 | Taking up a room message and then reaching every member, in any order, is one transition of the room object and spawns the same write. |
| Simulation.BroadcastOwesAll | peroxo/src/actors/room_actor.rs:226-236 | Once a room message is taken up, exactly its members are still to be reached, the sender included, and when all have been the room is at rest. |
| Simulation.TickIsNext | peroxo/src/actors/room_actor.rs:84-95 | A tick and then a sweep over all entries, in any order, is one transition of the room object. |
| RouterViews.UnregisterUndoesRegister | peroxo/src/actors/message_router/handlers.rs:16-39 | Registering an absent user and unregistering it restores the tables exactly. |
| UserSessions.UserSession.HandleRoomMessage | peroxo/src/actors/user_session/handlers.rs:62-104 | A frame under another user's name is refused before anything is sent or remembered. |
| UserSessions.UserSession.Receive | peroxo/src/actors/user_session/session.rs:127-271 | What any sequence of frames puts into the router's mailbox, and which server ids with which client ids will be acked. |
| UserSessions.UserSession.Send | peroxo/src/actors/user_session/session.rs:71-121 | For any choices of the select loop: with n turns for chats and m for acks exactly the first n chats and m acks queued are written, in order, and the rest still waits; it ends iff a turn that had something to take met a refused write, and then exactly those of the earlier turns were written and both receivers are dropped. |
| UserSessions.AllMailed | peroxo/src/actors/user_session/session.rs:129-262 | Whatever the client sends, every message speaks for this session's user on this session's channel, and none registers or unregisters. |
| UserSessions.FramesAreMailed | peroxo/src/actors/user_session/session.rs:127-262 | What any frames put into the router's mailbox is, one for one and in order, the frames acted on, each message with that frame's own conversation, addressee, text or room, its minted id, and the session's user and channel. |
| UserSessions.FramesAreRemembered | peroxo/src/actors/user_session/handlers.rs:41-60 | Each frame that is due an ack is remembered once, in order, with its own client id and minted id. |
| Simulation.FrameIsHandled | peroxo/src/actors/user_session/handlers.rs:9-104 | In the protocol a receiving session can handle any frame, queues just the message the session object is proved to send, and records a request with exactly that frame's fields iff an ack is due. |
| UserSessions.HandleConnection | peroxo/src/actors/connection_manager.rs:19-32 | Handshake, frames and Unregister all through the router's mailbox, behind whatever was queued: a refused connection changes nothing and never unregisters; an accepted one restores `users` and `online` exactly, and the new rooms are exactly those its join frames name; every earlier room keeps its mailbox. |
| UserSessions.ConnectionRestores | peroxo/src/actors/user_session/session.rs:274-289 | The same for any messages that speak only for the session's user. |
| Store.ExecuteKeepsIndex | chat-service/src/queries.rs:226-328 | One batch keeps both list tables in agreement with the message tables when its key holds no other message. |
| Store.IndexAgreesAlways | chat-service/src/queries.rs:226-328 | Over every commit order with any repetitions: both users of each message list its conversation, every `last_message` is the time of a stored message by or to that user, and likewise for rooms. |
| Store.ReusedKeyAgreesIff | chat-service/src/queries.rs:226-287 | When two direct messages are written under one key, the list tables still agree iff both users of the first are users of the second. |
| Store.RowsComeFromWrites | chat-service/src/queries.rs:226-328 | Every stored message row is the row of some committed write. |
| Store.ListsLastCommit | chat-service/src/queries.rs:268-283 | Over every commit order, `last_message` of a listed conversation is the time of the last committed batch by or to that user in it. |
| Store.ListsLastActivity | chat-service/src/queries.rs:307-325 | Over every commit order, `last_activity` of a room is the time of the last committed batch in it. |
| Store.ListsNothingElse | chat-service/src/queries.rs:226-328 | A conversation or room that no committed batch touches is not listed. |
| RetryLoop.WriteWithRetry | peroxo/src/actors/persistance_actor/handlers.rs:155-191 | For any outcomes: the store sees zero or one application of the write, one if the reply is a success; at most max_retries + 1 calls; the last error is always there; total delay 50 f (f + 1). |
| RetryLoop.Persist | peroxo/src/actors/persistance_actor/handlers.rs:80-105 | Persisted iff the first call to be answered at all says yes; then the row is stored, otherwise the store has at most that one write more. |
| RetryLoop.SameWritesSameMessages | peroxo/src/actors/persistance_actor/handlers.rs:379-416 | Among other writers too, the message tables depend only on which writes committed, not on repeats or order. |
| RetryLoop.EveryWriteHasItsRow | chat-service/src/queries.rs:226-328 | Whatever commits around it, each committed write has exactly its row in the message table, column by column. |
| Conversations.KeysAreOrdered | chat-service/src/chat_services.rs:69-86 | The service lets a request through iff its key is a strictly ordered pair of non-blank names under a non-blank project; the key holds the two users and is the same for both spellings. |
| Conversations.KeysAreFaithful | chat-service/src/queries.rs:336-340 | Two requests share a key only if they name the same pair. |
| Conversations.LessIff | chat-service/src/queries.rs:336-340 | The order of the two names is the lexicographic one. |
| Conversations.CallsHaveOrderedKeys | chat-service/src/chat_services.rs:69-86 | No call is ever made under a key that is not a strictly ordered pair of non-blank names. |
| Conversations.StepsAreOneCall | chat-service/src/queries.rs:348-375 | With nobody in between, the steps of an interleaved call do what the query code is proved to do. |
| Conversations.DmLookup.Getsert | chat-service/src/queries.rs:330-376 | One undisturbed call: an existing row that can be read is returned untouched, otherwise exactly that row is set. |
| Conversations.AgreeAlwaysIff | chat-service/src/queries.rs:348-375 | For every admitted pair and any overlap and failures: all calls that return give one id in every run that misreads no row of the pair iff the pair had a row at the start. |
| Conversations.MisreadSplits | chat-service/src/queries.rs:352-375 | For every pair with a row: calls one after another return the old id and then any other one, once a reply about the row could not be read. |
| Conversations.OneConversationPerPair | chat-service/src/queries.rs:330-376 | Where calls for a pair do not overlap, none of its inserts went unanswered and no row of it was misread, all calls for (a, b) and (b, a) that return give one id, and at most one reports it as new. |
| Conversations.SomeCallCreated | chat-service/src/queries.rs:361-375 | If moreover there was no row at first, exactly one call reports it as new. |
| Conversations.LateInsertSplits | chat-service/src/queries.rs:368-375 | For every pair without a row: calls one after another return two different ids once an unanswered insert is applied late. |
| Conversations.ReturnedIdWasStored | chat-service/src/queries.rs:348-375 | With any overlap, every returned id was the row's value at some moment of that call. |
| Conversations.OverlapMayDisagree | chat-service/src/queries.rs:348-375 | For every pair without a row, two overlapping calls can both insert and return any two ids. |
| Paging.ExecuteInserts | chat-service/src/queries.rs:226-287 | A committed batch changes its own conversation by one insert in clustering order and no other conversation. |
| Paging.FetchPaginatedMessages | chat-service/src/queries.rs:75-132 | The newest 50 rows below the cursor, newest first; any row left out lies below a full page. |
| Paging.AfterAnswers | chat-service/src/queries.rs:191-224 | The sync read returns exactly the later rows, oldest first. |
| Paging.GrpcFetchIsPage | peroxo/src/actors/persistance_actor/handlers.rs:215-247 | Over both cursor encodings: fails iff a name is blank or the query or the call fails; otherwise answers the query, reports more iff the page has rows, and its cursor is the id of the last message, which is exactly where the page ended. |
| Paging.MongoFetchIsPage | peroxo/src/actors/persistance_actor/handlers.rs:317-318 | Over Mongo the reply answers the same query, its cursor is the id of the last message, and it reports more iff the page holds 50. |
| Paging.EndpointAnswers | chat-service/src/chat_services.rs:309-382 | For every cursor text: an unreadable cursor, a blank name or a failed query is refused with nothing; otherwise the reply answers the query and names the last message's id, or no cursor for an empty page. |
| Paging.WalkFollowsGrpc | peroxo/src/actors/persistance_actor/handlers.rs:241-247 | The walk is what a client gets by following the gRPC replies until `has_more` is false. |
| Paging.WalkFollowsMongo | peroxo/src/actors/persistance_actor/handlers.rs:317-318 | Likewise for the Mongo replies. |
| Paging.QuietWalk | peroxo/src/actors/persistance_actor/handlers.rs:291-318 | On n rows the walk reads all of them in descending order, with ceil(n/50) + 1 requests over gRPC and floor(n/50) + 1 over Mongo. |
| Paging.WalkReadsAll | chat-service/src/chat_services.rs:309-382 | From any cursor the walk reads exactly what lies below it, newest first. |
| Paging.CursorSplit | chat-service/src/queries.rs:48-132 | For every stored row: the reversed walk from it, the row, and the sync read after it make up the full ascending history. |
| Paging.SyncMisses | chat-service/src/queries.rs:191-224 | After a sync at a stored row, what a complete client lacks later is exactly what was inserted since with a lower id. |
| PagingRuns.WalkDuringWrites | chat-service/src/queries.rs:75-132 | With any upserts between pages, over stored rows too: strictly descending, so no id twice; only rows stored at some time, whose id still is; and at the end a row for every id that was there at the start. |
| PagingRuns.FetchTakesGrpc | peroxo/src/actors/persistance_actor/handlers.rs:215-247 | Each request of such a walk is what a client does with the gRPC reply: keep the messages, go on with the cursor it names, stop when it reports no more. |
| PagingRuns.FetchTakesMongo | peroxo/src/actors/persistance_actor/handlers.rs:299-318 | Likewise with the Mongo reply. |
| PagingRuns.UntouchedRowIsRead | chat-service/src/queries.rs:75-132 | A row that was there at the start and that no upsert changed is itself among the rows read when the walk ends. |
| PagingRuns.FollowKeeps | chat-service/src/chat_services.rs:315-348 | From any point of such a walk on, every id then below the cursor is read before the walk ends. |
| PagingRuns.WalkEndsDuringWrites | peroxo/src/actors/persistance_actor/handlers.rs:241-247 | If later writes land at or above the cursor of the moment, the walk has ended iff as many pages were fetched as a quiet conversation would need. |
| RateLimit.AtMostThreePerLifetime | auth-service/src/rate_limit.rs:16-40 | Over every interleaving of INCR and EXPIRE with failures, at most 3 calls are allowed per lifetime of the key. |
| RateLimit.SlidingBound | auth-service/src/rate_limit.rs:16-40 | In any half-open interval of length L at most 3 ceil(L/window) + 2 calls are allowed. |
| RateLimit.AtMostFivePerWindow | auth-service/src/rate_limit.rs:16-40 | At most 5 calls are allowed in any half-open interval of one window. |
| RateLimit.SlidingBoundIsMet | auth-service/src/rate_limit.rs:29-39 | For every length L of at least one millisecond some run allows exactly 3 ceil(L/window) + 2 calls within an interval of that length. |
| RateLimit.AtMostThreeFromItsStart | auth-service/src/rate_limit.rs:19-40 | From the call that began a lifetime on, at most 3 calls are allowed within one window of it. |
| RateLimit.WindowEndIsFixed | auth-service/src/rate_limit.rs:29-37 | No call, allowed, refused or given up, moves the end of a window that has been set. |
| RateLimit.StuckForever | auth-service/src/rate_limit.rs:29-32 | A key whose first caller's EXPIRE was lost for good is never removed by any run. |
| RateLimit.RecoversIff | auth-service/src/rate_limit.rs:29-32 | The key can go away iff its expiry is set, or its first caller still waits, or that caller gave up and its EXPIRE is still on the way. |
| RateLimit.WindowMayNeverEnd | auth-service/src/rate_limit.rs:29-32 | Such a key is reachable. |
| RateLimit.Redis.CheckRateLimit | auth-service/src/rate_limit.rs:22-40 | One undisturbed call for every fate of its two commands: verdict, counter and expiry. |
| RateLimit.TwoStepsAreOneCall | auth-service/src/rate_limit.rs:22-40 | In every reachable state, INCR and EXPIRE with nobody in between do what one call of the limiter is proved to do. |

## Left out

- UserSessions.HandleConnection: nobody else is at work during the connection and its two tasks run one after the other; the races between them, and the ack tasks, are steps of `Protocol`.
- Progress.EveryScheduleAnswers: an answer is a resolved oneshot; how the ack then reaches the socket is said by `Acks`, and depends on the client reading it.
- Paging.FetchPaginatedMessages: works on one partition as a sorted sequence; the database's own query evaluation is taken to be what the query text says.
- WebSocket framing, JSON, HTTP routing, gRPC transport and logging.
- Metrics.
- Google token check, API key lookup, key and token generation.
- The RabbitMQ publisher and consumer.
- The Mongo write path; of Mongo only the page stop rule is modelled.
- History replies and sync replies to clients, which share the ack channel, and room history through the room actor; a queue kept full by them only delays acks.
- Reads of the online list and of room members.
- Timestamps of deliveries and acks, which are taken separately from the stored one.
- Replication, write-timestamp ties and column types of the database.
- UUID layout, parsing and printing.
- user-service, deployment files and the web client.
