# A verified model of the Lamb SMS gateway

Lamb is an SMS gateway for CMPP 2.0, built from cooperating processes. This project models the parts
whose correctness is not visible in any one function, and proves what they keep in every run:

- **Account servers and scheduler** (`Server.dfy`, `Routing.dfy`, `ProtocolSteps.dfy`,
  `ProtocolRecords.dfy`, `ServerBooks.dfy`, `Protocol.dfy`, `ProtocolRuns.dfy`, `QueueBound.dfy`,
  `LostReplies.dfy`).
  A server pulls a message, runs an ordered filter pipeline, sends the message to the scheduler until
  it gets an answer other than BUSY, then bills and stores it. The scheduler scans the account's
  weighted channels and appends to bounded gateway queues from many threads.
- **Acknowledged delivery** (`StopAndWait.dfy`, `Correlation.dfy`, `Keepalive.dfy`, `Statistics.dfy`).
  The stop-and-wait sender towards clients, the matching of submit, acknowledgement and status report
  on the gateway side, the active test, and the report counters.
- **Lists, queues, pools** (`List.dfy`, `Queue.dfy`, `Pool.dfy`, `Registration.dfy`, `Delivery.dfy`). The doubly
  linked list on the heap, queues over it, the registration handshake that makes the find-or-create
  pool safe, and the routing table that is drained and refilled in place.
- **Stores** (`Decimal.dfy`, `Shards.dfy`, `Frequency.dfy`). The sharded Redis stores and the
  frequency limiter.
- **Line editor** (`Memory.dfy`, `History.dfy`, `LineEdit.dfy`). The in-place line buffer and the
  history array of linenoise.

`Wrappers.dfy` holds the option type. `dafny verify dfyconfig.toml` checks everything.

## How threads are modelled

An object that one thread updates is a class whose methods are proved against a specification. A
protocol between threads is a state machine: a state, a `Step` datatype, `Enabled` and `Next`, and
`Run`, the sequences of states that steps link. The granularity of the steps is that of the source:

- `ProtocolSteps`: the capacity test of a push thread and its append are two steps
  (src/scheduler.c:490-493); each examination of a channel is a step; the bill and the stored copy are
  two steps; taking a bill off the queue and applying it are two steps. A reply can be lost, which
  makes the server send the message again (src/server.c:441-449). A reload may come at any moment, also
  while a turn waits for its reply, since the scheduling loop does not test `sleeping`
  (src/server.c:434-472): the connection is replaced (src/server.c:212-230), the reply on the old one is
  gone, and the old push thread finishes what it has in hand. A receive is interrupted only by the
  reload signal, the only one with a handler (src/server.c:1165, src/common.c:41-56), so no old reply
  waits for a later message.
- `Registration`: find and append are two steps without a lock; lock, write, unlock and signal are
  four; the main loop's wait releases the mutex. A client may leave, and then its port is free again.
- `StopAndWait`: sending and starting to wait are two steps, so an acknowledgement in between is lost.
  Testing an acknowledgement and signalling is one step.
- `Correlation`: writing `confirmed` and sending is one step, and so is handling an acknowledgement.
- `Keepalive`: sending the active test, raising the counter and testing it are three steps.

Fields called histories (for example `log`, `turns`, `events`) are recorded and never read by a step. What a
run did is also read off its steps alone, by functions that name no step's effect (`ProtocolRecords`,
`StopAndWait.EventsOf`, `Correlation.SubmittedUnder`, `Keepalive.Answered`, `Registration.RequestsOf`), and the
main results are stated by these. Every lemma about `Run` is for all runs and for every state in them.

## What the code does that a reader may not expect

- The frequency limiter lets at most **5** messages of an account to a number through in any
  60 seconds, not the 6 that two windows of 3 suggest: two windows that meet in the interval never
  both contribute their first pass. Five is reached. A number that does not parse is never limited.
- Messages reach gateway queues exactly once if and only if no OK reply was lost. The final reply to a
  message is an acceptance exactly when some channel of its server serves the phone at that moment. So a
  message that reached a queue is accepted and stored as long as no reload takes its channels away while
  it is being scheduled. If one does, the message is in a gateway queue and yet answered NOROUTE or
  REJECT, unbilled and unstored; a run shows it.
- A phone of more than 11 characters reaches the gateway queue and the stored copy with its first 11 only
  (src/scheduler.c:462, src/server.c:496), although the whole of it was filtered and accepted.
- A gateway queue can exceed 127 by one for every push thread ever started, and by one for every test
  push. Both parts are attained, for all numbers of threads and of test pushes at once, by as many servers as
  threads and also by one server that is reloaded while it sends.
- Stop-and-wait attempts equal `rep + timeo` exactly when no unknown command was pulled: an unknown
  command waits and is counted, once or twice, without being sent (src/ismg.c:594-610).
- A message whose text cannot be converted leaves its identity in `confirmed` with the sequence number
  of the submit before it (src/sp.c:231-251). A late acknowledgement of that submit is then cached
  under the wrong message. In every run, also when messages are submitted more than once, an entry is
  right exactly when the acknowledgement it was last cached by did not come after a drop of another
  message; a drop harms no other entry and no other report.
- A report is looked up by the gateway's id but the cache entry with the internal id is deleted
  (src/sp.c:521-524). Entries therefore stay, and no delete ever makes one wrong; but when the internal
  id of a resolved message is the gateway id of another, the other's report is lost. An entry stays
  exactly as long as this does not happen.
- Find and append of the pool are not atomic. In every run an id gets two queues exactly when two
  clients of that id were between find and append at one time and both appended; a timeout alone does no
  such harm. It never happens while clients come one at a time, that is, while no request is accepted
  before every earlier client is done, and without timeouts they always do. A run with one timeout
  splits a queue in two.
- A response names the newest client exactly when no other client's write followed that client's own, or
  when the last one to write has left and the newest client has its id and opened its port again. A run with one timeout sends client 1 the id and port of client 0, whose late signal ends the wait.
- A thread that failed to open a port would signal without having written a response, and an old one
  would be sent (src/mt.c:248-252); today `lamb_child_server` tries ports until one opens.
- The expression that routes an upstream message is given the length of the service code as received
  but the field that keeps 20 characters of it (src/delivery.c:465, src/delivery.c:475), so for a longer
  code it reads what lies behind the field.
- `lamb_nodes_connect` leaves slot 0 empty for good when the first attempt fails (src/cache.c:159-164).
  Indexing by `key % len` is safe exactly when the first attempt succeeded or nothing connected. With the
  callers' test `len == 7` it is safe.
- A reload whose query fails leaves the routing table empty; everything is then stored, unowned.
- History PREV then NEXT restores a line exactly when it is shorter than the buffer and holds no NUL:
  a full line loses its last character (src/linenoise.c:701-702).
- A saved history with a line of 4095 characters or more, or with a carriage return or newline in a
  line, is not read back line by line (src/linenoise.c:1173-1179); every other history is.
- Typing into a full line drops the character silently, so as many backspaces eat into the text.

## Model

| member | source | states |
|---|---|---|
| Protocol.EveryMessageIsSettledOnce | src/server.c:263-505 | In every run of any number of servers, reloads at any moment included, at a loop head: the messages that the pull steps gave the server have exactly one result each, in order. Either that very message was accepted, with every field as pulled except that the text is in format 11 and, if it was not so before, is what the conversion gave in that turn; it was then billed once with -1 and stored once. Or it was answered once directly, under its id, with 4 or 7. The account's queue appends are, in order, the accepted messages and the appends whose OK was lost, with strings cut to their fields; each is one of the messages pulled. The stored copies are cut alike and are under the account and company of their moment |
| Protocol.TheMessageAtWorkIsTheLastPulled | src/server.c:367-432 | At every moment of every run the message that a server filters, sends, waits for, bills or stores is the one pulled last, unchanged but for the conversion of its text, and its push thread holds the same one |
| Protocol.FiltersDecide | src/server.c:302-416 | In every run a message goes on, prepared, if and only if its format is known, no enabled list or limit is against it, its text is readable, a template fits and no keyword occurs; otherwise it is answered under its id, with 4 if and only if only its text is unreadable up to there, else with 7. The options are those of the start or last reload, by their bits |
| Protocol.ExactlyOnceUnlessLost | src/server.c:434-472 | The number of appends is `sub` plus the number of lost OK replies, and the appended messages are what the scheduler keeps of the accepted ones, in order, if and only if no OK was lost: BUSY retries duplicate nothing |
| Protocol.AcceptedIfServed | src/server.c:451-472 | In every run BUSY ends nothing; the final reply to a message is an acceptance of it if and only if some channel of the last reload serves the phone it was pulled with, and otherwise the answer 4 to an account without channels and 7 to any other, whatever replies were lost before |
| Protocol.AppendedMessagesAreAccepted | src/server.c:434-500 | While each reload that comes when a message is being scheduled leaves channels that serve it: at the loop head every message that ever reached a queue, also by an old thread, is what the scheduler keeps of an accepted message, so none is refused |
| Protocol.CopiesAreNeighbours | src/server.c:441-449 | Unless a reload comes when a message is being scheduled, an append whose OK was lost is followed by another append of the same message and in the end by its accepted one |
| LostReplies.ALostReplyDuplicates | src/server.c:443-449 | A run in which one lost OK appends one accepted message twice |
| LostReplies.AReloadCanRefuseAnAppendedMessage | src/server.c:212-230 | A run in which a reload between the append and its OK ends a message that is in a gateway queue in NOROUTE |
| Protocol.QueuesAreBounded | src/scheduler.c:490-496 | Every gateway queue is at most 127 + starts and reloads + test pushes long, counted in the steps, in every interleaving of tests, appends, reloads and takes |
| QueueBound.BoundIsReached | src/scheduler.c:490-496 | For every number of threads and of test pushes there is a run in which a queue is 127 plus both long |
| QueueBound.OneServerReachesTheBound | src/server.c:212-230 | So there is with a single server, whose reloads start the threads |
| Protocol.QueuesAreFifo | src/scheduler.c:617-620 | For every gateway queue, what was ever appended equals what was taken followed by what it holds |
| Protocol.RepliesAreHonest | src/scheduler.c:502-514 | In every interleaving NOROUTE is sent exactly to accounts without channels, REJECT exactly when no channel serves the phone, OK only after the append of this very message, which is the one pending append |
| Protocol.MessagesGoWhereTheyAreServed | src/scheduler.c:473-500 | First-eligible routing in every interleaving: after the capacity test the message pulled last, with its strings cut, is bound for a registered queue of a channel that serves its phone, and every channel before it, when it was examined, did not serve the phone or had no registered queue with room; a message of an old thread was pulled by the same server |
| Protocol.AppendsLandWhereServed | src/scheduler.c:490-496 | In every run an append puts the message pulled last at the end of the queue of a channel that serves the phone it was pulled with, and changes no other queue |
| Protocol.OldAppendsLandWhereServed | src/scheduler.c:490-496 | So does an append of a thread whose connection was replaced, for a message of its server and by the channels of its time |
| Protocol.TestsLandWhereNamed | src/scheduler.c:289-327 | In every run a test push puts the test message, its strings cut and without account and company, at the end of the queue it names |
| Protocol.QuietScanPicksFirst | src/scheduler.c:473-500 | When no other thread interferes, the stepwise scan ends at the first channel in list order that serves the phone and has a registered queue with room, or finds none |
| Protocol.QuietScanIsRoute | src/scheduler.c:473-500 | So it decides as `Routing.Route` does on the heap |
| Protocol.MoneyIsConserved | src/server.c:748-771 | For every company, after every step, reloads that move accounts between companies included: balance + bills dropped on error + queued bills = what it had + what was paid in + bills ever issued to it |
| Protocol.BillsMatchMessages | src/server.c:479-485 | In every state of every run the bills a server issued are, in order, the -1 of each billing step and the +1 of each report with a status other than 1, to the company of that moment; there is one -1 for each accepted message but for the one about to be billed, and the sum is the number of failed reports among the steps less the number of -1 |
| Protocol.MoneyMatchesMessages | src/server.c:562-569 | While no reload moves an account to another company: balance + dropped bills + queued and about to be queued bills = what the company had and was paid in - accepted messages + reports with a status other than 1 among the steps, for any number of servers sharing the company |
| ProtocolRecords.ServersFollowTheSteps | src/server.c:192-230 | In every run each server is configured as at its start or last reload, its turns are the messages pulled and what the probes said when they passed, and its refunds, bills and stored copies are those that the steps call for |
| ProtocolRecords.BillsAreHandledInOrder | src/server.c:740-771 | In every run the bills of a server are applied or dropped one by one in the order of issue: those handled, the one in hand and the queued ones are all that were issued |
| ProtocolRecords.BalancesFollowTheSteps | src/server.c:754-759 | In every run a balance is what was there and paid in plus the bills whose update succeeded; exactly the bills whose update failed are dropped |
| Protocol.NextKeepsInv | src/scheduler.c:426-519 | Every step keeps the joint invariant of the servers' books, the queue histories, the queue bound with pushes in flight, and the money |
| Protocol.ThreadKeepsBound | src/scheduler.c:490-493 | However many threads are past the test, length + pushes in flight <= 127 + threads + tests, because the queue had room when the last one passed |
| ServerBooks.ActedKeepsBooks | src/server.c:434-500 | Every step of one server and its push threads keeps: one result per message, of that message; the lists are projections of the results; the appends are the seen, the lost and the one pending |
| ServerBooks.ReconnectedKeepsBooks | src/server.c:212-230 | So does a reload at any moment |
| ServerBooks.ActedKeepsBacked | src/server.c:434-500 | Every act of a server or of its push threads keeps: each message that was appended, or is in the hands of an old thread, is accepted, or is still being sent while some channel serves it |
| ServerBooks.ReplyDecides | src/server.c:451-472 | What each reply does to the results of the message at work, by the channels and the phone it was pulled with |
| ServerBooks.ReconnectedKeepsBacked | src/server.c:212-230 | So does every reload whose channels serve the message that is being sent, if there is one |
| ServerBooks.ActedKeepsRepeated | src/server.c:441-449 | While no old thread carries a message, copies of a message stand next to each other |
| ServerBooks.ConcludedInActs | src/server.c:451-500 | From a final reply on, the acts of the state machine do to the books what `Server.Worker.Conclude` does |
| ServerBooks.ActedKeepsLinked | src/scheduler.c:464-500 | The push thread works on the message its server waits for, and its operator flag says whether a channel scanned so far serves the phone |
| ServerBooks.ActedKeepsBilled | src/server.c:479-485 | Every act keeps one -1 for each accepted message and one +1 for each failed report, and changes what is outstanding for each company by what it issues to it |
| Routing.CheckOperator | src/scheduler.c:708-747 | True exactly when the channel carries any network, or carries a network whose prefix table lists the first three digits |
| Routing.ServesByPrefix | src/scheduler.c:45-50 | Which prefixes each of the bits 1, 2 and 4 covers, and that bit 8 covers all |
| Routing.UnlistedNeedsBit8 | src/scheduler.c:742-747 | A number in no table is carried by bit 8 alone |
| Routing.KeptIsTheCopy | src/scheduler.c:458-465 | The scheduler's copy has the first 6, 20 and 11 characters of spid, service code and phone and the rest as it came |
| Routing.KeptIsServedAlike | src/scheduler.c:480-481 | Cutting the phone changes nothing of which channels serve it |
| Routing.NetworksAreDisjoint | src/scheduler.c:45-50 | No number belongs to two networks |
| Routing.TargetIsUnique | src/scheduler.c:473-500 | A message has at most one target queue |
| Routing.Route | src/scheduler.c:459-514 | OK exactly when some channel serves the phone and its queue is registered with room; the message, its strings cut, then goes to the queue of the first such channel and no other queue changes; NOROUTE exactly for the empty list; REJECT exactly when channels exist and none serves the phone; otherwise BUSY, and then nothing changes |
| Routing.TestPush | src/scheduler.c:289-327 | A test message, without account and company, is appended to the named gateway's queue whatever its length, or answered NOROUTE when there is none |
| Server.Worker.Filter | src/server.c:302-416 | The first failing filter in order, and no other, raises its counter and answers with its code; the message passes, converted, exactly when no filter fails |
| Server.FirstFailureInWords | src/server.c:302-416 | The order of the filters, the option bit, the counter and the code of each |
| Server.AllPassInWords | src/server.c:302-416 | A message passes if and only if its format is 0, 8, 11 or 15, no enabled list, limit or keyword is against it, its text is readable and, where demanded, fits a template |
| Server.PlusInWords | src/server.c:318-322 | A refusal raises its own counter by one and no other |
| Server.Worker.Schedule | src/server.c:434-472 | The resending ends at the first answer other than BUSY, and the message was sent once for every earlier attempt that was not refused by the socket |
| Server.FinalInWords | src/server.c:451-472 | The replies that end the resending are OK, NOROUTE and REJECT |
| Server.SendsInWords | src/server.c:435-439 | Every attempt but those the socket refused is on the wire |
| Server.Worker.Conclude | src/server.c:451-500 | OK counts, bills -1 and stores a copy, cut to its fields and under the server's own account and company; NOROUTE answers 4; REJECT counts and answers 7; each leaves the other books alone |
| Server.Worker.Work | src/server.c:263-505 | One turn keeps the books settled (total = accepted + answered, one -1 bill and one stored copy for each accepted message); what it does is fixed by the first failing filter, else by the first final reply |
| Server.Worker.constructor | src/server.c:239-262 | The books start settled and empty |
| Registration.AnIdIsUniqueUnlessOverlapped | src/mt.c:228-238 | In every run, timeouts included: an id has two queues in the pool if and only if two clients of that id were between find and append at one time and both appended |
| Registration.ClientsOfAnIdShareAQueue | src/mt.c:228-238 | In every run, clients of different ids never use one queue, and the clients of an id all share one if and only if no two of them overlapped |
| Registration.EveryQueueIsFifo | src/mt.c:292-317 | In every run and for every queue, what was pushed is what was popped followed by what waits, and only clients of the queue's id touched it |
| Registration.QueuesAreFifoPerId | src/mt.c:292-317 | For every id whose clients did not overlap, what was pushed is what was popped followed by what waits, over all its clients and all interleavings |
| Registration.AResponseIsOfTheLastWriter | src/mt.c:193-212 | In every run, a response names the client it answers and the port that client serves if and only if the client was the last to write, or the last to write has left and the client has its id and opened its port again |
| Registration.ResponsesNameTheirClient | src/mt.c:191-212 | While clients come one at a time, every response carries the id and port of the client being served, if that client could open a port, timeouts included |
| Registration.NoSignalIsLost | src/mt.c:254-264 | While clients come one at a time, the signal of a client that opened its port finds the main loop waiting for it if and only if no wait timed out since its request |
| Registration.OneAtATimeNeverOverlaps | src/mt.c:180-212 | While clients come one at a time, no two clients of an id ever overlap |
| Registration.NoTimeoutsMeansOneAtATime | src/mt.c:193-195 | Without timeouts clients come one at a time, and only a client that could not open a port loses its signal |
| Registration.HandshakeStays | src/mt.c:180-212 | Every step keeps: only the newest client is between its start and its signal, and the mutex, the main loop and the response agree with its stage |
| Registration.MutualExclusion | src/mt.c:254-264 | In every run exactly the owner of the mutex is in its critical section, so the shared response has one user at a time |
| Registration.OpenPortsAreServed | src/mt.c:240-252 | In every run a port is open exactly as long as one client, and no other, serves it |
| Registration.ClientsFollowTheSteps | src/mt.c:228-252 | In every run the clients are the requests in order, each serves the port it opened, and what was pushed and popped is what push and pull clients moved |
| Registration.ATimeoutCanSplitAQueue | src/mt.c:193-195 | A run with one timeout in which the pool holds one id twice |
| Registration.ATimeoutCanMisdirectAResponse | src/mt.c:193-212 | A run with one timeout in which client 1 of id 6 is sent the id and port of client 0 |
| StopAndWait.NextPullFollowsTheAck | src/ismg.c:499-612 | For every report or delivery and every later pull: between the two it was sent, and afterwards acknowledged with its own sequence number, its own message id and result 0 |
| StopAndWait.OnlyItsAckEndsAWait | src/ismg.c:449-460 | In every run an acknowledgement ends the wait for a report or delivery if and only if it has the sequence number and message id of the last pull and result 0 |
| StopAndWait.EarlyAcksDoNothing | src/ismg.c:456-458 | An acknowledgement that finds the thread not waiting changes nothing of it |
| StopAndWait.TheAckEndsTheSending | src/ismg.c:594-612 | After the acknowledgement that ends its wait a packet is never sent again under its number |
| StopAndWait.AfterTheAckItFinishes | src/ismg.c:604-612 | Until the next pull the thread then only finishes: it neither sends nor times out |
| StopAndWait.OneAttemptAndOneForEachTimeout | src/ismg.c:594-603 | In every run, from the pull of a report or delivery to the loop head before the next pull, it is sent once and once more for each timeout |
| StopAndWait.OneAttemptSuffices | src/ismg.c:499-612 | A run in which a report is sent once, acknowledged and done with |
| StopAndWait.CountersCountSteps | src/ismg.c:449-612 | In every run the history is the one the steps leave, and ack, err, timeo and rep count acknowledgements, failed sends, timeouts and packets done with |
| StopAndWait.LoopHeadMeansSettled | src/ismg.c:499-612 | At the loop head every packet pulled so far is settled in this sense, the last one included |
| StopAndWait.AttemptsFollowPulls | src/ismg.c:526-592 | Every attempt is of the packet pulled last, under the sequence number of that pull, and no two pulls share a number |
| StopAndWait.AttemptsAreRepliesAndTimeouts | src/ismg.c:594-612 | At the loop head attempts = rep + timeo if and only if no unknown command was pulled; otherwise the difference lies between one and two for each |
| StopAndWait.AnUnknownCommandIsCounted | src/ismg.c:594-610 | A run that pulls one unknown command: two counts and no attempt |
| StopAndWait.InvStays | src/ismg.c:449-460 | Every step, acknowledgements at any moment included, keeps: everything pulled before the last packet is settled, attempts are of the last packet, and `confirmed` names it while it is at work |
| Correlation.EntryIsRightUnlessTainted | src/sp.c:231-257 | In every run, repeated submits included, a cached entry has the id, the account, the company and the first 20 characters of the service code of the message whose submit got the gateway id, if and only if the acknowledgement it was last cached by did not come after a drop of another message; submits, gateway ids and drops are read off the steps |
| Correlation.ReportIsRightUnlessTainted | src/sp.c:517-541 | Whenever a report is forwarded, it names its message if and only if the same holds of the entry it is resolved by |
| Correlation.ReportsNameTheirMessage | src/sp.c:517-541 | In every run, every report ever forwarded names its message, unless an acknowledgement of its own gateway id was cached after a drop of another message |
| Correlation.AllRightUnlessTainted | src/sp.c:329-353 | In every run, all entries and all reports are right at every moment if and only if no acknowledgement was ever cached after a drop of another message |
| Correlation.WithoutDropsAllIsRight | src/sp.c:517-541 | When every text converts, all entries and all reports are right |
| Correlation.AckIsRightUnlessDropped | src/sp.c:329-353 | In every run an acknowledgement is cached if and only if it is of the last submit with result 0, and then under the right message if and only if the last drop since that submit, if there was one, was of a message like it; any other acknowledgement changes nothing |
| Correlation.ADropCanMisdirectAReport | src/sp.c:249-251 | A run in which the report for message 1 is forwarded as message 2, with its account, company and service code |
| Correlation.ReportsOfCachedAreForwarded | src/sp.c:517-558 | In every run: once an acknowledgement is cached, and while no message has the gateway's id for its internal id, the entry stays, and a later report for it, when its turn comes, is forwarded from it with its own status if and only if the entry holds a positive id, account and company; it is right if and only if it is not tainted |
| Correlation.ReportsWaitInOrder | src/sp.c:509-519 | In every run the reports received and not yet taken up wait in the order they came |
| Correlation.NextMessageFollowsTheWait | src/sp.c:262-275 | In every run, between a submit that went out and the next message there is a timeout or the acknowledgement of that submit |
| Correlation.EntryStaysUnlessDeleted | src/sp.c:521-524 | In every run, a cached entry that is not written again stays, unchanged, if and only if no report is resolved of a message whose internal id is that entry's gateway id |
| Correlation.ADeleteCanLoseAReport | src/sp.c:521-524 | A run in which resolving one report deletes the entry of another message |
| Correlation.NextKeepsEntry | src/sp.c:329-353 | Every step keeps the entry of a gateway id right exactly as long as the last acknowledgement cached for it came when the messages were not mixed, deletes by internal id included |
| Keepalive.CountIsBelowRetryAtHead | src/sp.c:464-487 | With retry >= 1 the counter is below retry at every loop head, with responses arriving at any moment |
| Keepalive.ReconnectMeansSilence | src/sp.c:476-480 | In every run the connection is replaced only after at least retry rounds; to none of the last retry - 1 did a response with its own number come before the next round began |
| Keepalive.SilenceMeansReconnect | src/sp.c:474-480 | Conversely, when none of the last retry rounds had such a response, fewer than retry rounds began since the connection was replaced last |
| Keepalive.AnsweredMeansNoReconnect | src/sp.c:464-487 | While at each step some round among the latest retry - 1 has been answered, the connection is never replaced |
| Keepalive.InvStays | src/sp.c:453-457 | Every step keeps the counter within one of the number of rounds without a response since the last reconnect |
| Keepalive.RoundsOfStep | src/sp.c:453-457 | A response answers the round in progress if and only if it has the number that round began with |
| Statistics.NamesAreInvertible | src/ismg.c:536-562 | A status code survives being written as a name and read back if and only if it is one of 1 to 7 |
| Statistics.NamesInOrder | src/ismg.c:536-562 | The seven names from status 1 on, and that each is read back in any case |
| Statistics.NameRoundTrip | src/sp.c:384-401 | A name read and written again is itself in upper case, or UNKNOWN when it is no name |
| Statistics.EveryEventIsCountedOnce | src/sp.c:859-885 | Submits and reports with status 1 to 7 are each counted by exactly one of the eight counters |
| Statistics.Statistical.Submit | src/sp.c:259-264 | A submit raises its counter alone and keeps the conservation law |
| Statistics.Statistical.CheckStatistical | src/sp.c:859-885 | A status from 1 to 7 raises its own counter, any other raises none |
| Statistics.Statistical.Report | src/sp.c:529-532 | A resolved report raises exactly the counter of the status its text stands for |
| Statistics.Statistical.CopyAndClear | src/sp.c:713-716 | The locked half of a flush moves every count into the copy |
| Statistics.Statistical.HandOn | src/sp.c:718-726 | The copy is handed to the writer unless all counters are zero; nothing is lost either way |
| Statistics.Statistical.Run | src/sp.c:713-726 | For every interleaving of submits, reports and both halves of flushes: rows handed on + copy in hand + live counter = events so far, for each counter |
| Lists.UnlinkedChain | src/list.c:277-288 | Joining the neighbours of a node leaves a chain with the same nodes but that one, prev and next still inverse |
| Lists.List.Rpush | src/list.c:123-143 | Keeps the representation invariant and appends the node; NULL changes nothing |
| Lists.List.Lpush | src/list.c:199-219 | Keeps the invariant and prepends the node; NULL changes nothing |
| Lists.List.Rpop | src/list.c:149-167 | Takes the last node, detached, or nothing from the empty list |
| Lists.List.Lpop | src/list.c:173-192 | Takes the first node, detached, or nothing from the empty list |
| Lists.List.Find | src/list.c:225-246 | The node of the first value that matches by the callback, or by equality without one; NULL exactly when none does |
| Lists.List.At | src/list.c:252-271 | Element i from the head, element len + i for negative i, NULL outside |
| Lists.List.Remove | src/list.c:277-298 | Removes exactly the given node and leaves that node's own links for the iterator |
| Lists.ReleaseAll | src/list.c:98-116 | The walk that releases a list: although a released node keeps none of its fields, every node is released once, in order, with its value, so each link is read before |
| Lists.List.Destroy | src/list.c:98-116 | Releases every node of the list once, in order, and with it the value it held |
| Lists.Iterator.Next | src/list.c:59-67 | Hands out the stored node and steps in the iterator's direction, so the node handed out may be removed |
| Lists.List.DrainTurn | src/delivery.c:316-319 | Removing the last node and asking the iterator gives the node that is last now |
| Lists.List.DrainFromTail | src/delivery.c:313-321 | Iterating from the tail and removing every node terminates, hands each node out once, last to first, and leaves head = tail = NULL and len = 0 |
| Queues.Queue.Push | src/queue.c:28-36 | Appends the value to the queue |
| Queues.Queue.Pop | src/queue.c:38-46 | Takes the oldest value, or nothing from the empty queue |
| Queues.Queue.constructor | src/queue.c:11-26 | A new queue has its id and is empty |
| Queues.FindOrCreate | src/mt.c:228-238 | Through the installed comparison, returns the queue of the id, appending a new empty one exactly when the pool has none; ids stay distinct and no other queue moves |
| Queues.OneQueuePerId | src/queue.c:48-56 | A pool holds at most one queue for an id |
| Delivery.RoutesIsFunctional | src/delivery.c:473-479 | A table routes a service code to one account only |
| Delivery.TheQueryDecides | src/delivery.c:800-804 | After a reload the first row of the query whose expression, kept to 127 characters, matches gives its own target |
| Delivery.StoredIsTheMessage | src/delivery.c:459-467 | The copy of an upstream message has its id and text, and as much of phone and service code as their fields keep |
| Delivery.Server.Fetch | src/delivery.c:784-816 | Appends every row of the query in order, expressions cut to their field; a failed or empty query reports -1 and appends nothing |
| Delivery.Server.Reload | src/delivery.c:312-331 | The table becomes exactly what the query gives, empty when it fails |
| Delivery.Server.RouteOf | src/delivery.c:470-481 | The target of the first row in order whose expression matches, 0 when none does |
| Delivery.Server.Enqueue | src/delivery.c:483-495 | Appends to the account's queue, creating it if need be; no other account's queue changes |
| Delivery.Server.Push | src/delivery.c:444-505 | The first row that matches the kept service code, read to the length received, decides: a positive target queues the message for that account alone, otherwise it is stored without owner |
| Pools.ContentsAfterUpdate | src/delivery.c:484-495 | Changing the first queue of an id changes what waits for that id and for no other |
| Pools.ContentsAfterAppend | src/mt.c:233-237 | A queue for a new id changes nothing for the others |
| Decimal.ParseDec | src/sp.c:764-778 | The decimal text of a key reads back as the key |
| Decimal.PairKeyInjective | src/server.c:794-801 | No two (account, phone) pairs share the key "account.phone" |
| Shards.Caches.Connect | src/cache.c:142-173 | The successful attempts fill consecutive slots in order, from slot 1 exactly when the first attempt failed, and then slot 0 keeps what it held; an empty table is left as the two rows below require |
| Shards.EveryIndexIsConnected | src/cache.c:149-170 | `key % len` reaches a connected slot for every key if and only if the first attempt succeeded or nothing connected |
| Shards.FullTableIsInOrder | src/sp.c:1001-1007 | After the callers' check len = 7, index `key % 7` is the connection to the configured node of that number |
| Shards.LastWriteWins | src/sp.c:764-833 | After any operations, a key holds the value of the last set of it, or nothing after a delete |
| Shards.UnwrittenStays | src/sp.c:764-833 | A key that no operation writes keeps its value |
| Shards.ShardedStore.Set | src/sp.c:764-782 | Writing to the shard of the key is an update of one flat map |
| Shards.ShardedStore.Get | src/sp.c:784-815 | Reading the shard of the key reads the flat map |
| Shards.ShardedStore.Del | src/sp.c:817-833 | Deleting in the shard of the key deletes in the flat map |
| Shards.ShardedStore.Run | src/sp.c:764-833 | For every sequence of operations, every read answers what one flat map would |
| Shards.NewSubmitCache | src/sp.c:1001-1007 | The submit cache, keyed and sharded by the gateway id, starts as the empty map |
| Shards.Unsubscribes.Write | src/server.c:776-812 | Adds exactly the pair (account, phone), nothing when the phone does not parse |
| Shards.Unsubscribes.Check | src/server.c:1003-1033 | True exactly for the pairs written: no other account, no other phone |
| Shards.Unsubscribes.WriteAll | src/server.c:776-812 | After any requests the store holds exactly the positive numbers among them |
| Frequency.Store.CheckFrequency | src/server.c:1035-1070 | One check: the verdict and the counters after it, expiry at the deadline and the missing deadline before EXPIRE included |
| Frequency.Store.CheckAll | src/server.c:1035-1070 | The verdicts of a whole run are the ones its own history determines |
| Frequency.ThreePerLifetime | src/server.c:35-36 | In every run, exactly the first three checks pass in each lifetime of a counter |
| Frequency.AlwaysBounded | src/server.c:1053-1066 | The window invariant that bounds passes in an interval by the age and count of the present counter |
| Frequency.AtMostFivePerMinute | src/server.c:1035-1070 | In any timed run at most 5 messages of one account to one number pass in any closed interval of 60 seconds |
| Frequency.OnlyOwnChecksCount | src/server.c:1041-1052 | The verdict on an account and number depends on the checks of that account and number alone |
| Frequency.FiveIsReached | src/server.c:1035-1070 | For every account and number some run lets 5 through |
| Frequency.UnparsedIsNeverLimited | src/server.c:1041-1049 | A check leaves all counters alone and never holds back if and only if the number does not parse |
| History.HistoryIsRecentDistinctLines | src/linenoise.c:1084-1111 | For every sequence of adds and every maximum, the array holds the last `max` of the lines with consecutive duplicates removed |
| History.SavedIsReadBack | src/linenoise.c:1147-1183 | The text of a saved history is read back line by line if and only if no line holds a newline or carriage return or is longer than 4094 characters |
| History.FullLineIsReadTwice | src/linenoise.c:1169-1173 | A line of exactly 4095 characters comes back unchanged but leaves an empty line behind it |
| History.SaveLoadRoundTrip | src/linenoise.c:1147-1183 | For a history of such lines, saving and loading gives it back if and only if it fits the maximum and has no adjacent repeats |
| History.Store.Add | src/linenoise.c:1084-1111 | The shifted array refines the list operation; 1 means added, 0 means unchanged |
| History.Store.Save | src/linenoise.c:1155-1156 | The text written is every entry in order, each followed by a newline |
| History.Store.Load | src/linenoise.c:1167-1183 | Every line that the bounded reads give is added in order; loading into an empty history gives the last `max` of them with consecutive duplicates removed |
| Memory.Memmove | src/linenoise.c:637-637 | The overlapping copy: the target range gets the old source range, the rest is unchanged |
| Memory.TerminatedAt | src/linenoise.c:689-689 | The string a buffer denotes depends only on what is before its first terminator |
| LineEdit.WordStartIsWordStart | src/linenoise.c:734-737 | The two backward scans stop at the start of the previous word: blanks last, before them a maximal run of non-blanks |
| LineEdit.WordStartIsUnique | src/linenoise.c:734-737 | There is exactly one such place |
| LineEdit.MovesByPosition | src/linenoise.c:649-680 | Left and right move one place, home and end to the ends; the text stays |
| LineEdit.CharByPosition | src/linenoise.c:622-646 | Where every character is after one is typed |
| LineEdit.DeleteByPosition | src/linenoise.c:708-715 | Where every character is after the one at the cursor is deleted |
| LineEdit.BackspaceByPosition | src/linenoise.c:718-726 | Where every character is after the one before the cursor is erased |
| LineEdit.SwapByPosition | src/linenoise.c:829-836 | The characters around the cursor change places and the cursor steps over them, unless they are the last |
| LineEdit.DeleteIsRightAndErase | src/linenoise.c:708-726 | Deleting forward is a step to the right and an erasure |
| LineEdit.KillToEndIsErasing | src/linenoise.c:913-917 | Killing to the end is going there and erasing back to the cursor |
| LineEdit.KillLineIsErasing | src/linenoise.c:908-912 | Killing the line is going to its end and erasing all of it |
| LineEdit.DeleteWordIsErasing | src/linenoise.c:730-742 | Deleting the word is erasing back to its start |
| LineEdit.RecallShowsTheNeighbour | src/linenoise.c:684-704 | Older shows the entry before, newer the one after, each cut to the buffer; the line is kept in its own entry |
| LineEdit.TypingInserts | src/linenoise.c:622-646 | Typing any string inserts, at the cursor, the part of it that fits |
| LineEdit.ErasingRemoves | src/linenoise.c:718-726 | n backspaces remove the n characters before the cursor, or all of them |
| LineEdit.TypeThenErase | src/linenoise.c:622-646 | Typing and erasing as many characters restores the line if and only if the string fitted or the cursor was at the start |
| LineEdit.SwapPermutes | src/linenoise.c:829-836 | Exchanging characters loses none |
| LineEdit.OlderThenNewer | src/linenoise.c:684-704 | PREV then NEXT gives the line cut to the buffer with the cursor at its end; the text is restored if and only if it is shorter than the buffer and holds no NUL |
| LineEdit.Buffer.constructor | src/linenoise.c:752-776 | Editing starts with an empty terminated line that is the newest history entry |
| LineEdit.Buffer.Insert | src/linenoise.c:622-646 | Refines insertion at the cursor, nothing on a full line; pos <= len <= buflen and the terminator stay |
| LineEdit.OpenGap | src/linenoise.c:637-638 | The move and the write put one character into the text at the cursor |
| LineEdit.CloseUp | src/linenoise.c:739-739 | The move takes a stretch out of the text |
| LineEdit.Buffer.InsertInside | src/linenoise.c:637-641 | The insertion before existing text moves it one place right |
| LineEdit.Buffer.DeleteRight | src/linenoise.c:708-715 | Refines deletion of the character at the cursor |
| LineEdit.Buffer.DeleteLeft | src/linenoise.c:718-726 | Refines deletion of the character before the cursor |
| LineEdit.Buffer.DeletePrevWord | src/linenoise.c:730-742 | Refines deletion from the start of the previous word to the cursor |
| LineEdit.Buffer.SwapWithPrev | src/linenoise.c:829-836 | Refines the exchange with the previous character |
| LineEdit.Buffer.DeleteLine | src/linenoise.c:908-912 | Refines clearing the line |
| LineEdit.Buffer.DeleteToEnd | src/linenoise.c:913-917 | Refines cutting the line at the cursor |
| LineEdit.Buffer.HistoryNext | src/linenoise.c:684-704 | Saves the line into its own entry and shows the neighbouring one; at either end only the save happens |
| LineEdit.Buffer.Press | src/linenoise.c:798-930 | Every key keeps pos <= len <= buflen and buf[len] = NUL and refines its operation on text, cursor and history |
| LineEdit.Buffer.PressAll | src/linenoise.c:777-930 | So does every run of keys |

## Left out

- Threads as state machines: in `ProtocolSteps`, `Registration`, `StopAndWait`, `Correlation` and `Keepalive` shared objects are values in a state, since what matters there is the interleaving; update in place of shared memory and aliasing between threads are not captured. The same queues and lists on the heap are in `List.dfy` and `Queue.dfy`.
- Protocol.EveryMessageIsSettledOnce: does not model failed allocations, on which the source drops the bill, the copy or the message (src/server.c:418-430, src/server.c:480-500), packets that cannot be unpacked, texts longer than the content field of the copies, or a reload that frees the templates or keywords while the filter walks them.
- Registration.ResponsesNameTheirClient: says nothing of a client that could not open a port, to which an old response is sent; the source does not reach that branch (src/mt.c:478-487).
- Registration.NoSignalIsLost: a wait ends by a signal of a client or by the 3-second timeout; spurious wakeups are not modelled.
- StopAndWait.NextPullFollowsTheAck: needs waits to end by a signal or a timeout only, and fresh sequence numbers.
- Correlation.EntryIsRightUnlessTainted: needs fresh sequence numbers and distinct gateway ids; `cmpp_sequence` is not part of this model.
- Registration.AResponseIsOfTheLastWriter: does not model that the address in the shared response lies on the stack of the thread that wrote it (src/mt.c:258-261), so that it is no longer valid once that thread has ended.
- Keepalive.CountIsBelowRetryAtHead: needs `heartbeat.count++` to be atomic.
- Frequency.AtMostFivePerMinute: needs Redis to answer every command, and the checks of one key to run one after the other, as they do in the account's single work thread.
- Lists.List.Rpop: runs alone; the source tests emptiness before it locks (src/list.c:150-154), so two concurrent calls on one element are not covered. `find`, `remove` and the iterators take no lock either.
- Lists.List.Remove: does not model that the node and its value are freed. The 32-bit wrap of `len` is not modelled.
- Redis failures, the blacklist read, the arrears flag, storage and report writes to PostgreSQL: each is a parameter, a step or absent.
- Conversion, regular expressions: parameters (`Probes`, `regex`, `matches`). `lamb_ucs2_strlen` is not part of this model.
- `linenoiseHistorySetMaxLen`: the maximum is fixed. A NUL character in a history file is not modelled.
- Enter, end of file, completion, hints, screen refresh and raw mode of linenoise: terminal work.
- src/mo.c: the same queue machine as src/mt.c.
- libcmpp, nanomsg, protobuf code, configuration, daemonising, src/lamb.c and web/: plumbing and administration.
