# A verified model of amphisbaena

amphisbaena accepts HTTP requests over TCP, turns their JSON bodies into FIX
messages, sends these on a FIX session, waits for the response and turns it
back into an HTTP response. All of it runs in coroutines on one io thread,
which share a cooperative scheduler; FIX responses arrive on another thread;
the parts are plugins loaded at run time.

The project models these six layers in Dafny and proves what they keep over
every run.

**Scheduler** (`Runtime`, `RuntimeRuns`). `Schedule` posts resume tokens to the
io queue. A token names a coroutine and carries no reason. The queue is a
multiset, so nothing depends on its order. `Rt` is the scheduler as a value,
the class `Schedule` the object; bodies of coroutines are arbitrary.

**Sockets** (`TcpServer`, `TcpInvariant`, `TcpResults`, `TcpHistory`,
`TcpProgress`, `TcpWaits`). The accept, read and write loops as a machine over that scheduler, timers included: a step
is one resume token run to the next yield, one answer of the kernel, one
completion handler, one expiry or handler of a timer, or a token posted by
somebody else. The message handler may send any replies and wait with a timer
any number of times, as `FixBuilder::create` does; the kernel may answer with
any sizes and texts; the order of everything is free. An exception that escapes
a coroutine ends the run.

**Request and response over FIX** (`FixBuilder`, `FixInvariant`, `FixResults`,
`FixBalance`). `FixBuilder::create` and `on_recv` interleaved at every point
where the two threads can see each other; `Future::set` is two steps, store and
post. `FixBalance` counts the wake-ups of every call.

**HTTP** (`HttpParser`, `HttpReassembly`, `Framing`, `Decimal`, `Util`).
Callbacks of the parser into messages, many connections, responses as text and
a reader that gets them back.

**Messages** (`Messages`, `Copying`, `Getters`, `Translation`). The ordered JSON member
list, the FIX field map, `copy_from` between them and the builder that
translates both ways.

**Plugins** (`Plugins`, `PluginLifecycle`). Application, plugins, loaders and
the builder registry under any sequence of load, reload and unload.

Each mutable object of the program is a class whose methods are proved equal to
functions on a value; invariants and run-level theorems are lemmas about these
functions. A `Feasible`/`Exec` pair in a module ranges over all its runs.

## What the proofs found

Where the code does not do what it is for in every case, the project states
exactly when it does:

- Awaits match in every state of a run if and only if every pause is ended by
  one thing: nobody resumes a coroutine that does not pause, or one twice, and
  no timer expires once its pause was resumed (`MatchedIffOrderly`). On these
  runs the server population, the bytes on the wire and the messages handled
  are exact.
- On any run, a coroutine that waits on a socket cannot be taken out of the wait
  before its completion, in any continuation in which nobody else resumes it
  there, if and only if none of its tokens and expired timers is queued and no
  operation of an earlier wait is left (`WaitIsSafeIffQuiet`). When something is
  left, `TcpConnection::send` can hand the same bytes to the kernel twice
  (`TokenDuplicatesBytes`), whatever the reply (`AnyReplyCanBeDoubled`). One FIX
  response that arrives as its timer expires is enough
  (`OneResponseCanDoubleTheReply`). In `recv` the same leads to a message being
  handled twice, when the uninitialised `size` happens to hold its length
  (`AnyRequestCanBeRepeated`).
- `create` leaves such wake-ups behind exactly by its balance: those it found,
  plus what came during it (responses posted to it, expirations of its timer,
  completions of its coroutine's earlier socket waits, tokens of anybody else),
  less its waits (`CallBalance`, `LeavesCleanIff`). The coroutine's next call
  can time out before its timer exactly if that does not come out at zero or an
  earlier operation is still outstanding (`NextTimeoutIsTrueIff`).
- `TimeoutException` implies that the timer expired, in every continuation in
  which nobody but futures, timers and completions resumes the coroutine there,
  if and only if, when `get_for` is entered, a response was stored already, or
  none of the coroutine's tokens and expired timers is queued and none of its
  operations of earlier waits is outstanding (`TimeoutIsTrueIffNoStray`).
- `pmss_` serves every call in flight if and only if calls on one session never
  overlap (`RegistryServesIffNoOverlap`).
- The comment in `handle_on_body` promises that a body received in parts is
  cached and parsed whole. The code compares the length of the cache with the
  length of the chunk, not with the whole length, so this holds if and only if
  no chunk after the first is as long as everything before it
  (`BodyReassembledIffNoEcho`). The model follows the code.
- A reader by RFC 9112 gets the exact sequence of responses if and only if their
  versions and codes have the form of a status line and no 1xx, 204 or 304
  response has a body (`ResponsesRead`). `HttpSession::send`
  prints a body and its length whatever the code.
- A double comes back from FIX exactly if its text keeps it (`RoundTrip`).
- A url, method or version that arrives in several spans is overwritten by each
  span, so it is whole if and only if all but its last are empty
  (`PartIsWholeIffOneSpan`).
- The builder registry is the set of active builders throughout a run if and
  only if the open libraries' builder names differ throughout it, and every
  library that is closed without a deinit symbol leaves its name to an open one
  (`RegistryExactIff`); it does not suffice that the names differ now
  (`ClashOutlivesIt`).

## Model

| member | source | states |
|---|---|---|
| Runtime.Schedule.Resume | src/schedule.cpp:85-94 | resuming only posts a token; nothing else of the scheduler changes |
| Runtime.Schedule.SpawnCo | src/schedule.cpp:73-83 | a new coroutine enters the live set with one token queued |
| Runtime.Schedule.BeginToken | src/schedule.cpp:48-58 | a token resumes exactly a coroutine of the live set, cancelling its pending timer only, and is dropped otherwise |
| Runtime.Schedule.CancelWait | src/schedule.cpp:51-52 | a pending wait is queued as cancelled; one that expired stays queued as expired |
| Runtime.Schedule.YieldFor | src/schedule.cpp:33-46 | re-arming cancels the pending wait and starts exactly one new one |
| Runtime.Schedule.TimerHandler | src/schedule.cpp:37-43 | an expired wait posts one token, a cancelled one posts nothing |
| Runtime.Schedule.RunItem | src/schedule.cpp:88-93 | one whole queued token, for any actions of the body and any way it gives control back |
| Runtime.InvRunToken | src/schedule.cpp:48-94 | a token run to completion keeps membership, conservation and liveness, whatever the body does, and resumes no finished coroutine |
| RuntimeRuns.RunKeepsInv | src/schedule.cpp:33-94 | the scheduler's invariant over every run, from any state that has it |
| RuntimeRuns.TokenConservation | src/schedule.cpp:48-94 | in every reachable state tokens posted are those queued, resumed and dropped; the live set is the coroutines not ended; only ended ones drop tokens; one not started has a token |
| RuntimeRuns.FinishedIsNeverResumed | src/schedule.cpp:54-57 | however many tokens are left, an ended coroutine is never resumed again, so the assertion on its push side holds |
| RuntimeRuns.OneToken | src/schedule.cpp:48-94 | one token of a live coroutine, whatever its body does: resumed once, its timer armed afterwards exactly if it yielded with one, over exactly if its body returned, and everybody's tokens counted |
| RuntimeRuns.TimerResumes | src/schedule.cpp:33-46 | from every reachable state an armed timer can expire, and the token its handler posts resumes the coroutine |
| TcpServer.TcpServer.constructor | src/common/tcp_server/tcp_server.cpp:16-38 | listening begins with one coroutine that has yet to start accepting |
| TcpServer.TcpServer.Accept | src/common/tcp_server/tcp_server.cpp:47-68 | one turn of the retry loop: one accept operation of this coroutine, and nobody else's, goes to the kernel |
| TcpServer.TcpServer.Recv | src/common/tcp_server/tcp_connection.cpp:53-68 | one read operation goes to the kernel |
| TcpServer.TcpServer.SendTurn | src/common/tcp_server/tcp_connection.cpp:27-41 | one write of exactly the unsent rest goes to the kernel |
| TcpServer.TcpServer.AfterWrite | src/common/tcp_server/tcp_connection.cpp:46-50 | the call returns when all is out, else the next turn offers the rest |
| TcpServer.TcpServer.Admit | src/common/tcp_server/tcp_server.cpp:70-82 | a successor is spawned, and a connection with an empty buffer is made |
| TcpServer.TcpServer.Connected | src/common/tcp_server/tcp_server.cpp:70-85 | both come before the first read on the new connection |
| TcpServer.TcpServer.Close | src/common/tcp_server/tcp_connection.cpp:70-73 | a failed read closes the connection and ends the coroutine |
| TcpServer.TcpServer.CompletionHandler | src/common/tcp_server/tcp_connection.cpp:34-39 | the handler writes its result into the wait that started it, if that wait still stands, and posts one token |
| TcpServer.TcpServer.NextMove | src/common/tcp_server/tcp_connection.cpp:75-77 | the message handler's next reply, wait with a timer, or return to the read loop, where exactly one operation or one timer is started |
| TcpServer.TcpServer.DoRecv | src/common/tcp_server/tcp_connection.cpp:75-77 | the message handler is given the first bytes of the buffer, as many as `size` says |
| TcpServer.TcpServer.Wake | src/common/tcp_server/tcp_server.cpp:70-85 | one token takes the coroutine from its yield to the next one, or is dropped; an accept that ends before its completion ends the process, as remote_endpoint throws |
| TcpServer.TcpConnection.Send | src/common/tcp_server/tcp_connection.cpp:24-51 | at every turn the wire holds a prefix of the data, on return all of it once; a kernel that takes something each turn ends it within as many turns as there are bytes |
| TcpInvariant.NextInv | src/common/tcp_server/tcp_server.cpp:47-85 | every orderly step, timers and foreign tokens included, keeps await matching, population, wires and inputs |
| TcpInvariant.RunKeepsInv | src/common/tcp_server/tcp_server.cpp:47-85 | and so does every orderly run |
| TcpResults.AwaitMatching | src/common/tcp_server/tcp_connection.cpp:24-78 | in every state of an orderly run a coroutine has one token and has not started, or waits with its own operation pending and nothing queued, or with its own operation complete and one token, or pauses with one thing to end it; a handler that is due finds the very wait that started it |
| TcpResults.MatchedIffOrderly | src/schedule.cpp:33-58 | for every run: awaits match in all its states if and only if each pause is resumed once, only pauses are resumed by others, and no timer expires after the resume |
| TcpResults.ServerPopulation | src/common/tcp_server/tcp_server.cpp:36-85 | on every orderly run exactly one coroutine accepts or is about to, at most one accept is outstanding, every open connection has exactly one server, the live set has one member more than there are connections |
| TcpResults.WireIsExact | src/common/tcp_server/tcp_connection.cpp:24-51 | on every orderly run the wire is the data of the calls that returned, in order, then a prefix of the call in progress |
| TcpResults.ReadsAreExact | src/common/tcp_server/tcp_connection.cpp:53-78 | on every orderly run the message handler is given what the reads returned, in order, each once, but for one that is complete and not yet resumed |
| TcpHistory.AcceptAdds | src/common/tcp_server/tcp_server.cpp:59-85 | a successful accept adds exactly one open connection, served by that coroutine with nothing read yet, and one fresh coroutine with one token |
| TcpHistory.AcceptAgain | src/common/tcp_server/tcp_server.cpp:51-67 | a failed accept changes neither and accepts again |
| TcpHistory.FailedReadCloses | src/common/tcp_server/tcp_connection.cpp:70-73 | a failed read removes the connection and ends its coroutine |
| TcpHistory.ReadHandsOn | src/common/tcp_server/tcp_connection.cpp:75-77 | a read with data gives the handler the bytes read, and its first move is made, the others following in order |
| TcpHistory.WriteGoesOn | src/common/tcp_server/tcp_connection.cpp:46-50 | a write whose data is out returns and the handler makes its next move; else the rest is offered again |
| TcpHistory.PauseGoesOn | src/common/tcp_server/tcp_connection.cpp:75-77 | after a pause the handler makes its next move |
| TcpHistory.ConnectionsAreAccepts | src/common/tcp_server/tcp_server.cpp:47-85 | on every orderly run as many connections were made as the kernel accepted, but for one whose acceptor has not run; each is open exactly until a read on it fails and its reader has run |
| TcpHistory.HandledIsRead | src/common/tcp_server/tcp_connection.cpp:53-78 | on every orderly run the handler is given, in order and once, the texts the kernel read from the connection, but for one not yet resumed |
| TcpHistory.AskedIsSent | src/common/tcp_server/tcp_connection.cpp:24-51 | on every orderly run the replies that returned, the one under way and those ahead are all that the handler asked for, in order |
| TcpProgress.ClientIsAdmitted | src/common/tcp_server/tcp_server.cpp:47-85 | in every state of an orderly run in which the acceptor waits, the next client can be admitted and its coroutine waits to read |
| TcpProgress.RequestIsAnswered | src/common/tcp_server/tcp_connection.cpp:24-78 | in every state of an orderly run in which a server waits to read: whatever text comes and whatever the reply, the text is handled once, the reply is on the wire once, and the server reads again |
| TcpWaits.RunKeepsWeak | src/common/tcp_server/tcp_connection.cpp:27-70 | over every run whatsoever a wait not complete has its own operation with the kernel, and only a pause has an armed timer |
| TcpWaits.WaitIsSafeIffQuiet | src/common/tcp_server/tcp_connection.cpp:27-43 | in every reachable state of a live process a socket wait cannot end before its completion, in any continuation in which nobody else resumes the coroutine in it, if and only if no token or expired timer of the coroutine is queued and no operation of an earlier wait is left |
| TcpWaits.TokenDuplicatesBytes | src/common/tcp_server/tcp_connection.cpp:27-50 | one token too many during any unfinished write puts the remaining bytes on the wire twice |
| TcpWaits.AnyReplyCanBeDoubled | src/common/tcp_server/tcp_connection.cpp:27-50 | so it can be for any reply that is not empty, sent by any handler in any state of an orderly run |
| TcpWaits.OneResponseCanDoubleTheReply | src/schedule.cpp:37-58 | a single response to a handler that pauses suffices, if the timer expires before the response's token runs |
| TcpWaits.AnyRequestCanBeRepeated | src/common/tcp_server/tcp_connection.cpp:56-77 | a connection that waits for its next message hands the last one to the handler again, if it is resumed there and the uninitialised size holds its length |
| FixBuilder.FixBuilder.Register | src/plugin/fix_client/fix_builder.cpp:49-55 | the call's own promise becomes the entry of its session, over any other |
| FixBuilder.FixBuilder.GetFor | include/future.hpp:43-46 | the wait begins with one timer armed; nothing is read yet |
| FixBuilder.FixBuilder.Observed | src/plugin/fix_client/fix_builder.cpp:65-78 | no value: timeout; an execution report to a new order: return it; anything else: wait again, the value kept |
| FixBuilder.FixBuilder.Resumed | include/future.hpp:45-47 | a token gives a live coroutine control, which reads the value stored last if it was waiting |
| FixBuilder.FixBuilder.ScopeExit | src/plugin/fix_client/fix_builder.cpp:56-61 | the session's entry is erased, whoever registered it |
| FixBuilder.FixBuilder.OnRecv | src/plugin/fix_client/fix_builder.cpp:86-96 | the response replaces the value of the session's entry; without an entry nothing happens |
| FixBuilder.FixBuilder.WakeUp | include/future.hpp:50-59 | the second half of set posts one token for the future's coroutine |
| FixInvariant.NextInv | src/plugin/fix_client/fix_builder.cpp:37-96 | every step of either thread keeps all parts of the invariant |
| FixInvariant.RunKeepsInv | src/plugin/fix_client/fix_builder.cpp:37-96 | and so does every interleaving |
| FixResults.NoLostWakeup | include/future.hpp:36-59 | while a registered call has not read the value stored for it, the setter is between store and post or a token for the coroutine is queued |
| FixResults.WakeupYieldsLastValue | include/future.hpp:43-59 | in every reachable state with such a value the wake-up can happen, and what get_for returns then is the value stored last |
| FixResults.EveryWaitCanEnd | include/future.hpp:43-48 | in every reachable state a coroutine inside get_for has its timer armed, or an expired timer or a token queued |
| FixResults.TimeoutComes | src/plugin/fix_client/fix_builder.cpp:65-69 | from every reachable state in which a call waits unanswered with its timer armed, the timer can expire and create then throws TimeoutException |
| FixResults.AnswerReturns | src/plugin/fix_client/fix_builder.cpp:49-78 | whenever a coroutine has control it can call create on any session, and the ExecutionReport that comes on it is what create returns |
| FixResults.Causality | src/plugin/fix_client/fix_builder.cpp:49-78 | a returned response is an execution report to a new order, delivered on the call's session after its registration and before its erase; a timeout comes from the first pass of the loop |
| FixResults.AnsweredNeverTimesOut | src/plugin/fix_client/fix_builder.cpp:65-69 | once any response reached a call, no continuation of any length makes it time out |
| FixResults.TimeoutIsTrueIffNoStray | include/future.hpp:43-48 | whenever get_for is entered: the default comes back only after its own timer expired, in every continuation in which nobody but futures, timers and completions resumes the coroutine there, if and only if a response is stored already, or none of the coroutine's tokens and expired timers is queued and none of its operations of earlier waits is outstanding |
| FixResults.RegistryServesIffNoOverlap | src/plugin/fix_client/fix_builder.cpp:52-61 | throughout a run the keys of the registry are exactly the sessions in flight, each with its own promise, if and only if no two calls on one session overlap in it |
| FixResults.EntriesAreLastRegistered | src/plugin/fix_client/fix_builder.cpp:52-61 | in every run an entry belongs to a call still in flight on that session, the last one registered there |
| FixResults.DeliveredToItsCall | src/plugin/fix_client/fix_builder.cpp:86-96 | on every run without overlapping calls on a session a response reaches the call on its session and no other, and is lost only if there is none |
| FixResults.SecondResponseLeavesToken | src/plugin/fix_client/fix_builder.cpp:63-78 | two responses before the first read: create returns and leaves one more of the coroutine's tokens queued than it found |
| FixResults.SecondResponseForgesTimeout | src/plugin/fix_client/fix_builder.cpp:63-78 | after that, whatever the coroutine asks for next, on whatever session, can end in TimeoutException before its timer expires |
| FixBalance.CallBalance | src/plugin/fix_client/fix_builder.cpp:49-78 | for every call over every run: wake-ups queued after it are those queued before it, plus responses posted to it, expirations of its timer, completions of earlier operations and tokens of anybody else, less its waits; operations outstanding after it are those before it that did not complete |
| FixBalance.LeavesCleanIff | src/plugin/fix_client/fix_builder.cpp:49-78 | exactly when create leaves no token, no expired timer and no operation of its coroutine: for a call that found none and that nobody else resumed, if and only if responses and expirations are as many as its waits |
| FixBalance.NextTimeoutIsTrueIff | include/future.hpp:43-48 | the first wait of the coroutine's next call times out only truly, in every continuation in which nobody else resumes it there, if and only if that balance comes out at zero and no operation is outstanding |
| HttpParser.HttpSession.HandleOnBody | src/common/http_parser/http_parser.cpp:124-142 | the branches of the body callback, by length of the cache and remaining length |
| HttpParser.HttpSession.Handle | src/common/http_parser/http_parser.cpp:83-151 | what each callback does to the message under construction and to the cache |
| HttpParser.HttpSession.OnRecv | src/common/http_parser/http_parser.cpp:74-81 | all callbacks of one chunk in order, and a reset of the parser after an error |
| HttpParser.HttpServer.SessionOf | src/common/http_parser/http_parser.cpp:197-203 | the connection's own session, made if there was none; sessions are never shared |
| HttpParser.HttpServer.OnRecv | src/common/http_parser/http_parser.cpp:191-206 | data changes the session of its connection and no other |
| HttpReassembly.BodyReassembledIffNoEcho | src/common/http_parser/http_parser.cpp:124-142 | for every split into non-empty chunks: parsed exactly once, on the last chunk, with the whole body, if and only if no chunk after the first is as long as all before it |
| HttpReassembly.ChunkingDoesNotMatter | src/common/http_parser/http_parser.cpp:124-142 | two splits of one body that meet the condition are indistinguishable |
| HttpReassembly.MessageDelivered | src/common/http_parser/http_parser.cpp:83-151 | whatever an earlier message left in the session, a complete message delivers its own head and body, once |
| HttpReassembly.MessagesIndependent | src/common/http_parser/http_parser.cpp:83-151 | over any number of messages, message k depends on the callbacks of message k alone |
| HttpReassembly.DeliveredBody | src/common/http_parser/http_parser.cpp:115-142 | the body handed on is the body sent, exactly under that condition; no body, no parse |
| HttpReassembly.PartIsWholeIffOneSpan | src/common/http_parser/http_parser.cpp:91-113 | a method, url or version in several spans, among those of the others, is delivered whole if and only if all but its last are empty |
| HttpReassembly.SessionsDoNotInterfere | src/common/http_parser/http_parser.cpp:191-206 | for every interleaving of connections each session, its parser state and its deliveries are what they would be alone |
| HttpReassembly.ReadsAreCallbacks | src/common/http_parser/http_parser.cpp:74-81 | the reads of a connection act as the callbacks the parser made for them, one after the other, resets included |
| HttpReassembly.MessagesReachTheirConnection | src/common/http_parser/http_parser.cpp:74-206 | for every interleaving and every cut into reads: if a connection's callbacks are those of complete messages and perhaps one begun, exactly these messages are delivered for it, in order |
| Decimal.ParsePrintInt | src/common/http_parser/http_parser.cpp:60-69 | reading a printed integer gives it back, for every integer |
| Decimal.NoLeadingZero | src/common/http_parser/http_parser.cpp:60-69 | a printed number begins with zero only if it is zero |
| Framing.ResponseRead | src/common/http_parser/http_parser.cpp:53-72 | the reader finds version, code, reason phrase, media type and body of a response, whatever follows and whatever the body holds; a code that ends at the empty line leaves the body unread, and another form of status line is refused |
| Framing.ReadBackIffFramed | src/common/http_parser/http_parser.cpp:53-72 | for any rules on status lines and on codes that end at the empty line: the sequence is recovered if and only if each response keeps them |
| Framing.ResponsesRead | src/common/http_parser/http_parser.cpp:53-72 | a reader by sections 4 and 6.3 of RFC 9112 recovers any sequence of responses in all their parts from the concatenated text if and only if each version is digit, point, digit, each code has three digits, and no 1xx, 204 or 304 response has a body |
| Framing.UniquelyDecodable | src/common/http_parser/http_parser.cpp:53-72 | equal output comes from equal sequences of responses |
| Messages.JsonObject.FindMember | src/common/http_message/http_message.cpp:335-341 | the first member of that name, or the end |
| Messages.JsonObject.SetValue | src/common/http_message/http_message.cpp:335-350 | the first match is replaced in place, else a member is added at the end |
| Messages.JsonObject.CopyFrom | src/message.cpp:9-30 | copying an object into itself does nothing, into another sets each typed field in order |
| Messages.FixObject.SetValue | src/plugin/fix_client/fix_message.cpp:331-342 | a known name sets its tag to the value's text, an unknown one is ignored |
| Messages.FixObject.CopyFields | src/message.cpp:9-30 | every typed source field with a known name is set under its tag, in order |
| Messages.SetAt | src/common/http_message/http_message.cpp:335-350 | the recursive set is the update at the first match or the addition at the end |
| Copying.SetRefines | src/common/http_message/http_message.cpp:335-350 | setting in the ordered list is map update |
| Copying.ToMapIsLookup | src/common/http_message/http_message.cpp:319-333 | looking up in the ordered list is map access |
| Copying.IterateRefines | src/common/http_message/http_message.cpp:202-214 | with distinct names iteration shows exactly the items of the map |
| Copying.JsonFieldsAre | src/common/http_message/http_message.cpp:65-119 | iteration shows every member in order, with its value exactly if that has a field type |
| Getters.GetObjectIs | src/common/http_message/http_message.cpp:216-244 | the first member of the name if it is an object; NoKey if there is none, else a type error |
| Getters.ObjectAtIs | src/common/http_message/http_message.cpp:246-265 | that object, or an empty one in its place |
| Getters.GetTypedIs | src/common/http_message/http_message.cpp:319-333 | the first member of the name if its value has the type asked for; NoKey if there is none, else a type error |
| Getters.MappedTypeIs | src/plugin/fix_client/fix_message.cpp:38-54 | which FIX types map to which field type, and that no others do |
| Getters.FixGetIs | src/plugin/fix_client/fix_message.cpp:313-329 | on any field map: unknown name, field not set, other type, in this order; else the value the text stands for |
| Getters.FixFieldIs | src/plugin/fix_client/fix_message.cpp:28-36 | what the iterator shows at any tag, one outside the table included |
| Copying.CopyLookup | src/message.cpp:9-30 | after a copy a name has the source's last typed value for it, or what it had |
| Copying.CopyIsOverride | src/message.cpp:9-30 | right-biased override for every source with distinct names and every target: typed fields read back, others unchanged, distinct names stay so, a second copy changes nothing |
| Translation.FixSetThenGet | src/plugin/fix_client/fix_message.cpp:313-342 | what each FIX getter answers after a set, with its errors in order: the value if and only if its text keeps it; other names answer as before |
| Translation.JsonSetThenGet | src/common/http_message/http_message.cpp:319-350 | the same for a JSON object, where the last set decides the type |
| Translation.TranslationExact | src/plugin/fix_client/fix_message.cpp:18-54 | for every JSON object with distinct names: copying back succeeds if and only if each field's text reads as its table type, and then each name has that reading, or nothing if it is unknown, untyped or of no mapped type |
| Translation.OutgoingExact | src/plugin/fix_client/fix_message.cpp:331-342 | the FIX field map holds exactly the typed members with known names, each under its tag with its text |
| Translation.IncomingExact | src/plugin/fix_client/fix_message.cpp:120-155 | for any field map a counterparty answers with: copying back succeeds if and only if every mapped field can be read, and then a name has a value if and only if a field of the table's name and type stands for it |
| Translation.CreatedFrom | src/plugin/http_to_fix/http_to_fix_builder.cpp:31-36 | a readable answer makes a response of exactly "head" and "body", each the copy of its part |
| Translation.ReadText | src/plugin/fix_client/fix_message.cpp:139-155 | the text of a value reads back as it, always for integers and strings, for a double exactly if its text keeps it |
| Translation.RoundTrip | src/plugin/http_to_fix/http_to_fix_builder.cpp:20-39 | with values of the table's types: what comes back is the map without exactly the lost fields, if and only if the doubles that are kept survive their text; with nothing to lose, the same map |
| Translation.Create | src/plugin/http_to_fix/http_to_fix_builder.cpp:20-39 | the composed translation on fresh objects, with every error return in its order |
| Translation.FreshParts | src/common/http_message/http_message.cpp:246-265 | get_or_set_object on an empty response body adds "head" and then "body", each empty |
| Translation.EchoKeepsBothParts | src/plugin/http_to_fix/http_to_fix_builder.cpp:20-39 | against a counterparty that answers with the request, the response has exactly "head" and "body", each what its request part keeps |
| Translation.NothingSentIff | src/plugin/http_to_fix/http_to_fix_builder.cpp:23-29 | the counterparty's failure is the one reported if and only if the first member named "head" and the first named "body" are both objects; else the error of that part, the head first: NoKey if missing, a type error if not an object |
| Util.Split | src/util.hpp:8-31 | terminates and returns the segments without the empty ones, except that the last is kept |
| Util.SegmentsInvert | src/util.hpp:8-31 | segments hold no separator and joining them gives the string back |
| Util.SegmentsOfJoin | src/util.hpp:8-31 | separator-free pieces are the segments of their join, so segments are unique |
| Util.SplitUndoesJoin | src/util.hpp:8-31 | split undoes join for non-empty lists of non-empty separator-free pieces |
| Plugins.Application.Registe | src/builder.cpp:16-32 | the builder takes the entry of its name |
| Plugins.Application.Unregiste | src/builder.cpp:42-60 | the entry goes only if it is this very builder |
| Plugins.Application.Init | include/loader.hpp:13-17 | the count goes up even if the first do_init throws; do_init runs at zero only |
| Plugins.Application.Deinit | include/loader.hpp:19-23 | do_deinit runs when the count reaches zero |
| Plugins.Application.NewPlugin | src/plugin.cpp:10-33 | open and init, with the handle closed again on any failure |
| Plugins.Application.DeletePlugin | src/plugin.cpp:35-64 | deinit if the library has one, then close |
| Plugins.Application.Get | src/application.cpp:69-80 | the first slot of that name, or the end |
| Plugins.Application.LoadPlugin | src/application.cpp:24-36 | a taken name is refused, a failure changes no slot, success appends one |
| Plugins.Application.ReloadPlugin | src/application.cpp:38-50 | the old plugin goes before the new one is made in the same slot |
| Plugins.Application.UnloadPlugin | src/application.cpp:52-61 | the slot is erased and its plugin destroyed |
| Plugins.Application.Shutdown | src/application.cpp:9-15 | plugins are destroyed in exactly the reverse order of their slots, and what it reports is what was destroyed |
| PluginLifecycle.FailedLoadLeavesNoTrace | src/plugin.cpp:20-33 | a load that is refused or throws changes nothing at all, counts of a failed first init included |
| PluginLifecycle.Lifecycle | src/application.cpp:24-61 | over every sequence: names distinct, slots ordered by latest load, libraries open exactly while used with dlopen's count the number of their plugins; for libraries with a deinit the Loader's count too, do_init and do_deinit alternating, and no entry left of an inactive one |
| PluginLifecycle.SlotChange | src/application.cpp:24-61 | a load succeeds exactly if the name is free, the library opens and is active or accepts its arguments, and exactly then one slot is appended; reload keeps the slot, unload closes the gap |
| PluginLifecycle.SlotOrder | src/application.cpp:24-61 | over every run two plugins keep their order as long as neither is unloaded |
| PluginLifecycle.LivesOf | src/application.cpp:24-61 | what each event constructs and destroys, in order: a reload destroys the old plugin before it makes the new one |
| PluginLifecycle.EveryPluginDies | src/plugin.cpp:10-41 | over every run as many plugins of a library were made as were destroyed and are there |
| PluginLifecycle.ShutdownOrder | src/application.cpp:9-15 | the destructor destroys in exactly the reverse order of the slots, and nothing else |
| PluginLifecycle.EntriesOfOthers | src/builder.cpp:42-60 | unloading touches no entry of another library |
| PluginLifecycle.LatestRegistered | src/builder.cpp:16-32 | a library that is loaded first has its new builder under its name, over any other, and no other entry changes |
| PluginLifecycle.ShutdownLeavesNothing | src/application.cpp:9-15 | after the destructor every library is closed; of libraries with a deinit no entry is left and every do_init has its do_deinit |
| PluginLifecycle.RegistryExactIff | src/builder.cpp:16-60 | throughout a run the registry is exactly the active builders if and only if active builder names differ throughout it and each library closed without a deinit leaves its name to an open one; with a deinit everywhere, names alone decide |
| PluginLifecycle.ClashOutlivesIt | src/builder.cpp:42-60 | names that differ now do not suffice: an earlier clash leaves an active builder unregistered |

## Left out

- Boost.Asio, Boost.Coroutine2, QuickFIX, llhttp, rapidjson and dlopen: only
  their contracts appear (a queue served by one thread, completions at most
  once, an expired timer out of reach of cancel, callbacks in message order,
  reference counts by path). llhttp is a parameter, any deterministic automaton.
- src/common/uds_server: the same loops over another socket type.
- Several threads on one io_service; the server plugin starts exactly one. One
  FIX thread calls `on_recv`.
- Lifetimes in C++: `this` in the timer handler, views into freed strings,
  unsynchronised static registries.
- Exceptions that escape a coroutine end the process, as nothing catches them in
  the io thread. Of these the socket machine has the one of an accept that ends
  early; a socket write error and a throwing message handler are not part of it,
  though `TcpServer.TcpConnection.Send` models the throw on a write error. What
  a handler does there is a list of replies and waits, fixed when its message
  arrives; every such list is allowed.
- The front of the buffer beyond what was ever received is not modelled, nor the
  write through dangling references of a completion that comes after its wait
  ended.
- The socket machine and the FIX machine are separate: a call of `create` is a
  wait with a timer in the former, and the post of a response a foreign token;
  socket operations are counted in the latter, by coroutine.
- `FixBuilder`: the futures are entries of a sequence and the suspended calls a
  map, so aliasing between shared pointers is not modelled. A call without a
  session, null responses and the cached `env.up` are not part of the machine;
  the session is a parameter of the call.
- `HttpParser`: the exception of `from_string` on malformed JSON, sending with
  chunked transfer coding, and the mapping of exceptions to status codes.
- `Framing`: one char is one byte; the reader is for responses to requests other
  than HEAD and CONNECT and refuses a Transfer-Encoding. A version with a space
  or CR, or a status name with CR, is excluded.
- Floating point: a double is a real; how it is written and read is a
  parameter, and results about doubles are stated for those that survive it.
- The literal tables of src/plugin/fix_client/fix_field.hpp are parameters,
  assumed to be inverse to each other where a result needs it; the typed
  getters with a default value are not modelled.
- `Messages`: JSON sub-objects are values, so writing through the object that
  `get_or_set_object` returned is modelled as replacing the member. Repeating
  groups, `clear` and JSON text are not part of this model.
- `MessageBuilder::create` by pattern, and the MessageFactory registry. The
  latter erases an entry by name, whoever registered it, so a library that is
  closed takes the entry of another of the same name with it.
- Use of the plugin list after a reload that fails to construct, which leaves a
  null slot; `Application::unload()` without a name, whose order of destruction
  the standard leaves open. A library's do_init registers at most one builder,
  as its last act.
- `Util.Split`: separators of one character; for longer ones the source goes on
  one character after a match, not after the separator.
- http_monitor, http_builder, configuration, logging, signals and start-up.
