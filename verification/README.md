# ProtoSocks, verified

ProtoSocks is a SOCKS5 proxy (RFC 1928, with the user name and password method of RFC 1929) that serves
all its connections from one thread over `pselect`, with one resolver thread per name to look up. This
project models its core in Dafny and proves what the core promises. `dafny verify dfyconfig.toml` checks
all of it.

The layers are those of the program:

- `Buffer.dfy`: the compacting buffer in place (`Buffer`) against a bounded queue (`Fifo`).
- `Incremental.dfy`, `Hello.dfy`, `Auth.dfy`, `Request.dfy`: the three incremental parsers and their
  marshallers. Each has a byte step as specification, a class that does the same in place, and the
  statement which byte streams are accepted with which meaning. `Parser.dfy` is the table-driven engine
  under the greeting, `ParserUtils.dfy` the automaton for comparing without case.
- `Selector.dfy`: the descriptor table with its derived sets, the dispatch pass whose callbacks change the
  table, and the job queue.
- `UserStore.dfy`, `AccessLog.dfy`, `Monitor.dfy`: the slot array as a map, the ring of log entries, and
  the size of the longest monitor response.
- `Connection.dfy`: `struct socks5`, every handler, the state table and its engine as functions of the
  connection and of what the kernel answers. A `History` notes what is seen on the wires.
  `ConnectionLaws.dfy` is what every connection keeps, state by state; `ConnectionSteps.dfy` and
  `ConnectionEvents.dfy` prove it for each handler and for whole events; `Login.dfy` says when a password
  is checked and against what, and where the names in the access log come from;
  `Failover.dfy` is about DNS failover.
- `Protocol.dfy`: what one event must do to a connection, told without the handlers: in bytes on the wires,
  answers of the kernel and the numbers of the two RFCs. `ProtocolSteps.dfy` proves that every event does it,
  `Relay.dfy` that the handshake goes on and the relay sends.
- `Socks5.dfy`, `Pool.dfy`: the same connection in place, with its buffers and parsers as objects, proved
  equal to the functions method by method, and the linked pool of objects.
- `Proxy.dfy`: the whole proxy as a machine of any number of connections, with the selector's table, the
  job queue, the pool, the counters and the listening sockets. `ProxySteps.dfy` proves its invariant for
  every action and every run; `ProxyTheorems.dfy`, `ProxyHistories.dfy` and `ProxyNames.dfy` are the
  results about every reachable state; `ProxyProtocol.dfy` and `ProxyActions.dfy` say what every possible action
  does there, to its connection and beside it. `ProxyMarks.dfy` says in which actions the promises that the code
  does not keep altogether fail, and `Session.dfy` builds runs that reach them. `ProxyLoop.dfy` shows that
  the dispatch pass and the delivery of jobs, with the proxy's callbacks, are runs of this machine.

## Reading the results

`Reachable(w)` in `ProxyTheorems.dfy` says that some possible actions lead from the start of `main` to
the world `w`. An action is one callback of the main thread or one step of a resolver thread, and carries
the kernel's answers; `Possible` in `Proxy.dfy` is all that is assumed about them. The main results then
read: no run aborts; each connection waiting for a name has exactly one ticket; the client sees method,
status, one reply and the origin's bytes, and nothing else; every event is answered as `Protocol` says, so that
a failure is told with the code of its cause and a success ends in the relay; what it sends is parsed or forwarded in order
and once; nobody passes the gate without the right to; references count holders, and the program ends when
none is left; addresses are tried in order and each once; the relay never stops with both sides idle.

Assumptions:

- The callbacks of the main thread and the two steps of a resolver thread (storing its result with queueing
  its job, and letting its reference go) are atomic.
- The kernel never returns a descriptor that is open at that moment. A failover closes the descriptor of
  the failed connect before it asks for another, so that number may come straight back. `recv` returns at most what was asked for, and 0 for
  a request without room.
- getaddrinfo returns no list together with an error.
- The allocation of the greeting's engine succeeds, and so does that of the tables of `parser_utils_strcmpi`.
- The selector is created as in src/server/main.c:187, so that its table never grows.
- Union members that a handler reads without having written them are not values: the model crashes there,
  and the theorem is that it never does.

Where the code does less than might be expected, the model keeps the code and the exact condition is proved:

- A failure may be answered before all addresses are tried: exactly in the actions in which getsockopt fails
  in CONNECTING while addresses are left (`ProxyMarks.TriedInOrder`; `Failover.AnsweredTooEarlyIff` for the
  one event; a run that does so in `Sessions.AnsweredTooEarly`).
- A success may leave no entry in the access log: exactly in the actions in which a pending connect has failed
  and a later attempt connects at once (`ProxyMarks.LoggedOnce`; `Failover.UnloggedIff`; a run in
  `Sessions.AnsweredUnlogged`).
- `selector_register` skips growing the table for the descriptor that equals its size, which is one past
  its end. No sequence of calls does so exactly if the initial size is at least 512
  (`Selectors.RegisterStaysInTable`); the program's 1024 is.
- `parser_no_classes` is documented with 256 entries and has 255 in the code. The definitions that the proxy
  feeds name no class, and for those the table does not matter (`Parsers.ClassesIrrelevant`).
- When the job that announces a resolved name cannot be allocated, nothing is left that would wake the
  connection in RESOLVING; `ProxyMarks.OneTicket` says that this is the only way to lose the ticket, and
  `Sessions.StrandedResolving` has a run.

## Model

| member | source | states |
|---|---|---|
| ProxyTheorems.NeverAborts | src/shared/stm.c:64-101 | from `main`, no sequence of possible actions, over any number of connections and any answers of the kernel, reaches `abort()`, the dispatcher's assertion that the row has a handler for the operation, a dangling attachment or an absent union member; failover onto the number just closed is among them |
| ProxyTheorems.ReachableSound | src/server/socks5nio.c:1313-1444 | every reachable world keeps the global invariant: each connection its own law, the table exactly the rows the live connections registered, one queued job per waiting connection, pool and metrics consistent |
| ProxySteps.StepOk | src/server/main.c:187-244 | every possible action in a world with the invariant goes on to a world with the invariant |
| ProxySteps.RunOk | src/server/main.c:187-244 | so does every run of possible actions, by induction on the run |
| ProxySteps.StartSound | src/server/main.c:187-230 | the state before the main loop has the invariant |
| ProxySteps.HandlerSet | src/shared/selector.c:506-541 | no row of any kind is watched for an operation that its handler lacks; the listeners, whose write handler is NULL, are watched for reading only |
| ProxySteps.AcceptOk | src/server/socks5nio.c:270-358 | accepting keeps the invariant, with a pooled object, a new one, no memory, and a descriptor the selector refuses |
| ProxySteps.ReadyOk | src/shared/selector.c:497-541 | whatever the dispatcher finds ready, a listener, a monitor client or a SOCKS descriptor, the callback does not abort and keeps the invariant |
| ProxySteps.NextIs | src/server/socks5nio.c:1389-1444 | what each possible action makes of each live connection: the event on its own, and nothing of anybody else's action |
| ProxySteps.DeliverOk | src/shared/selector.c:543-566 | delivering the first queued job does not abort and keeps the invariant |
| ProxySteps.ResolveOk | src/server/socks5nio.c:721-737 | the resolver thread storing its result and queueing a job keeps the invariant |
| ProxySteps.DropOk | src/server/socks5nio.c:737-740 | the resolver thread letting its reference go, possibly as the last holder, keeps the invariant |
| ProxySteps.JobFindsOwner | src/shared/selector.c:543-593 | a queued job names a registered descriptor whose attachment is the connection that queued it, and that is in RESOLVING |
| ProxyTheorems.InterestsMatchState | src/server/socks5nio.c:1313-1381 | in every reachable world a descriptor watched for reading or writing belongs to a live connection whose state has a handler for it, and socksv5_done would find both descriptors registered |
| ProxyTheorems.AttachmentStays | src/shared/selector.c:506-536 | the attachment copied before the read handler is still that descriptor's attachment when the write handler gets it |
| ProxyLoop.PassIsRun | src/shared/selector.c:497-541 | a pass of handle_iteration whose callbacks are the proxy's is a run of possible actions: it does not abort and ends in a world with the invariant |
| ProxyLoop.PassImitated | src/shared/selector.c:497-541 | the same pass makes the calls and leaves the table of the selector's pass, each callback doing to the table what some list of selector operations does |
| ProxyLoop.PassIsDisciplined | src/shared/selector.c:497-541 | so each call of the proxy's pass is for a descriptor in use, ready and interested at that moment, upwards, read before write, none twice |
| ProxyLoop.DrainEmpties | src/shared/selector.c:543-566 | delivering as many jobs as are queued is a run that ends without a queued job and with the invariant |
| ProxyLoop.DrainImitated | src/shared/selector.c:543-566 | the same deliveries are the selector's with the proxy's callbacks as scripts: each queued job is delivered to the connection that queued it, in queue order, and none twice |
| ProxyMarks.OneTicket | src/server/socks5nio.c:721-774 | over every possible action in a reachable world: a connection that enters RESOLVING gets one running resolver or queued job and keeps it there, if and only if the action is not a failed allocation of its job; outside RESOLVING it has none |
| ProxyTheorems.TicketCount | src/server/socks5nio.c:721-774 | in every reachable world the tickets of a connection are one in RESOLVING, none after a lost job, and none elsewhere |
| ProxyMarks.MarksIff | src/server/socks5nio.c:1064-1126 | over every possible action in a reachable world: each of the three marks in a history is set if and only if the action is getsockopt failing on the pending connect, that connect having failed with a later attempt connecting at once, or the job not being allocated |
| ProxyTheorems.DeliveredToOwner | src/shared/selector.c:543-593 | a job is delivered to the connection that queued it, and that connection is not in RESOLVING afterwards |
| ProxyHistories.ClientTranscript | src/server/socks5nio.c:437-498 | bytes sent to the client plus the write buffer are `[5,m]`, then `[1,status]` if m is 2, then one reply of 10 or 22 bytes, then everything received from the origin |
| ProxyHistories.ReplyDecodes | src/server/socks5nio.c:904-931 | the reply is an RFC 1928 section 6 message with an IPv4 or IPv6 address and the code decided, and reads back as such |
| ProxyHistories.NoMarshallerFails | src/socks5/request.c:201-261 | in every reachable state before the reply the write buffer is empty with all its room, so every answer fits |
| ProxyHistories.ClientConserved | src/server/socks5nio.c:1250-1311 | bytes received from the client are those of the greeting, the login and the request, those sent to the origin and those in the read buffer, in order and once; at most 2048 are undelivered, also at close |
| ProxyHistories.ForwardedIsPayload | src/server/socks5nio.c:981-1017 | what is forwarded follows, byte for byte, one greeting, then one login with a name and password of the user map if method 2 was chosen and none otherwise, then one CONNECT request |
| ProxyHistories.AuthenticationGate | src/server/socks5nio.c:474-599 | a connection in REQUEST_READ or later chose method 0, or method 2 with a user name and password that were in the user map |
| ProxyHistories.NothingWithoutGate | src/server/socks5nio.c:474-599 | the same for whoever had a request read, a reply made or a byte forwarded, also after the close |
| ProxyHistories.CountIsHolders | src/server/socks5nio.c:210-237 | `references` is the number of holders of every live object; every retired one was retired once and has none |
| ProxyHistories.PoolAndMetrics | src/server/main.c:234-244 | the pool has at most 50 objects, none twice and none alive; concurrent is the number alive, historic is concurrent plus retired; the loop's exit test holds exactly when none is alive, and then nothing is registered or queued for one |
| ProxyMarks.TriedInOrder | src/server/socks5nio.c:880-902 | addresses are tried in list order, each at most once over all calls; the action that answers a failure comes after all of them, if and only if it is not one in which getsockopt fails with addresses left |
| ProxyHistories.TriedSoFar | src/server/socks5nio.c:880-902 | in every reachable world, closed connections included, tried and remaining addresses make up the list |
| ProxyMarks.LoggedOnce | src/server/socks5nio.c:635-677 | at most one access-log entry per connection, with the status of the reply; the action that answers adds it, if and only if it is not one in which the pending connect has failed and a later attempt connects at once; no other action adds or removes one |
| ProxyHistories.LoggedSoFar | src/server/socks5nio.c:635-677 | in every reachable world, closed connections included: one entry for an answered connection, none only after a success |
| ProxyNames.EntryIsTrue | src/server/socks5nio.c:635-710 | over whole runs: the entry names whoever logged in (up to a zero, cut to 64 bytes) or a dash, the address or name and the port of the request as encoded, and the reply by the text of its code |
| ProxyNames.LookedUpIsRequested | src/server/socks5nio.c:742-774 | over whole runs: the host given to the resolver thread is the name of the request up to a zero and the service its port in decimal digits, the first not 0; the address given to connect is that of the request, with its port |
| Logins.EventMarks | src/server/socks5nio.c:1064-1126 | which answers of the kernel set the marks of a history, for every event in every state |
| Logins.EventNamed | src/server/socks5nio.c:520-701 | every event keeps the stored name, destination and port those that the login and the request bytes spell |
| ProxyHistories.StatusTellsCode | src/server/socks5nio.c:644-668 | the status texts tell the reply codes apart |
| ProxyHistories.RelayNeverStalls | src/server/socks5nio.c:1211-1241 | in COPY each descriptor is watched for exactly what its buffers allow, so each direction has an enabled event |
| ProxyHistories.StepFollows | src/server/socks5nio.c:1389-1420 | no action takes back what was seen on a wire, parsed, tried or logged; a password checked in an action is checked against the user map of that moment |
| ProtocolSteps.EventBehaves | src/server/socks5nio.c:394-1311 | every event that the selector may deliver, in every state and for all answers of the kernel, does what `Protocol` says in bytes and numbers: what is read, which state is next, what is answered, logged, looked up, dialled, relayed, and what stays |
| ProxyProtocol.ActionBehaves | src/server/socks5nio.c:1389-1420 | so does every possible action in every reachable world for the connection whose event it is; the resolver thread stores the list it got; anybody else is left as before |
| ProxyProtocol.ReplyTold | src/server/socks5nio.c:775-790 | the action that replies puts `[5,code,0,...]` where it is sent from: for a success with the address and port of getsockname; for a failure with the code of its cause, 3, 4, 5 or 1 by the deciding errno of an address request, a lookup or a pending connect, 4 for no address, 7, 8 or 1 for the request; the log calls the code by its name |
| ProtocolSteps.GreetingBehaves | src/server/socks5nio.c:394-446 | a greeting read from all bytes so far: given up if malformed, `[5,m]` and HELLO_WRITE if whole, else HELLO_READ |
| ProtocolSteps.LoginBehaves | src/server/socks5nio.c:520-571 | a login read from all bytes so far: given up if malformed, `[1,status]` and AUTH_WRITE if whole, status 0 exactly if the users have the pair, else AUTH_READ |
| ProtocolSteps.RequestBehaves | src/server/socks5nio.c:933-1017 | a request read from all bytes so far: refused with 1, 7 or 8, given to a resolver with its name and port, or dialled at its address and port |
| ProtocolSteps.Refusal | src/server/socks5nio.c:635-677 | a refusal is `[5,code,0,1,0,0,0,0,0,0]`, one log entry with the name of the code, and REQUEST_WRITE |
| ProtocolSteps.Acceptance | src/server/socks5nio.c:904-931 | a success is `[5,0,0,type]`, the address and the port that getsockname gave, or zeros |
| ProtocolSteps.ConnectBehaves | src/server/socks5nio.c:1064-1126 | one event in CONNECTING, in literal codes: 1 if getsockopt fails, the success with its address, or the rest of the list dialled and a refusal by the last errno |
| ProtocolSteps.BlockBehaves | src/server/socks5nio.c:1031-1062 | one event in RESOLVING: 4 without an address, else the list dialled in order and a refusal by the last errno |
| ProtocolSteps.LookupAsks | src/server/socks5nio.c:757-758 | the host is the name up to a zero, the service the port in at most five decimal digits |
| ProtocolSteps.SendsUp | src/server/socks5nio.c:1172-1209 | one send towards the origin: nothing on EAGAIN, refused on an error or 0, else the first n bytes leave and the rest stays |
| ProtocolSteps.SendsDown | src/server/socks5nio.c:1172-1209 | the same towards the client |
| ProtocolSteps.AddressBehaves | src/server/socks5nio.c:861-878 | an address request dials the address and the port it names, and is refused with the code of the first attempt's errno |
| ProtocolSteps.UpBehaves | src/server/socks5nio.c:1172-1209 | what was received from the client goes behind what waits for the origin, and as much as send takes leaves, in order |
| ProtocolSteps.DownBehaves | src/server/socks5nio.c:1172-1209 | the same from the origin to the client |
| Relays.MethodLeads | src/server/socks5nio.c:459-498 | when the method has left whole, 2 leads to AUTH_READ, 0 to REQUEST_READ, 255 to the end |
| Relays.StatusLeads | src/server/socks5nio.c:573-612 | when the status has left whole, a success leads to REQUEST_READ, a failure to the end |
| Relays.ReplyLeads | src/server/socks5nio.c:1128-1157 | when the reply has left whole, a success leads to COPY with the origin that was dialled, a failure to the end |
| Relays.WriteRelays | src/server/socks5nio.c:1302-1311 | in COPY a descriptor that takes n bytes gets exactly the first n that wait for it, the rest keeps waiting, and COPY goes on |
| Relays.ReadRelays | src/server/socks5nio.c:1250-1300 | in COPY what a read event received goes behind what waits for the other side, and as much as that side takes leaves at once |
| Relays.WritesDrain | src/server/socks5nio.c:1302-1311 | in at most as many write events as bytes, each of them watched for, everything that waits has been sent, in order |
| ProxyActions.ClientAdmitted | src/server/socks5nio.c:270-358 | a client is let in, in the first pooled object or a new one, watched for reading, and counted; a descriptor beyond the table is counted and retired; otherwise nothing happens |
| ProxyActions.MonitorAdmitted | src/server/monitor.c:237-284 | a client of the monitor is let in exactly if it has a legal descriptor and an object |
| ProxyActions.MonitorReacts | src/server/monitor.c:286-375 | the callback of a monitor client changes the users and its own row of the table, and nothing else |
| ProxyActions.ListenersLeave | src/server/main.c:234-239 | the shutdown takes both listeners from the table and leaves every client as it was |
| ProxyActions.RetiredWithLast | src/server/socks5nio.c:210-237 | a connection is retired in exactly the action that leaves it without a holder |
| ProxyActions.RetiredRecycled | src/server/socks5nio.c:210-237 | its object goes in front of the pool, if that has fewer than 50, and the counter goes down |
| ProxyActions.QueueMoves | src/shared/selector.c:543-593 | a job goes in front of the queue when its resolver is done, the first leaves when it is delivered, and no action does anything else to the queue |
| ConnectionEvents.EventOk | src/shared/stm.c:31-101 | an event the selector may deliver finds its handler and its union member, aborts nowhere and keeps the connection's law |
| ConnectionEvents.HandlerThere | src/server/socks5nio.c:1313-1381 | the table row of a resting state has a handler for every enabled event |
| ConnectionEvents.TurnOk | src/server/socks5nio.c:394-1311 | every handler, called in its state, leads to what the next state requires |
| ConnectionEvents.JumpOk | src/shared/stm.c:43-62 | on_arrival of the next state turns what the handler left into what the state rests in |
| ConnectionEvents.FinishOk | src/server/socks5nio.c:1427-1444 | closing finds what it unregisters and leaves only a resolver to hold the object |
| ConnectionEvents.ArriveCopyOk | src/server/socks5nio.c:1243-1248 | the reset of the write buffer on entering COPY discards nothing, and the interests are exact afterwards |
| ConnectionEvents.ResolvedOk | src/server/socks5nio.c:721-737 | a resolver finishes only while its connection waits in RESOLVING, and that keeps the law |
| ConnectionEvents.ResolverReleasesOk | src/server/socks5nio.c:737-740 | letting the resolver's reference go makes one holder less, in any state |
| ConnectionSteps.HelloReadOk | src/server/socks5nio.c:394-446 | reading in HELLO_READ keeps the books and chooses the method of the greeting |
| ConnectionSteps.HelloWriteOk | src/server/socks5nio.c:459-498 | writing the method leads to AUTH_READ, REQUEST_READ or DONE as the method says |
| ConnectionSteps.AuthReadOk | src/server/socks5nio.c:520-571 | reading in AUTH_READ answers with success exactly if the user map has the name and password |
| ConnectionSteps.AuthWriteOk | src/server/socks5nio.c:573-612 | only a success goes on to REQUEST_READ |
| ConnectionSteps.RequestReadOk | src/server/socks5nio.c:933-1017 | reading in REQUEST_READ answers with a code that fits the request, starts a resolver or connects |
| ConnectionSteps.ConnectNextShape | src/server/socks5nio.c:880-902 | the address loop keeps tried plus remaining equal to the list |
| ConnectionSteps.BlockOk | src/server/socks5nio.c:1031-1062 | the job's delivery leads from RESOLVING to CONNECTING, REQUEST_WRITE or the close with the law kept |
| ConnectionSteps.ConnectOk | src/server/socks5nio.c:1064-1126 | the same for CONNECTING, over all results of getsockopt and of later attempts |
| ConnectionSteps.RequestWriteOk | src/server/socks5nio.c:1128-1157 | the law is kept, and COPY is entered only after a success whose reply has left whole; that it is entered then is `Relays.ReplyLeads` |
| ConnectionSteps.CopyReadOk | src/server/socks5nio.c:1250-1300 | reading in COPY keeps both directions' books and the exact interests |
| ConnectionSteps.CopyWriteOk | src/server/socks5nio.c:1302-1311 | writing keeps them too; how much is sent is `Relays.WriteRelays` |
| Connections.Event | src/server/socks5nio.c:1389-1420 | an event leaves the client's descriptor and the job queue alone, only lengthens the history, and may change the origin's descriptor only to none or to one the kernel just gave |
| Connections.TableInOrder | src/shared/stm.c:10-29 | each row of the state table sits at its own number, so stm_init does not abort |
| Logins.EventChecks | src/server/socks5nio.c:520-531 | a password is checked by no event but a read in AUTH_READ, against the users of that moment |
| Failover.NextResolution | src/server/socks5nio.c:880-902 | the address loop against a simple description: the first usable attempt decides which addresses were tried, what is left and what is registered; otherwise all were tried and the last error counts |
| Failover.ConnectingDecided | src/server/socks5nio.c:1064-1126 | the whole outcome of one write event in CONNECTING, for every result of getsockopt and of the attempts; a failure has code 3, 4, 5 or 1 as the deciding errno says |
| Failover.AnsweredTooEarlyIff | src/server/socks5nio.c:1074-1078 | a failure is answered while addresses are left exactly if SO_ERROR could not be read and addresses were left |
| Failover.UnloggedIff | src/server/socks5nio.c:1090-1108 | a reply is made without a log entry exactly if the pending connect failed and a later attempt connects at once |
| Failover.FailoverEnds | src/server/socks5nio.c:1064-1126 | each event in CONNECTING answers the client or leaves fewer addresses |
| Sessions.AnsweredTooEarly | src/server/socks5nio.c:1074-1078 | there is a reachable world and a possible action in it that answers a failure with an address untried |
| Sessions.AnsweredUnlogged | src/server/socks5nio.c:1090-1108 | there is a reachable world and a possible action in it that answers a success and logs nothing; the second connect has the number of the first, just closed |
| Sessions.StrandedResolving | src/server/socks5nio.c:721-737 | there is a reachable world and a possible action in it that leaves a connection in RESOLVING without a ticket |
| Sessions.SessionForwards | src/server/socks5nio.c:1172-1209 | there is a reachable world with a connection in COPY and a possible action that forwards bytes of its client |
| Sessions.SessionPassesOn | src/server/socks5nio.c:1172-1209 | and one that passes on bytes of the origin |
| Sessions.GreetingArrives | src/server/socks5nio.c:394-446 | a whole greeting in one segment is answered with the method to choose |
| Sessions.AnswerLeaves | src/server/socks5nio.c:459-498 | with method 0 and the answer sent whole, the request is next |
| Sessions.NameArrives | src/server/socks5nio.c:742-774 | a CONNECT to a name starts a resolver |
| Sessions.DialStarts | src/server/socks5nio.c:1031-1062 | the first address resolved is dialled and the rest is kept for failover |
| Socks5s.Socks5.constructor | src/server/socks5nio.c:270-317 | the object in a block of memory starts as the specification's connection before its registration |
| Socks5s.Socks5.Release | src/server/socks5nio.c:210-237 | one reference less, or retired with the last |
| Socks5s.Socks5.HelloReadReady | src/server/socks5nio.c:394-434 | in place, on the real buffer and parser: takes the specification's turn and returns its next state |
| Socks5s.Socks5.HelloWriteReady | src/server/socks5nio.c:459-498 | the same for writing the method |
| Socks5s.Socks5.AuthReadReady | src/server/socks5nio.c:533-571 | the same for reading the login |
| Socks5s.Socks5.AuthProcess | src/server/socks5nio.c:520-531 | the check, the stored name and the answer are those of the specification |
| Socks5s.Socks5.AuthWriteReady | src/server/socks5nio.c:573-612 | the same for writing the status |
| Socks5s.Socks5.RequestReadReady | src/server/socks5nio.c:981-1017 | the same for reading the request |
| Socks5s.Socks5.RequestProcess | src/server/socks5nio.c:933-979 | the branches over command and address type are those of the specification |
| Socks5s.Socks5.SetReply | src/server/socks5nio.c:635-677 | reply code, log entry, marshalled bytes and interest are those of the specification |
| Socks5s.Socks5.Remember | src/server/socks5nio.c:679-701 | destination and port of the request are kept and the log flag is cleared |
| Socks5s.Socks5.StartResolution | src/server/socks5nio.c:742-774 | a reference for the thread, the query handed to it, and RESOLVING; or a general failure; that the query is the name and the decimal port is `ProtocolSteps.LookupAsks` |
| Socks5s.Socks5.ConnectSockaddr | src/server/socks5nio.c:819-860 | descriptor, reference and registration are all taken, or none is |
| Socks5s.Socks5.ConnectNext | src/server/socks5nio.c:880-902 | the loop over the list computes the specification's recursion |
| Socks5s.Socks5.BlockReady | src/server/socks5nio.c:1031-1062 | the turn of RESOLVING |
| Socks5s.Socks5.ConnectReady | src/server/socks5nio.c:1064-1126 | the turn of CONNECTING, whose outcome in literal codes is `ProtocolSteps.ConnectBehaves` |
| Socks5s.Socks5.RequestWriteReady | src/server/socks5nio.c:1128-1157 | the turn of REQUEST_WRITE, whose outcome is `Relays.ReplyLeads` |
| Socks5s.Socks5.UpdateInterests | src/server/socks5nio.c:1211-1241 | makes room in both buffers and watches each descriptor accordingly |
| Socks5s.Socks5.TryWrite | src/server/socks5nio.c:1172-1209 | sends from the buffer that belongs to the descriptor; how much is `ProtocolSteps.SendsUp` and `SendsDown` |
| Socks5s.Socks5.CopyReadReady | src/server/socks5nio.c:1250-1300 | the turn of COPY for reading |
| Socks5s.Socks5.CopyWriteReady | src/server/socks5nio.c:1302-1311 | the turn of COPY for writing, whose outcome is `Relays.WriteRelays` |
| Socks5s.Socks5.Arrive | src/server/socks5nio.c:1313-1381 | on_arrival of each state |
| Socks5s.Socks5.HandleFirst | src/shared/stm.c:31-41 | the first event enters HELLO_READ |
| Socks5s.Socks5.Jump | src/shared/stm.c:43-62 | changing state calls on_arrival, staying does not |
| Socks5s.Socks5.Finish | src/server/socks5nio.c:1427-1444 | aborts exactly if the specification does, else lets both descriptors go |
| Socks5s.Socks5.Event | src/server/socks5nio.c:1389-1420 | aborts exactly if the specification crashes, else takes its step |
| Socks5s.Socks5.Serve | src/server/socks5nio.c:1389-1420 | with the law kept and the event enabled it does not abort, keeps the law, only lengthens the history, and does what `Protocol` says of the event |
| Socks5s.Socks5.Resolve | src/server/socks5nio.c:721-736 | what the resolver thread stores and queues |
| Pools.Pool.New | src/server/socks5nio.c:270-317 | the first pooled block, or a new one, cleared to a fresh connection; nothing without memory; one connection more in both counters |
| Pools.Pool.Destroy | src/server/socks5nio.c:210-237 | one reference less; the last one gives the block back in front of the pool, or frees it if there are 50, and lowers the counter |
| Pools.Pool.Pop | src/server/socks5nio.c:277-286 | takes the head of the linked list and leaves the rest, still distinct and ending |
| Pools.Pool.Push | src/server/socks5nio.c:222-228 | puts a block that is not in the list in front of it |
| Pools.Pool.Walk | src/server/socks5nio.c:210-247 | walking `next` from the head meets the blocks in order and ends after exactly `pool_size` steps |
| Pools.Metrics.RegisterClosedConnection | src/server/metrics.c:21-27 | the counter goes down and never below zero |
| Selectors.NextCapacity | src/shared/selector.c:176-194 | the bit loop computes the least of all powers of two above n, cut at 1024, plus one |
| Selectors.RoomForAll | src/shared/selector.c:318-337 | the first table has room for every legal descriptor exactly if the initial size is at least 512 |
| Selectors.RegisterStaysInTable | src/shared/selector.c:371-416 | over any sequence of selector_register calls from a new selector, growth included, none writes one item past the table: exactly if the initial size is at least 512 |
| Selectors.SafeFromNow | src/shared/selector.c:371-416 | and from a table of any size, however it was reached, exactly if that size is at least 1024 |
| Selectors.Selector.EnsureCapacity | src/shared/selector.c:258-316 | success gives n < fd_size, keeps every item and leaves the new ones unused; each failure is for its reason and changes nothing |
| Selectors.Selector.ItemsMaxFd | src/shared/selector.c:217-232 | the greatest used descriptor, or 0 |
| Selectors.Selector.UpdateFdSets | src/shared/selector.c:234-251 | the two master sets hold the descriptor exactly if its item is used with that interest |
| Selectors.Selector.Register | src/shared/selector.c:371-416 | the item is added, or the status says why not and the table is as before; the size afterwards and the one write past the end are as said; master sets and max_fd stay derived |
| Selectors.Selector.Unregister | src/shared/selector.c:418-454 | the item is removed and handed to handle_close, and master sets and max_fd stay derived |
| Selectors.Selector.SetInterest | src/shared/selector.c:456-475 | only that item's interest changes, and master sets stay derived |
| Selectors.Selector.HandleIteration | src/shared/selector.c:497-541 | one pass over a table that its own callbacks change makes the calls of the specification, in order |
| Selectors.PassDiscipline | src/shared/selector.c:497-541 | each call of a pass is for a descriptor in use, ready and interested at that moment, in increasing order with read before write, so none twice |
| Selectors.UntouchedIsServed | src/shared/selector.c:497-541 | a descriptor that no callback touches gets exactly the calls its interest and readiness ask for |
| Selectors.Selector.HandleBlockNotifications | src/shared/selector.c:543-566 | for each queued job in order, handle_block is called exactly if its descriptor is in use at that moment, with that item's own data; the table is what the callbacks made of it and the queue is empty |
| Selectors.JobsDelivered | src/shared/selector.c:543-566 | the same of the delivery as a function: which calls, with what, between which callbacks |
| Selectors.UntouchedJobs | src/shared/selector.c:543-566 | a descriptor that no callback touches gets one call for each of its jobs if it is in use, and none otherwise |
| Selectors.QuietJobs | src/shared/selector.c:543-566 | if no callback touches a queued descriptor, the calls are those of the registered jobs, in queue order |
| Selectors.Selector.NotifyBlock | src/shared/selector.c:568-593 | a job in front of the queue, or no memory |
| Incremental.ChunkingIrrelevant | src/socks5/request.c:64-167 | for a parser loop that reads byte by byte until a final state, any split of the input ends in the same state with the same leftover |
| Requests.AnySplit | src/socks5/request.c:64-167 | over any split: complete with a message exactly if the stream starts with its encoding, the rest left over; failed exactly on malformed streams; nothing left over otherwise |
| Requests.DoneIffMessage | src/socks5/request.c:64-167 | DONE with these fields exactly on the streams that start with their RFC 1928 section 4 encoding |
| Requests.DoneIsEncoding | src/socks5/request.c:64-167 | the bytes taken are the encoding of the stored fields, or the four bytes before an unknown address type, answered with code 8 |
| Requests.ErrorIffMalformed | src/socks5/request.c:64-167 | ERROR exactly on a wrong version, a reserved byte other than 0 or an empty name |
| Requests.UnknownTypeIff | src/socks5/request.c:64-167 | an unknown address type is DONE on exactly the streams that have one in fourth place |
| Requests.PrefixFree | src/socks5/request.c:64-167 | no encoding of a message is a proper beginning of another's |
| Requests.RequestParser.Consume | src/socks5/request.c:64-167 | the loop in place takes what the specification takes; no index leaves its array; a result that is not final leaves the buffer empty with all its room |
| Requests.ReplyRoundTrip | src/socks5/request.c:214-255 | a marshalled reply read by the request parser in any chunks gives back code, address and port, with nothing left over |
| Requests.MarshallIpv4 | src/socks5/request.c:214-235 | ten bytes, or as many as fit and -1; nothing for a code outside the table |
| Requests.MarshallIpv6 | src/socks5/request.c:237-255 | twenty-two bytes, or as many as fit and -1; nothing for a code outside the table |
| Auth.AnySplit | src/socks5/auth.c:11-65 | over any split: complete with a name and password exactly if the stream starts with their encoding, the rest left over; failed exactly on malformed streams |
| Auth.DoneIffMessage | src/socks5/auth.c:11-65 | DONE with this name and password exactly on the streams that start with their RFC 1929 section 2 encoding |
| Auth.ErrorIffMalformed | src/socks5/auth.c:11-65 | ERROR exactly on a wrong version, an empty name or an empty password |
| Auth.AuthParser.Consume | src/socks5/auth.c:11-65 | the loop in place takes what the specification takes, within the two arrays |
| Auth.Marshall | src/socks5/auth.c:80-97 | two bytes for a status of the protocol, if they fit |
| Hello.AnySplit | src/socks5/hello.c:96-143 | over any split: accepted exactly if the stream starts with a greeting, with the method to choose and the rest left over; failed exactly on malformed streams |
| Hello.GreetingAccepted | src/socks5/hello.c:96-143 | accepted are the RFC 1928 section 3 greetings; the method is 2 if offered, else 0 if offered, else 255 |
| Hello.GreetingTaken | src/socks5/hello.c:96-143 | a greeting is taken whole and nothing behind it |
| Hello.HelloParser.Consume | src/socks5/hello.c:96-143 | the loop over the generic engine and its own counter takes what the specification takes; the counter never underflows |
| Hello.HelloParser.OnAuthenticationMethod | src/server/socks5nio.c:365-377 | if the selected method is the one to choose among some offers, it is so again among those and this one |
| Hello.EngineKnown | src/socks5/hello.c:40-78 | for each byte in each of the parser's own states: the event the table-driven engine reports and the state it goes to |
| Parsers.Parser.Feed | src/shared/parser.c:51-94 | the first matching transition of the current state decides events and next state |
| Parsers.ClassesIrrelevant | src/shared/parser.c:96-101 | a definition whose transitions name bytes or any byte does not depend on the class table, not even past its end |
| ParserUtils.StrCmpI | src/shared/parser_utils.c:75-138 | the automaton built for a string has the rows that compare ignoring case |
| ParserUtils.StrCmpIVerdict | src/shared/parser_utils.c:75-138 | after every byte it reports may-equal on a proper prefix ignoring case, equal on the whole string, not equal otherwise and for ever after |
| UserStores.UserStore.FindUser | src/server/user_store.c:26-36 | the first used slot with this name; there is one exactly if the map has the name |
| UserStores.UserStore.Validate | src/server/user_store.c:38-48 | true exactly if the map has the name with this password |
| UserStores.UserStore.Add | src/server/user_store.c:50-77 | adds to the map exactly if both fields are valid, the name is new and there is room; else nothing changes; names stay unique |
| UserStores.UserStore.Remove | src/server/user_store.c:79-94 | removes the name from the map, and says whether it was there |
| UserStores.UserStore.Count | src/server/user_store.c:96-107 | the size of the map |
| UserStores.UserStore.GetUsername | src/server/user_store.c:109-131 | the names by index, one for each index below the size of the map |
| UserStores.ListingComplete | src/server/user_store.c:109-131 | the listing by index has every name of the map, and each once |
| AccessLogs.AccessLog.Add | src/server/access_log.c:24-50 | one more entry in the history, with its fields cut to their sizes; the ring holds the last 32 |
| AccessLogs.AccessLog.Copy | src/server/access_log.c:57-73 | the last min(k, 32) of k additions, oldest first, cut at the caller's size |
| AccessLogs.MakeEntry | src/server/access_log.c:24-50 | each field of an entry holds its own argument, cut to its size, or a dash |
| AccessLogs.CopyField | src/server/access_log.c:11-22 | of a C string a C string: a dash for nothing, else the longest beginning of the source that fits the field |
| Monitor.LineBound | src/server/monitor.c:200-222 | every line of the log is at most 401 bytes and is not cut by snprintf |
| Monitor.ResponseBound | src/server/monitor.c:200-222 | the whole response is at most 12850 bytes, less than the buffer |
| Monitor.LineReads | src/server/monitor.c:200-222 | split at spaces, a line gives back time, user, destination, port and status, each behind its word, if no field has a space |
| Monitor.ResponseReads | src/server/monitor.c:200-222 | split at newlines, the response gives back the count, one line for each entry in order, and +OK, if no field has a newline |
| Common.DecimalIsNumeral | src/server/socks5nio.c:757-758 | the digits written for a number, read from the left, are that number, and the first is not 0 unless it is the only one |
| Monitor.AccessLogCommand | src/server/monitor.c:200-222 | from an empty write buffer the response to ACCESS-LOG is written whole, with the entries oldest first |
| Buffers.FifoLaw | src/shared/buffer.c:11-114 | over any operations: what was queued, then written, is what was removed, then is queued; the capacity stays |
| Buffers.Buffer.Compact | src/shared/buffer.c:96-114 | the overlapping move leaves the queue as it is and frees exactly capacity minus its length |
| Buffers.Buffer.ReadAdv | src/shared/buffer.c:57-70 | drops that many bytes; the last one gives the whole array back |
| Buffers.Buffer.WriteAdv | src/shared/buffer.c:48-55 | appends the bytes behind the write pointer |
| Buffers.Buffer.Read | src/shared/buffer.c:72-85 | the first byte, or 0 and no change on an empty queue |
| Buffers.Buffer.Write | src/shared/buffer.c:87-94 | appends the byte if there is room |
| Buffers.Buffer.WriteAll | src/socks5/request.c:201-212 | appends the bytes that fit and says whether all did |
| Buffers.Buffer.Receive | src/server/socks5nio.c:990-995 | what the kernel copied behind the write pointer is appended |

## Left out

- Socks5s.Socks5.SetClientInterest: the selector's item of a descriptor is a field of the connection here, and the table is put together in `Proxy.Rows`; the class does not call the methods of `Selectors.Selector`.
- Socks5s.Socks5.Release: retiring is a ghost counter; the pool and the metrics that go with it are in `Pools.Pool.Destroy`.
- Races between the resolver thread and the main thread on `references`, the pool and the metrics: each access is one atomic step.
- Delivery of buffered bytes at the end of a stream: `copy_read` closes at once, so only order, once and at most 2048 undelivered are claimed.
- Progress of a handshake whose next message came together with the last one: each read state calls `recv` before it looks at what is buffered, and gives the connection up if the buffer has no room left.
- Freeing of address lists and of the pool at the end of the program: no claim about leaks.
- `bytes_transferred`: it counts what COPY receives, not what is forwarded.
- Wrap-around of the counters and of `references`: they are natural numbers here.
- Socks5s.Socks5.Remember: the text that `inet_ntop` makes of an address is not modelled, destinations are kept as bytes and names as C strings; cutting a destination to its field is in `AccessLogs.CopyField`, not in the connection.
- `sockaddr` layout: the address to connect to is its family, bytes and port; each attempt is whatever socket, fcntl and connect answer.
- Memory that `realloc` adds is taken to be cleared by `items_init`, and `selector_destroy` is not modelled.
- `pselect`, signals, the forced exit after a second signal, timeouts and `accept` errors.
- Monitor commands other than ACCESS-LOG, and monitor output when several responses are queued: `monitor_write_str` drops what does not fit.
- ProxySteps.ReadyOk: of a monitor client's callback it keeps that it re-arms or closes its own descriptor and changes the users; what is read and written on that descriptor is not in `Proxy`.
- The interactive client, argument parsing, banners, time stamps and the blocking helpers of netutils.
