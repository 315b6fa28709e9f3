# Gneiss: session broker, block requests and log streams

A Dafny model of three stateful parts of Gneiss, with proofs about all their runs.
`dafny verify dfyconfig.toml` checks the whole project.

**The Linux session broker and its protocol.** `Broker.dfy` says how the broker reacts to one packet,
as functions of its table and of the kernel's answers; `BrokerProcess.dfy` is the broker itself, a class
whose methods update the table in place and refine those functions. `Config.dfy` is the lookup in the
configuration, `Startup.dfy` the initial table, `Codec.dfy` the packet format. `BrokerTheorems.dfy` proves
what holds of the broker alone, whatever its components send, `BrokerAnswers.dfy` exactly which packet it
answers with. `Session.dfy` puts the broker, any number of
components that use the client and dispatcher libraries, and the socket queues into one transition system.
`SessionInvariant.dfy` to `SessionFifo.dfy` prove, over every interleaving, that sessions follow the
configuration, that answers match requests and that no forwarded request is lost; `SessionOnce.dfy` that every
request is answered once, `SessionAnswers.dfy` what an answer leads to, `SessionReach.dfy` that every session
that the configuration provides for can be had. `SlotTable.dfy` is the
server component's table of sessions.

**Block requests.** `BlockClient.dfy` is the block client's cache of completions, `BlockProxy.dfy` the proxy's
64 pairs of requests with a backend that finishes packets in any order, `BlockServer.dfy` the RAM disk.
Each has a class that refines its functions. `BlockProxyAnswers.dfy` says which
requests the proxy can acknowledge. Histories of what was accepted, executed and acknowledged make
"exactly once" a statement about every run.

**Log streams.** `LogProxy.dfy`, `LogClient.dfy` and `LogClientGenode.dfy` show that buffers do not show in the
text, and exactly when text is lost.

Where the code differs from what one would expect, the model follows the code:

- The last unlabelled service is the default, not the first.
- A Rom request whose service names a component server gets no answer.
- Confirm and Reject packets are dropped if name and label together have 256 characters or more.
- A component with an empty name is never found by its name, so no dispatcher's answer reaches it.
- The broker keeps its own copies of descriptors that it forwards.
- `Parse_Resources` ends at a text that directly follows a resource, so later resources are lost
  (`Startup.CollectsAll` says exactly when).
- A log chunk of one character, such as an empty line or a single flushed character, is never delivered
  (`LogClient.TextArrivesIff` says exactly which calls lose text).
- The log proxy writes a reset sequence behind its buffer and does not print it.
- The block proxy retries requests that the backend does not support forever
  (`BlockProxyAnswers.AcknowledgedIffSupported` says exactly which requests can be acknowledged).
- The RAM disk's event handler ends only with a pass whose last free slot meets no request, so not while all slots
  wait for acknowledgements (`BlockServerProcess.EndsIff`, `BlockServerProcess.GreedyNeverEnds`).
- The comment on `Enqueue` in the block client's specification allows it to fail; the Genode body always makes the
  request pending.

The environment appears as parameters: the kernel's answers (`Broker.Env`), forks (`Startup.Fork`), the descriptors
that arrive with a packet, and for block sessions a waiting request, memory for a packet and room for an
acknowledgement (`BlockProxy.Env`, `BlockServer.Env`).

## Model

| member | source | states |
|---|---|---|
| `SessionTheorems.SessionsFollowConfiguration` | src/platform/linux/gneiss_internal-client.adb:30-52 | In every state of every run with distinct component names, a descriptor that a client got from Initialize for Message, Log or Memory is the peer of one held by a server session made for this client, kind and label, at the component that the client's own configuration names; for Memory both sides have the same memory object |
| `SessionTheorems.SessionsAreExclusive` | src/core/linux/gneiss-broker-message.adb:147-230 | In every run a socket end belongs to at most one client session or one server session, of one component |
| `SessionTheorems.AnswersMatchRequests` | src/platform/linux/gneiss_internal-client.adb:47-51 | In every run a client's broker socket holds a packet only while the client is blocked; it is then the only packet, a Confirm or a Reject, of the kind and label the client asked for |
| `SessionTheorems.RequestsFollowConfiguration` | src/core/linux/gneiss-broker-message.adb:147-222 | In every run each packet that waits for a dispatcher is a Request of a component whose own configuration names the dispatcher's component as its server for that kind and label |
| `SessionTheorems.FilesFollowConfiguration` | src/core/linux/gneiss-broker-message.adb:189-229 | In every run a Rom Confirm that waits for a client carries the file of the resource that the client's own chosen service entry names, a Timer Confirm a timer |
| `SessionReach.SessionsCanBeHad` | src/core/linux/gneiss-broker-message.adb:128-231 | From every start with distinct names, for every two started components of which one names the other as its server for a kind and label: a run at whose end the client has the session. Both names must be nonempty, and the client's name and the label at most 255 characters together |
| `SessionAnswers.ReturnGives` | src/platform/linux/gneiss_internal-client.adb:16-27 | In every run a blocked call returns with exactly what its answer says: one session more, with the kind and label asked for, the descriptor that came and the client's memory, for a Confirm of a session kind; the dispatcher's descriptor for a confirmed registration; nothing for a Reject |
| `SessionAnswers.AnswerIsDelivered` | src/core/linux/gneiss-broker-message.adb:303-344 | In every run a dispatcher's Confirm or Reject that the broker reads then waits, alone and with the same descriptor, for the component that asked, if that is running, has a nonempty name, and name and label are not too long |
| `SessionOnce.AnsweredExactlyOnce` | src/message/server/linux/gneiss-message-dispatcher.adb:92-109 | In every run all requests that a dispatcher has taken are answered but the one it works on: once, in order, with a Confirm that has the request's first descriptor or a Reject, under the request's name and label |
| `SessionOnce.StepReplies` | src/message/server/linux/gneiss-message-dispatcher.adb:92-109 | Every step: the answers that the broker reads and those that then wait are those that waited and those that the step writes, in order |
| `SessionTheorems.StepKeeps` | src/core/linux/gneiss-broker-message.adb:95-126 | Each of the eleven kinds of step (client, dispatcher, server, broker, process end) keeps the invariant behind these theorems, with a new witness for who owns which socketpair and where each client's one outstanding request is |
| `SessionTheorems.StartHolds` | src/core/linux/gneiss-broker-main.adb:40-70 | The state after startup satisfies that invariant |
| `SessionFifo.StepConserves` | src/core/linux/gneiss-broker-message.adb:176-188 | Every step: what waits for a dispatcher plus what the step forwards is what the step takes plus what waits afterwards, in order |
| `SessionFifo.RequestsAreNotLost` | src/core/linux/gneiss-broker-message.adb:346-365 | In every run, however Register is interleaved: the requests forwarded to a component for a kind are exactly those its dispatcher has taken followed by those waiting in the queue of the end that Register returned |
| `BrokerTheorems.TablesStayValid` | src/core/linux/gneiss-broker.ads:36-50 | Over every sequence of broker events from a valid table: both table invariants hold, component sockets and service descriptors are pairwise distinct and open, and each service entry is complete or empty |
| `BrokerTheorems.MessageKeeps` | src/core/linux/gneiss-broker-message.adb:95-126 | Handling any packet of any component keeps the table invariant, whatever the kernel answers |
| `BrokerTheorems.SetupKeeps` | src/core/linux/gneiss-broker-message.adb:28-58 | Setting up a service, successful or not, keeps the table invariant |
| `BrokerTheorems.RequestKeeps` | src/core/linux/gneiss-broker-message.adb:128-231 | Handling any request keeps the table invariant |
| `BrokerTheorems.ExitKeeps` | src/core/linux/gneiss-broker-main.adb:96-115 | A component's exit keeps the table invariant |
| `BrokerTheorems.TurnIsEvents` | src/core/linux/gneiss-broker-main.adb:89-118 | One turn of the event loop is a packet event followed by a hang-up event of these runs, so it keeps the table invariant |
| `BrokerTheorems.OwnerUnique` | src/core/linux/gneiss-broker-main.adb:22-38 | No descriptor has two owners, so the first match of Get_Dest is the only one |
| `BrokerTheorems.SendsHaveTargets` | src/core/linux/gneiss-broker-message.adb:367-408 | Whatever packet is handled, every packet that the broker sends goes to a valid descriptor that stands in its table |
| `BrokerTheorems.RequestsAreAnswered` | src/core/linux/gneiss-broker-message.adb:128-231 | A request of a live component leads to exactly one packet of its kind and label, except a Rom request whose service names a component, which leads to none; with a Reject all descriptors that the broker opened meanwhile are closed again |
| `BrokerTheorems.ForwardedFollowsConfig` | src/core/linux/gneiss-broker-message.adb:147-222 | A forwarded Request was caused by a Request of a live component of that name whose own node has a service of the kind, with this or no label, whose server attribute names the receiver |
| `BrokerTheorems.ConfirmedFollowsConfig` | src/core/linux/gneiss-broker-message.adb:189-229 | A Confirm that answers a Rom or Timer request needs such a service entry of its own kind, and for Rom the descriptor is of the file that a resource of type File names |
| `BrokerAnswers.ForwardedIff` | src/core/linux/gneiss-broker-message.adb:147-222 | A Message, Log or Memory request of a running component leads to one packet, a Request if and only if the component has a name, its chosen entry names a running server, the session's pair could be made, the server's service socket is there or could be made, and a memory came along and was sealed |
| `BrokerAnswers.RequestIsForwarded` | src/core/linux/gneiss-broker-message.adb:184-222 | That Request goes to the server's service socket with the client's name, the label, both ends of the new pair and the memory |
| `BrokerAnswers.OtherwiseRejected` | src/core/linux/gneiss-broker-message.adb:148-217 | Every other such request leads to one Reject to the client |
| `BrokerAnswers.RomAnswer` | src/core/linux/gneiss-broker-message.adb:189-199 | A Rom request leads to a Confirm with the file exactly if the chosen entry has no server and its first resource is a File whose location opens, to nothing exactly if the entry names a running server, otherwise to a Reject |
| `BrokerAnswers.TimerAnswer` | src/core/linux/gneiss-broker-message.adb:223-229 | A Timer request leads to a Confirm with a new timer exactly if there is an entry, whose server runs if it names one, and the timer could be made, otherwise to a Reject |
| `BrokerAnswers.ConfirmIsPassedOn` | src/core/linux/gneiss-broker-message.adb:303-328 | A Confirm for a session leads to exactly one packet, to the first running component of its name: a Confirm with the descriptor if that is valid, else a Reject |
| `BrokerAnswers.RejectIsPassedOn` | src/core/linux/gneiss-broker-message.adb:330-344 | A Reject leads to exactly one Reject, to that component |
| `BrokerAnswers.OtherAnswersAreDropped` | src/core/linux/gneiss-broker-message.adb:112-121 | Answers for a name that nobody running has, that are too long, or that confirm Rom or Timer lead to nothing |
| `BrokerAnswers.RegistrationAnswer` | src/core/linux/gneiss-broker-message.adb:346-365 | A registration leads to a Confirm with the dispatcher's end if the service socket is there or could be made, else to a Reject |
| `BrokerAnswers.LeftIsGone` | src/core/linux/gneiss-broker-main.adb:109-114 | After a hang-up the component's socket is closed and nobody's, the component is found under no name, and everything else is as it was |
| `BrokerAnswers.StaysGone` | src/core/linux/gneiss-broker-main.adb:89-118 | In every run of the broker it stays gone |
| `BrokerAnswers.NothingIsSentToTheGone` | src/core/linux/gneiss-broker-message.adb:367-408 | From then on no packet comes from it, none is written to its own socket, and no Request to its service sockets |
| `BrokerTheorems.ServiceSocketsStay` | src/core/linux/gneiss-broker-message.adb:36-57 | Once a component has the sockets of a service they stay the same, with the same objects behind them, for the rest of every run |
| `BrokerProcess.Process.Setup` | src/core/linux/gneiss-broker-message.adb:28-58 | The in-place procedure computes the specified table and result: kept if complete, else a new socketpair, or nothing opened and an empty entry |
| `BrokerProcess.Process.ForwardRequest` | src/core/linux/gneiss-broker-message.adb:176-188 | Sends both ends and the memory to the service, or closes all of them and rejects |
| `BrokerProcess.Process.ProcessRequest` | src/core/linux/gneiss-broker-message.adb:128-231 | Reacts to any request as specified: lookup, rejection, and the four kinds of service |
| `BrokerProcess.Process.LookupRequest` | src/core/linux/gneiss-broker-lookup.adb:90-110 | Finds the service and the component with the named server, or says which is missing |
| `BrokerProcess.Process.FindByName` | src/core/linux/gneiss-broker-lookup.adb:41-64 | The first live component with the name |
| `BrokerProcess.Process.ServeMessage` | src/core/linux/gneiss-broker-message.adb:233-247 | A new socketpair for the session, or a rejection with nothing left open |
| `BrokerProcess.Process.ServeMemory` | src/core/linux/gneiss-broker-message.adb:249-276 | Seals the client's memory, then as for messages; on failure the memory is closed too |
| `BrokerProcess.Process.ServeRom` | src/core/linux/gneiss-broker-message.adb:278-292 | The file of the resource, or a rejection |
| `BrokerProcess.Process.ServeTimer` | src/core/linux/gneiss-broker-message.adb:294-301 | A new timer, or a rejection |
| `BrokerProcess.Process.ProcessConfirm` | src/core/linux/gneiss-broker-message.adb:303-328 | Passes the descriptor to the component with the name, or rejects if there is none; nothing for Rom and Timer |
| `BrokerProcess.Process.ProcessReject` | src/core/linux/gneiss-broker-message.adb:330-344 | Passes the rejection to the component with the name |
| `BrokerProcess.Process.ProcessRegister` | src/core/linux/gneiss-broker-message.adb:346-365 | Answers with the dispatcher's end of the service socket, or rejects |
| `BrokerProcess.Process.HandleMessage` | src/core/linux/gneiss-broker-message.adb:95-126 | Dispatches on the action; drops what is too long to answer |
| `BrokerProcess.Process.GetDest` | src/core/linux/gneiss-broker-main.adb:22-38 | The first component that owns a descriptor |
| `BrokerProcess.Process.ComponentLeft` | src/core/linux/gneiss-broker-main.adb:96-115 | Closes the socket and empties the entry, and keeps the service sockets |
| `BrokerProcess.Process.Turn` | src/core/linux/gneiss-broker-main.adb:89-118 | One round of the event loop: message, exit, both or neither, as specified; it keeps the table invariant |
| `Config.MatchService` | src/core/linux/gneiss-broker-lookup.adb:6-39 | The single pass finds the first service of the kind with exactly this label, otherwise the last service of the kind without label, otherwise none |
| `Config.FindService` | src/core/linux/gneiss-broker-lookup.adb:20-38 | The next service of the kind among the remaining siblings |
| `Config.ServiceElement` | src/core/linux/gneiss-broker-message.adb:12-18 | A service entry of a kind is a service element whose name attribute is the kind's own name |
| `Config.ChosenUnique` | src/core/linux/gneiss-broker-lookup.adb:6-39 | That rule determines the result |
| `Config.FindResourceLocation` | src/core/linux/gneiss-broker-lookup.adb:112-149 | The location of the first resource of that name, if it is a file with a location |
| `Startup.StartComponents` | src/core/linux/gneiss-broker-startup.adb:13-78 | Table entry j describes the j-th component element if it has a name and a socket and no fork up to it failed, and is empty otherwise |
| `Startup.ParseResources` | src/core/linux/gneiss-broker-startup.adb:80-103 | The table holds the resources that the loop visits, as many as fit, in order |
| `Startup.CollectsAll` | src/core/linux/gneiss-broker-startup.adb:80-103 | The loop visits all resources if and only if no resource but the last is directly followed by text; it ends at such a text |
| `Startup.TextHidesResource` | src/core/linux/gneiss-broker-startup.adb:80-103 | For example, a text between two resources hides the second |
| `Startup.StartupTable` | src/core/linux/gneiss-broker-startup.adb:13-78 | The table that startup leaves satisfies the table invariant |
| `Startup.StartupStarts` | src/core/linux/gneiss-broker-startup.adb:13-78 | That table, with one process per started component, is the initial state of the runs above |
| `Codec.DecodeEncode` | src/platform/linux/session.rflx:4-30 | For all actions, kinds, names and labels of up to 255 characters: decoding the encoding followed by any bytes gives the message and its length |
| `Codec.EncodeDecode` | src/platform/linux/session.rflx:12-30 | Every packet that decodes is the encoding of the result followed by the bytes not consumed |
| `Codec.PrefixFree` | src/platform/linux/session.rflx:12-30 | No encoding is a proper prefix of another, and different messages have different encodings |
| `Codec.WireFormat` | src/platform/linux/session.rflx:4-30 | The bytes of every packet one by one: the codes of action and kind, the name behind its length, the label behind its own |
| `Codec.BufferParses` | src/platform/linux/gneiss_internal-packet.adb:87-136 | In a buffer of 1024 bytes only the codes of action and kind can make a packet invalid |
| `Codec.Get` | src/platform/linux/gneiss_internal-packet.adb:29-40 | The copy loop leaves the field's bytes as text in front, for every length |
| `Codec.Set` | src/platform/linux/gneiss_internal-packet.adb:42-53 | The copy loop writes exactly the text's bytes and nothing else |
| `Codec.Write` | src/platform/linux/gneiss_internal-packet.adb:55-85 | The buffer starts with the message's encoding, whose length is returned |
| `Codec.Read` | src/platform/linux/gneiss_internal-packet.adb:87-136 | Valid exactly if the buffer decodes, and then the decoded message |
| `SlotTable.ReadyIffInitialized` | test/message_server/component.adb:145-151 | A slot is ready exactly if it is initialized, and then under its own index |
| `SlotTable.EventKeeps` | src/message/server/linux/gneiss-message-dispatcher.adb:78-120 | Every event keeps this, and that live slots have distinct open descriptors |
| `SlotTable.TableStaysGood` | src/message/server/linux/gneiss-message-dispatcher.adb:78-120 | So does every sequence of events, for any table size |
| `SlotTable.AcceptedIffFree` | test/message_server/component.adb:115-143 | A request is answered exactly once; it is confirmed if and only if it is valid and a slot is free, and then gets the first free slot under its own index and name while no other changes |
| `SlotTable.CloseFreesOne` | src/message/server/linux/gneiss-message-dispatcher.adb:207-226 | A close event frees the slot with that descriptor and changes no other |
| `SlotTable.Server.SessionInitialize` | src/message/server/linux/gneiss-message-dispatcher.adb:169-188 | The slot gets descriptor and index; an index outside the table is given up and the descriptor closed |
| `SlotTable.Server.SessionAccept` | src/message/server/linux/gneiss-message-dispatcher.adb:190-205 | Confirms with the client's descriptor |
| `SlotTable.Server.SessionCleanup` | src/message/server/linux/gneiss-message-dispatcher.adb:207-226 | Frees the slot exactly if it is live and has the closed descriptor |
| `SlotTable.Server.Dispatch` | test/message_server/component.adb:115-143 | Both loops together: at most one slot taken, at most one freed |
| `SlotTable.Server.DispatchEvent` | src/message/server/linux/gneiss-message-dispatcher.adb:78-120 | The component moves and answers as specified for every event |
| `BlockClient.UpdateConserves` | src/block/client/genode/gneiss-block-client.adb:96-136 | Without assumptions: a pass empties as much of the queue as the cache has room for and keeps every acknowledgement of another tag exactly as often |
| `BlockClient.UpdateResolves` | src/block/client/genode/gneiss-block-client.adb:121-130 | The status changes exactly if an acknowledgement with the tag was seen, to the result of such a one |
| `BlockClient.UpdateFinds` | src/block/client/genode/gneiss-block-client.adb:114-136 | With distinct tags and no more acknowledgements than entries: the request is resolved exactly if its acknowledgement is there, with its result, and all others are kept once |
| `BlockClient.FullCacheBlocks` | src/block/client/genode/gneiss-block-client.adb:103-110 | A full cache without the tag is left as it is, and so is the queue |
| `BlockClient.Allocate` | src/block/client/genode/gneiss-block-client.adb:53-89 | Success exactly for reads and writes of at least one block with memory available; otherwise the status stays and the packet is empty |
| `BlockClient.Client.UpdateResponseQueue` | src/block/client/genode/gneiss-block-client.adb:96-111 | A free entry takes the first acknowledgement, if there is one |
| `BlockClient.Client.UpdateRequest` | src/block/client/genode/gneiss-block-client.adb:114-136 | The in-place loop computes the specified cache, queue and status |
| `BlockClient.Client.AllocateRequest` | src/block/client/genode/gneiss-block-client.adb:53-89 | The procedure computes the specified request and result |
| `BlockClient.Client.Enqueue` | src/block/client/genode/gneiss-block-client.adb:222-228 | The packet goes to the backend and the request is pending |
| `BlockProxyTheorems.OneTokenPerRequest` | test/block_proxy/component.adb:156-228 | In every state of every run, slot I's client request is pending exactly if one token with tag I is in the backend, the queue and the cache together; at most 64 are outstanding and polling always empties the queue |
| `BlockProxyTheorems.AcknowledgedOnce` | test/block_proxy/component.adb:183-198 | Every acknowledged front request was accepted and then enqueued once with the same start and length, a read (code 1) as operation 0 and a write (code 2) as operation 1, and is acknowledged with the backend's result; written data are the front's, data of a successful read the backend's |
| `BlockProxyTheorems.BackendGetsWhatWasAsked` | src/block/client/genode/gneiss-block-client.adb:65-77 | In every run every packet in flight is the pending request of the slot that its tag names, with operation 0 exactly for front code 1 and operation 1 exactly for front code 2, for the same blocks |
| `BlockProxyTheorems.ExecutedOnce` | test/block_proxy/component.adb:199-226 | Nothing is enqueued that was not just accepted, nothing twice, and a slot accepts again only after it acknowledged |
| `BlockProxyTheorems.HalvesAgree` | test/block_proxy/component.adb:160-178 | A free front request never has an allocated or pending request behind it, and a pending pair describes the same blocks |
| `BlockProxyTheorems.FewOutstanding` | test/block_proxy/component.ads:19 | At most 64 completions are outstanding, fewer than the cache has entries, and no two have one tag |
| `BlockProxyTheorems.VisitKeeps` | test/block_proxy/component.adb:156-228 | A visit of any slot keeps the invariant, whatever it meets |
| `BlockProxyTheorems.FinishedKeeps` | src/block/client/genode/block_client.cc:143-156 | So does the backend when it finishes any packet with any result |
| `BlockProxyTheorems.FillCopies` | test/block_proxy/component.adb:98-120 | Whenever the Write callback is called its guard holds and the packet gets the front's data |
| `BlockProxyTheorems.DeliverCopies` | test/block_proxy/component.adb:122-144 | Whenever the Read callback is called its guard holds and the front gets the packet's data |
| `BlockProxyTheorems.FlagMeansNoPacket` | test/block_proxy/component.adb:207-218 | A visit sets the slot's flag only where no packet could be allocated, never from the callbacks |
| `BlockProxyTheorems.NothingRefused` | test/block_proxy/component.adb:172-177 | The branch for failed server requests is never taken |
| `BlockProxyAnswers.AcknowledgedIffSupported` | test/block_proxy/component.adb:178-226 | In every state of every run an accepted request can still be acknowledged if and only if it is a read or a write of at least one block |
| `BlockProxyAnswers.UnsupportedIsNeverAnswered` | test/block_proxy/component.adb:199-218 | In every run nothing ever happens again to any other request, once accepted |
| `BlockProxyAnswers.UnsupportedIsAccepted` | test/block_proxy/component.adb:168-170 | Every such request that waits at the first visit is accepted |
| `BlockProxyAnswers.SyncIsAccepted` | test/block_proxy/component.adb:168-170 | For example a Sync request of one block |
| `BlockProxyAnswers.VisitAccepts` | test/block_proxy/component.adb:160-171 | A visit of a slot whose last request was acknowledged takes the request that waits, whatever it is |
| `BlockProxyAnswers.VisitIssues` | test/block_proxy/component.adb:199-218 | A visit with memory for a packet makes the request of the backend if and only if it is supported |
| `BlockProxyAnswers.VisitAnswers` | test/block_proxy/component.adb:183-198 | A visit after the backend has finished, with room for the acknowledgement, gives it |
| `BlockProxyProcess.Proxy.Write` | test/block_proxy/component.adb:98-120 | The byte-by-byte loop copies the whole buffer, or sets the flag if the guard fails |
| `BlockProxyProcess.Proxy.Read` | test/block_proxy/component.adb:122-144 | The same in the other direction |
| `BlockProxyProcess.Proxy.Process` | src/block/server/genode/gneiss-block-server.adb:38-48 | Takes the waiting request, if there is one |
| `BlockProxyProcess.Proxy.Acknowledge` | src/block/server/genode/gneiss-block-server.adb:136-146 | The request becomes free exactly if there is room for the acknowledgement |
| `BlockProxyProcess.Proxy.VisitSlot` | test/block_proxy/component.adb:160-227 | One round of the loop computes the specified state |
| `BlockProxyProcess.Proxy.Event` | test/block_proxy/component.adb:146-232 | So does the loop over all 64 slots, and the invariant holds afterwards |
| `BlockServerTheorems.ExecuteAccepts` | test/block_server/component.adb:122-137 | The nested guards accept exactly reads and writes of existing blocks with a buffer of the right size; all else leaves disk and buffer alone |
| `BlockServerTheorems.ExecuteRefines` | test/block_server/component.adb:76-96 | An execution on the flat buffer does to each block what the block map says |
| `BlockServerTheorems.ExecuteReplies` | test/block_server/component.adb:54-74 | And it returns what the block map says |
| `BlockServerTheorems.AcknowledgedOnce` | test/block_server/component.adb:110-146 | In every run each acknowledged request was executed exactly once, and its result and data are those of that execution, however often acknowledging failed; out-of-range requests are acknowledged as errors |
| `BlockServerTheorems.ExecutionsAreSequential` | test/block_server/component.adb:106-149 | In every run each execution belongs to one accepted request, is right for the blocks that the executions before it left, and the disk is what all of them left |
| `BlockServerTheorems.ReadsSeeLatestWrites` | test/block_server/component.adb:54-96 | In every run a successful read (code 1) returns for each block what the latest successful write (code 2) before it wrote there, or zeros |
| `BlockServerTheorems.ReadBytesSeeLatestWrites` | test/block_server/component.adb:54-96 | The same byte by byte, with blocks of 512 bytes and 1024 blocks |
| `BlockServerTheorems.VisitExecutes` | test/block_server/component.adb:110-138 | A visit of a free slot takes the request that waits and executes it |
| `BlockServerTheorems.BlockIsLastWrite` | test/block_server/component.adb:76-96 | A block of the reference holds its last write |
| `BlockServerProcess.DiskServer.Read` | test/block_server/component.adb:54-74 | The callback on the array computes the specified buffer and flag |
| `BlockServerProcess.DiskServer.Write` | test/block_server/component.adb:76-96 | The callback on the array computes the specified disk and flag |
| `BlockServerProcess.DiskServer.Handle` | test/block_server/component.adb:116-138 | A new request is executed as specified, an executed one is not executed again |
| `BlockServerProcess.DiskServer.Acknowledge` | test/block_server/component.adb:139-146 | Acknowledges what was executed, if there is room |
| `BlockServerProcess.DiskServer.Event` | test/block_server/component.adb:98-152 | The nested loops visit all slots pass by pass and end with the first quiet pass, the one whose last free slot meets no request; they end if and only if there is one, and keep the invariant |
| `BlockServerProcess.DiskServer.Pass` | test/block_server/component.adb:107-147 | One pass visits the slots in turn, and its flag is set exactly if the last slot that was free when the pass began meets no request |
| `BlockServerProcess.QuietIff` | test/block_server/component.adb:110-115 | Exactly which pass is quiet, from the slots free at the start and from what the passes met: a slot is free if there was room for its last acknowledgement and it met no request since |
| `BlockServerProcess.EndsIff` | test/block_server/component.adb:106-149 | So the handler ends if and only if some pass has such a slot as its last free one |
| `BlockServerProcess.BusyPasses` | test/block_server/component.adb:106-149 | With all slots waiting and no room for acknowledgements no pass is quiet and nothing changes, so the handler does not end |
| `BlockServerProcess.AllWaitingIsReached` | test/block_server/component.adb:106-149 | A run from the start that reaches the state in which all slots wait |
| `BlockServerProcess.GreedyNeverEnds` | test/block_server/component.adb:106-149 | From the start, over any number of passes that meet requests and no room for acknowledgements, the handler does not end |
| `LogProxy.Proxy.Write` | test/log_proxy/component.adb:155-182 | The output grows by exactly the bracketed name of the session, a space and the unbuffered coloured message; the buffer ends empty and other sessions are not touched |
| `LogProxy.Proxy.PutColor` | test/log_proxy/component.adb:251-274 | Adds what is shown for one character and moves the hue; line feed and NUL empty the buffer |
| `LogProxy.Proxy.Put` | test/log_proxy/component.adb:276-285 | Adds one character to the output; the cursor never exceeds 1020 |
| `LogProxy.Proxy.Flush` | test/log_proxy/component.adb:287-295 | Empties the buffer without adding to the output |
| `LogProxy.SevenCycle` | test/log_proxy/component.adb:61-70 | The hue after a text has moved by the number of visible characters modulo seven |
| `LogProxy.TerminalSees` | test/log_proxy/component.adb:251-274 | What a terminal sees of the coloured stream of any data without escape character: the data, each line feed and NUL directly behind the reset sequence, the character after n visible ones directly behind the n-th colour from the starting hue in the cycle of seven |
| `LogProxy.StripColoured` | test/log_proxy/component.adb:251-274 | So without its escape sequences the coloured stream is the data, for data without an escape character |
| `LogClient.Client.Print` | src/log/client/linux/gneiss-log-client.adb:63-83 | The in-place loop computes the specified chunks and pending text, and every message carries its chunk, despite what the buffer held before |
| `LogClient.Client.FlushBuffer` | src/log/client/linux/gneiss-log-client.adb:125-136 | Sends the pending text, ended by NUL unless the buffer is full |
| `LogClient.SessionEvent` | src/log/server/linux/gneiss-log-dispatcher.adb:197-216 | Hands on the text before the first NUL exactly if it is longer than one character |
| `LogClient.TextIsConserved` | src/log/client/linux/gneiss-log-client.adb:63-83 | In every sequence of Print and Flush: text sent and text pending together are all text printed |
| `LogClient.AfterWellCut` | src/log/client/linux/gneiss-log-client.adb:74-81 | Every chunk fits a message and lies within one line |
| `LogClient.DeliveredIff` | src/log/server/linux/gneiss-log-dispatcher.adb:206-215 | A chunk arrives whole if and only if it has no NUL and is not a single character |
| `LogClient.TextArrivesIff` | src/log/server/linux/gneiss-log-dispatcher.adb:197-216 | For every sequence of Print and Flush: the server gets exactly what was printed and is not pending if and only if the text sent has no NUL, no line feed met an empty buffer and no Flush came with one character waiting; the fill of the buffer is the number of characters since the last line feed or Flush, modulo 128 |
| `LogClient.PrintDelivers` | src/log/client/linux/gneiss-log-client.adb:71-82 | A Print sends a single character if and only if one of its line feeds comes a multiple of 128 characters after the last line feed or Flush |
| `LogClient.FillAfter` | src/log/client/linux/gneiss-log-client.adb:63-83 | After any calls the buffer holds the number of characters since the last line feed or Flush, modulo 128 |
| `LogClient.CallsDeliver` | src/log/client/linux/gneiss-log-client.adb:63-83 | A sequence of calls sends a single character if and only if one of its calls does, by that number alone |
| `LogClient.EmptyLineIsLost` | src/log/server/linux/gneiss-log-dispatcher.adb:212-215 | An empty line on an empty buffer is sent and never delivered |
| `LogClient.FlushedCharacterIsLost` | src/log/server/linux/gneiss-log-dispatcher.adb:212-215 | So is a single character that is flushed |
| `LogClientGenode.SlicesCover` | src/log/client/genode/gneiss-log-client.adb:128-143 | Slices are nonempty, at most 216 long, all but the last full, and together the text |
| `LogClientGenode.TextIsConserved` | src/log/client/genode/gneiss-log-client.adb:102-126 | In every sequence of Print and Flush: text written and text pending together are all text printed, and pending text fits the buffer |
| `LogClientGenode.TextArrives` | src/log/client/genode/gneiss-log-client.adb:128-143 | For text without NUL the service reads exactly what was printed and is not pending |
| `LogClientGenode.Client.Write` | src/log/client/genode/gneiss-log-client.adb:128-143 | The loop writes the slices of the text, each with its NUL |
| `LogClientGenode.Client.Flush` | src/log/client/genode/gneiss-log-client.adb:102-109 | Writes the pending text, if any |
| `LogClientGenode.Client.Print` | src/log/client/genode/gneiss-log-client.adb:111-126 | Collects what fits, or writes pending text and message at once |

## Left out

- The kernel is ideal: descriptor numbers that it returns are unused, packets arrive in order, writing to a socket does not fail, and a packet arrives with all its descriptors.
- Messages that do not parse, and messages that the client library's `Dispatch` receives without being valid, are not steps of the session system; `Codec` says which packets parse.
- In component processes descriptors are identified with the kernel objects behind them; descriptor numbers are modelled in the broker and in `SlotTable`.
- The sessions of a server that ended stay on record: the main session theorem then speaks of the end that the server held.
- A confirmation that is on its way to a component that has ended keeps its server session from being cleaned up in the session system.
- Components accept a request at most once and use the library calls only; `BrokerTheorems` makes no such assumption.
- SessionTheorems.SessionsFollowConfiguration: does not say that a request is answered at last; clients may block for ever by design.
- SessionReach.SessionsCanBeHad: is about two different components; one that names itself as its server blocks in its own request.
- The child's side of `fork`, loading and starting a component, and process exit codes are not part of this model.
- Memory and log dispatchers have the life cycle of `SlotTable`; only the message dispatcher and its test component are written out. Memory mappings are left out.
- Data traffic on an established session, other than log text, is left out.
- Rom and Timer clients, printing helpers and functions that only return a session's attributes are not modelled.
- Linux block client, Genode C++ wrappers and RPC headers: only the acknowledgement queue of the Genode block client is modelled, as a queue.
- Block proxy: one server session; the cache is not reset between sessions, and nothing is claimed across them.
- BlockProxy.Visit: acknowledgements arrive between visits of slots, not while one update passes over the cache; the front does not change its buffer while a request is pending; memory for packets is not accounted.
- BlockServerProcess.DiskServer.Event: is given finitely many passes, and says whether it ended among them; the original has no such bound.
- Block numbers and lengths are unbounded naturals; the code converts them between 64-bit types.
- LogProxy.Proxy.Write: the session's index is given as the slot's number, and the log client behind it is a list of printed texts.
- The log clients' `Info`, `Warning` and `Error`, which call `Print` with prefixes and colours, are not modelled.
- LogClientGenode.Client.Write: the slicer is modelled as consecutive ranges of at most 216 characters, since its source is not part of the repository.
