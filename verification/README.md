# webdesktopd: a verified model of the persistent-session stack

webdesktopd keeps shells alive on a server while browsers come and go. This project
models the path a byte takes from a pseudo-terminal to a browser's terminal, and the
state machines around that path, and proves what they promise.

| file | part of the system |
|---|---|
| `Prelude.dfy` | bytes, `Option`, `Result`, "the last n", big-endian integers |
| `RingBuffer.dfy` | the circular replay buffer (`internal/ringbuf`) |
| `Frame.dfy` | the frame format on the server (`internal/hub/frame.go`, `decodeFromBytes`) and in the browser (`protocol.ts`) |
| `HubFifo.dfy` | one hub's 256-slot queue: concurrent `Send` calls in two steps each, the writer, `Close` |
| `Replay.dfy` | one PTY session over all the hubs it is ever attached to, down to what a browser decodes |
| `Sessions.dfy` | the objects: `Hub`, `Session`, `PortProxySession`, and what each operation does to the shared state |
| `Control.dfy` | `UserSession` and the control handler, proved against those operations |
| `Routing.dfy` | control frames, and what handling one does to routing tables and lists |
| `Registry.dfy` | whole histories of one user with one browser at a time: connect, dispatch, handle, hub close, disconnect |
| `ManyHubs.dfy` | the same with any number of browsers at once, a frame handled in one step for each locked region |
| `Lives.dfy` | over those histories: which PTY sessions are killed, when, and which are lost |
| `Senders.dfy` | over those histories: which hub each PTY and proxy sends to |
| `Proxies.dfy` | over those histories: which proxies are shut, replaced and re-attached, and what a closed hub still does |
| `Coarse.dfy` | `Registry`'s histories are among those of `ManyHubs` |
| `ProxyFlow.dfy` | where a port proxy's bytes go when it is detached in the middle of a read |
| `Stats.dfy` | the reference-counted stats collector with its two critical sections per tick |
| `Upload.dfy` | upload chunking, the server's parser, random-access writes |
| `Download.dfy` | download chunking over arbitrary short reads, loss, and reassembly |
| `CopyTree.dfy` | recursive copy on a file tree |
| `Client.dfy` | the browser's `WSClient`: heartbeat, sockets and reconnects in a timed model |

The shape is the same throughout. Where the source mutates objects there are classes,
and every method is proved to do to the object's abstract value exactly what a
function on values does. State machines built from those functions are then run over
arbitrary sequences of steps, and the promises are proved about all runs. A step that
is not enabled changes nothing, so a run is any list of steps.

One mutex-protected region is one step. Lock releases and channel operations are the
places where other goroutines may come in between: `Send` is two steps, `Attach` and
the PTY reader hold `senderMu` across their call of `Send`, a stats tick is two steps,
and a frame is looked up in the table and handled in two steps; with several browsers it
is handled in one step for each lock its handler takes. The environment (reads, clocks,
sockets, process exits, losses) is a parameter of the steps.

Some tempting claims are false of the code. Each has a run that shows it next to the
theorem with the condition under which the claim holds:

- a full queue loses output while `Send` reports success (`Replay.DropIsSilent`);
- a bare header at the end of a stream reads as a clean end of input (`Codec.EndOfInputExactly`);
- detaching is per user, so one of two browsers leaving silences the other (`Registry.SecondHubGoesSilent`) unless nothing was shown there (`Senders.DisconnectSparesExactly`);
- close frames check neither channel 0 nor the kind of channel (`Registry.ClosingChannelZeroDeafens`, `Registry.WrongKindLeavesACorpse`; exactly when it matters: `Routing.ClosePtyAgreesExactly`, `Routing.CloseProxyAgreesExactly`, `Lives.CorpsesExactly`), and open frames do not check for the other kind (`Registry.OpenRoutesExactly`);
- a frame still being handled during the disconnect may leave a sender behind (`Registry.LateOpenLeavesADeadSender`) or a handler in another hub (`Registry.LateCloseStrandsHandler`); which frames are harmless is `Registry.LateFrameExactly`;
- two hubs opening the same new channel at the same moment lose a session, and a close may then kill two (`Lives.RacingOpensLoseOne`); exactly when is `Lives.StraysExactly`, `Lives.OneCloseOneKill` and `Lives.LostForEverExactly`;
- a detached proxy may still pass one read to its old hub (`ProxyFlow.DetachedGetsAtMostOne`);
- a failed send in the stats loop never cancels that loop (`Stats.OneLoopWithoutDrains`), so a loop may run for ever with nobody to send to (`Stats.IdleWindsDownExactly`);
- the sender that restarts a stopped collector never learns kernel and hostname, exactly when there is a snapshot and no loop still carries them (`Stats.RestarterNeverLearns`), although the comment at `internal/stats/collector.go:66-68` says that every new sender gets a full snapshot;
- an upload's first piece truncates (`Upload.FirstPieceErases`), so the order matters; which orders give the file is `Upload.AnyOrder`;
- an empty file is never saved by a download (`Download.DownloadArrives`);
- copying a file or a folder onto itself empties every file in it (`CopyTree.Disk.CopyFile`, `CopyTree.SelfCopyEmpties`);
- `connect()` right after `disconnect()`, and `disconnect()` during a pending `/validate`, break the client (`Client.ConnectAfterDisconnectLosesSocket`, `Client.DisconnectDuringValidationReconnects`); exactly when is `Client.ConnectKeepsOneExactly` and `Client.DisconnectIsFinal`;
- a 401 does not always end reconnecting: another validation in flight, or a reconnect timer still pending, opens a socket after it (`Client.RejectionIsFinal`);
- a copy that fails has already copied everything its walk met first, and undoes nothing (`CopyTree.Disk.CopyPath`, `CopyTree.FailureIsExact`).

## Model

| member | source | states |
|---|---|---|
| RingBuf.RingBuffer.constructor | internal/ringbuf/ringbuf.go:18-26 | a new buffer is empty |
| RingBuf.RingBuffer.Put | internal/ringbuf/ringbuf.go:46-55 | one byte in place appends it to the contents and forgets the oldest when full; `tail` stays `(head + size) mod cap` |
| RingBuf.RingBuffer.Refill | internal/ringbuf/ringbuf.go:36-44 | the bulk path leaves the last cap bytes of its input |
| RingBuf.RingBuffer.Write | internal/ringbuf/ringbuf.go:29-56 | afterwards the buffer holds the last cap bytes of its old contents followed by p, on every path |
| RingBuf.RingBuffer.Bytes | internal/ringbuf/ringbuf.go:59-74 | returns the contents oldest first, wrapped or not, and changes nothing |
| RingBuf.RingBuffer.Reset | internal/ringbuf/ringbuf.go:89-95 | empties the buffer |
| RingBuf.Replay | internal/ringbuf/ringbuf.go:29-95 | after any history of writes and resets the buffer holds the last cap bytes of everything written since the last reset |
| RingBuf.WriteSplits | internal/ringbuf/ringbuf.go:29-56 | writing a then b leaves what writing a and b together leaves |
| Prelude.LastNAppend | internal/ringbuf/ringbuf.go:36-44 | forgetting early never changes what is remembered at the end |
| Codec.EncodeBuffer | internal/hub/frame.go:49-57 | the buffer filled in place is header and payload, with the length modulo 2^32 |
| Codec.Reader.ReadFull | internal/hub/frame.go:60-87 | n bytes, or end of input when nothing was left, or unexpected end when too little was |
| Codec.DecodeFrom | internal/hub/frame.go:60-87 | reads from the stream exactly what the specification of one decode takes, with the same frame or error |
| Codec.DecodeAcceptsExactly | internal/hub/frame.go:60-87 | decoding yields f and leaves rest if and only if the input is the encoding of f, payload at most 32 MiB, followed by rest |
| Codec.StreamRoundTrip | internal/hub/frame.go:49-87 | a concatenation of encodings decodes to exactly those frames and then a clean end of input |
| Codec.EndOfInputExactly | internal/hub/frame.go:60-87 | a clean end is reported if and only if the input is whole frames, or whole frames and one bare header |
| Codec.MessageAcceptsExactly | internal/hub/hub.go:199-225 | a message is accepted as f if and only if it is the encoding of f with at most 32 MiB of payload |
| Protocol.EncodeFrame | frontend/src/lib/protocol.ts:49-66 | the browser's encoder writes the same bytes as the server's, for type and channel reduced to their widths |
| Protocol.BrowserAcceptsExactly | frontend/src/lib/protocol.ts:68-89 | the browser reads f from a buffer if and only if the encoding of f is a prefix of it |
| Protocol.DecodersAgree | internal/hub/hub.go:199-225 | what the server accepts as a message, its stream decoder and the browser read as the same frame; the browser accepts exactly trailing bytes and oversized payloads more |
| Protocol.BrowserReadsEveryMessage | frontend/src/lib/protocol.ts:68-89 | the browser decodes whatever the hub writes; type and channel always survive, the payload exactly below 2^32 bytes |
| Protocol.CutShort | internal/hub/frame.go:60-87 | a message cut anywhere is refused by all three decoders: below seven bytes as too short or unexpectedly ended, then as a length mismatch or unexpected end, except that the stream decoder reports a clean end at zero and at seven bytes |
| Protocol.TooMuch | internal/hub/hub.go:199-225 | above 33554432 bytes of payload the server's decoders refuse the message as too large, and trailing bytes as a mismatch, while the browser reads the frame |
| HubFifo.RunConserves | internal/hub/hub.go:71-88 | in every run written, in-flight or lost, and queued messages together are the enqueued ones in order, the queue never exceeds 256, and calls are enqueued, dropped, rejected or unfinished |
| HubFifo.DropsExactly | internal/hub/hub.go:79-87 | a call is dropped, with success reported, exactly when it finds the queue full and the hub open |
| HubFifo.EnqueuedInOrder | internal/hub/hub.go:71-88 | what enters the queue on a channel is an in-order subsequence of what was sent on it |
| HubFifo.WireOrder | internal/hub/hub.go:161-195 | in every run what a browser reads on a channel is an in-order subsequence of what was sent on it |
| HubFifo.ClosedExactly | internal/hub/hub.go:146-195 | a hub is closed if and only if Close was called or a write or a ping failed |
| HubFifo.EndedExactly | internal/hub/hub.go:161-195 | the writer has ended if and only if a write failed, a ping failed, or it found the hub closed |
| HubFifo.ClosedRejects | internal/hub/hub.go:71-88 | a closed hub stays closed and rejects every call that begins from then on; only calls under way may still enqueue, one frame each |
| HubFifo.DeliversExactly | internal/hub/hub.go:161-195 | everything enqueued so far can still reach the wire if and only if the writer has not ended or left nothing behind |
| HubFifo.EndedWritesNothing | internal/hub/hub.go:161-195 | a writer that has ended never writes again |
| Replay.RunKeepsInv | internal/pty/session.go:239-270 | in every run the ring holds the last 2^20 bytes produced and every attachment has been passed the output from its replay's first byte on, once each |
| Replay.Handover | internal/pty/session.go:163-174 | no gap and no duplicate: what a hub was passed since its latest attach is a contiguous range of the output from the start of the replay; for the current sender it is the last 2^20 bytes at attach followed by everything since |
| Replay.DetachedGetsNothing | internal/pty/session.go:183-189 | in any run, a hub that is not the sender, with the lock free or held for another hub, is passed nothing more in any continuation that does not attach it |
| Replay.SilentExactly | internal/pty/session.go:163-189 | a hub is passed nothing more in every continuation without another attach to it if and only if the lock is free and it is not the sender, or the lock is held for another hub |
| Replay.DetachEndsOutput | internal/pty/session.go:163-189 | after a detach, or an attach to another hub, the hub that had the output is passed nothing more in any continuation that does not attach it again |
| Replay.AttachGoesLive | internal/pty/session.go:163-174 | an attach that completes has passed the hub exactly the last 2^20 bytes and made it the sender, whatever hubs and connections did meanwhile |
| Replay.OutputKept | internal/pty/session.go:248-252 | a read enters output and ring whoever is attached |
| Replay.QueuedIsReceived | frontend/src/lib/protocol.ts:68-89 | every queued payload of the session comes out of the browser's decoder unchanged |
| Replay.EndToEnd | internal/pty/session.go:239-270 | in every run, for a hub to which nothing else sent data on the channel since the latest attach, what a browser decodes there since is a frame-level subsequence of pieces that make up the output from the replay's start, and a prefix of that output when nothing was lost |
| Replay.SessionFramesFit | internal/hub/frame.go:35 | every replay and live frame of a session is at most 2^20 bytes, so all three decoders read the same frame from it |
| Replay.QueueFills | internal/hub/hub.go:71-88 | every fill level of the queue is reachable with a browser attached |
| Replay.PassOne | internal/pty/session.go:248-264 | a read is queued while there is room and dropped otherwise; the session goes on either way |
| Replay.DropIsSilent | internal/hub/hub.go:83-86 | with the queue full a read is lost and the next one goes through behind it |
| Sessions.Hub.constructor | internal/hub/hub.go:37-46 | a new hub has an empty queue and no handlers |
| Sessions.Hub.Register | internal/hub/hub.go:49-53 | one handler is set for the channel, nothing else changes |
| Sessions.Hub.Unregister | internal/hub/hub.go:56-67 | the channel's handler is removed and closed, whatever its kind |
| Sessions.Hub.Send | internal/hub/hub.go:71-88 | does the two steps of the queue machine; fails exactly when the hub is closed |
| Sessions.Hub.Close | internal/hub/hub.go:146-157 | marks the hub done and forgets the handlers without closing them, once |
| Sessions.Hub.WriterIteration | internal/hub/hub.go:161-195 | one turn of the writer is the writer's step of the queue machine |
| Sessions.Session.Attach | internal/pty/session.go:163-174 | sends the whole ring if it holds anything, then makes the hub the sender |
| Sessions.Session.Detach | internal/pty/session.go:183-189 | clears the sender only |
| Sessions.Session.Forward | internal/pty/session.go:248-264 | the read enters the ring and is sent to the sender, if any |
| Sessions.Session.Close | internal/pty/session.go:223-235 | kills the process group the first time and does nothing after that |
| Sessions.SessionMethodsAreSteps | internal/pty/session.go:163-264 | without interference the methods are the steps of the replay machine |
| Sessions.PortProxySession.constructor | internal/server/proxy.go:31-46 | a new proxy sends to the hub it was opened on |
| Sessions.PortProxySession.Attach | internal/server/proxy.go:48-53 | swaps the hub only |
| Sessions.PortProxySession.Detach | internal/server/proxy.go:55-59 | clears the hub only |
| Sessions.PortProxySession.TakeHub | internal/server/proxy.go:68-70 | before each send the read loop copies the attached hub, under the lock |
| Sessions.PortProxySession.Forward | internal/server/proxy.go:64-78 | bytes read go as one data frame to the hub that was taken, even if it has been replaced since, or to nobody |
| Sessions.PortProxySession.EndOfInput | internal/server/proxy.go:83-95 | at the end the client behind the taken hub is told and the connection closed |
| ProxyFlow.DetachedGetsAtMostOne | internal/server/proxy.go:55-83 | a detached or replaced hub is passed nothing more except the one read taken while it was attached, exactly when that read is passed on |
| ProxyFlow.LeavingLeavesOneRead | internal/server/proxy.go:48-83 | from a detach, or an attach to another hub, until it is attached again the old hub is passed just the read already taken for it, exactly when that read is passed on |
| ProxyFlow.HubIsLast | internal/server/proxy.go:48-59 | the proxy's hub is the one of the latest attach, or none after a detach |
| ProxyFlow.ReadsGoWhereTaken | internal/server/proxy.go:48-83 | every read goes once, in order, to the hub of the latest attach when it was taken, or to nobody after a detach |
| Sessions.PortProxySession.Close | internal/server/proxy.go:109-120 | closes the connection once |
| Control.UserSession.AddPTY | internal/server/server.go:73-77 | lists the session under its own channel |
| Control.UserSession.RemovePTY | internal/server/server.go:80-90 | unlists the session and closes it; an unlisted channel changes nothing |
| Control.UserSession.AddProxy | internal/server/server.go:117-121 | lists the proxy under its own channel |
| Control.UserSession.RemoveProxy | internal/server/server.go:123-133 | unlists the proxy and closes it |
| Control.UserSession.RegisterHandlers | internal/server/server.go:95-101 | routes input of every listed PTY to it, over what was registered before, and attaches nobody |
| Control.UserSession.RegisterProxyHandlers | internal/server/server.go:145-152 | routes and attaches every listed proxy |
| Control.UserSession.DetachHub | internal/server/server.go:104-115 | clears the sender of every listed PTY, whatever hub it is |
| Control.UserSession.DetachProxies | internal/server/server.go:154-164 | clears the hub of every listed proxy |
| Control.UserSession.Connect | internal/server/server.go:386-399 | control handler first, then PTYs, then proxies |
| Control.UserSession.Disconnect | internal/server/server.go:444-446 | every listed PTY and proxy is detached and stays listed |
| Control.ControlHandler.HandleOpenPTY | internal/server/server.go:500-544 | channel 0 is refused; a running session is registered and re-attached; otherwise one is started, listed, registered and attached, or the failure is reported |
| Control.ControlHandler.HandleClosePTY | internal/server/server.go:547-559 | both ways of closing together kill the session once and leave it unlisted and unrouted |
| Control.ControlHandler.HandleOpenProxy | internal/server/server.go:710-756 | an open proxy is re-attached and a closed one replaced; a failed dial, and nothing else, queues one close-proxy frame with the error |
| Control.ControlHandler.HandleCloseProxy | internal/server/server.go:759-770 | the proxy is closed, unlisted and unrouted |
| Registry.StepKeepsInvExactly | internal/server/server.go:72-164 | a step keeps the invariant if and only if it is orderly: no second browser connects, an open hub's frame fits (an open that takes effect finds no session of the other kind, a close names a nonzero channel of its kind), and a closed hub handles only harmless frames |
| Registry.RunKeepsInv | internal/server/server.go:72-164 | the invariant behind the next theorems holds in every orderly run |
| Registry.Agreement | internal/server/server.go:386-446 | in every orderly run an open hub routes exactly channel 0, the listed PTYs and the listed proxies, each under its own channel; a closed hub routes nothing |
| Registry.SendersAreConnected | internal/server/server.go:104-115 | a listed PTY or proxy sends to the one connected hub or to nobody |
| Registry.DisconnectKeepsSessions | internal/server/server.go:439-446 | after a disconnect both maps are as before, nothing was killed, nothing is routed and nothing sends |
| Registry.LateOpenExactly | internal/server/server.go:439-446 | a frame handled when its hub is closed and detached leaves that hub's table empty and every sender connected if and only if it is not an open that takes effect |
| Registry.LateFrameExactly | internal/server/server.go:439-446 | handling a frame after its hub has closed keeps the invariant if and only if it opens nothing and delists nothing while another hub is open |
| Registry.LateCloseStrandsHandler | internal/server/server.go:547-559 | a late close of a listed channel leaves its dead handler in every open hub's table |
| Registry.OpenRoutesExactly | internal/server/server.go:500-544 | an open leaves every listed session routed if and only if it takes no effect or no session of the other kind is on its channel |
| Registry.OtherHubAgreesExactly | internal/server/server.go:500-559 | with a second browser, what one hub handles leaves the other's routing table in agreement if and only if it starts, dials and delists nothing |
| ManyHubs.RunSound | internal/server/server.go:500-559 | in every run of any number of hubs, whatever frames come and however their handling mixes: kills are distinct, a PTY is found only under its own channel, and a spawned session not yet listed is in exactly one hub's hands |
| ManyHubs.Uninterrupted | internal/server/server.go:500-559 | the steps of one frame with nothing in between do what the handler's method does |
| Lives.KillsOnlyOnRequest | internal/pty/session.go:223-235 | in every such run nothing is killed twice, and a step kills only a session taken from the hub's own table or from the list for a close frame on that session's channel |
| Lives.StraysExactly | internal/server/server.go:509-540 | a session is lost, alive but neither listed nor about to be killed, at some moment if and only if a hub that had found its channel free lists another one over it |
| Lives.CorpsesExactly | internal/server/server.go:759-770 | a session is dead or dying and listed for good at some moment if and only if a CloseProxy hits it while it is listed and no ClosePTY is about to unlist it |
| Lives.KilledExactlyOnce | internal/server/server.go:547-559 | when no hub is handling anything a session is listed exactly when spawned and not killed, if and only if it is neither lost nor a corpse, which takes one of the two accidents above; none is killed twice |
| Lives.ClosePtyKills | internal/server/server.go:555-556 | a ClosePTY kills the live PTY in the hub's own table and then the listed one, if that is another one and live |
| Lives.OneCloseOneKill | internal/server/server.go:555-556 | at rest a ClosePTY kills exactly the PTY listed on its channel, if any, if and only if the hub's table holds no lost session there and the listed one is alive |
| Lives.RacingOpensLoseOne | internal/server/server.go:509-540 | a run of two hubs opening the same channel: one session is lost; a close by its hub kills both, a close by the other leaves it alive |
| Lives.LostForEverExactly | internal/hub/hub.go:56-67 | at rest a lost session can still be killed if and only if some connected hub that takes frames has it in its table; otherwise it lives for ever |
| Senders.SendsToLastAttacher | internal/server/server.go:104-115 | in every run a PTY or proxy sends to a hub if and only if that hub was the last to attach it (a proxy also by dialing or connecting), with no disconnect of any hub since while it was listed |
| Routing.ClosePtyAgreesExactly | internal/server/server.go:547-559 | handling a ClosePTY keeps an agreeing routing table in agreement if and only if its channel is nonzero and no proxy's |
| Routing.CloseProxyAgreesExactly | internal/server/server.go:759-770 | handling a CloseProxy does so if and only if its channel is nonzero and no PTY's |
| Senders.DisconnectSparesExactly | internal/server/server.go:104-164 | after any disconnect nothing listed sends to anybody and the rest sends on, so another hub keeps its terminals and proxies if and only if it was the last to attach none of them |
| Proxies.ShutExactly | internal/server/proxy.go:83-120 | in every run of any number of hubs a proxy is shut if and only if its connection ended or a close frame got to it |
| Proxies.OpenProxyIsReattached | internal/server/server.go:726-739 | an open frame for a listed proxy that is not shut makes it, and no other, send to that hub, and routes its channel to it |
| Proxies.EndedProxyIsReplaced | internal/server/server.go:726-756 | once a proxy's connection has ended, an open frame on its channel lists, routes and attaches the one dialed, or changes nothing when dialing fails |
| Proxies.CloseProxyShuts | internal/server/server.go:759-770 | a close frame for a listed proxy shuts it and leaves it neither listed nor routed |
| Proxies.ShutIsNotReopened | internal/server/server.go:726-739 | no frame attaches a shut proxy ever again, unless a hub was already about to re-attach it |
| Proxies.ClosedHubRests | internal/hub/hub.go:146-157 | a hub that closes between two frames routes nothing and begins no frame ever again, in any continuation, and closing it ends no session |
| Coarse.CoarseIsFine | internal/server/server.go:386-770 | every history of whole frames is a history of the finer machine with one step for each lock, with the same maps, tables, senders and kills |
| Registry.SecondHubGoesSilent | internal/server/server.go:104-115 | with two hubs, the first one's disconnect clears the sender that the second one installed |
| Registry.ClosingChannelZeroDeafens | internal/server/server.go:547-559 | closing channel 0 leaves an open, connected hub that ignores every frame |
| Registry.WrongKindLeavesACorpse | internal/server/server.go:759-770 | a proxy close on a PTY's channel kills the PTY and leaves it listed |
| Registry.LateOpenLeavesADeadSender | internal/server/server.go:439-446 | an open handled after the disconnect leaves the PTY attached to a dead hub |
| Stats.StatsCollector.Add | internal/stats/collector.go:99-117 | first sender starts a loop; a later one gets the full snapshot if there is one |
| Stats.StatsCollector.Remove | internal/stats/collector.go:121-134 | unregisters; the last one out cancels the loop |
| Stats.StatsCollector.Sample | internal/stats/collector.go:162-165 | the first critical section: the delta against the last snapshot, which is replaced |
| Stats.StatsCollector.Broadcast | internal/stats/collector.go:174-182 | the second: everyone gets the delta, failed senders leave, refs follows, no loop is cancelled |
| Stats.LoopsConserved | internal/stats/collector.go:99-134 | in every run refs counts the senders, a loop runs whenever there is one, and uncancelled loops are one (if refs is positive) plus one for each drain |
| Stats.OneLoopWithoutDrains | internal/stats/collector.go:174-182 | at most one uncancelled loop, and none when idle, if and only if failed sends never emptied the map |
| Stats.SendersExactly | internal/stats/collector.go:99-134 | in every run the senders are exactly those that joined and were neither removed nor failed since |
| Stats.IdleWindsDownExactly | internal/stats/collector.go:138-158 | once the last sender has left, every loop can end without anybody joining if and only if failed sends never emptied the map |
| Stats.BroadcastReconstructs | internal/stats/collector.go:162-182 | after a broadcast of the newest snapshot every sender reached shows its numbers exactly, and its strings too unless it restarted the collector, lost a frame or the strings are in another loop's hands, whatever happened between the two critical sections |
| Stats.OneLoopReconstructs | frontend/src/lib/components/StatsDock.svelte:37-40 | with one loop at a time every broadcast leaves every reliable, non-restarting sender showing exactly the last snapshot |
| Stats.JoinerShowsLast | internal/stats/collector.go:105-116 | who joins a collector in use that has a snapshot, and gets the first frame, shows exactly the last snapshot, strings included; nobody else changes |
| Stats.LostFrameChangesNothing | internal/stats/collector.go:174-182 | a sender whose frame is lost stays and shows what it did |
| Stats.RestarterNeverLearns | internal/stats/collector.go:105-116 | a sender that restarts an idle collector is never told kernel or hostname, in any continuation, if and only if there is a snapshot and no loop is about to broadcast the strings |
| Stats.RestartHappens | internal/stats/collector.go:105-116 | such a state is reachable |
| Upload.UploadSingleFile | frontend/src/lib/components/FileManager.svelte:379-408 | the loop sends exactly the pieces of the file in order, one empty piece for an empty file |
| Upload.OffsetSurvives | internal/server/server.go:624-657 | an offset survives the wire if and only if it fits a signed 64-bit integer |
| Upload.BE64OfI64 | internal/server/server.go:624-657 | any eight bytes are the encoding of the signed integer they are read as |
| Upload.ParseExactly | internal/server/server.go:624-657 | the parser yields a chunk if and only if the payload is that chunk's encoding, the path fits 16 bits and the offset 64 |
| Upload.ParseFailsExactly | internal/server/server.go:624-657 | a payload is too short if and only if it is below 38 bytes, and truncated if and only if it ends before the offset does |
| Upload.ParseReadsBack | internal/server/server.go:624-657 | the parser recovers id, path, offset and data if and only if the path fits 16 bits and the offset 63 |
| Upload.UploadFramesFit | frontend/src/lib/components/FileManager.svelte:379-408 | every upload payload is within the hub's limit |
| Upload.FileSystem.WriteFileChunk | internal/server/fileops.go:121-153 | offset 0 truncates, a positive offset overwrites or grows with a zero-filled hole, a negative one overwrites the head; a failed open changes nothing and a failed write leaves the bytes written |
| Upload.WritesExactly | internal/server/fileops.go:121-153 | a call that could open the file leaves every other file alone and overlays this one, emptied first at offset 0, with the bytes it wrote: all, or the first ones when it fails; a hole is zeros |
| Upload.FileSystem.HandleFileUpload | internal/server/server.go:624-657 | parses and writes; reports the wrapped new offset, or nothing when the write failed; a frame that does not parse changes nothing and says why |
| Upload.Wrap64Exactly | internal/server/server.go:647-657 | the reported offset is the sum modulo 2^64 as a signed integer, and the sum itself if and only if it fits |
| Upload.ProgressCounts | internal/server/server.go:647-657 | the progress reported for the pieces of an upload counts the bytes so far, and is the size of the file for the last piece only |
| Upload.UploadsDoNotInterfere | internal/server/server.go:624-657 | for every interleaving of complete uploads to distinct cleaned paths, every path ends up with exactly its file whatever was there, and nothing else changes |
| Upload.MergedSofar | internal/server/fileops.go:121-153 | at every moment of the interleaving each file holds exactly what has come for it |
| Upload.AnyOrder | internal/server/fileops.go:130-151 | pieces in any order, with repeats and omissions, over any earlier contents, leave those contents (or nothing, once a first piece has come) with the pieces since the latest first piece over them, and every other file alone; it is the file if and only if those pieces make it complete |
| Upload.CompleteExactly | internal/server/fileops.go:130-151 | complete means: no longer than the file, the last piece there or the length already right, and the bytes of every missing piece already in place or zero |
| Upload.AllPiecesComplete | internal/server/fileops.go:130-151 | all pieces since the latest first one make the file complete |
| Upload.FirstPieceErases | internal/server/fileops.go:130-135 | handled last, the first piece leaves itself and nothing else, whatever came before, so it is the file if and only if there is one piece |
| Upload.NegativeOffsetOverwritesHead | internal/server/fileops.go:143-150 | a negative offset replaces the first bytes |
| Download.PutInt64BE | internal/server/fileops.go:363-372 | eight byte stores write the big-endian integer and touch nothing else |
| Download.IdSurvives | internal/server/fileops.go:67-73 | an id comes back after padding and trimming if and only if it fits 36 bytes and does not end in ASCII white space |
| Download.PayloadReadsBack | frontend/src/lib/components/FileManager.svelte:508-518 | the browser recovers id, offset and data of a chunk |
| Download.BuildChunk | internal/server/fileops.go:86-89 | the chunk built in place is id, offset and the bytes read |
| Download.StreamFileDownload | internal/server/fileops.go:48-117 | the frames are exactly the reads of the rounds, each as a chunk and its progress message; the stream stops in the first round that is cancelled, finds the hub closed with data in hand, fails or reads the end, and for the first of these reasons; it is still running if and only if no round stops it |
| Download.DeliversWhatWasRead | internal/server/fileops.go:78-105 | what was delivered is the sum of what the rounds asked for, 65536 bytes at most each, or the whole file |
| Download.GoodRoundsFinish | internal/server/fileops.go:78-117 | more good rounds than the file has bytes deliver all of it and finish |
| Download.FileManager.Start | frontend/src/lib/components/FileManager.svelte:371-373 | a download starts with no chunks |
| Download.FileManager.OnChunk | frontend/src/lib/components/FileManager.svelte:508-518 | files the chunk under its offset; short and unknown ones are ignored |
| Download.FileManager.OnProgress | frontend/src/lib/components/FileManager.svelte:546-562 | saves the chunks in offset order when a positive total is reached, and forgets the download then or on error |
| Download.Join | frontend/src/lib/components/FileManager.svelte:552-556 | filling one buffer chunk by chunk gives the concatenation in offset order |
| Download.DownloadsDoNotInterfere | frontend/src/lib/components/FileManager.svelte:508-562 | what becomes of one download depends only on its own frames |
| Download.ErrorIsFinal | frontend/src/lib/components/FileManager.svelte:548 | an error message ends a download: it saves nothing, then or later, and leaves the others alone |
| Download.NameIsKept | frontend/src/lib/components/FileManager.svelte:546-562 | a file is saved under the name its download was started with, and the total shown is the latest reported |
| Download.SavesExactly | frontend/src/lib/components/FileManager.svelte:546-562 | whatever is lost, the browser saves once, what had arrived at the first progress message that reaches the total, and nothing otherwise |
| Download.ResultIsFirst | frontend/src/lib/components/FileManager.svelte:550-562 | what is saved is what was kept up to the first delivered progress message with a positive total reached |
| Download.NeverEnds | frontend/src/lib/components/FileManager.svelte:550-562 | without such a message nothing is saved |
| Download.KeptIsAll | frontend/src/lib/components/FileManager.svelte:552-556 | what was kept is the whole if and only if no chunk was lost |
| Download.DownloadArrives | frontend/src/lib/components/FileManager.svelte:508-562 | an unchanged file is saved, without exactly the lost pieces, if and only if it is not empty and its last progress message arrives; it is the file if and only if no chunk was lost |
| Download.AllArrives | internal/server/fileops.go:64-115 | with nothing lost the browser gets what the server sent |
| Download.DownloadFramesFit | internal/server/fileops.go:17 | every download payload is within the hub's limit |
| CopyTree.Disk.CopyFile | internal/server/fileops.go:202-225 | copies the bytes and makes the parents, or fails exactly when a file or directory is in the way; onto itself it leaves an empty file |
| CopyTree.Disk.CopyDir | internal/server/fileops.go:227-253 | terminates; succeeds if and only if no file and directory collide; then the tree is the source laid over the destination, and nothing outside the destination changes; a failed copy leaves what the sorted walk had copied before the first collision and nothing else |
| CopyTree.Disk.CopyPath | internal/server/fileops.go:189-200 | the same for any source, missing ones and files included |
| CopyTree.FailureIsExact | internal/server/fileops.go:189-253 | what a failed copy leaves is one definite tree |
| CopyTree.FailsBelow | internal/server/fileops.go:239-251 | a first collision below an entry, with the earlier entries copied, is the first collision of the whole walk |
| CopyTree.PartlyGrows | internal/server/fileops.go:239-251 | however far the copy gets, nothing vanishes: every path is as it was, a new directory above the destination, or the copy of its twin in the source |
| CopyTree.SelfCopyEmpties | internal/server/fileops.go:202-253 | copied onto itself a tree keeps its shape and every file in it becomes empty |
| CopyTree.OverlayIsExact | internal/server/fileops.go:189-253 | the overlay is one definite tree |
| CopyTree.CopyTwice | internal/server/fileops.go:189-253 | the source is unchanged, and copying again changes nothing |
| CopyTree.EntryIsSmaller | internal/server/fileops.go:239-251 | the measure: what is below an entry is less than what is below its directory, although the destination grows meanwhile |
| Client.WSClient.Connect | frontend/src/lib/client.ts:45-48 | wants connections again, and opens a socket unless there is one |
| Client.WSClient.OpenSocket | frontend/src/lib/client.ts:97-108 | opens a socket unless there is one |
| Client.WSClient.StartHeartbeat | frontend/src/lib/client.ts:50-69 | both heartbeat timers are cleared and a ping is due in 3000 ms |
| Client.WSClient.StopHeartbeat | frontend/src/lib/client.ts:71-81 | both heartbeat timers are cleared |
| Client.WSClient.HandlePong | frontend/src/lib/client.ts:83-91 | the pong timeout is cleared and the heartbeat restarted |
| Client.WSClient.OnPingTimer | frontend/src/lib/client.ts:53-67 | on an open socket a pong is awaited for 5000 ms |
| Client.WSClient.OnPongTimeout | frontend/src/lib/client.ts:60-67 | closes the open socket if the pong is still awaited |
| Client.WSClient.OnOpen | frontend/src/lib/client.ts:111-115 | the socket counts as opened and the heartbeat starts |
| Client.WSClient.OnMessage | frontend/src/lib/client.ts:117-139 | a decoded frame restarts the heartbeat, anything else is ignored |
| Client.WSClient.OnClose | frontend/src/lib/client.ts:141-171 | the socket is forgotten and a reconnect scheduled, after validation if it never opened |
| Client.WSClient.OnValidated | frontend/src/lib/client.ts:149-171 | a 401 ends reconnecting, anything else schedules a reconnect without looking again |
| Client.WSClient.OnReconnectTimer | frontend/src/lib/client.ts:167-170 | opens a socket unless there is one |
| Client.WSClient.Disconnect | frontend/src/lib/client.ts:182-196 | closes and forgets the socket, clears the latest reconnect timer and the heartbeat |
| Client.WSClient.Turn | frontend/src/lib/client.ts:45-196 | one turn of the event loop is one step of the machine |
| Client.PatientKeepsInv | frontend/src/lib/client.ts:45-196 | the invariant behind the client theorems, for every run of a patient caller |
| Client.PatientUntilDisconnect | frontend/src/lib/client.ts:45-48 | before the first disconnect() every caller is patient |
| Client.HeartbeatBound | frontend/src/lib/client.ts:50-91 | while a socket is open the last activity is at most 8000 ms ago and exactly one heartbeat timer is live, due 3000 or 8000 ms after that activity |
| Client.HeartbeatClosesAtExactly | frontend/src/lib/client.ts:60-67 | a timer closes an open socket if and only if it is its pong timeout, and then exactly 8000 ms have passed |
| Client.AtMostOneSocket | frontend/src/lib/client.ts:97-108 | at most one socket is not closed, and it is the client's, or given up and closing |
| Client.NeverStranded | frontend/src/lib/client.ts:141-171 | a started client has a socket, a reconnect timer or a validation in flight, or was rejected since its last connect() |
| Client.ConnectKeepsOneExactly | frontend/src/lib/client.ts:45-48 | in any run, connect() keeps at most one unclosed socket through every later run without disconnect() if and only if every unclosed socket is the client's own |
| Client.DisconnectIsFinal | frontend/src/lib/client.ts:182-196 | in any run, disconnect() prevents every later socket without connect() if and only if no validation is in flight and no reconnect timer is pending but the latest |
| Client.RejectionIsFinal | frontend/src/lib/client.ts:149-171 | a 401 prevents every later socket without connect() if and only if it answers the only validation in flight and no reconnect timer is pending |
| Client.FinalExactly | frontend/src/lib/client.ts:141-171 | a client told not to reconnect opens no socket in any continuation without connect() if and only if no validation is in flight and no reconnect timer is pending |
| Client.ClosesExactly | frontend/src/lib/client.ts:141-171 | a client that wants connections validates exactly the sockets that close without their open event having come; for the others a reconnect is due in 2000 ms |
| Client.LastIsLatest | frontend/src/lib/client.ts:111-139 | the activity the heartbeat counts from is the latest open event or message that decodes, nothing else |
| Client.Reopens | frontend/src/lib/client.ts:167-170 | with no socket and a reconnect timer pending, letting time pass opens one |
| Client.ConnectAfterDisconnectLosesSocket | frontend/src/lib/client.ts:141-147 | connect() right after disconnect() ends with two sockets, the open one without heartbeat for more than 8000 ms |
| Client.DisconnectDuringValidationReconnects | frontend/src/lib/client.ts:149-170 | disconnect() during a validation is followed by a new socket |

## Left out

- SSH authentication, JWT and cookies: library calls on secrets.
- The HTTP reverse proxy, the WebSocket relay and header or HTML rewriting.
- `/proc`, disk and kernel queries, port scanning: the collector is given arbitrary snapshots.
- Process spawning, resizing, signals other than the kill, and terminal input: a PTY is a source of bytes that can be killed once.
- JSON: messages are parsed datatypes; malformed JSON, which handlers reject first, is not modelled.
- Path cleaning: paths are lists of names in `CopyTree` and bytes with an arbitrary cleaning function in `Upload`.
- Permissions, file modes, symbolic links, full disks, and files changing while they are read.
- The Svelte user interface, upload toasts, login storage, deployment scripts.
- The Go memory model: mutex-protected regions are atomic.
- JavaScript's 53-bit integers: offsets are exact up to the width of the wire format.
- Periodic pings of the server's hub and its read deadline: a hub may close at any moment instead.
- Sessions.Hub.Close: closing the underlying connection is not modelled; the writer may still finish a write it had begun.
- Sessions.Session.Close: closing the terminal and waiting for the process are not modelled, only the one kill.
- Control.ControlHandler.HandleOpenPTY: resizing is not modelled, and a new session produces nothing before it is attached; the method runs without interruption; `ManyHubs` splits it at its locks.
- Control.ControlHandler.HandleOpenProxy: a dialed proxy reads nothing before it is registered, and the method runs without interruption; `ManyHubs` splits it at its locks.
- ManyHubs.RunSound: connecting and disconnecting are one step each, although handleWS takes several locks for them; a session is killed by close frames only, never by its shell's own exit, which nothing in the server notices.
- Registry.RunKeepsInv: the handling of one frame is one step, and the hypotheses are those of an orderly run; `Registry.StepKeepsInvExactly` shows that no weaker ones do, and `ManyHubs` drops them.
- Stats.OneLoopReconstructs: asks for loops that never overlap, which the code does not guarantee; `Stats.BroadcastReconstructs` states what holds with overlapping loops.
- Upload.FileSystem.WriteFileChunk: directories created above the file are not modelled.
- Upload.ParseReadsBack: the id is 36 bytes, as `crypto.randomUUID` makes it.
- Download.StreamFileDownload: the content does not change while it is read; `total` is arbitrary and need not be its size.
- Download.IdSurvives: ids are ASCII; white space outside ASCII and invalid UTF-8 are not modelled.
- Download.FileManager.OnProgress: the sort of the map's entries is any method that returns the keys in order.
- CopyTree.Disk.CopyPath: a directory and a destination strictly inside one another are not modelled: copying a directory into itself recurses until the operating system refuses the path, and copying it over its own ancestor depends on the order of the entries.
- CopyTree.Disk.CopyDir: names are compared character by character, which for UTF-8 is the order of `os.ReadDir`.
- Client.WSClient.Turn: callbacks of the application do not call back into the client, and timers fire exactly when due.
- Client.PatientKeepsInv: asks for a patient caller; `Client.ConnectKeepsOneExactly`, `Client.DisconnectIsFinal` and the two runs beside them show what an impatient one gets.
- Replay.EndToEnd: frames of other goroutines on the same channel, such as the error text of an earlier failed open, reach the same terminal; the theorem asks that none came since the latest attach.
