# A verified model of the RTSP proxy

The proxy keeps one connection to a camera and fans its media out to any number of clients. This
project models its four hard parts, and the two registries around them, in Dafny, and proves what
each keeps over all inputs, all read schedules and all interleavings. `dafny verify dfyconfig.toml`
checks everything.

- **Bytes to items and back** (`Bytes`, `Message`, `HeaderBlock`, `Response`, `Demux`, `ReadLoop`,
  `MixedStream`). The camera's TCP stream arrives in arbitrary chunks in one fixed buffer that is
  shifted in place. It is cut into `$` frames (section 10.12 of RFC 2326) and RTSP messages (sections
  4.4 and 12.14 of RFC 2326). The loop is proved equal to a run of a simple machine, the machine equal
  to a one-shot recursive parser, and the parser the inverse of the two encoders. Two Content-Length
  readers, a byte scanner and a header-map parser, are compared exactly.
- **Fan-out** (`ClientPipe`, `ClientFlow`, `ClientOrder`, `ClientIsolation`, `Fanout`, `FanoutSafety`,
  `FanoutTheorems`, `FanoutIsolation`, `FanoutSessions`, `FanoutSlow`, `FanoutEndings`, `FanoutProgress`,
  `Eviction`). The dispatcher of a stream, the pool of buffers it shares with the other streams and, per
  client, a reader, a writer and any number of session runners. Every channel operation, atomic swap and lock region is a step; Go's
  panics on closed channels are part of the steps. The theorems speak about every run.
- **Stream lifecycle** (`Lifecycle`, `LifecycleCalls`). The state table, the two generations of signal channels, and
  `Start`, `Stop`, `Destroy`, `AddClient`, the idle timer and the connect loop, which has an explicit
  program counter.
- **Requests to the camera** (`Remote`, `RemoteWire`, `RequestEngine`, `RequestSafety`, `RequestOutcomes`,
  `RequestRaces`, `RequestLockstep`, `RequestTuning`). Counters and authentication state of the connection
  as a mutable object, and what it writes; the queue of outstanding requests, the callers with their two
  attempts and notification channels, and the response handler as a step system.
- **Client frames and channels** (`ClientFrames`, `Channels`) and **stream identity**
  (`StreamManager`).

Where a promise turned out not to hold of the code, the code is modelled as it is, a lemma gives an
input or a run that shows it, and another says exactly when the promise holds:

| promise | shown not to hold by | holds exactly when |
|---|---|---|
| every `$` frame passes the default buffer | `MixedStream.LargestFrameLost` | `MixedStream.LargestFrames`: payload of at most 65532 bytes |
| the two Content-Length readers agree | `MixedStream.SpaceHidesBody` | `MixedStream.TwoParsersAgree`: no space after the digits |
| normalising a header value is idempotent | `Message.NormalizeNotIdempotent` | `Message.NormalizeIdempotentIff`: no space first among the kept bytes |
| a stopped stream stays disconnected | `Lifecycle.StoppedLoopReturns` | `Lifecycle.StaysDisconnectedIff` |
| an active state has a connect loop behind it | `Lifecycle.ConnectingAbandoned`, `PlayingAbandoned`, `ReconnectingAbandoned` | `Lifecycle.AbandonedIff`, `Lifecycle.KeepsItsLoopIff` |
| a client brings a disconnected stream up | `LifecycleCalls.ClientComesTooLate` | `LifecycleCalls.BroughtUpIff`: no loop is left that is leaving, or about to be refused |
| no client ever meets a closed channel | `Eviction.EvictionPanics` | `Eviction.EvictionIff`: no packet is under way through a live runner of the session, and a destroyed client can set up no other session |
| a request that returned has left the queue | `RequestRaces.StaleNoteReachable` | `RequestRaces.LeftQueuedIff` |
| responses meet their own requests | `RequestLockstep.TwoCallersMismatch` | `RequestTuning.MatchesIff` |
| nonce counts on the wire increase | `RemoteWire.NonceCountWraps` | `RemoteWire.NonceCountsUpIff`: fewer than 2^32 uses of one nonce |
| channel numbers survive the way there and back | `Channels.SharedChannelIsOpaque` | `Channels.TransparentIff`: the channel map is consistent |
| one stream per camera and credentials | `StreamManager.KeysCollide` | `StreamManager.KeyUniqueIff`: no misleading separator |
| the stream gauge is the number of streams | `StreamManager.TwiceDestroyedMiscounts` | `StreamManager.GaugeIff` |

Conventions. A byte is a character below 256, so texts can be written as literals. A run is a sequence
of events, each possible when it happens. Reads are an arbitrary schedule of sizes, map iteration is an
arbitrary order, timers and dial or write failures are arbitrary choices. Lengths of whole streams are
kept below the largest 64-bit integer.

## Model

| member | source | states |
|---|---|---|
| Message.SharedLineSplit | rtspproxy/message.go:12-26 | the loop splits at the first CR or LF: the line is the longest prefix free of both, and the rest follows one CRLF, CR or LF |
| Message.SplitCrlf | rtspproxy/message.go:12-26 | a CR/LF-free line followed by CRLF and anything is split off exactly |
| Message.SplitAnyEnd | rtspproxy/message.go:12-26 | a line is split off at CRLF, LF or a lone CR, whichever comes, which goes with it, and the rest follows; without a line end all is one line |
| Message.CanonicalHeaderKey | rtspproxy/message.go:32-48 | the in-place loop computes the canonical key that the lemmas below characterise |
| Message.CanonicalKeysAgree | rtspproxy/message.go:32-48 | two keys canonicalise alike if and only if they match ignoring case after trimming |
| Message.CanonicalKeyIdempotent | rtspproxy/message.go:32-48 | canonicalising twice changes nothing and leaves nothing to trim |
| Message.CanonicalKeyShape | rtspproxy/message.go:32-48 | the canonical key is the trimmed key with letters in upper case at the start and after each dash and in lower case elsewhere |
| Message.HeaderGet | rtspproxy/message.go:51-67 | the three-step lookup gives one of the answers its unordered map scan allows |
| Message.HeaderGetIsCaseInsensitive | rtspproxy/message.go:51-67 | on a map of canonical keys every such answer is that of a case-insensitive linear search, at most one key matches, and the iteration order cannot be observed |
| Message.SharedParseHeader | rtspproxy/message.go:69-101 | the two-state scanner computes key and normalised value, or reports a line without a colon |
| Message.CollectValue | rtspproxy/message.go:80-100 | the value loop with its state variable equals the recursive scanner |
| Message.ParametersNormalize | rtspproxy/message.go:75-99 | for any value of `;`-separated parameters exactly the blanks before it, the white space after each `;`, and tabs and line ends disappear |
| Message.PlainNormalizes | rtspproxy/message.go:75-99 | in a value without `;` exactly the leading blanks and all tabs and line ends disappear |
| Message.SecondSeparatorIsKept | rtspproxy/message.go:90-98 | a `;` right after another is kept like a parameter's first byte, and spaces after it stay |
| Message.NormalizeIdempotentIff | rtspproxy/message.go:69-101 | normalising a value twice changes nothing if and only if, after its leading blanks, the first byte that is not a tab, CR or LF is not a space |
| Message.NormalizeIdempotent | rtspproxy/message.go:69-101 | on the CR/LF-free lines the parser meets one pass is enough |
| Message.NormalizeNotIdempotent | rtspproxy/message.go:69-101 | a value with a CR for which it is not |
| Message.HeaderLineRoundTrip | rtspproxy/message.go:69-101 | a printed header line is read back if and only if the key is canonical and colon-free and the value normal |
| Message.IndexBytes | rtspproxy/message.go:138-155 | the nested loops find the first occurrence of the needle, or -1 |
| Message.SharedParseContentLength | rtspproxy/message.go:105-136 | the byte scanner reads, ignoring case, the number after the first occurrence of the needle, with the platform's integer range |
| Bytes.AtoiSigned | rtspproxy/message.go:130-131 | the number conversion behind it, for every decimal number with or without sign: the number where it fits 64 bits, else the nearest one and an error |
| Bytes.AtoiRejects | rtspproxy/message.go:130-131 | a text with a character that is no digit gives zero and an error |
| HeaderBlock.EndOfHeadersAt | rtspproxy/stream.go:650-654 | the end of headers of any block of proper lines is found after the last line and nowhere earlier |
| HeaderBlock.LastLineWins | rtspproxy/response.go:87-97 | a header block is read up to its blank line; a key has the value of its last line, and a key without a line is absent |
| HeaderBlock.NoColonFails | rtspproxy/response.go:92-95 | a line without a colon makes the parse fail, whatever comes before and after |
| HeaderBlock.TwoReadings | rtspproxy/message.go:105-136 | with one declaring line among neutral ones the scanner reads the trimmed value and the header map holds the normalised one |
| HeaderBlock.LengthReadings | rtspproxy/message.go:105-136 | for blanks, a positive number and blanks the scanner always reads the number; the map route reads it when no space follows and zero otherwise |
| HeaderBlock.ScannerReadsNothing | rtspproxy/message.go:105-136 | a block without the needle announces no body |
| Response.Response.constructor | rtspproxy/response.go:19-35 | a new response has the given code, reason and version, no headers and no body |
| Response.Response.ParseStatus | rtspproxy/response.go:50-78 | the three loops and checks set the fields as the reference status-line parser does, and leave headers and body alone |
| Response.Response.ParseResponse | rtspproxy/response.go:81-110 | the loop over the lines equals the recursive reference parser, including every error path and the cut of the body |
| Response.Response.String | rtspproxy/response.go:113-123 | the text is the printed form for some order that lists every header once |
| Response.NewResponseFromBuffer | rtspproxy/response.go:38-47 | empty text gives the fresh 400 response, any other text that of the reference parser |
| Response.StatusLineRoundTrip | rtspproxy/response.go:50-78 | a printed status line is read back if and only if the version is a non-empty ASCII word, the code prints with three characters and the reason is non-empty ASCII without line end |
| Response.StatusLineParts | rtspproxy/response.go:50-78 | what each field is for any three ASCII parts, and that the line is accepted if and only if none is missing and the code is a non-zero number of three characters; a bad number ends the parse before the reason |
| Response.StatusLineTooShort | rtspproxy/response.go:50-78 | with fewer than three parts the line is refused |
| Response.ParsePrinted | rtspproxy/response.go:81-123 | the header map of a printed response comes back whole for every printing order |
| Response.ResponseRoundTrip | rtspproxy/response.go:50-123 | printing in any order and parsing gives the response back if and only if status line, headers and body are of the printable kind |
| Response.BodyIsCut | rtspproxy/response.go:98-108 | with more or fewer bytes behind the headers than announced the body is cut at the announced length or is all there is; without a positive length it is empty |
| Response.ParsedIsClean | rtspproxy/response.go:81-110 | whatever the parser accepts has canonical, colon-free keys, normal values and no line end in its status line |
| Demux.ParseConserves | rtspproxy/stream.go:626-690 | the reference parser invents, loses and reorders no byte, and stops exactly where the next decision is not a complete item |
| Demux.LookStable | rtspproxy/stream.go:627-670 | a decision taken on the buffered bytes is never revised by later bytes |
| Demux.ParseAppend | rtspproxy/stream.go:626-690 | cutting in two goes is cutting in one go, for every split |
| Demux.RunConserves | rtspproxy/stream.go:598-691 | after every run, complete or not, the bytes read are, in order, the items handed on with the bytes thrown away between them, and then the bytes held |
| Demux.RunInOrder | rtspproxy/stream.go:626-690 | if the stream fits, then at every moment of every chunking nothing is lost and the bytes read are the items handed on followed by the bytes held |
| Demux.FramesFit | rtspproxy/stream.go:627-648 | every frame handed on in any run has its header, starts with `$` and is no longer than the buffer |
| Demux.EventuallyDelivered | rtspproxy/stream.go:678-690 | any schedule of positive reads that is long enough reads the whole stream or ends the loop on the way |
| Demux.ChunkIndependence | rtspproxy/stream.go:626-690 | for every chunking the buffer-full branch is never taken if and only if every item fits, and then the items and the bytes kept are those of the one-shot parser |
| ReadLoop.Reader.constructor | rtspproxy/stream.go:615-616 | the loop starts with an empty buffer of the configured size |
| ReadLoop.Reader.Shift | rtspproxy/stream.go:645-647 | the in-place copy keeps exactly the bytes behind the item |
| ReadLoop.Reader.TakeFrame | rtspproxy/stream.go:627-648 | the `$` branch takes what the reference look-ahead takes and otherwise changes nothing |
| ReadLoop.Reader.TakeMessage | rtspproxy/stream.go:649-670 | the RTSP branch takes what the reference look-ahead takes; a negative length that makes no progress or slices out of range is told apart |
| ReadLoop.Reader.Drain | rtspproxy/stream.go:625-671 | the inner loop equals the one-shot parser on the buffered bytes |
| ReadLoop.Reader.Turn | rtspproxy/stream.go:618-690 | one read, the drain and the clearing of a full buffer are one step of the reference machine |
| ReadLoop.Reader.Loop | rtspproxy/stream.go:598-691 | the whole loop over a mutable array equals the run of the reference machine, for every stream and schedule |
| MixedStream.FrameRoundTrip | rtspproxy/remote.go:593-596 | an encoded frame is cut off as written, whatever follows, if and only if its length is below 65536; it carries the channel's low byte and the data |
| MixedStream.LookAtLines | rtspproxy/stream.go:649-670 | a text of proper lines and a body is cut off whole if and only if the scanner reads the body's length |
| MixedStream.AnyLength | rtspproxy/stream.go:649-670 | for every announced length: wait, cut, cut inside the head, no progress, or an invalid slice bound, and exactly when |
| MixedStream.ReceivedIsFramed | rtspproxy/stream.go:649-670 | a message with one declaring line and a body of that length is framed whole, whatever follows |
| MixedStream.TwoParsersAgree | rtspproxy/response.go:81-110 | the framed body is the body the message parser stores if and only if no space follows the digits |
| MixedStream.SpaceHidesBody | rtspproxy/response.go:96-108 | a message whose body is framed by the loop and dropped by the parser |
| MixedStream.PrintedLength | rtspproxy/message.go:105-136 | in any printing order the scanner reads what the header announces |
| MixedStream.PrintedIsFramed | rtspproxy/response.go:113-123 | a printed response is cut off as printed if and only if it does not start like a frame and its announced length is its body's |
| MixedStream.MixtureParsed | rtspproxy/stream.go:626-690 | the reference parser cuts any concatenation of frames and responses into exactly these, and it fits a buffer if and only if each item does |
| MixedStream.MixedRoundTrip | rtspproxy/stream.go:598-691 | any sequence of frames and responses in any chunking that delivers it comes out as that sequence with nothing left or lost when each fits, every response parses back, and if one does not fit every delivery loses bytes |
| MixedStream.LargestFrames | rtspproxy/config.go:45 | with the default buffer size a frame is lost in every delivery if and only if its payload exceeds 65532 bytes |
| MixedStream.LargestFrameLost | rtspproxy/config.go:45 | a frame and a schedule that delivers it with loss |
| ClientPipe.ActKeepsSafe | rtspproxy/client_session.go:35-113 | every act of reader, runners, writer and dispatcher keeps the shutdown invariant; in particular none sends on or closes a closed channel |
| ClientFlow.ActConservesBuffers | rtspproxy/client_session.go:49-89 | for every act and buffer, the places it had plus the one it arrives in are the places it has plus those it was put back from |
| ClientFlow.ActKeepsPoolable | rtspproxy/client.go:61-98 | every packet on its way stays one that the guard in front of the pool lets back |
| ClientOrder.ActKeepsFlow | rtspproxy/client.go:73-97 | every act keeps order and bytes of everything between queue and socket |
| ClientOrder.WrittenInOrder | rtspproxy/client.go:73-97 | the bytes written are a prefix of what entered the channel, and one session's share of them a prefix of what its queue accepted |
| ClientIsolation.AlikeAct | rtspproxy/client_session.go:106-113 | two clients alike up to buffer numbers stay alike under alike acts |
| ClientIsolation.HeapFrame | rtspproxy/stream.go:728-740 | writing to a buffer a client does not hold leaves the client as it was |
| Fanout.Stamp | rtspproxy/stream.go:730-732 | the rewritten packet differs from the original in byte 1 only, which is the low byte of the client channel |
| FanoutSafety.EventKeepsInv | rtspproxy/stream.go:707-743 | every event of the fan-out, early destruction of the stream and other streams at the same pool included, keeps ownership, flow and the books of what was dispatched |
| FanoutSafety.RunInv | rtspproxy/stream.go:707-743 | so does every run, of any length and interleaving, with any number of clients |
| FanoutSafety.OrderlyRunSafe | rtspproxy/server.go:76-92 | in every run that destroys no stream before its clients are gone all clients keep the shutdown invariant |
| FanoutTheorems.ReadLoopDispatchesPackets | rtspproxy/stream.go:627-648 | what the read loop dispatches, from any stream in any chunking, is a `$` packet that fits a pooled buffer, so slicing is in bounds |
| FanoutTheorems.ExclusiveOwnership | rtspproxy/stream.go:728-740 | after every run each pooled buffer is in at most one place among pool, dispatcher, clients and other streams, has the pool's size, and every packet on its way passes the guard in front of the pool |
| FanoutTheorems.NoClosedChannel | rtspproxy/client.go:101-120 | in no run of a proxy that destroys streams only after its clients are gone is there a send on, or second close of, a write or quit channel |
| Eviction.PanicNeedsEviction | rtspproxy/stream.go:254-261 | in every run of the fan-out a client's goroutines panic only if its stream was destroyed before it left, whatever happened to other clients |
| Eviction.EvictionIff | rtspproxy/stream.go:347-380 | after any run of the whole fan-out in which the client was not evicted: once the stream forgets it, some continuation of dispatcher and clients, without a second eviction of this client, makes it panic if and only if a packet for its session is in the runner's hand, queued for a ready runner or still to be pushed to one, or the client is being or has been destroyed while its reader can still set up another session |
| Eviction.EvictionPanics | rtspproxy/stream.go:347-380 | a run from the start, in which a client sets up a session and maps a channel and a frame for it is dispatched, after which destroying the stream can make it panic |
| FanoutProgress.RemovalEnds | rtspproxy/stream.go:254-261 | whenever the removal of a client waits for its session under the stream's lock, acts of the client's own goroutines, needing nobody else, lead to the client being unregistered and the lock free |
| FanoutProgress.ShutdownEnds | rtspproxy/client_session.go:49-70 | after the shutdown every waiting runner can end by its own acts with its queue emptied, and every waiting writer can stop |
| FanoutTheorems.OrderAndContent | rtspproxy/stream.go:707-743 | for every session of every run: offered plus still owed is exactly what was dispatched to it, each identical except byte 1; accepted is a subsequence, accepted plus dropped is all, written is a prefix |
| FanoutSessions.PushTakenIff | rtspproxy/client_session.go:106-113 | in every run: the packet the dispatcher pushes is offered to its session, and taken if and only if fewer than the configured number are queued just then; nothing else changes |
| FanoutSessions.QueueBounded | rtspproxy/client_session.go:24-33 | no queue ever holds more than the configured number |
| FanoutSessions.FillsUp | rtspproxy/client_session.go:106-113 | while a runner takes nothing, exactly the packets there is room for are taken, in a row, and all later ones refused |
| FanoutSessions.MappingHolds | rtspproxy/stream.go:848-854 | in every run a mapping made by a registered client stays until it maps that channel again, and every frame of the channel dispatched meanwhile is to be pushed to the session with the mapped channel |
| FanoutSessions.OnlyMapped | rtspproxy/stream.go:848-854 | a session maps nothing its client did not ask for |
| FanoutSlow.WriteChannelBounded | rtspproxy/client.go:41-52 | a client's write channel holds at most 200 packets, and a runner can pass one on if and only if there are fewer or the channel is closed |
| FanoutSlow.SlowClientIsDestroyed | rtspproxy/client_session.go:75-84 | a runner that times out passes on nothing more, ever, and marks the client destroyed with its first step out |
| FanoutSlow.LockExcludes | rtspproxy/stream.go:254-261 | while a removal waits, no client attaches, maps, leaves or is evicted, and no frame is dispatched |
| FanoutEndings.EndsInOrder | rtspproxy/client.go:101-110 | in every step of every run: a runner ends only with an empty queue, whoever destroys the client goes on only after its writer, and the writer ends only on a closed, empty channel |
| FanoutEndings.LeavingIsFinal | rtspproxy/client.go:113-120 | once a reader has left its loop it only removes and destroys its client, and when it is gone the client is destroyed |
| FanoutEndings.StoppedRunnerMayQuit | rtspproxy/client_session.go:92-103 | once a session that was forgotten is stopped, its runner can quit whenever it waits, whatever else happens |
| FanoutEndings.DownIff | rtspproxy/server.go:74-82 | the shutdown signal is there if and only if the server was shut down |
| FanoutIsolation.RunIsReplay | rtspproxy/stream.go:718-740 | a client in a run is the client replayed from its own acts, the frames shown to all, and the moments at which it is handed something |
| FanoutIsolation.NobodyIsSkipped | rtspproxy/stream.go:727-741 | the dispatcher owes each client what that client's own map makes of the frame until it hands it over, and owes nothing to anybody once it is done with the frame |
| FanoutIsolation.SlowClientIsolation | rtspproxy/stream.go:718-740 | if a client acts the same in two runs, sees the same frames from the camera and is served at the same moments, it was offered, took, dropped and wrote the same bytes, whatever the other clients did |
| Lifecycle.Stream.constructor | rtspproxy/stream.go:103-122 | a new stream is Disconnected with both signal channels open, and satisfies the object invariant |
| Lifecycle.Stream.UnsafeSetState | rtspproxy/stream.go:137-198 | the switch over the new state renews and closes the signal channels as the specification says, and keeps the object invariant: generations closed once, superseded ones closed, open and closed as the state says |
| Lifecycle.Stream.Transition | rtspproxy/stream.go:200-228 | a transition happens if and only if the table allows it, a refused one changes nothing, and the object invariant is kept |
| Lifecycle.EventKeepsInv | rtspproxy/stream.go:382-517 | every step of the loop and every call that interleaves with it keeps the invariant |
| Lifecycle.LifecycleSafety | rtspproxy/stream.go:137-228 | in every reachable state at most one loop runs, Ready is not entered, the signal channels are open or closed as the state says, each generation was closed at most once and every superseded one is closed |
| Lifecycle.StateChanges | rtspproxy/stream.go:200-228 | in every step of every run Destroyed is not left and Playing is entered only from Connecting |
| LifecycleCalls.TableByTarget | rtspproxy/stream.go:207-219 | from which states each state may be entered |
| LifecycleCalls.SignalsStayClosed | rtspproxy/stream.go:137-198 | in every step of every run a closed signal stays closed and generations are only added |
| LifecycleCalls.StartConnects | rtspproxy/stream.go:270-284 | `Start` makes a disconnected stream Connecting with two fresh open signals and all older ones closed, and does nothing otherwise |
| LifecycleCalls.StopStops | rtspproxy/stream.go:322-344 | which states `Stop` begins and ends in, and that it changes nothing else |
| LifecycleCalls.DestroyDestroys | rtspproxy/stream.go:347-349 | after `Destroy` has marked it every stream is Destroyed with every waiter released |
| LifecycleCalls.SdpReleases | rtspproxy/stream.go:535-542 | when the description is there all who wait for it are released, and nothing else happens |
| LifecycleCalls.ClientsCounted | rtspproxy/stream.go:231-267 | the number of clients is those that came less those that left since the last destruction |
| LifecycleCalls.BroughtUpIff | rtspproxy/stream.go:245-295 | in every run that ends in Disconnected, a client or `Start` leaves a running loop; with the context not cancelled the loop alone can reach Playing if and only if there was no loop or it is not too late for it |
| LifecycleCalls.ClientComesTooLate | rtspproxy/stream.go:286-289 | a run after which a client arrives while the stopped loop is about to end, and is left without a stream |
| LifecycleCalls.CancelledLoopEnds | rtspproxy/stream.go:386-391 | after a cancellation the loop takes at most eleven more steps, whatever else is called, and can always take the next, so that the wait in `Destroy` ends |
| LifecycleCalls.StoppedLoopLeaves | rtspproxy/stream.go:393-399 | a loop that looks at a stream being stopped or destroyed ends, and without a new start the stream does not connect again |
| LifecycleCalls.GivingUpDisconnects | rtspproxy/stream.go:423-427 | a loop that gives up while its stream is being stopped leaves it Disconnected |
| Lifecycle.AbandonedIff | rtspproxy/stream.go:270-344 | in every run an active state loses its loop exactly when the loop takes its last step in that state, and an abandoned stream is freed exactly by the beginning of `Stop`, by `Destroy`, or by an older `Stop` ending in Reconnecting |
| Lifecycle.KeepsItsLoopIff | rtspproxy/stream.go:382-517 | with a client there and the server up: in every continuation without stops, cancellation and unresolvable names every active state has a loop behind it, if and only if the state is not doomed |
| Lifecycle.ConnectingAbandoned | rtspproxy/stream.go:492-501 | a run to Connecting without a loop: a failed first dial |
| Lifecycle.PlayingAbandoned | rtspproxy/stream.go:469-472 | a run to Playing without a loop: the read loop ends cleanly at shutdown |
| Lifecycle.ReconnectingAbandoned | rtspproxy/stream.go:507-509 | a run to Reconnecting without a loop: shutdown during the backoff |
| Lifecycle.StaysDisconnectedIff | rtspproxy/stream.go:382-517 | a disconnected stream that nobody starts and no client joins stays off in every continuation if and only if no loop is left that may return |
| Lifecycle.StoppedLoopReturns | rtspproxy/stream.go:457-468 | a run in which the loop connects again after `Stop` has completed |
| Remote.Remote.constructor | rtspproxy/remote.go:36-57 | a new remote has no connection, no nonce and counters at zero, and satisfies the object invariant |
| Remote.Remote.DialLocked | rtspproxy/remote.go:534-561 | a successful dial opens a new connection with CSeq at zero, a failed one changes nothing |
| Remote.Remote.DisconnectLocked | rtspproxy/remote.go:618-630 | an open connection is dropped with nonce, nonce count, queue and CSeq cleared |
| Remote.Remote.HandleAuthenticationFailure | rtspproxy/remote.go:632-660 | which challenges are accepted, and what each installs |
| Remote.Remote.CreateAuthenticator | rtspproxy/remote.go:662-687 | the nonce count advances, modulo 2^32, exactly when a digest response with qop=auth is computed, and the header carries it |
| Remote.Remote.SendRequest | rtspproxy/remote.go:505-532 | dial where needed, next CSeq, authenticate, write; a failed write drops the connection; the object invariant, that all CSeq values and nonce counts so far are right, is kept |
| Remote.Remote.SendBinary | rtspproxy/remote.go:580-615 | an open connection gets exactly the encoded frame, a failure of either write drops it, and the object invariant is kept |
| Remote.Remote.ClearNonce | rtspproxy/remote.go:482-486 | the reaction to a first timeout clears nonce and count |
| Remote.CSeqCountsUp | rtspproxy/remote.go:505-561 | on every connection of every run the CSeq values written are exactly 1, 2, 3, ... in order |
| RemoteWire.CountsOnTheWire | rtspproxy/remote.go:662-687 | in every run the nonce counts the requests carry, over all connections in writing order, are those used with the first nonce, then with the second, and so on |
| RemoteWire.NonceCountsUpIff | rtspproxy/digest.go:59-69 | the counts written with one installed nonce follow each other as 1, 2, 3, ... modulo 2^32, and without wrap if and only if there are fewer than 2^32 |
| RemoteWire.NonceCountWraps | rtspproxy/digest.go:59-69 | a run of one challenge and 2^32 requests in which they wrap |
| RemoteWire.ChallengeIsAnswered | rtspproxy/remote.go:632-687 | in every run each request after a challenge carries the answer to it, with the camera's realm and nonce and the next count, until another accepted challenge, a timeout or the end of the connection |
| RemoteWire.NonceIsForgotten | rtspproxy/remote.go:618-630 | after the end of a connection or a timeout no request uses the nonce, until the next challenge; with the connection the queue is emptied, and holds what was queued since |
| RemoteWire.NothingUnasked | rtspproxy/remote.go:662-665 | without credentials or before any challenge no request carries any |
| RemoteWire.DataIsFramed | rtspproxy/remote.go:580-615 | in every run binary data is written behind everything else as `$`, channel byte, length modulo 2^16 and the data |
| RequestEngine.RemoveRequest | rtspproxy/remote.go:453-458 | the loop removes the first element of the request |
| RequestEngine.RemoveElement | rtspproxy/remote.go:148-155 | the loop removes the handled element and tells whether it was still there |
| RequestSafety.EventKeepsInv | rtspproxy/remote.go:93-170 | every step of any caller and of the handler keeps queue, handler, notes and counts in order |
| RequestSafety.RunInv | rtspproxy/remote.go:435-501 | so does every run |
| RequestSafety.AtMostFourSends | rtspproxy/remote.go:435-501 | in every run one call writes its request at most twice itself and at most twice by resends |
| RequestSafety.NeverQueuedTwice | rtspproxy/remote.go:446-448 | no call is queued twice at the same time |
| RequestSafety.LeftQueuedOnlyByStaleNote | rtspproxy/remote.go:146-169 | a call that returned without being aborted is still queued only if its second attempt was woken by the removal of its first attempt's element |
| RequestOutcomes.ReturnedWasHeard | rtspproxy/remote.go:108-144 | in every run a call that returned with an outcome had a response handled for it whose code means just that |
| RequestOutcomes.WaitsForWritten | rtspproxy/remote.go:450-462 | in every run a caller waits only for a request that was written, once in each attempt |
| RequestOutcomes.FailedSendReturns | rtspproxy/remote.go:450-460 | a call whose dial or write fails returns the failure with its next step, whatever happens before |
| RequestOutcomes.AbortedIsAborted | rtspproxy/remote.go:464-470 | a call aborted by shutdown or destruction is aborted for good, with or without an outcome; otherwise it returns what its note says |
| RequestOutcomes.FirstNoteStays | rtspproxy/remote.go:156-168 | the first outcome sent to a caller is not replaced by a later one |
| RequestOutcomes.EndEmpties | rtspproxy/remote.go:618-630 | when the connection ends, and only then, queue and wire are emptied as a whole |
| RequestOutcomes.LeavesQueueOnly | rtspproxy/remote.go:146-155 | a request leaves the queue only with the connection, by its own caller, or by the handler with an outcome |
| RequestOutcomes.LostCallTimesOut | rtspproxy/remote.go:472-494 | in every run a call that waits when the connection ends does not return before its timeout, whatever follows |
| RequestRaces.LeftQueuedIff | rtspproxy/remote.go:146-169 | at the start of a second attempt some continuation returns with the request queued if and only if the handler has just removed the first attempt's element and not notified yet |
| RequestRaces.StaleNoteReachable | rtspproxy/remote.go:473-488 | a run that reaches that moment |
| RequestRaces.FourSendsReached | rtspproxy/remote.go:113-121 | a run in which one call writes four times |
| RequestLockstep.AnswersMatch | rtspproxy/remote.go:100-121 | with one call at a time, no failure and in-order answers, every response, also after a resend, is handled for the call it answers and none is dropped |
| RequestTuning.MatchesIff | rtspproxy/remote.go:93-170 | after any run without failures, with any number of callers: all responses of all continuations in which no further call begins are handled for the calls they answer if and only if the requests are in tune, that is, on the wire in queue order, at most one yet to be written and in its turn, and none but the last one yet to be resent |
| RequestLockstep.CallersAreTold | rtspproxy/remote.go:146-169 | then every call returns with the outcome of its own response and leaves queue, wire and handler empty; it is an error if and only if the last response to it had a code of 400 or more and was not a first 401, unauthorized if and only if that was a first 401 whose challenge cannot be met, and success otherwise |
| RequestLockstep.NeverStuck | rtspproxy/ipc.go:29-43 | and while a call is in progress some step of it, of the handler or of the camera is possible |
| RequestLockstep.TwoCallersMismatch | rtspproxy/remote.go:446-450 | a run with two callers and no failure in which a response is handled for the wrong call |
| ClientFrames.ClientReader.constructor | rtspproxy/client.go:122-123 | the reader starts with an empty buffer of 65536 bytes |
| ClientFrames.ClientReader.Read | rtspproxy/client.go:132-144 | a read appends what the socket gives and the buffer can take |
| ClientFrames.ClientReader.Shift | rtspproxy/client.go:198 | the in-place copy keeps exactly the bytes behind the frame |
| ClientFrames.ClientReader.Serve | rtspproxy/client.go:125-223 | the nested loops equal a flat machine that hands on at most one item per read |
| ClientFrames.ServedConserves | rtspproxy/client.go:149-198 | no byte a client sends is lost, duplicated or moved, whatever the reads |
| ClientFrames.FramesInOrder | rtspproxy/client.go:149-217 | what goes upstream is, for every schedule, a prefix of the frames sent, the rest being held or unread |
| ClientFrames.ForwardedIff | rtspproxy/client.go:175-194 | some schedule hands a frame on if and only if it fits the buffer |
| ClientFrames.ArrivedFrameGoesOn | rtspproxy/client.go:149-217 | every schedule with which all bytes of a frame arrive hands it on |
| ClientFrames.HeldFramesGoOn | rtspproxy/client.go:149-217 | frames that are held go upstream one by one with the following reads, whatever these bring |
| ClientFrames.ArrivedFramesGoOn | rtspproxy/client.go:149-217 | once the bytes of n frames have arrived, as many reads as there are frames left hand on all of them |
| Channels.ReverseLookup | rtspproxy/client.go:205-213 | the loop finds the first channel in the iteration order that is mapped to the client's, else keeps the number |
| Channels.AnswersIff | rtspproxy/client.go:205-213 | the answers some iteration order gives are exactly the mapped channels, or the number itself if there are none |
| Channels.StampedIsFrame | rtspproxy/stream.go:730-732 | rewriting the channel byte of a frame gives the frame of the new channel |
| Channels.TransparentIff | rtspproxy/stream.go:848-854 | a frame on a mapped channel comes back from the client unchanged, for every iteration order, if and only if the map is consistent there |
| Channels.AllTransparentIff | rtspproxy/client.go:171-217 | for byte-sized channel numbers all are transparent if and only if the map is injective |
| Channels.SharedChannelIsOpaque | rtspproxy/client.go:205-213 | a map with two upstream channels on one client channel that is not transparent |
| Channels.ClientFrameUpstream | rtspproxy/client.go:171-217 | the i-th frame handed on is the i-th frame sent with only the channel byte replaced, by a channel mapped to the client's if there is one |
| StreamManager.Manager.constructor | rtspproxy/stream_manager.go:17-24 | a new manager has no streams and a zero gauge, and satisfies the object invariant |
| StreamManager.Manager.GetStream | rtspproxy/stream_manager.go:55-74 | a known key gives its stream and changes nothing, a new one makes and counts a stream; the object invariant, that keys, gauge and map agree, is kept |
| StreamManager.Manager.RemoveStream | rtspproxy/stream_manager.go:77-81 | the stream's key, and no other, leaves the map, and the object invariant is kept |
| StreamManager.Manager.CountDown | rtspproxy/stream_manager.go:68 | the gauge goes down by one |
| StreamManager.KeyUniqueIff | rtspproxy/stream_manager.go:59-60 | no other identity has the same key if and only if user name and password have no colon and password, host and path no at-sign |
| StreamManager.KeysCollide | rtspproxy/stream_manager.go:59-60 | two identities with one key |
| StreamManager.KeyInjective | rtspproxy/stream_manager.go:59-60 | identities whose user names have no colon and whose passwords have no at-sign have equal keys only if all parts are equal |
| StreamManager.GaugeIff | rtspproxy/stream_manager.go:66-72 | in every run the gauge is the map's size plus callbacks under way minus removals that found nothing; it is right between callbacks if and only if there were none, as when no stream is destroyed twice |
| StreamManager.SharedIff | rtspproxy/stream_manager.go:55-74 | while no stream is destroyed twice a lookup gets a live stream if and only if it asks for that stream's identity, for user names without a colon and passwords without an at-sign |
| StreamManager.SharedUnambiguousIff | rtspproxy/stream_manager.go:55-74 | the same against any identity whatever, if the stream's own is unambiguous |
| StreamManager.LiveKeysDiffer | rtspproxy/stream.go:376-378 | no two live streams have the same key |
| StreamManager.TwiceDestroyedSplits | rtspproxy/stream.go:376-378 | a run in which destroying a stream twice leaves two live streams for one identity |
| StreamManager.TwiceDestroyedMiscounts | rtspproxy/stream_manager.go:66-69 | a run in which it leaves the gauge at -1 |

## Left out

- Sockets, deadlines, dialling and real time: reads are arbitrary chunks, timeouts and failures arbitrary choices.
- Partial socket writes: a write of a request or a frame part succeeds as a whole or drops the connection.
- `Request.ParseCommand` and URL handling: they rest on regular expressions and a URL library.
- `ParseAuthorizationHeader` and `ParseWWWAuthenticate`: a challenge is an already parsed record.
- MD5, base64, random nonces, and the text of the Authorization header: foreign functions; the header is modelled by its user, realm, nonce, qop and count, without the fields opaque and algorithm.
- The Authorization header a request keeps from an earlier send where none is computed for a later one: only headers computed for the send are modelled.
- What a client's request text means: the reader model hands it on as one item and goes on, while the code ends the connection when it does not parse.
- Keep-alive goroutines of upstream sessions, SETUP and PLAY handlers, transport parsing, SDP rewriting, bitrate, metrics output, logging and configuration: the model has no media sessions, no metrics and fixed settings.
- The fan-out, the lifecycle calls and the request engine are step systems over values, because what matters there is the interleaving; aliasing is modelled only for pooled buffers, through a heap of numbered buffers.
- The garbage collector emptying the buffer pool is an event that forgets a pooled buffer; the pool's other internals are not modelled.
- Memory-model effects of the unsynchronised accesses to a request's Attempts and Subscriptions fields: each access is one step.
- Unicode beyond ASCII in trimming and case folding.
- FanoutTheorems.NoClosedChannel: is about a proxy that destroys a stream only after its clients have ended, as the server's shutdown does; the other case is `Eviction.EvictionIff`.
- Other streams at the same buffer pool appear in `Fanout` as one holder that takes, writes and returns buffers of its own; that a stream behaves so is what `ExclusiveOwnership` says of it.
- A queue of capacity zero, and buffers too short for a frame header: `Eviction.EvictionIff` and `Eviction.EvictionPanics` are about queues that can hold a packet and buffers of at least four bytes.
- Fairness of the scheduler: `FanoutProgress.RemovalEnds` says that the wait can always end, not that the goroutines are scheduled.
- Remote.CSeqCountsUp: does not model overflow of the CSeq counter, which would take 2^63 requests on one connection.
