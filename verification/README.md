# RigControlNative: a verified model

RigControlNative mirrors an Android screen to a desktop. `rc-server` runs on the device, `libcore` and a
GTK front-end on the desktop, and `rc-agent` relays devices plugged into another machine. This project
models the parts of it where something can silently go wrong between two programs, two threads or two
attempts, and proves what must hold over every input, every interleaving and every outcome of the
outside world. `dafny verify dfyconfig.toml` checks all of it.

| file | models |
|---|---|
| `Bytes.dfy`, `Sockets.dfy` | big-endian numbers; sockets as byte sequences with arbitrary fragmentation, interruption and errors |
| `PacketStream.dfy`, `Meta.dfy`, `Control.dfy` | the three wire formats, each writer against its reader in the other language |
| `Relay.dfy`, `GroupLock.dfy` | the relay engine of rc-agent: replay on reconnect, and the per-port lock protocol |
| `Mailbox.dfy` | the single-slot frame mailbox between the decoder thread and the UI thread |
| `DecodeLoop.dfy` | the video loop with cached configuration and decoder replacement |
| `Deploy.dfy`, `Channels.dfy` | deployment with fallback, start and stop, and which connection is which channel |
| `AgentTables.dfy`, `Discovery.dfy` | rc-agent's slots, listeners and forwards; the discovery text and its parser |
| `Sessions.dfy`, `Routing.dfy` | the desktop's port allocators; the way of a session through the agent into the device |
| `Geometry.dfy`, `Keys.dfy` | pointer coordinates and encode sizes; the key bitmap |
| `Text.dfy` | C's decimal printing and parsing, words and splitting |

How the outside is modelled. Sockets are byte sequences. Time is an integer that never decreases.
Calls whose outcome the program cannot know (adb, connect, accept, poll, read, decode, bind) take their
outcome from a script that is an arbitrary parameter, so a statement about the end of every script is
a statement about every moment of every run. Threads are state machines with one step for each action
another thread can observe. Integers are unbounded where the source cannot reach its width, and written
out where it can (`MaskPts`, `Times`, `Bound`, the fields of the meta records).

## What the code does not promise

Some properties one would expect are false of the code. The code is modelled as it is, and the exact
condition is proved.

- A LAN token can be left over on the tunnel path: `Deploy.Client.DeployServer` says exactly when, from
  what is known before the call, and `Deploy.StaleToken` is a run where it happens.
- Shutdown can leave adb forwards behind. A call that is killed at its timeout may have created its
  forward, and the table never learns of it: `AgentTables.Agent.CleanupForwards` says exactly when
  (no such call without a success for the same forward), `AgentTables.LeavesBehind` is a run.
- Bytes of a rejected upstream can reach the client: exactly those that a failing write to the client
  still took (`Relay.Connection.OpenUpstream`, and `Relay.Leak` for a run with one).
- The comment on `stream_open_upstream` promises at most 10 s. The branch of a failed replay write
  (`frontends/agent/net.c:130-133`) goes on without looking at the deadline. What holds is that an
  attempt begins 200 ms or more after the deadline only behind such a failure: `Relay.Connection.OpenUpstream`,
  and `Relay.Late` for a run with one.
- A token that arrives after the server's 5 s lets the next channel take its place: `Channels.LateVideoShifts`,
  with the exact condition in `Channels.AgreementIff`. Such a server never gets all its channels
  (`Channels.CompleteMeansAgreed`).
- Without a token a stranger can take a channel: `Channels.NoTokenAgreementIff`, `Channels.StrangerTakesVideo`.
- A frame whose size is not positive stays pending for ever: `Mailbox.LastFrameOnScreen`, `Mailbox.EmptyFrameStaysPending`.
  One whose planes have no rows, as a padded frame of height 0 or 1, aborts the process in the copy:
  `Mailbox.NeverAborts`, `Mailbox.BadFrameAborts`, `Mailbox.NoRowsFit`.
- `--adb-base` and `--port` can be chosen so that ports collide, also by exceeding 16 bits:
  `Routing.NoCollisionIff`, `Routing.WrappedBase`, and a misrouting run in `Routing.CollisionMisroutes`.
- Discovery lines with an adb port that is not positive are dropped by the desktop: `Discovery.RoundTrip`.
- The listener table can be too small: exactly when addresses times (1 + 5 times the devices) exceed 128,
  if nothing fails (`AgentTables.Run`; `AgentTables.TableFills` for four or more addresses).
- A click on the Back button while Escape is held leaves the bitmap and the device out of step:
  `Keys.BackClicksIff`, `Keys.BackDuringEscape`.
- `computeVideoSize` loses the size exactly when its product exceeds an int, for sides up to 2^28:
  `Geometry.VideoSizeIff`, `Geometry.VideoSizeOverflows`.

## Model

| member | source | states |
|---|---|---|
| Sockets.ReadFull | core/src/net.c:16-29 | Over any fragmentation and interruption the buffer receives exactly the next `len` bytes of the stream and nothing before it moves; an error on a socket without hard errors means the stream was too short |
| Sockets.WriteFull | core/src/net.c:31-43 | What goes out is always a prefix of the data, all of it exactly when the call succeeds |
| PacketStream.WritePacket | server/src/main/java/com/rigcontrol/server/ScreenEncoder.java:301-315 | The header is filled in place without touching the payload, and the bytes written are the packet's encoding (a prefix of it on error), pts cut to 62 bits |
| PacketStream.ReadPacket | core/src/demuxer.c:54-80 | Over any fragmentation one read is one pure demuxing step: packet, malformed length or short stream; the buffer is regrown when too small |
| PacketStream.ReadAll | core/src/demuxer.c:54-80 | Reading a whole stream in a loop gives the pure demuxing of the stream, with the reason it ended |
| PacketStream.MaskPts | server/src/main/java/com/rigcontrol/server/ScreenEncoder.java:303 | A timestamp survives the mask exactly when it is between 0 and 2^62 - 1 |
| PacketStream.DemuxEncode | server/src/main/java/com/rigcontrol/server/ScreenEncoder.java:301-315 | One encoded packet followed by anything is demuxed to that packet and leaves what follows |
| PacketStream.DemuxRefuses | core/src/demuxer.c:67 | A packet of length 0 or above 32 MiB is refused whatever follows |
| PacketStream.RoundTrip | core/src/demuxer.c:54-80 | Any sequence of packets with length 1 to 32 MiB and pts below 2^62, followed by anything, is demuxed to the same packets and flags |
| PacketStream.RoundTripIff | core/src/demuxer.c:54-80 | A stream round-trips if and only if every packet in it has an admissible length |
| PacketStream.Truncation | core/src/demuxer.c:54-80 | Cutting a stream at any byte yields exactly the complete packets and then an error |
| PacketStream.CompleteIsMaximal | core/src/demuxer.c:54-80 | The count of complete packets used by Truncation is the largest number that fits in the bytes left |
| Meta.ReadDeviceMeta | core/src/demuxer.c:21-37 | Reads 78 bytes over any fragmentation and agrees with the pure decoder on success, wrong magic and short stream |
| Meta.ReadAudioMeta | core/src/demuxer.c:39-52 | The same for the 13-byte audio record |
| Meta.DeviceMetaRoundTrip | server/src/main/java/com/rigcontrol/server/DesktopConnection.java:165-178 | The reader recovers every field the writer stored, truncated to its width, and leaves the rest of the stream untouched |
| Meta.AudioMetaRoundTrip | server/src/main/java/com/rigcontrol/server/DesktopConnection.java:180-190 | The same for audio_meta |
| Meta.NameSurvives | server/src/main/java/com/rigcontrol/server/DesktopConnection.java:174-175 | A device name without NUL bytes survives if and only if it is at most 63 bytes long |
| Meta.NameKept | server/src/main/java/com/rigcontrol/server/DesktopConnection.java:165-178 | Of any name the first 63 bytes are kept, followed by a NUL |
| Meta.Magics | server/src/main/java/com/rigcontrol/server/DesktopConnection.java:165-190 | The two records start with the magic bytes of the protocol, written out |
| Control.Channel.Send | core/src/control_msg.c:4-9 | All bytes go out exactly on success, a proper prefix otherwise; refused without a byte when control is off or not connected |
| Control.Channel.SendMouseMotion | core/src/client.c:378-386 | Sends the encoding of a motion message, all of it on success and a proper prefix otherwise |
| Control.Channel.SendMouseButton | core/src/client.c:388-399 | The same for a button message |
| Control.Channel.SendScroll | core/src/client.c:401-410 | The same for a scroll message |
| Control.Channel.SendKey | core/src/client.c:412-422 | The same for a key message |
| Control.Channel.SendText | core/src/client.c:424-436 | The same for text; text above 2^20 bytes is refused and nothing is sent |
| Control.Channel.SendDeviceAction | core/src/client.c:444-450 | The same for a device action |
| Control.PutU32 | core/src/client.c:366-371 | Four big-endian bytes at an offset, everything before it unchanged |
| Control.Dispatch | server/src/main/java/com/rigcontrol/server/ControlReceiver.java:66-124 | Over any fragmentation takes exactly one message off the stream as the pure parser does, and injects exactly its events |
| Control.Receive | server/src/main/java/com/rigcontrol/server/ControlReceiver.java:47-64 | The receiver's loop injects exactly the events of the messages that the whole stream parses to, in order, and stops for the parser's reason |
| Control.EventsMean | server/src/main/java/com/rigcontrol/server/ControlReceiver.java:66-124 | A press of the left button is a touch down at its point, its release a touch up there, a motion a touch move exactly while the left bit is set, other buttons nothing; scrolls, keys, text and actions are injected with their own fields |
| Control.ParseEncode | server/src/main/java/com/rigcontrol/server/ControlReceiver.java:66-124 | One encoded message is parsed back and leaves the rest of the stream untouched |
| Control.RoundTrip | server/src/main/java/com/rigcontrol/server/ControlReceiver.java:47-124 | Any sequence of sendable messages is parsed back to the same sequence with no byte left over |
| Control.RefusalsAgree | core/src/client.c:426-427 | The texts the client refuses to send are exactly those whose length the receiver would refuse |
| Control.SentIsDone | server/src/main/java/com/rigcontrol/server/ControlReceiver.java:47-124 | From the desktop to the device: what the receiver injects for the bytes of any sequence of sendable messages is what each message means, in order |
| Relay.Connection.Settle | frontends/agent/net.c:134-166 | The verdict loop: a confirmed upstream has received exactly what the client sent and was confirmed by data or by 300 ms having passed; a dropped one said nothing; giving up has one of the listed reasons; every readiness poll reports is read, the client's when it is reported alone |
| Relay.Connection.HearUpstream | frontends/agent/net.c:150-156 | The first bytes of an upstream confirm it and all reach the client, its end of file drops it |
| Relay.Connection.HearClient | frontends/agent/net.c:157-166 | A client chunk is forwarded and kept for replay, or the connection is hopeless |
| Relay.Connection.Remember | frontends/agent/net.c:163-164 | The replay buffer grows by exactly the bytes read, within 4096 |
| Relay.Connection.Attempt | frontends/agent/net.c:130-177 | One upstream: the replay, then the verdict; any upstream not confirmed is closed and, unless given up, nothing of it reached the client |
| Relay.Connection.OpenUpstream | frontends/agent/net.c:111-185 | For every pattern of connect failures, early ends of file and client chunks, the accepted upstream has received exactly all bytes read from the client so far, once and in order; without one, the client has received exactly the bytes a failing write to it still took, and for every script of connect, readable, data, failing write that is the part of the data the write took; an attempt begins 200 ms or more after the deadline only behind a failed replay write, and for every script with a slow failing replay one does |
| Relay.Connection.TryOnce | frontends/agent/net.c:115-184 | One attempt and the wait before the next: accepted, given up for a reason, waited within 200 ms of the deadline, or its replay write failed |
| Relay.Leak | frontends/agent/net.c:150-155 | A concrete run in which a rejected upstream has one of its bytes reach the client |
| Relay.Late | frontends/agent/net.c:130-133 | A concrete run whose third attempt begins twenty seconds after the first |
| Relay.Connection.PumpClient | frontends/agent/net.c:95-103 | One chunk from the client is delivered whole or its delivery failed |
| Relay.Connection.PumpUp | frontends/agent/net.c:95-102 | One chunk from the upstream likewise |
| Relay.Connection.PumpRound | frontends/agent/net.c:94-104 | After one poll, both directions stay exact unless a write failed; what was reported is read, and it goes on exactly while no end was seen and no write failed |
| Relay.Connection.Pump | frontends/agent/net.c:86-106 | What is delivered each way is always a prefix of what was read, and all of it with exact byte counters unless a write failed; it stops only for an end, an error or the stop flag, and no report but the last is left unread |
| Relay.Connection.Serve | frontends/agent/net.c:187-228 | Over the whole life of a connection every upstream ever opened received a prefix of what the client sent, only the newest was ever heard, and both ends are closed. A relayed connection was relayed whole both ways unless a write failed; on a stream port its upstream had been heard or 300 ms had passed; a stream connection that was not relayed was stopped, timed out or hopeless; a transparent one is relayed exactly if its single connect succeeds |
| GroupLock.StepInv | frontends/agent/net.c:198-216 | Every step of every thread keeps: the mutex has the owner the program counters say, busy is raised exactly while one thread is inside, a sleeper on a free group has a broadcast coming |
| GroupLock.RunInv | frontends/agent/net.c:198-216 | The invariant holds after every run from a state that has it |
| GroupLock.MutualExclusion | frontends/agent/net.c:198-216 | In every interleaving of any number of threads at most one is opening an upstream, and busy is raised exactly while one thread is between claiming the group and clearing it |
| GroupLock.OpenedOnce | frontends/agent/net.c:198-216 | In every interleaving each thread has opened an upstream exactly once when it is through with the group |
| GroupLock.RunStepDecreases | frontends/agent/net.c:198-216 | Every thread action lowers a lexicographic measure, so the protocol cannot spin |
| GroupLock.NeverStuck | frontends/agent/net.c:198-216 | While some thread is not through, some thread can act |
| GroupLock.AllGetThrough | frontends/agent/net.c:198-216 | From every reachable state there is a schedule that brings every thread through |
| GroupLock.MaximalRunsFinish | frontends/agent/net.c:198-216 | A run that cannot be continued has every thread through: no waiter sleeps for ever on a free group |
| Mailbox.StepInv | frontends/gtk/render.c:189-217 | Every step of the core and UI threads keeps the mailbox invariant: lock owner, one trigger while the flag is up, whole slot, frames shown once and in order, whole texture, no lost wake-up |
| Mailbox.RunInv | frontends/gtk/render.c:323-358 | The invariant holds after every run |
| Mailbox.NoFrameIsForgotten | frontends/gtk/render.c:268-273 | In every interleaving a pending frame has a producer about to schedule, a trigger queued or running, or a redraw coming; at most one trigger waits in the queue |
| Mailbox.UploadsNewest | frontends/gtk/render.c:197-217 | Every upload puts exactly the newest stored frame on screen, whole, and no frame twice |
| Mailbox.LastFrameOnScreen | frontends/gtk/render.c:189-358 | At rest every frame the decoder delivered in a supported format is stored, in order; the last one is on screen and the window is fitted to its size; it stays pending if and only if its size is not positive |
| Mailbox.InternalStepsEnd | frontends/gtk/render.c:323-358 | Each internal action lowers the remaining work |
| Mailbox.NeverStuck | frontends/gtk/render.c:323-358 | Unless everything is at rest some internal action is enabled |
| Mailbox.MaximalRunsShowLastFrame | frontends/gtk/render.c:189-358 | Every run the threads cannot continue has the last frame delivered on screen |
| Mailbox.FlowRun | frontends/gtk/render.c:323-345 | Over every run the frames delivered are the frames stored, in order, and the one on its way |
| Mailbox.WindowRun | frontends/gtk/render.c:280-309 | Over every run the window is fitted to the size in the slot, or a resize is under way |
| Mailbox.TornDownHandsOff | frontends/gtk/render.c:268-282 | After a teardown whatever is still queued neither redraws nor resizes the window |
| Mailbox.EmptyFrameStaysPending | frontends/gtk/render.c:197-217 | A concrete run in which a frame without width stays pending for ever |
| Mailbox.NeverAborts | frontends/gtk/render.c:312-320 | If only frames whose planes can be copied are delivered the process never aborts in the copy |
| Mailbox.BadFrameAborts | frontends/gtk/render.c:312-320 | Any other frame, delivered while the lock is free, has a run that aborts |
| Mailbox.NoRowsFit | frontends/gtk/render.c:313 | A plane without rows, as a frame of height 0 or 1 has, can be copied if and only if it is not padded |
| Mailbox.RowsFit | frontends/gtk/render.c:313 | A plane with at least one row, as every frame of height 2 or more has, can always be copied |
| DecodeLoop.Run | core/src/client.c:128-201 | Whatever the fragmentation and the decoders' behaviour, the feeds are those a pure fold over the packets gives, each decoder itself received exactly its share of them, the packets are a prefix of the demuxed stream (all of it if the loop ended with the stream), the outcome of each picture is the answer its current decoder logged for that feed, and the swap is at the one picture refused with the hardware path in use |
| DecodeLoop.Loop.OnPacket | core/src/client.c:138-193 | One iteration keeps the refinement: cached configuration, glue flag, current decoder and feeds agree with the packets so far |
| DecodeLoop.Loop.Fetch | core/src/client.c:142-147 | The next packet in the reused buffer is the next packet of the demuxed stream |
| DecodeLoop.Loop.OnConfig | core/src/client.c:148-155 | A configuration packet is copied aside, becomes the newest one and feeds nothing |
| DecodeLoop.Loop.Payload | core/src/client.c:157-164 | A picture is glued to a configuration exactly when one arrived since the previous picture |
| DecodeLoop.Loop.OnPicture | core/src/client.c:157-192 | A picture is fed once to the current decoder and its outcome is that decoder's own logged answer; a refusal with the hardware path in use replaces it, and nothing else does, at most once |
| DecodeLoop.Loop.Give | core/src/client.c:167-168 | One call of the current decoder; the log stays what the two decoders received |
| DecodeLoop.Loop.SwapDecoder | core/src/client.c:173-188 | The replacement is primed with the newest configuration and the refused picture |
| DecodeLoop.Merge | core/src/client.c:159-162 | The merge buffer holds configuration then packet, also when it is regrown |
| DecodeLoop.OncePerPicture | core/src/client.c:128-201 | Each picture is fed exactly once to the decoder current on its arrival, in order; the only other feed primes the replacement directly after the failing one |
| DecodeLoop.BeforeSwap | core/src/client.c:128-201 | Without a swap the feeds are exactly one per picture, in order |
| DecodeLoop.PicturesExact | core/src/client.c:148-155 | The list of pictures used there holds exactly the non-configuration packets, increasing |
| DecodeLoop.PrefixIsLatest | core/src/client.c:157-165 | A picture is prefixed by the newest configuration exactly when one arrived since the previous picture |
| Deploy.ParseAddr | core/src/server_deploy.c:153-169 | An accepted address has a host of fewer than 128 characters and a positive port |
| Deploy.ParseAddrWithPort | core/src/server_deploy.c:153-164 | The host is all before the last colon and must have 1 to 127 characters; the port is what follows, 27183 if that is not positive; otherwise refused |
| Deploy.ParseAddrPlain | core/src/server_deploy.c:164-168 | Without a colon it is all host, port 27183, refused if empty or longer than 127 |
| Deploy.Store | core/src/server_deploy.c:198-211 | Storing a new handle in an empty field keeps the books balanced |
| Deploy.Drop | core/src/server_deploy.c:405-429 | What a field names is open; closing it once and clearing the field keeps the books balanced |
| Deploy.Passing | core/src/server_deploy.c:309-311 | A handle opened and closed again without being stored keeps the books balanced |
| Deploy.AllGivenBack | core/src/server_deploy.c:405-432 | With all fields empty every handle ever opened has been closed exactly once |
| Deploy.Client.ServerDied | core/src/server_deploy.c:78-86 | The process is reported dead exactly if there is one and it has exited; it is then reaped once and its field cleared |
| Deploy.Client.WaitCancelled | core/src/server_deploy.c:88-90 | Waiting is cancelled exactly by an abort, earlier or just now, or by a server process that has exited |
| Deploy.Client.AcceptTimeout | core/src/server_deploy.c:94-102 | A channel field is filled within 150 slices of 100 ms by a handle newer than all before; it is left empty only for an abort, an exited server, a failed call or exactly 150 silent slices; nothing leaks |
| Deploy.Client.ConnectRetry | core/src/server_deploy.c:254-284 | A channel field is filled and the token, if there is one, recorded as sent on that socket; it is left empty only for an abort, an exited server, the whole budget spent or a token that could not be sent, and then the socket is closed |
| Deploy.Client.Greet | core/src/server_deploy.c:264-273 | A connected socket is kept exactly if no token is due or the token went out on it, and closed otherwise |
| Deploy.Client.ReadMetaTimeout | core/src/server_deploy.c:108-134 | Success means meta with the right magic from this video socket; a wrong magic is a protocol error; a connection error means an abort, an exited server, a failed call or exactly 120 silent slices of 100 ms |
| Deploy.Client.Push | core/src/server_deploy.c:171-194 | Succeeds exactly if `adb connect`, where the serial is an address, and the push do; both were given to adb in this order, for this device |
| Deploy.Client.OpenTunnel | core/src/server_deploy.c:184-214 | Success means adb connect where needed, push, a listener, a reverse rule to that listener and a server process told neither port nor token, in this order; balanced after every outcome |
| Deploy.Client.AcceptChannels | core/src/server_deploy.c:216-232 | Video, audio and control are opened in this order, exactly those requested; failure has one of the reasons of a single accept |
| Deploy.Client.DeployUsb | core/src/server_deploy.c:184-242 | Balanced after every outcome; success is a coherent session whose route is the one its serial says and whose server was pushed and started for the tunnel, listener closed; a connection error means an abort, an exited server, a failed call or at least 12 s of silence, a protocol error a wrong magic |
| Deploy.Client.ConnectChannels | core/src/server_deploy.c:348-362 | The channels of the direct path, in order, exactly those requested, each with the token; a refused video channel spends its 3 s and ends the attempt |
| Deploy.Client.Probe | core/src/server_deploy.c:308-313 | The probe leaves nothing open and says whether the port is served |
| Deploy.Client.StartLanServer | core/src/server_deploy.c:322-339 | Succeeds exactly if push and spawn do; the server was then pushed and started with this client's token, on the configured device port if there is one, else on the very port the client connects to |
| Deploy.Client.TryLan | core/src/server_deploy.c:348-368 | The direct path counts as through only with all channels, the token on each, and a good meta from the video channel |
| Deploy.Client.FallBack | core/src/server_deploy.c:380-391 | The fallback gives back everything of the LAN attempt, wipes the token and deploys over the tunnel |
| Deploy.Client.Direct | core/src/server_deploy.c:322-398 | The LAN attempt and its fallback: coherent on success, the token wiped whenever it ends on the tunnel; with a server of its own a connection error without the tunnel means an abort; if the video channel is refused for its whole budget and all goes well afterwards it ends in a tunnel session; no failure without a failed call, success if every call goes well |
| Deploy.Client.DeployTcp | core/src/server_deploy.c:293-398 | Balanced after every outcome; success is coherent on whichever path was taken, with transport matching; an occupied port leads to the tunnel with the token as it was, any other way to the tunnel wipes it; invalid argument exactly for an unusable address; with a server of its own a connection error without the tunnel means an abort, and a session behind a firewall ends on the tunnel; any other failure has a failed call |
| Deploy.Client.DeployServer | core/src/server_deploy.c:400-403 | On the tunnel the token is the one from before if the tunnel was configured or the port was occupied at the probe, and none otherwise: both can be told before the call; with a server of its own a connection error without the tunnel means an abort, and a session behind a firewall ends on the tunnel; any failure but an unusable address has a failed call, and if every call goes well it succeeds |
| Deploy.Client.Teardown | core/src/server_deploy.c:405-432 | Afterwards no socket and no process is held; on the tunnel, and only there, the removal of the reverse rule is the one command given to adb |
| Deploy.Client.Launch | core/src/client.c:255-305 | A protocol error exactly for a wrong version or an unknown codec, a decode error exactly if the decoder, a general one exactly if the network thread cannot be created; success means both run, and the audio thread exactly if there is audio and it could be created; failure leaves none of them |
| Deploy.Client.Start | core/src/client.c:243-307 | A successful start is a coherent running session; a failed one leaves nothing open, every handle closed exactly once and no rule; it fails only for an unusable address, a failed call or a meta with the wrong version or codec, and succeeds if every call goes well; the token clause and the fallback clauses of the deployment |
| Deploy.Client.Stop | core/src/client.c:314-346 | Whatever happened before, all fields are empty, every handle was closed exactly once, no rule is left and the abort flag is up |
| Deploy.Client.Lifetime | core/src/client.c:243-346 | The same after any number of start and stop rounds with the threads acting in between |
| Deploy.StaleToken | core/src/server_deploy.c:308-338 | A concrete run: a first start makes a token and cannot start its server, a second one finds the port occupied and ends in a coherent tunnel session that still has that token |
| Channels.ReadToken | server/src/main/java/com/rigcontrol/server/DesktopConnection.java:93-101 | The token loop succeeds exactly when 32 bytes arrive before an end of file or timeout, and has then consumed exactly those |
| Channels.Server.Check | server/src/main/java/com/rigcontrol/server/DesktopConnection.java:82-108 | A connection is taken exactly when no token is required or its first 32 bytes arrive in time and are the token |
| Channels.Server.AcceptAuthed | server/src/main/java/com/rigcontrol/server/DesktopConnection.java:80-119 | The next channel is the first admitted connection of the queue, positioned just behind its token; all before it are closed |
| Channels.Server.OpenTcp | server/src/main/java/com/rigcontrol/server/DesktopConnection.java:51-71 | Video, audio and control are the first admitted connections in arrival order |
| Channels.OnlyOursAdmitted | server/src/main/java/com/rigcontrol/server/DesktopConnection.java:80-119 | With a token nobody else presents, exactly the client's own channels whose token is in time are admitted |
| Channels.OursInOrder | core/src/server_deploy.c:346-362 | The client's channels reach the queue in the order video, audio, control |
| Channels.OursCount | core/src/server_deploy.c:254-362 | As many channels arrive as the client connects, until all are open or a token is lost, after which it opens no more |
| Channels.AgreementIff | server/src/main/java/com/rigcontrol/server/DesktopConnection.java:51-119 | Whatever strangers and abandoned attempts lie in between, the server's channels are the client's if and only if no late token is followed by a timely one |
| Channels.CompleteMeansAgreed | server/src/main/java/com/rigcontrol/server/DesktopConnection.java:51-71 | Once the server has all its channels they are the client's, delays or not |
| Channels.TimelyMeansComplete | core/src/server_deploy.c:262-272 | If tokens are only fragmented, never late, the server admits every channel the client opened |
| Channels.NoTokenAgreementIff | server/src/main/java/com/rigcontrol/server/DesktopConnection.java:83-87 | Without a token the channels agree if and only if no foreign connection is among the first ones |
| Channels.StrangerTakesVideo | server/src/main/java/com/rigcontrol/server/DesktopConnection.java:83-87 | A concrete stranger that takes video from a server without a token |
| Channels.LateVideoShifts | server/src/main/java/com/rigcontrol/server/DesktopConnection.java:90-101 | A concrete late video token after which control is taken for video |
| Channels.Meet | server/src/main/java/com/rigcontrol/server/DesktopConnection.java:36-71 | Client, network and server together: a complete server has the client's channels, each with exactly 32 bytes consumed; with timely tokens it is complete exactly when the client opened all |
| AgentTables.DevicesOf | frontends/agent/adb.c:14-32 | At most `cap` devices, each a non-empty serial and a model that are words fitting their buffers |
| AgentTables.ListsDevice | frontends/agent/adb.c:20-30 | A line of a serial, white space, "device" and later "model:" with a word is exactly that device with that model |
| AgentTables.ListsNoModel | frontends/agent/adb.c:23-29 | Without "model:" in the line the device has an empty model |
| AgentTables.PassedOver | frontends/agent/adb.c:23-24 | A line with another state, and the heading, yields no device |
| AgentTables.AtMostForty | frontends/agent/adb.c:40-57 | The slots' own forwards, recorded or not, are at most 40, and the duplicate-free table holds no more |
| AgentTables.KnownAllIff | frontends/agent/adb.c:43-57 | The table knows every forward ever created if and only if no call took effect that reported failure and never succeeded |
| AgentTables.ChainSnoc | frontends/agent/discovery.c:36-61 | A state of the tables that follows the last one joins the recorded moments: each as promised, each following all before |
| AgentTables.ForwardStep | frontends/agent/adb.c:43-57 | Whatever a forward call reports and whether or not it took effect, the tables stay as promised and adb keeps what it had |
| AgentTables.GrownTransitive | frontends/agent/discovery.c:177-262 | Slot stability composes over any number of rescans |
| AgentTables.Agent.AdbForward | frontends/agent/adb.c:43-57 | On success adb leads the port to the device and the table knows it; never a duplicate, never an overflow; a call that reports failure may have created the forward without the table knowing, and every call is accounted for |
| AgentTables.Agent.CleanupForwards | frontends/agent/adb.c:59-68 | Removal is issued for exactly the forwards some call of which succeeded; that is every forward ever created if and only if no call took effect that reported failure and never succeeded |
| AgentTables.Agent.AdbPath | frontends/agent/discovery.c:66-97 | On success a wired device's adb destination is the local port 10000 above its public one, which adb forwards to that device's adbd unless it lost forwards meanwhile, and a wireless one's is the address in its serial; nothing else of any slot changes; the forward was tried; failure means a failed call or a wireless serial without a usable host |
| AgentTables.Agent.StreamPath | frontends/agent/discovery.c:99-113 | All four stream forwards have been created and, unless adb lost some meanwhile, are there; or a call failed and the slot stops offering streams; the first was tried in any case |
| AgentTables.Agent.StreamForwards | frontends/agent/discovery.c:100-108 | The four forwards are tried in order up to the first that fails; success exactly if all four calls go well |
| AgentTables.Agent.EstablishForwards | frontends/agent/discovery.c:66-115 | Both together, keeping every slot's identity and flags; on success all the forwards the slot relays to have been created and are there unless adb lost some meanwhile; the first of them was tried; no failure without a cause |
| AgentTables.Agent.SetSlot | frontends/agent/discovery.c:136-138 | Every change of a slot is a recorded moment; a slot becomes ready only with its forwards created and, without failures, its ports relayed |
| AgentTables.Agent.AddListener | frontends/agent/discovery.c:36-61 | Listeners are only appended, all for this port, one for each address unless a bind failed or the table was full, each append a recorded moment; success exactly if one was added; the answers it uses up and their outcome are exact |
| AgentTables.Agent.OpenDiscovery | frontends/agent/main.c:69-73 | The discovery port is relayed on its own entries and everything the tables promise holds from then on |
| AgentTables.Agent.BindListeners | frontends/agent/discovery.c:118-129 | Success means the adb port has a listener to the slot's adb destination, and all four stream ports have theirs with their own groups, unless a bind failed or the table was full; within the quota of table entries |
| AgentTables.Agent.BindStreams | frontends/agent/discovery.c:123-127 | The four stream ports, whatever their binds do |
| AgentTables.Agent.SlotSetupNew | frontends/agent/discovery.c:133-142 | A slot becomes ready only with its forwards created and its ports relayed, and fails to only for a call that failed in this setup; no other slot changes |
| AgentTables.Agent.FindSlot | frontends/agent/discovery.c:167-171 | The slot with this serial, if there is one |
| AgentTables.Agent.MarkPresent | frontends/agent/discovery.c:184-199 | Each slot is marked present exactly if listed and flagged if it came back |
| AgentTables.Agent.Refresh | frontends/agent/discovery.c:208-222 | No slot is left flagged; every flagged ready slot has all its forwards in adb again if no call failed and adb lost nothing meanwhile, and in any case the first forward it needs was tried; identities and presence are kept |
| AgentTables.Agent.RefreshOne | frontends/agent/discovery.c:211-221 | The same for one slot, with every other slot as it was |
| AgentTables.Agent.AddDevice | frontends/agent/discovery.c:225-261 | A listed serial ends up with a slot unless all eight are taken; a new slot carries its serial; no other slot changes; the new device works, with its adb port and all its stream ports relayed, unless a call failed meanwhile, the listener table was too small, there is no address or its serial is unusable |
| AgentTables.Agent.RescanOnce | frontends/agent/discovery.c:177-262 | After a listing a slot is present exactly if its device is listed, and every listed device has a slot unless all eight are taken; a ready device that was away and is listed again has every forward its slot relays to in adb if no call failed and adb lost nothing meanwhile, and a forward was tried for it in any case; new slots belong to listed devices and work unless a call failed during this scan; slots, listeners and forwards only grow as promised; without a listing nothing changes |
| AgentTables.Agent.Rescan | frontends/agent/discovery.c:177-262 | The same from the text `adb devices -l` gives |
| AgentTables.Agent.RoomAtLast | frontends/agent/discovery.c:45-57 | If nothing failed and every device can be relayed in full, the listener table was too small if and only if addresses times (1 + 5 times the slots) exceed 128 |
| AgentTables.Run | frontends/agent/main.c:69-150 | Over every run and at every moment of it, also inside a rescan: at most 8 slots, distinct serials, identity and ports of a slot never change, stream base is 0 or 27183+4i and never leaves 0, the listeners of any moment stay a prefix of all later ones, what is offered has its forwards created, and without failures its ports relayed and, while adb loses nothing, forwarded; at most 40 forwards; shutdown issues removal of every forward ever created if and only if there was no stray; the listener table is too small exactly for more ports than entries; the slots at the end are those of the last listing |
| AgentTables.LeavesBehind | frontends/agent/util.c:91-100 | For every wireless device a run that leaves a forward behind: its first stream forward is killed at the timeout after taking effect |
| AgentTables.TableFills | frontends/agent/discovery.c:36-61 | For every number of addresses beyond three, a run without any failure whose listener table is too small |
| Text.AtoiPrint | frontends/gtk/agent.c:92-100 | Parsing a printed number gives it back |
| Text.SplitFirst | frontends/gtk/agent.c:88-88 | Splitting takes off the first field exactly |
| Discovery.DiscoveryWrite | frontends/agent/discovery.c:145-164 | The response is written whole: it never reaches the 4096-byte buffer's end |
| Discovery.AgentScan | frontends/gtk/agent.c:126-152 | The line loop computes what the answer means: refused banner or version, or the devices of its lines |
| Discovery.LineRoundTrip | frontends/gtk/agent.c:87-106 | A printed line, with or without extra fields, is read as its slot; if its adb port is not positive, not at all |
| Discovery.LineByLine | frontends/gtk/agent.c:143-149 | After a good banner every line is read on its own |
| Discovery.BadLineIgnored | frontends/gtk/agent.c:147-148 | A malformed line changes nothing about the others |
| Discovery.RoundTrip | frontends/gtk/agent.c:126-152 | The desktop learns exactly the present and ready slots with a positive adb port, in order, with port, kind, model ("-" if empty) and stream base |
| Discovery.Exchange | frontends/agent/discovery.c:145-164 | The same from any reachable slot table, through the buffer |
| Sessions.App.AllocLanPort | frontends/gtk/session.c:19-31 | The lowest port from 27183 that no live session has, found within the number of live sessions |
| Sessions.App.AllocStreamK | frontends/gtk/session.c:36-50 | The lowest k no live session of this serial has; -1 if and only if all four are held |
| Sessions.PortsTaken | frontends/gtk/session.c:19-31 | Pigeonhole: n consecutive ports in use need n live sessions |
| Sessions.FourHolders | frontends/gtk/session.c:36-50 | When all four k are in use exactly four live sessions of the serial hold them, one each |
| Sessions.App.SessionNew | frontends/gtk/session.c:160-254 | Each plan gives the addresses and ports it should, the new session shares nothing with a live one, older sessions are untouched |
| Sessions.App.Teardown | frontends/gtk/session.c:129-153 | Closing marks one session torn, also twice, and frees what it held |
| Sessions.App.Activate | frontends/gtk/main.c:28-36 | A session named by the environment, and only then: at its address if that has a port, at the lowest free LAN port if not, over the tunnel without one; all sessions stay apart and routed |
| Sessions.App.Choose | frontends/gtk/chooser.c:203-235 | One session is added in front: a device of an agent that relays streams goes to that agent's host at the lowest free k of its range, one of an agent that does not over the tunnel, any other "host:port" serial to the host at the lowest free LAN port, the rest over the tunnel; all sessions stay apart and routed |
| Sessions.App.Learn | frontends/gtk/chooser.c:285-290 | A scan result replaces what is known of a device; sessions opened before keep the range they were given |
| Sessions.App.Live | frontends/gtk/session.c:160-254 | Over every sequence of scans, openings and closings live sessions never share a k of one serial or a LAN port, every session given a k goes to the agent and the range its own device was scanned with, and each opening added one |
| Routing.NoCollisionIff | frontends/agent/discovery.c:248-249 | No two uses of a port on the agent's machine, public ones cut to 16 bits as bind does, coincide if and only if the adb base and discovery port avoid the listed ranges; stream ports count only where streams are relayed |
| Routing.WrappedBase | frontends/agent/net.c:71 | A base of 92719 is bound to the first stream port; without streams a base of 27183 collides with nothing |
| Routing.DefaultsSound | frontends/agent/agent.h:27-33 | The default ports never collide |
| Routing.StreamListener | frontends/agent/discovery.c:118-129 | In every table a listener bound to a stream port belongs to that slot and k and leads to its local port |
| Routing.StreamEnd | frontends/agent/discovery.c:99-107 | In every table adb leads a stream port's local port to 27183 + k of that slot's own device |
| Routing.AdbListener | frontends/agent/discovery.c:118-122 | In every table a listener bound to a slot's adb port is that slot's own; for a wired device it leads to the local port 10000 above, for a wireless serial host:port to that host and port |
| Routing.AdbEnd | frontends/agent/discovery.c:66-86 | In every table adb leads the local port 10000 above a slot's adb port to the adb port of that slot's own device |
| Routing.RelaysAdb | frontends/agent/discovery.c:66-97 | In every table the relay of a slot's adb port has that slot's own adbd behind it: the local port it leads to is the one adb forwards to that device, or its serial's own address |
| Routing.LinkedHome | frontends/agent/discovery.c:66-115 | A slot all of whose forwards adb has leads to its own device on the adb port and on every stream port |
| Routing.RepairedHome | frontends/agent/discovery.c:207-222 | So every device that came back leads home again after a rescan in which nothing failed and nothing was lost |
| Routing.AddressParses | frontends/gtk/session.c:195-198 | The address a session prints is parsed back to its host and port |
| Routing.EndToEnd | frontends/gtk/session.c:188-199 | In every table a session on the range of slot i connects to a port whose listeners are all that slot's own relay, whose local port adb forwards to port 27183 + k of that slot's own device, the port its server is told to listen on; the listeners of its adb port lead to the local port that adb forwards to the adbd of the same device, or for a device on the network to the address in its serial |
| Routing.OfferStands | frontends/agent/discovery.c:99-128 | What a ready slot offered at one moment is relayed and forwarded at every later one, if it was relayed then and adb lost nothing |
| Routing.SessionsApart | frontends/gtk/session.c:36-50 | Two live sessions with stream ports, from whatever scans, never meet at a public port nor inside a device |
| Routing.AdvertisedBase | frontends/gtk/agent.c:94-101 | Whatever the desktop learns, at whatever moment, is a slot of the agent that is present and ready then |
| Routing.Happen | frontends/gtk/chooser.c:203-290 | Every event at the agent or the desktop keeps what Everything rests on and does what it should: a rescan leaves the slots of its listing, and what came back leads home again if nothing failed or was lost; a scan, answered at any recorded moment, makes known exactly what was shown and can be connected to; opening adds the session that is asked for and closing tears one down |
| Routing.Everything | frontends/gtk/session.c:188-199 | For every run of the agent and every use of the desktop, in any order of rescans, scans at any moment, openings and closings: at every moment since its device was scanned every session with a stream port arrives at its own device at the port its server listens on, without failed calls its ports are relayed, while adb loses nothing they are forwarded, and no two live ones meet; each opening added its session and the slots are those of the newest listing |
| Routing.CollisionMisroutes | frontends/agent/discovery.c:66-107 | For every adb base bound to 27183 a run in which only the binds of the first stream port fail and which ends with a ready wireless device that offers that port while all listeners bound to it lead to adbd |
| Geometry.LetterboxFits | frontends/gtk/render.c:378-387 | The letterbox is centred inside the widget, has the video's aspect ratio and touches two opposite sides |
| Geometry.AcceptedIff | frontends/gtk/render.c:388-391 | A point is accepted if and only if it is in the letterbox, and lands in the video |
| Geometry.VideoMonotone | frontends/gtk/render.c:389-390 | Order is kept and reflected on both axes |
| Geometry.PointingRoundTrip | frontends/gtk/render.c:378-391 | Pointing at the place a pixel is drawn gives that pixel |
| Geometry.ScaleOnDevice | server/src/main/java/com/rigcontrol/server/ControlReceiver.java:36-44 | The scaled coordinate is on the device and monotone |
| Geometry.ScaleExact | server/src/main/java/com/rigcontrol/server/ControlReceiver.java:36-44 | Without clamping the relative position is kept exactly |
| Geometry.ChainOnDevice | server/src/main/java/com/rigcontrol/server/ControlReceiver.java:36-44 | From widget to device: accepted points land on the device, monotonically |
| Geometry.VideoSizeOk | server/src/main/java/com/rigcontrol/server/ScreenEncoder.java:276-292 | Encode sizes are multiples of 8, no larger than the device or maxSize, and less than 8 pixels below exact aspect scaling, whenever the size is kept or the product fits an int |
| Geometry.VideoSizeIff | server/src/main/java/com/rigcontrol/server/ScreenEncoder.java:276-292 | For sides up to 2^28 that holds if and only if the size is kept or the product fits an int |
| Geometry.WrapHidden | server/src/main/java/com/rigcontrol/server/ScreenEncoder.java:281-291 | A concrete size beyond that bound whose product wraps and whose result is still as promised |
| Geometry.VideoSizeOverflows | server/src/main/java/com/rigcontrol/server/ScreenEncoder.java:281-281 | A concrete size whose product wraps around to a negative height |
| Keys.OnlyThatBit | frontends/gtk/input.c:94-104 | Marking changes exactly one bit of a bitmap byte |
| Keys.NavKeyActs | frontends/gtk/input.c:107-139 | Each navigation key, by its GDK name, acts as its Android key and no other key does |
| Keys.AlnumKeyActs | frontends/gtk/input.c:82-92 | Letters, digits and space have the consecutive Android codes, every other character none |
| Keys.PressSends | frontends/gtk/input.c:141-167 | A navigation key sends its own code, a letter under Ctrl or Alt that letter's code, any other key without them the character it types unless that is a control character |
| Keys.Keyboard.KeyMark | frontends/gtk/input.c:94-100 | Marking changes exactly one code of the 256 |
| Keys.Keyboard.KeyMarked | frontends/gtk/input.c:101-104 | Answers membership, false outside 0 to 255 |
| Keys.Keyboard.OnKeyPressed | frontends/gtk/input.c:141-167 | A DOWN for navigation keys and shortcuts, text otherwise; the bitmap stays the set of codes whose last keyboard message was DOWN |
| Keys.Keyboard.OnKeyReleased | frontends/gtk/input.c:169-182 | An UP is sent if and only if the code's last keyboard message was DOWN, and afterwards it is not held |
| Keys.Keyboard.OnNavButton | frontends/gtk/input.c:184-189 | DOWN and UP, no bit changes, no key looks held that is not |
| Keys.SameKeySameCode | frontends/gtk/input.c:149-176 | Releasing the same key up to letter case meets the code its press was sent as, whatever the modifiers |
| Keys.ButtonInStepIff | frontends/gtk/input.c:184-189 | A button click keeps bitmap and device in step if and only if its code is not held by a key |
| Keys.Keyboard.Play | frontends/gtk/input.c:141-189 | Over every sequence of events the bitmap is exact, every UP follows its DOWN, and the messages are those the events alone determine |
| Keys.EventInStepIff | frontends/gtk/input.c:141-189 | One event keeps bitmap and device in step unless it is a click on a code a key holds |
| Keys.ClicksFreeIff | frontends/gtk/input.c:141-189 | Over every run they are in step at every moment if and only if no button is clicked while a key holds its code |
| Keys.BackClicksIff | frontends/gtk/input.c:184-189 | With the buttons there are, that is if and only if Back is never clicked while Escape is held |
| Keys.BackDuringEscape | frontends/gtk/input.c:118-119 | Back clicked while Escape is held puts them out of step |

## Left out

- Relay.Connection.OpenUpstream: no bound on its duration, because the code has none (see above).
- Geometry.VideoSizeIff: sides beyond 2^28 are covered one way only, by `Geometry.VideoSizeOk`; there rounding to 8 can hide a wrapped product (`Geometry.WrapHidden`).
- Routing.Everything: one agent at a time; and a port that the system chooses (a base or discovery port that is 0 in its low 16 bits) is taken to be free.
- GroupLock.MutualExclusion: no order among the waiters of a group, because a broadcast gives none; so channel agreement is stated for direct LAN and not through the agent.
- Deploy.Client.ReadMeta: what the meta record says is arbitrary here; reading it off the wire is `Meta.ReadDeviceMeta`.
- Deploy.Client.Start: a second start after the stream ended by itself and before a stop is excluded, since the code would overwrite live handles.
- Deploy.Client.Teardown: that the reverse rule's removal is issued, not that adb obeys.
- AgentTables.Agent.AdbForward: creating a forward and entering it in the table are one moment, since nobody but the rescan thread and the cleanup after it looks at that table.
- AgentTables.Agent.SlotSetupNew: that a slot whose first setup failed is ever ready is not claimed; the code never tries again.
- Keys.SameKeySameCode: GDK's lower-casing is a parameter of which only one law is used, that it merges no navigation key with another key.
- Values modelled for objects: the interleavings of `GroupLock` and `Mailbox` are state machines over values, since another thread may act between any two actions.
- Allocation failure: buffers and threads are assumed to be allocated, except where the code's failure branch matters (client creation, decoders, threads of `rc_client_start`).
- Mouse buttons: that every UP has a DOWN is not true of the code (a press outside the video sends nothing) and nothing is stated about it.
- Metastate bits of key messages and the key-to-text conversion: straight tables.
- IEEE 754 rounding: geometry is over reals, floats on the wire are opaque 32-bit values.
- Audio playback, FFmpeg, GTK and GL, MediaCodec and the Android wrappers: library behaviour; a decoder is an oracle that accepts or refuses.
- Process spawning, name resolution, poll and socket options, search paths, environment variables, status messages and logging.
- The SwiftUI front-end, which mirrors the GTK one, and all scripts and build files.
