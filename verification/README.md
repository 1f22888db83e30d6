# Remote Mouse, modelled

Remote Mouse turns a phone into a PC's mouse and keyboard. The phone coalesces motion and
sends newline-terminated JSON events; the server lets a connection in once it has proved
knowledge of the password and hands its events to an injector. On Windows a service may do
this while the screen is locked: its injector broadcasts every event over named pipes to
one agent process per desktop, and a monitor keeps agents and pipes in agreement with the
session. A controller in the user-interface process owns the port while the service is off.

| file | component |
|---|---|
| `JsonScanner.dfy`, `JsonRecord.dfy` | the `In` record, its printer and reader down to characters: the automaton of `encoding/json`, escapes, UTF-8, integers, tags and `omitempty` |
| `JsonGrammar.dfy`, `JsonAcceptance.dfy` | the grammar of RFC 8259; that the automaton accepts exactly its texts |
| `JsonText.dfy`, `JsonReading.dfy`, `JsonRoundTrip.dfy` | what a JSON text says, as relations that mention neither reader nor printer; that the reader reads it so; that the printer prints it |
| `PipeFraming.dfy` | one pipe: frames, writes cut short, the agent's line scanner |
| `Injection.dfy` | `applyEvent`, `pipeInjector`, `fanoutWriter`, `runAgentLoop`; many clients and changing writers |
| `AgentMonitor.dfy` | the reconcile loop, with the operating system as an adversary |
| `ServiceRuns.dfy` | the monitor's ticks interleaved with client calls: what each agent hears |
| `Serving.dfy` | the serving controller, the arbiter's tick, and the handover of the port |
| `Clients.dfy`, `Sessions.dfy` | the client registry; the handshake and read loop for one connection and for any number of them |
| `PhoneClient.dfy` | the phone's coalescing queue with its timers, and its line buffer |
| `Motion.dfy`, `WinPointer.dfy` | pointer arithmetic on the phone (reals) and on Windows (32-bit integers) |

Objects that change in place are classes. Each of their methods is proved to take the
object's abstract value where a function says (`Tick`, `Apply`, `Step`, ...), and the
properties of whole runs are lemmas about those functions, and what each operation does is
also said without them, in literal terms; `CarryOut` ties the broadcast writer
to the histories that the lemmas about it speak of. Everything the outside world
decides is an argument: what the operating system answers, how many bytes of a write get
through, which ports are taken, what the clock shows, in what order blocks run.

Where the code falls short of its own comments, the model follows the code and says exactly
when the promise holds:

- A spawn whose Accept times out leaves that Accept waiting (server/service_windows.go:271-290).
  It cannot bind an agent to another agent's process: whoever did not connect in time has been
  terminated (`AlwaysPaired`, without any hypothesis). But if it is served before the Accept
  that the monitor waits for, the next agent goes unbound, times out and leaves an Accept behind
  in turn, so that no agent is ever bound again (`NeverBoundAgain`, `OneTimeoutIsEnough`).
- If both binds in `Apply` fail, the announcement stays live and the next `Start` forgets it
  (server/serving_windows.go:75 and 132-139): `ForgetsExactly`, `ForgettingHappens`.
- "At most once per `moveInterval`" (ios/Sources/Models/Client.swift:78) fails exactly when a
  barrier or a timer sends pending motion too soon (`PaceIsExact`), and a timer does so only if
  a barrier has made it stale (`OnlyStaleTimersBreak`, `StaleTimerBreaksThePace`); without
  barriers it holds (`PacketsArePaced`), and with them the rate is bounded (`PacketsAreBounded`).
- A window with both relative and absolute motion can leave the cursor elsewhere, because the two
  channels are sent apart: `WindowIsExact` gives the condition, timers included, and
  `MixedChannelsMisplace` and `LateTimerMisplaces` give instances.
- A tracked pointer is the clamped walk unless a 32-bit addition wraps, and even then in some
  cases: `TracksExactly`.

## Model

| member | source | states |
|---|---|---|
| JsonAcceptance.ScannerIsExact | server/pipe_inject.go:61-64 | The automaton, a byte at a time and with one space fed at the end, accepts exactly the texts of the grammar of RFC 8259 |
| JsonReading.StandardJsonIsRead | server/server.go:104-107 | A line that is, for RFC 8259 and RFC 3629, an object with the members of a record, in any order, with names up to case, strings in any escapes, surrogate pairs included, any blanks, and any other members in between, decodes to that record without error |
| JsonReading.TextIsRead | server/proto.go:8-13 | A literal is read as the string that it spells: UTF-8, the eight two-character escapes, \uXXXX |
| JsonReading.HalfPairIsReplaced | server/proto.go:8-13 | Half a surrogate pair is read as U+FFFD, and reading goes on after it |
| JsonReading.MalformedByteIsReplaced | server/proto.go:8-13 | So is a byte that begins no UTF-8 encoding of a character |
| JsonReading.MemberCounts | server/proto.go:7-24 | Of several members with one name the last one counts; null clears down and leaves every other field as it was; no member touches another field |
| JsonReading.ObjectAppliesExactly | server/pipe_inject.go:61-65 | An object is applied exactly if each known member has a string, a whole number of 64 bits, or true or false, as its field asks, or null; members with unknown names may hold anything |
| JsonReading.OnlyObjectsApply | server/pipe_inject.go:61-65 | A line that is not JSON changes nothing and is refused, and so is JSON that is not an object, except null |
| JsonReading.EveryObject | server/pipe_inject.go:61-65 | Any other line is an object with some members, so these cases are all |
| JsonRoundTrip.BodySays | server/proto.go:26-32 | What is written for a record is such an object, whatever Unicode its strings hold |
| JsonRoundTrip.ZerosAreOmitted | server/proto.go:7-24 | It names t and exactly the other fields that are not zero; down whenever it is set, true or false |
| JsonRoundTrip.DecodeEncode | server/proto.go:7-32 | So reading the line written for any record gives the record back without error |
| JsonRoundTrip.EncodeIsOneLine | server/proto.go:26-32 | A frame consists of bytes, has no control character and so no line break but its last byte, and always opens with the `t` member |
| JsonRoundTrip.ReadBody | server/proto.go:7-24 | The automaton accepts every body, and the members it reads off are those the tags wrote, in order |
| JsonRoundTrip.QuoteComesBack | server/proto.go:8-13 | Unquoting a quoted string of any Unicode scalar values gives it back through escapes and UTF-8 |
| JsonRoundTrip.PrintIntComesBack | server/proto.go:14-23 | Every 64-bit integer is read back from its decimal form |
| JsonScanner.BadIsFinal | server/pipe_inject.go:61-64 | Once a text is malformed nothing that follows mends it |
| JsonScanner.RunLift | server/pipe_inject.go:61-64 | A text that stays inside its own braces drives the automaton the same way inside any other text |
| PipeFraming.PrefixIsOpen | server/fanout.go:27-35 | Every proper non-empty prefix of a frame's body leaves the reader inside the object, where no frame can complete it |
| PipeFraming.DoomedStaysDoomed | server/fanout.go:27-35 | From there, any non-empty part of any frame leads to such a state again: a cut frame glued to the next never decodes |
| PipeFraming.AgentReceives | server/pipe_inject.go:58-67 | For every sequence of whole, partial and empty writes, the bytes on the pipe make the agent apply exactly `Deliver`: frames written whole onto a clean pipe, and one lacking only its line break at the end |
| PipeFraming.DeliveredWereSent | server/fanout.go:27-35 | However writes are cut, the events applied are a subsequence of the events sent: no phantom, no duplicate, no reordering |
| PipeFraming.LossIsBounded | server/fanout.go:27-35 | While lines fit the scanner, each short write costs at most its own frame and one more |
| PipeFraming.ReliablePipe | server/pipe_inject.go:58-67 | On a pipe that takes every frame whole, exactly the frames before the first one above 2^20 bytes are applied |
| PipeFraming.LinesComeOut | server/pipe_inject.go:59-61 | The scanner hands out exactly the lines sent, whether ended by a line feed or with a carriage return before it, and an unended last one, if each fits 2^20 bytes |
| PipeFraming.LongLineEnds | server/pipe_inject.go:59-61 | A line that does not fit ends the loop |
| Injection.ApplyEvent | server/inject_apply.go:9-27 | Each type of event, in literal terms: its one call with its own fields, for a click a press and then a release, for any other type nothing |
| Injection.ButtonIsHeld | server/inject_apply.go:9-27 | After any events a button is down exactly if the last button or click event about it was a button event with down true |
| Injection.RunAgentLoop | server/pipe_inject.go:58-67 | The loop makes the calls of the lines that decode, skips the others, and ends at a line that is too long |
| Injection.FanoutWrite | server/fanout.go:27-35 | Each target receives the part of the frame it takes, whatever the others do |
| Injection.PipeInjector.Emit | server/pipe_inject.go:28-39 | Every bound target records one attempt with this frame; with no writer nothing happens |
| Injection.PipeInjector.Inject | server/pipe_inject.go:41-52 | Each injector call is emitted as the event for it, false flags included |
| Injection.PipeInjector.SetWriter | server/pipe_inject.go:22-26 | The targets are replaced as a whole and no frame is cut by it |
| Injection.EventReplays | server/pipe_inject.go:41-52 | An event made from a call causes that call, once |
| Injection.PipedIsDirect | server/pipe_inject.go:28-67 | Injecting any events through the pipe makes exactly the calls of injecting them directly, up to the first frame above 2^20 bytes if there is one |
| Injection.ReliableTarget | server/pipe_inject.go:22-39 | Over all interleavings of clients and writer swaps, a target whose writes succeed receives exactly the frames sent while it was bound, in lock order, and its agent makes those calls, up to the first frame above 2^20 bytes if there is one |
| Injection.FaultyTarget | server/fanout.go:27-35 | A target that takes only parts of writes makes exactly the calls of the events `Deliver` lets through |
| Injection.ClientsDoNotInterfere | server/pipe_inject.go:28-39 | Of the calls that the agent behind a reliable target makes, those of one client are, in order, the calls it would make if that client were alone, cut short only by another client's frame above 2^20 bytes |
| Injection.CarryOut | server/pipe_inject.go:15-39 | Carrying out any sequence of client calls and writer swaps on the broadcast writer leaves every target with exactly the write attempts that the history says |
| AgentMonitor.PlanAgents | server/desktop_windows.go:118-134 | Stops are the living unwanted desktops, each once; starts the wanted ones not living, in the wanted order |
| AgentMonitor.Monitor.Release | server/service_windows.go:312-319 | Closing pipe and process keeps the books: each thing created is in use or closed exactly once |
| AgentMonitor.Monitor.StopAgent | server/service_windows.go:305-320 | The agent leaves the set and its process and pipe are released once; nothing happens without one |
| AgentMonitor.Monitor.KillAll | server/service_windows.go:325-340 | No agents and no writer remain, and everything held has been closed once |
| AgentMonitor.Monitor.RebindWriters | server/service_windows.go:345-359 | The writer has each agent's connection once, and is nil when there is none |
| AgentMonitor.Monitor.FindDead | server/service_windows.go:197-211 | Agents are divided into those whose process lives and those whose process is gone |
| AgentMonitor.Monitor.AcceptWithTimeout | server/service_windows.go:274-290 | When the accept yields a connection, which running process that has not connected before it belongs to, and when a timeout leaves an Accept waiting |
| AgentMonitor.Monitor.SpawnAgent | server/service_windows.go:230-266 | One spawn under every outcome: no token, no process, no connection (process ended and closed once), or bound |
| AgentMonitor.SpawnMeans | server/service_windows.go:230-290 | Each outcome in full: who is bound and to whose connection, what is terminated, and which timeout leaves its Accept waiting |
| AgentMonitor.Monitor.Reconcile | server/service_windows.go:176-228 | One tick takes the monitor where `Tick` says and keeps every process and connection either held or closed exactly once |
| AgentMonitor.Monitor.Loop | server/service_windows.go:162-174 | After any run and the stop, every process ever started was terminated and its handle closed once, every accepted connection closed once, the writer is nil |
| AgentMonitor.AlwaysInStep | server/service_windows.go:176-269 | After every tick of every run the writer's targets are exactly the agents' connections, the agents' desktops were wanted at the last successful detection, and each belongs to the current session with its desktop's token |
| AgentMonitor.OnlyTheNewProcessDials | server/service_windows.go:253-260 | Whenever the monitor waits for a connection, the process it has just started is the only one that runs and has not connected |
| AgentMonitor.AlwaysPaired | server/service_windows.go:230-290 | In every run, timeouts and failures included, the processes running are the agents', each agent's connection leads to the process started for its desktop, and Accepts are abandoned only by timeouts |
| AgentMonitor.NeverBoundAgain | server/service_windows.go:271-290 | While abandoned Accepts do not fail and are served first, one of them suffices for no process of any later tick ever to be bound, and an abandoned Accept remains |
| AgentMonitor.OneTimeoutIsEnough | server/service_windows.go:271-290 | In any session, locked or not: if the very first agent times out and Accepts that wait are served in order, the service never has an agent, although later agents connect in time |
| AgentMonitor.Converges | server/service_windows.go:186-228 | With processes connecting in time and no abandoned Accept, one tick from any state reaches exactly the desired desktops, started in their order |
| AgentMonitor.ConvergesOnlyIf | server/service_windows.go:271-290 | When every process started connects in time, a tick reaches exactly the desired desktops if and only if no abandoned Accept waits or none of the connections goes to one |
| AgentMonitor.StaysConverged | server/service_windows.go:186-228 | Once reached, any number of ticks with stable session, flags and processes leave everything as it is |
| AgentMonitor.Retried | server/service_windows.go:213-224 | A wanted desktop without an agent, for whatever reason, is started on the next tick on which detection succeeds |
| AgentMonitor.LockedTick | server/desktop_windows.go:106-134 | With flags 0 and agents that connect, a tick ends with exactly Default and Winlogon; if it started both, Default first |
| AgentMonitor.UnlockedTick | server/desktop_windows.go:106-112 | With any other flags it ends with exactly Default |
| AgentMonitor.BlindTick | server/service_windows.go:177-185 | Without a session or an answer about it, a tick does nothing |
| AgentMonitor.TickKeeps | server/service_windows.go:186-228 | A tick keeps exactly the agents of the same session that live and are wanted; every other agent it ends with was started by it and has connected |
| AgentMonitor.TokensAreRight | server/service_windows.go:230-246 | In every run agents are on these two desktops only, started there in the current session, on Default with the user's token and on Winlogon without it |
| ServiceRuns.HistoryArrives | server/service_windows.go:176-359 | Over monitor runs interleaved with client calls, during ticks too, the bytes on each connection are the frames of the calls emitted while it belonged to an agent |
| ServiceRuns.AgentMakesWhatItHears | server/pipe_inject.go:22-67 | The agent behind a connection makes those calls, up to the first frame above 2^20 bytes |
| ServiceRuns.Gone | server/service_windows.go:305-359 | A connection that no agent has any more is never an agent's again, and nothing is sent to it |
| ServiceRuns.AgentHearsItsTenure | server/service_windows.go:176-359 | An agent makes exactly the calls emitted between the tick that bound its connection and the tick that stopped it, whatever clients, other agents and the operating system do |
| Serving.ServingController.StartServing | server/serving_windows.go:55-81 | Binds, announces and runs, or reports failure and stays stopped |
| Serving.ServingController.StopServing | server/serving_windows.go:84-100 | Withdraws the announcement and releases the port |
| Serving.ServingController.ApplyConfig | server/serving_windows.go:105-150 | Hot reconfiguration with its rollback, and stopping if both binds fail, as ApplyTakesEffect and ApplyAnnounces spell out |
| Serving.ApplyTakesEffect | server/serving_windows.go:105-145 | The new password counts in all cases, at once; name and port are the new ones if the port is unchanged or can be bound, the old ones if only the old port can; if neither can, serving stops; a stopped controller records the configuration |
| Serving.ApplyAnnounces | server/serving_windows.go:145-150 | A changed name or port is announced in place of the old, and an unchanged one is left alone |
| Serving.StartServes | server/serving_windows.go:55-81 | Starting ends running exactly if the port is free, with the configured password and name, announced if the network takes it |
| Serving.StopEnds | server/serving_windows.go:84-100 | Stopping gives the port back and takes the announcement off the network |
| Serving.ArbiterDecides | server/ui_panel_windows.go:265-270 | A tick with the service stopped ends serving whenever the port is free; with the service running it ends not serving |
| Serving.AlwaysConsistent | server/serving_windows.go:55-150 | Over all calls and bind failures: running means one port held, the configured one, with the configured password, name and announcement; stopped means none; forgotten announcements never outnumber double failures of Apply |
| Serving.ForgetsExactly | server/serving_windows.go:55-81 | An announcement is forgotten exactly when serving starts while one is still live |
| Serving.ForgettingHappens | server/serving_windows.go:132-139 | From any announced running state a port change with both ports taken, then a start, forgets one |
| Serving.ListenTCPRetry | server/service_windows.go:366-379 | The retry loop takes the attempts of `Listen`, for any delays of at least one poll |
| Serving.RetryBinds | server/service_windows.go:366-379 | A port free from some time up to the deadline on is bound within one poll of it; otherwise the call returns within the window plus one poll; it never reports a bind of a port in use |
| Serving.ReleasedStaysReleased | server/serving_windows.go:84-100 | Once told that the service runs, the controller holds no port until a start |
| Serving.ServiceGetsThePort | server/ui_panel_windows.go:265-270 | Whatever state the controller is in, a releasing tick within five seconds of the service's start gives the service the port, at most one poll later |
| Clients.ClientRegistry.Register | server/clients.go:32-40 | A new identifier above all earlier ones, its client filed under it, one notification |
| Clients.ClientRegistry.Deregister | server/clients.go:43-51 | The entry is gone, identifiers are not taken back, and only a removal notifies |
| Clients.ClientRegistry.Snapshot | server/clients.go:54-68 | For any iteration order of the map: all clients, each once, earlier arrivals first and, at equal times, earlier insertions first |
| Clients.SnapshotIsUnique | server/clients.go:54-68 | A registry has only one such listing, so iteration order never shows |
| Clients.ListedOnce | server/clients.go:54-68 | Every registered client stands at exactly one place of a listing |
| Sessions.Server.Handle | server/server.go:65-124 | One connection alone: a hello and a right proof are answered with the challenge and auth_ok and registered once; anything else is refused with nothing injected; the rest is as HandshakeMeans and LineMeans say, and the registry is as before |
| Sessions.Server.ReadLoop | server/server.go:103-122 | Up to bye, lines that decode are answered or injected in order and the others skipped |
| Sessions.HandshakeMeans | server/server.go:74-98 | Each outcome of the handshake with its replies, in terms of the decoded types and the proof only |
| Sessions.LineMeans | server/server.go:103-122 | What one more line of an admitted session adds: the pong with its own ts, the screen, or the calls of its type; nothing if it does not decode |
| Sessions.NothingAfterBye | server/server.go:117-118 | After bye nothing is answered or injected |
| Sessions.RightProofGetsIn | server/server.go:65-104 | From any state of the whole server, hello and a proof for the current password lead into the loop, welcomed under the current name and registered with the client's own name and address |
| Sessions.WrongProofIsRefused | server/server.go:93-97 | A wrong proof or type is answered with auth_failed and closed |
| Sessions.SwapsCountAtOnce | server/server.go:33-44 | A swapped password or name counts from then on and nothing else changes |
| Sessions.InterleavingIsInvisible | server/server.go:65-143 | In every interleaving of connections and swaps, each connection has sent the replies and made the calls its own session prescribes for the lines it read and the password it was checked against |
| Sessions.CallersAreAuthenticated | server/server.go:89-96 | Whoever injects had, at an earlier step, answered the challenge it was sent with the proof for the password of that step |
| Sessions.StaysUp | server/server.go:31-37 | Whatever else happens, password and name swaps included, an admitted connection stays in its loop until it says bye or hangs up |
| Sessions.RegistryFollows | server/server.go:98-101 | After every step the registry's entries are exactly the connections between registering and deregistering, one each, with their name and address |
| Sessions.IdsAreNeverReused | server/clients.go:32-40 | Of two registrations in any run the later gets the larger identifier |
| Sessions.PhonesReachTheAgent | server/pipe_inject.go:22-67 | An agent that stays bound on a pipe that takes all writes makes the logged calls of all connections in order, up to the first frame it cannot hold, and each connection's share of the log is exactly its session's calls |
| PhoneClient.Client.MoveOn | ios/Sources/Models/Client.swift:80-91 | Deltas accumulate, and a timer is set if none is |
| PhoneClient.Client.MoveAbsTo | ios/Sources/Models/Client.swift:99-112 | The last position wins, and a timer is set if none is |
| PhoneClient.Client.Send | ios/Sources/Models/Client.swift:143-150 | Pending motion goes first, then the message |
| PhoneClient.Client.OnMoveTimer | ios/Sources/Models/Client.swift:124-131 | A due timer sends the sum if it is not zero |
| PhoneClient.CoalescingRefines | ios/Sources/Models/Client.swift:80-150 | For every run of blocks and timers: other messages leave in call order, and between two of them the moves sent sum to the moves submitted and the last position sent is the last submitted |
| PhoneClient.NoEmptyMoves | ios/Sources/Models/Client.swift:124-131 | In no run is a packet sent that moves by nothing |
| PhoneClient.ByeIsLast | ios/Sources/Models/Client.swift:66-76 | Hanging up says bye after everything else, and nothing is sent afterwards |
| PhoneClient.ClicksLandRight | ios/Sources/Models/Client.swift:80-150 | If no window mixes channels, the cursor is at every other message where the uncoalesced stream puts it |
| PhoneClient.WindowIsExact | ios/Sources/Models/Client.swift:124-150 | For every window of motion and timers ended by a barrier, the cursor is right exactly if no position was submitted, or the last one is pending and nothing moved after it, or what moved after it equals what was sent after it and is pending |
| PhoneClient.MixedChannelsMisplace | ios/Sources/Models/Client.swift:143-150 | In a legal run, a position followed by a move leaves the cursor elsewhere |
| PhoneClient.LateTimerMisplaces | ios/Sources/Models/Client.swift:124-139 | In a legal run, even a move before a position does so, when the move's timer fires after a stale timer has sent the position |
| PhoneClient.NothingStranded | ios/Sources/Models/Client.swift:80-150 | Pending motion always has a raised flag with its timer outstanding, and timers never outnumber the barriers since there were none, plus one |
| PhoneClient.PaceIsExact | ios/Sources/Models/Client.swift:78-150 | In every run, barriers included, the packets of a channel are an interval apart exactly if no barrier and no timer of the channel sends pending motion while a packet of that kind is less than an interval old |
| PhoneClient.OnlyStaleTimersBreak | ios/Sources/Models/Client.swift:86-89 | A timer that does so is older than the flag of the motion it sends, whose own timer is still outstanding |
| PhoneClient.PacketsAreBounded | ios/Sources/Models/Client.swift:80-150 | In any span shorter than an interval a channel sends at most one packet, plus one for each barrier in the span or since its timers had all fired |
| PhoneClient.PacketsArePaced | ios/Sources/Models/Client.swift:78-90 | Without barriers, packets of a channel are at least one interval apart |
| PhoneClient.StaleTimerBreaksThePace | ios/Sources/Models/Client.swift:143-150 | A legal run with one barrier sends two move packets 7 ms apart |
| PhoneClient.LineBuffer.Drain | ios/Sources/Models/Client.swift:167-174 | The complete lines in the buffer are handed on and the unterminated tail is kept |
| PhoneClient.ChunkingIsInvisible | ios/Sources/Models/Client.swift:158-174 | However the bytes are cut into chunks, the lines handed on and the tail are those of the whole stream |
| PhoneClient.SplitJoins | ios/Sources/Models/Client.swift:167-174 | Lines and tail put together again are the bytes received |
| Motion.NormalizeAngle | ios/Sources/Models/Motion.swift:251-256 | The two loops end, with the angle less its whole turns |
| Motion.NormalizeTurns | ios/Sources/Models/Motion.swift:251-256 | The result lies in [-pi, pi] and differs from the angle by whole turns, none if the angle was in range |
| Motion.SweepBounds | ios/Sources/Models/Motion.swift:198-205 | After any sweep every sample lies between the captured extremes, and each extreme was reached |
| Motion.MotionController.FinishCalibration | ios/Sources/Models/Motion.swift:140-156 | The centre and half-ranges of the sweep, positive and in range whatever was captured |
| Motion.MotionController.EmitRelative | ios/Sources/Models/Motion.swift:207-229 | One smoothed step, delivered unless it rounds to zero |
| Motion.MotionController.HandleAll | ios/Sources/Models/Motion.swift:179-229 | Over a run of readings in relative mode the delivered moves add up to the rounded smoothed steps |
| Motion.MotionController.EmitAbsolute | ios/Sources/Models/Motion.swift:231-248 | The smoothed pose stays in the unit square and every position ever delivered in 0..65535 |
| Motion.OffsetFromNeutral | ios/Sources/Models/Motion.swift:231-234 | Seen from the neutral a direction is as far off as from the middle of the sweep, across the seam at +-pi too |
| Motion.SweepFillsScreen | ios/Sources/Models/Motion.swift:140-156 | After a sweep of at least twice the minimal half-range and under a turn, the first sample divides the screen as its azimuth divides the sweep |
| Motion.EndsAndCentre | ios/Sources/Models/Motion.swift:231-248 | The sweep's ends give x of exactly 0 and 65535, its middle 32768 |
| Motion.VerticalRangeFillsScreen | ios/Sources/Models/Motion.swift:144-152 | y likewise: the middle of the elevations swept is the centre and half a range away the edges, the range being the azimuths' times the aspect, or the elevations' own if the screen is unknown, and at least 8 degrees |
| Motion.PointedAverages | ios/Sources/Models/Motion.swift:241-243 | Each later sample is averaged half and half with what came before |
| Motion.PointedStaysInside | ios/Sources/Models/Motion.swift:236-243 | Absolute smoothing never leaves [0, 1] |
| Motion.SettlesInSeventeen | ios/Sources/Models/Motion.swift:231-248 | From 17 samples at a held pose on, whatever the pose was before, both coordinates are within one unit of the exact ones |
| Motion.SmoothingConserves | ios/Sources/Models/Motion.swift:222-223 | Summed output is summed input less 13/7 of the change of the smoothing state |
| Motion.RelativeMotionArrives | ios/Sources/Models/Motion.swift:207-229 | The moves of n samples differ from that by at most n/2 on each axis |
| Motion.CursorFollowsTheHand | ios/Sources/Models/Motion.swift:207-229 | Over n samples the moves come to 1100 pixels for each radian of azimuth and elevation between first and last, whole turns apart, less the smoothing state, within 1.49 n |
| Motion.TremblingMovesNothing | ios/Sources/Models/Motion.swift:215-216 | Steps below the dead zone leave a resting cursor alone |
| WinPointer.WinInjector.AbsMove | server/injector_windows.go:214-230 | Control starts at the live cursor, or in the middle without one; a move that stays on the screen goes exactly where it says, and any other stops on the screen; the position is scaled |
| WinPointer.TracksExactly | server/injector_windows.go:226-227 | One move is the clamped walk exactly if the sum fits 32 bits, the axis has one pixel, or the wrapped sum lands beyond the edge the walk stops at |
| WinPointer.PointerWalks | server/injector_windows.go:214-230 | Over all runs the pointer stays on the screen, and it is the clamped walk if no addition wraps |
| WinPointer.ButtonsDoNotMove | server/injector_windows.go:199-208 | Re-asserting the position before a button leaves it unchanged |
| WinPointer.ScalingIsFaithful | server/injector_windows.go:255-276 | Scaled coordinates are in range and monotone, reach both ends, and err by less than one step |
| WinPointer.InjectiveExactly | server/injector_windows.go:255-259 | Different pixels get different coordinates exactly if there are at most 65536 |
| WinPointer.Position | server/injector_windows.go:194-198 | Coordinates in range reach the system unchanged; 32-bit ones out of range stop at the ends |

## Left out

- Win32, SCM, registry, token and process calls, CGEvent, CoreMotion, `atan2`, mDNS, Bonjour, TCP and named pipes: only their outcomes appear.
- PBKDF2, HMAC, base64 and random numbers: the proof is an arbitrary function of password, salt and nonce.
- User interface, tray, clipboard, key tables, install and start-type code, the status pipe and its codec.
- JsonScanner: the nesting limit of 10000 in `encoding/json`; without it more texts are well-formed, so that cut frames are rejected is proved of a more lenient reader. JsonAcceptance.ScannerIsExact is about the grammar, which has no such limit.
- JsonReading.StandardJsonIsRead: a member that comes twice must say the same both times; what happens otherwise is MemberCounts.
- JsonReading.ObjectAppliesExactly: asks that the members' names spell something; how a name with malformed UTF-8 or half a surrogate pair is read say HalfPairIsReplaced and MalformedByteIsReplaced.
- JsonRecord: strings that are not valid Unicode cannot be written down; reading replaces malformed UTF-8 as the decoder does.
- AgentMonitor.Monitor.SpawnAgent: asks that the desktop has no agent; `Reconcile` only calls it so, which is the promise that no spawn overwrites an entry.
- AgentMonitor.Monitor.AcceptWithTimeout: the waiting goroutine is a count of abandoned Accepts, and which of the Accepts gets a connection is the operating system's choice; connections taken by abandoned Accepts are never closed by the code and are not on the monitor's books.
- AgentMonitor.AlwaysPaired: only agents open the inject pipe, each until it has connected once (server/agent_windows.go:26-34), and a process that has been terminated does nothing more.
- ServiceRuns.AgentHearsItsTenure: what a tick stops, it stops in one step at its beginning; calls made while it waits for new agents are part of the run.
- Map iteration in `Snapshot`, `killAll` and `rebindWriters` picks any element; the order in which fan-out visits its targets is not observed.
- Injection.PipeInjector.Inject: the six methods of the interface are the six cases of one method.
- Sessions.Server.Handle: one connection while nothing else happens; the transition system covers the rest, with reading the password, sending auth_ok, registering, each injector call and deregistering as separate steps. A server without a registry is not modelled, nor the screen's dimensions in the reply to getscreen.
- Sessions.PhonesReachTheAgent: the phone's own JSON printer is a library; what the server reads is any line at all.
- Serving.ListenTCPRetry: an attempt to bind takes no time, and the port's state at that moment decides it.
- Serving.RetryBinds: "one poll" is the longest time between two attempts, as sleeping may take longer than asked.
- PhoneClient.Client.Send: the text of messages other than motion is opaque. Swift integers are unbounded here, while the phone would trap on overflow. Dispatch to the queue is the order of blocks in a run.
- PhoneClient.LineBuffer.Drain: a line is handed on to the JSON library, which may reject it; what the client does with replies is not modelled.
- Motion: reals in place of floating point, and any positive number as pi. Changes of mode that the source posts to the main queue take effect at once.
- Motion.MotionController.EmitAbsolute: starts from azimuth and elevation.
- WinPointer.WinInjector.AbsMove: the mutex, and virtual screens whose edges do not fit 32 bits; relative moves outside the secure desktop are passed on unchanged and have nothing to prove.
