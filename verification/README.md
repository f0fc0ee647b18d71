# RelayKit: verified model

RelayKit lets an operator reach services on an assisted machine through a relay. An agent joins a
short-lived session with a one-time code, the operator's tunnel opens streams to targets the session's
creator allowed, and the relay routes each stream's bytes between the two.

The project models three parts of it and proves what they promise.

**The relay protocol as one composed system.** `RelaySystem` puts the relay's session table, any number
of agents with their relay-side handlers, and any number of operator streams into one world that moves
one step at a time: one step per lock section, per channel send or receive, and per program-counter move
of a handler or task, in any interleaving. Channels are FIFO queues of capacity 256 drained by
forwarding tasks (`Pipes`). `AgentProcess` is the agent's loop with its reader and writer tasks,
`OperatorStream` the operator's bridge and handler, `RelayRules` what the relay's lock sections compute.
`RelayInvariant` states the invariant of the world; `QuietSteps`, `TableSteps`, `SessionSteps` and
`JoinSteps` show that each kind of step keeps it; `Invariance` collects them into all steps and all runs;
`Evolution` shows what no step undoes. The theorems are in `Delivery` (bytes end to end), `Routing`,
`Authorisation`, `SingleUse`, `History`, `Removal`, `Cleanup`, `Leaks`, `Membership`, `Notices` and `Grammar`;
`Frames`, `Forwarding`, `Farewell` and `Voices` account for every message, not only its bytes; `Progress` says
what may be waited for; `Exchange` and `LeakWitness` are runs. A state is reachable if it occurs in a run
from the empty relay. What the relay forgets (used codes, expired streams, frames taken) is kept in history
fields that no step reads to decide anything.

`RelayServer` is the relay's shared state as the object it is: a class whose methods, loops over sessions
in arbitrary order included, are proved against the same functions the system's steps use. `AgentLoop`
is the agent's frame loop as a class whose methods refine the system's agent steps, and `StreamTasks` the
buffer loops of a stream's two ends.

**Text codecs.** Shell quoting against a lexer (`ShellWords`), the join command the relay prints and the
agent reads (`JoinCommand`), PEM and base64 (`Texts`, `Base64`, `Pem`), fingerprints (`Fingerprint`)
and PowerShell arrays (`PowerShellText`).

**Two loops of the operator's command line**: waiting for the agent, and checking a deployed relay
(`RelayCli`).

Assumptions, all visible in the step guards or in `requires` clauses: session ids and codes are fresh
(they are UUIDs), the clock does not run back and a sleep lasts at least as long as asked, stream
numbers do not wrap, agents run the agent's own loop. Times of the protocol are whole seconds, those of the
wait loop nanoseconds. An aborted task may still be running after the abort and then stops by a step of
its own.

Three promises hold only under a condition, which is proved to be exact. The join command does not work for
every list of tunnels a session may be created with: the relay accepts names containing `=`, empty names or hosts,
repeated names and values that look like flags, and prints a command for them that cannot be joined
(`JoinCommand.JoinCommandWorks`). The PowerShell array does not survive values holding a typographic
single quote, which PowerShell reads as an ASCII one (`PowerShellText.ArrayRoundTrip`). And a stream
whose handler has returned is out of the session maps except when its `OpenStream` was refused, its session
still exists, and its agent's handler was over before the insertion or is not over yet
(`Leaks.LeftBehindExactly`); in the first case it stays until the session is ended
(`Leaks.LeakLastsUntilEnd`), and `LeakWitness` shows a run in which that happens.

## Model

| member | source | states |
|---|---|---|
| Pipes.MoveKeepsSent | crates/relaykit-server/src/lib.rs:842-847 | The forwarding task of a connection neither loses, duplicates nor reorders a message between channel, task and websocket. |
| Pipes.TrySendAppendsOrDrops | crates/relaykit-server/src/lib.rs:1223-1229 | `try_send(..).ok()` appends the message exactly when the channel is open and below capacity, and otherwise leaves the pipe as it was. |
| AgentProcess.AgentStepKeeps | crates/relaykit-agent/src/lib.rs:189-323 | Every await point of the agent's loop, send task, reader and writer tasks keeps the agent's invariant: per-stream byte accounting both ways, the message grammar, dialled endpoints taken from its own table, bounded queues. |
| OperatorStream.OperatorStepKeeps | crates/relaykit-tunnel/src/lib.rs:329-374 | Every step of the operator's bridge and of its relay handler's private state keeps both byte hops: nothing read is lost before the handler, nothing received is lost before the socket. What it does with closes and errors is stated by the rows of `Forwarding`. |
| Invariance.StepKeeps | crates/relaykit-server/src/lib.rs:771-1024 | Every step of the composed system, relay handlers, agents, bridges and queues together, keeps the global invariant, whatever the interleaving. |
| Invariance.RunKeeps | crates/relaykit-server/src/lib.rs:771-1024 | Every state of every run satisfies the invariant. |
| Invariance.PeersExist | crates/relaykit-server/src/lib.rs:904-950 | The step guards ask for no record that is not always there: every agent, stream and session known anywhere has its records. |
| Invariance.FrameTargetsExist | crates/relaykit-server/src/lib.rs:1183-1197 | A sender cloned for routing always belongs to an existing operator channel, and a chunk being pushed to an existing local channel. |
| Invariance.ClosedPeersExist | crates/relaykit-server/src/lib.rs:1236-1255 | Everyone an ended session still has to notify exists. |
| Progress.HandlerWaitsForRoom | crates/relaykit-server/src/lib.rs:771-885 | An agent's handler that is not over has a step, or waits for room: to greet, or in the operator's open, full channel. |
| Progress.OperatorWaitsForRoom | crates/relaykit-server/src/lib.rs:904-1024 | An operator's handler that has not returned has a step, or waits for room in its agent's open, full channel. |
| Progress.AgentWaitsForRoom | crates/relaykit-agent/src/lib.rs:189-323 | An agent's loop in the middle of a frame, and each of its reader tasks, has a step or waits for room in an open, full channel. |
| Delivery.UpstreamAccounting | crates/relaykit-server/src/lib.rs:974-1008 | In every reachable state the bytes read from the operator's socket equal, in order, those written to the target, held or queued by the local writer, discarded by the agent, in its hand, in the agent's shared pipe, or still on the operator's side. |
| Delivery.DownstreamAccounting | crates/relaykit-server/src/lib.rs:849-876 | The same for target to operator: bytes read from the target equal written, being written, in the operator's pipe, dropped, in the relay's hand, in the agent's shared pipe, or in the reader task. |
| Delivery.NothingLostYet | crates/relaykit-agent/src/lib.rs:228-242 | While the agent's map holds a stream nothing of it was discarded, and while a session's map holds it nothing of it was dropped. |
| Delivery.IdleMeansDelivered | crates/relaykit-tunnel/src/lib.rs:329-374 | A stream still in the maps whose path is empty has delivered exactly what was read, in each direction. |
| Delivery.PrefixSafety | crates/relaykit-tunnel/src/lib.rs:329-374 | For every dialled stream, what was written to the target is a prefix of what the same stream's operator socket gave, and what was written to that socket a prefix of what the target gave. |
| Delivery.RunPrefixSafety | crates/relaykit-tunnel/src/lib.rs:329-374 | Prefix safety between any two states of a run: written bytes are never taken back and stay prefixes of what was read, through aborts, expiry, ended sessions and lost agents. |
| Delivery.NothingFromNowhere | crates/relaykit-server/src/lib.rs:910-950 | A stream for which no target was dialled has written nothing to its operator's socket. |
| Delivery.LocalIsLinked | crates/relaykit-agent/src/lib.rs:261-283 | A stream an agent dialled a target for exists at the relay and is linked to that very agent. |
| Delivery.ChannelsBounded | crates/relaykit-server/src/lib.rs:502 | No channel of any reachable state holds more than 256 messages: to agents, to operators, from agents, and to local targets. |
| Routing.StreamInOwnMapOnly | crates/relaykit-server/src/lib.rs:940-950 | A stream id occurs in the map of no session but its own, under its own channel. |
| Routing.AskedInOwnSession | crates/relaykit-server/src/lib.rs:904-950 | Whatever stream an agent was asked to open belongs to that agent's session. |
| Routing.LookUpIsSessionScoped | crates/relaykit-server/src/lib.rs:1178-1193 | Whatever the search over all sessions finds, in any iteration order, is what the sending agent's own session holds. |
| Routing.DropIsSessionScoped | crates/relaykit-server/src/lib.rs:1201-1211 | The removal loop over all sessions changes only the sending agent's own session. |
| Routing.RemoveOwnIsSessionScoped | crates/relaykit-server/src/lib.rs:1014 | So does the operator handler's removal. |
| Routing.DeliveredToOwnStream | crates/relaykit-server/src/lib.rs:1194-1198 | The channel a frame is delivered to is that of the stream the frame names, a stream of the sender's own session and agent. |
| RelayRules.OffersAccepted | crates/relaykit-server/src/lib.rs:1284-1308 | The offers pass the relay's check if and only if their names are distinct and each is, name, host and port, the first allowed tunnel of its name. |
| RelayRules.FindTunnelFirst | crates/relaykit-server/src/lib.rs:1290-1293 | The search fails exactly when no tunnel has the name, and otherwise returns the one of that name before which none has it. |
| RelayRules.FirstOfferErrorWins | crates/relaykit-server/src/lib.rs:1284-1308 | An error is reported if and only if it is that of the first offending offer: every offer before it is authorised, and it repeats a name, names no allowed tunnel, or differs from the first allowed tunnel of its name, as the error says. |
| RelayRules.JoinExactly | crates/relaykit-server/src/lib.rs:1268-1281 | A hello is granted if and only if the session is unexpired, its code unused and the offers authorised, and otherwise refused for the first of these that fails. |
| RelayRules.OpenExactly | crates/relaykit-server/src/lib.rs:910-936 | A stream is admitted if and only if its session exists, is unexpired, has some allowed tunnel of the target's name and an agent, and otherwise refused for the first of these that fails. |
| Authorisation.ExposeMapEntry | crates/relaykit-agent/src/lib.rs:144-148 | The agent's collected table holds exactly the names of its specs, each with the target of the last spec of that name. |
| Authorisation.LastWinsIsFirstWins | crates/relaykit-agent/src/lib.rs:144-148 | For specs of distinct names the last-wins table and a first-wins search agree. |
| Authorisation.TableIsAuthorised | crates/relaykit-server/src/lib.rs:1284-1308 | For accepted offers every entry of the agent's table is the first allowed target of that name. |
| Authorisation.DialIsAuthorised | crates/relaykit-agent/src/lib.rs:200-217 | Whenever an agent dials, the endpoint is the target of the first tunnel its session's creator allowed under the requested name, and the agent is the one that used the session's code. |
| Authorisation.ConnectionIsAuthorised | crates/relaykit-agent/src/lib.rs:261-283 | The same of every target connection that exists, whatever happened since. |
| Authorisation.OpenedTargetWasAllowed | crates/relaykit-server/src/lib.rs:922-931 | Every stream the relay ever asked an agent to open names an allowed tunnel of its session. |
| SingleUse.AtMostOneAgentEver | crates/relaykit-server/src/lib.rs:1257-1282 | Of any number of hellos at any times of a run at most one agent is ever registered for, hence attached to, a given session. |
| SingleUse.PhaseOnlyAdvances | crates/relaykit-server/src/lib.rs:796-829 | Between any two states of a run a session moves only forward through fresh, consumed, attached, detached. |
| SingleUse.TableMatchesPhase | crates/relaykit-server/src/lib.rs:475-488 | A session's consumed flag says exactly that its phase is not fresh, and its agent is present exactly while it is attached, being the agent that used its code. |
| SingleUse.SenderIsUser | crates/relaykit-server/src/lib.rs:818-829 | The agent whose sender a session holds is connected and is the recorded user of its code. |
| SingleUse.ClearsExactlyItsOwn | crates/relaykit-server/src/lib.rs:1213-1234 | `clear_agent`, which checks no ownership, always finds its own handler's sender if the session exists, and leaves every session with another sender as it was. |
| History.AdmissionHappened | crates/relaykit-server/src/lib.rs:910-936 | Every stream linked to an agent was admitted in an earlier state of the run, at its recorded time: its session existed and had not expired, allowed the target, and had that agent attached. |
| History.GrantHappened | crates/relaykit-server/src/lib.rs:1263-1281 | Every used code was granted in an earlier state of the run, at its recorded time, to a hello carrying that code whose offers the unexpired, unused session accepted. |
| History.StreamCertificate | crates/relaykit-server/src/lib.rs:910-950 | Every stream ever inserted was checked strictly before creation time plus max(ttl, 60), for an allowed target, towards the one agent that used the session's code, itself before expiry. |
| History.CheckAdmitsExactly | crates/relaykit-server/src/lib.rs:910-936 | The handler's first lock section lets a stream go on exactly if its session exists, has not expired, allows the target in any place of its list and has an agent, and then towards that agent. |
| History.RegisterGrantsExactly | crates/relaykit-server/src/lib.rs:1257-1282 | Registration grants exactly a hello that names an existing, unexpired, unused code with authorised offers, keeping or replacing the label; any other is refused for the first reason and changes no session. |
| History.HelloAdmitsExactly | crates/relaykit-server/src/lib.rs:776-795 | A connection is considered for registration exactly if its first message is a hello of protocol relaykit.v0. |
| History.RefusalIsTold | crates/relaykit-server/src/lib.rs:798-812 | A refused agent is sent the reason, which is all it was ever sent, and its handler is over. |
| Evolution.RunForward | crates/relaykit-server/src/lib.rs:771-1024 | Between any two states of a run no handler moves back, no session or agent link changes once made, byte histories and targets of connections only grow, and used codes stay used. |
| Removal.RemovalIsFinal | crates/relaykit-server/src/lib.rs:1201-1234 | A stream that left the session maps is in no map of any later state of the run. |
| Removal.AtMostOneLateDelivery | crates/relaykit-server/src/lib.rs:1183-1197 | After a stream's removal at most one further message of it is queued to its operator, and only if its agent's handler already held its sender at the removal. |
| Cleanup.FinishedStreamsAreRemoved | crates/relaykit-server/src/lib.rs:952-1023 | A stream whose operator handler has returned is still in a session's map only if its OpenStream was never accepted. |
| Leaks.LeftBehindExactly | crates/relaykit-server/src/lib.rs:938-958 | A stream whose operator handler has returned is still in a session's map if and only if it was inserted and never opened, its session exists, and its agent's handler was over before the insertion or is not over yet. |
| Leaks.LeakLastsUntilEnd | crates/relaykit-server/src/lib.rs:952-958 | A stream left behind late, by a handler that returned after its agent's handler was over, stays in its map over the run exactly until its session is ended. |
| LeakWitness.LeakHappens | crates/relaykit-server/src/lib.rs:936-958 | Some run leaves a stream behind: its agent's connection is cleared between the operator handler's two lock sections, and the refused OpenStream ends the handler. |
| LeakWitness.RefusalMayBeCleared | crates/relaykit-server/src/lib.rs:952-958 | Some run refuses an OpenStream without leaving the stream behind: the agent's connection is cleared after the insertion. |
| Notices.AtMostOneNotice | crates/relaykit-server/src/lib.rs:1223-1229 | Over any run an operator's channel accepts at most one notice made by the relay itself, agent disconnected or session ended, and none after the stream has left its map and has been told. |
| Notices.OutputIsDeliveriesAndOneNotice | crates/relaykit-server/src/lib.rs:1178-1255 | Between any two states of a run a stream's operator channel grows by exactly, in order, the frames its agent's handler delivered and the relay's notice with the stream's own id, of which there is at most one. |
| Notices.EndedSessionsTellStreams | crates/relaykit-server/src/lib.rs:1247-1254 | Over any run, after a session was ended each stream its map held is still to be told or was: its channel accepted the notice unless it was full or closed in the step that tried. |
| Notices.EndedSessionsTellTheirAgent | crates/relaykit-server/src/lib.rs:1237-1246 | So is the agent that was attached to it. |
| Frames.FramesReachOperator | crates/relaykit-server/src/lib.rs:1178-1198 | In every reachable state all frames of a stream that the relay took off its agent's websocket, data, closes and errors alike, are in this order and without gap: those the operator's channel accepted, those dropped, and the one in hand; the channel accepted nothing else but at most one notice, with at most one frame after it; nothing is dropped while a map holds the stream. |
| Frames.EndsAreDelivered | crates/relaykit-server/src/lib.rs:857-871 | An end of a stream that the relay took and no longer holds was accepted by the operator's channel, or dropped because the stream was in no map. |
| Frames.RunRouted | crates/relaykit-server/src/lib.rs:849-876 | Over any run the frames taken are the frames delivered in its steps, then those dropped, then the one in hand. |
| Forwarding.FramesReachAgent | crates/relaykit-server/src/lib.rs:974-1008 | In every reachable state all the relay ever sent an agent about a stream is its opening, then every frame taken off the operator's websocket under the stream's own id and in order, then at most the handler's own close; only the frame in hand may be missing, for good only if the channel closed. |
| Forwarding.BridgeKeepsItsWord | crates/relaykit-tunnel/src/lib.rs:329-374 | The bridge has said exactly what it read, in non-empty chunks of at most 16 KiB, and a close exactly once its socket ended; while it goes on no close or error has reached it. |
| Forwarding.EndReachesAgent | crates/relaykit-server/src/lib.rs:988-993 | When the operator's socket has ended and its messages are forwarded, the agent's channel has accepted about the stream exactly its opening, all that was read in data messages, and a close. |
| Farewell.FinishedStreamsTellTheirAgent | crates/relaykit-server/src/lib.rs:1010-1014 | Over any run, a handler that opened its stream and is past its loop has told its agent: the agent's channel ends in the stream's close unless it was full or closed in the step that tried. |
| OperatorStream.RelabelledKeeps | crates/relaykit-server/src/lib.rs:980-1003 | Relabelling changes the id of a data, close or error frame and nothing else. |
| Voices.EveryOpenIsAnswered | crates/relaykit-agent/src/lib.rs:200-227 | In every reachable state each stream an agent was asked to open is dialled, being dialled, or refused with an error of that stream, sent or in hand, unless the agent left its loop. |
| Voices.FinishedReadersToldAll | crates/relaykit-agent/src/lib.rs:289-321 | A reader task that finished while the channel to the relay was open told it all that was read from the target, then the error exactly if reading failed, then a close. |
| Voices.ReadFailureIsTold | crates/relaykit-agent/src/lib.rs:292-304 | Over any run, after a failed read the finished reader's last words on an open channel are that very error and a close. |
| Voices.StoppedWritersAreDone | crates/relaykit-agent/src/lib.rs:281-287 | Over any run, a writer task that stopped writes nothing more to the target, and its channel takes nothing more. |
| Membership.OutOfMapHasReason | crates/relaykit-server/src/lib.rs:1201-1231 | A stream that entered its session's map and is missing from it, though the session exists, is out because its operator handler returned, its agent's handler is over, or its agent ended it. |
| Membership.InMapExactly | crates/relaykit-server/src/lib.rs:840-876 | While the agent's handler is in its loop and not dealing with an end of the stream, an inserted stream is in a map if and only if its session exists, its agent has not ended it, and its own handler has not returned after opening it. |
| Exchange.ExchangeHappens | crates/relaykit-server/src/lib.rs:771-1024 | For any allowed tunnels, any tunnel an agent serves of them and any bytes, some run has the operator's bytes written to that tunnel's target and the target's to the operator, both ends closed, and the stream forgotten by relay and agent. |
| Cleanup.EndedStreamsAreRemoved | crates/relaykit-server/src/lib.rs:856-871 | Once the relay has taken a stream's close or error off its agent's websocket and dealt with it, the stream is in no session's map. |
| Grammar.UpPhaseMeaning | crates/relaykit-agent/src/lib.rs:289-321 | The phase automaton's state says exactly which of Data*, Data* Error, Data* [Error] Close the stream's messages form; it rejects exactly the rest. |
| Grammar.AgentOutputGrammar | crates/relaykit-agent/src/lib.rs:200-323 | In every reachable state everything an agent ever sent about a stream is a prefix of Data* [Error] Close. |
| Grammar.AgentSpeaksOfItsOwn | crates/relaykit-agent/src/lib.rs:200-323 | An agent has only ever sent messages about streams the relay opened towards it. |
| Grammar.DownGrammarMeaning | crates/relaykit-server/src/lib.rs:952-958 | The relay's output grammar holds of a log if and only if, for each stream, its messages begin with the only OpenStream among them. |
| Grammar.RelayOutputGrammar | crates/relaykit-server/src/lib.rs:952-1008 | In every reachable state everything the relay ever sent an agent about a stream begins with exactly one OpenStream: no data, close or error before it. |
| RelayRules.EffectiveTtl | crates/relaykit-server/src/lib.rs:516 | The larger of 60 and the requested time to live. |
| RelayServer.ValidateAgentExposes | crates/relaykit-server/src/lib.rs:1284-1308 | The nested loops return the first offence in offer order, all offers before it being authorised, and none exactly for authorised offers. |
| RelayServer.SeenBefore | crates/relaykit-server/src/lib.rs:1286 | Whether an earlier offer has the same name. |
| RelayServer.FirstNamed | crates/relaykit-server/src/lib.rs:1290-1293 | The first allowed tunnel of a name, or none. |
| RelayServer.RelayServer.constructor | crates/relaykit-server/src/lib.rs:98-107 | An empty table, with stream ids starting at 1. |
| RelayServer.RelayServer.CreateSession | crates/relaykit-server/src/lib.rs:504-577 | An empty tunnel list is refused; otherwise exactly the new session enters the table, with its label and tunnels, expiring max(ttl, 60) seconds from now, unconsumed, without agent and streams. |
| RelayServer.RelayServer.FindByCode | crates/relaykit-server/src/lib.rs:1268-1271 | Some session of that code, in any iteration order, or none if there is none. |
| RelayServer.RelayServer.RegisterAgentSession | crates/relaykit-server/src/lib.rs:1257-1282 | Success consumes exactly an unexpired, unused session with the code that authorises the offers, its label replaced only by one the hello brings; every refusal leaves the table unchanged and names the check that failed first. |
| RelayServer.RelayServer.AttachAgent | crates/relaykit-server/src/lib.rs:818-829 | The sender enters the session if it still exists; otherwise nothing changes. |
| RelayServer.RelayServer.AllocateStream | crates/relaykit-server/src/lib.rs:909 | An id given out to nobody before and in no session's map. |
| RelayServer.RelayServer.CheckOperator | crates/relaykit-server/src/lib.rs:910-936 | The attached agent's channel exactly when the session exists, is unexpired, has an allowed tunnel of the target's name anywhere in its list, and has an agent; otherwise the first of these that fails. |
| RelayServer.RelayServer.InsertStream | crates/relaykit-server/src/lib.rs:938-950 | The new channel enters the map of the session, or is closed again if the session is gone; no other session changes and streams stay in one map only. |
| RelayServer.RelayServer.FindOperator | crates/relaykit-server/src/lib.rs:1183-1193 | The search over all sessions, in any order, finds the stream's own channel exactly when some session holds it. |
| RelayServer.RelayServer.RemoveStream | crates/relaykit-server/src/lib.rs:1201-1211 | After the loop over all sessions no session holds the stream and nothing else changed. |
| RelayServer.RelayServer.NotifyStreams | crates/relaykit-server/src/lib.rs:1248-1254 | In any order, each stream of the map was offered one error with its own id, and no other channel changed. |
| RelayServer.RelayServer.ClearAgent | crates/relaykit-server/src/lib.rs:1213-1234 | The session ends agentless and without streams, each of its streams was offered one disconnect error, everything else is unchanged; a missing session changes nothing. |
| RelayServer.RelayServer.EndSession | crates/relaykit-server/src/lib.rs:616-638 | The session leaves the table and its agent and each of its streams were offered the end notice; a missing session changes nothing. |
| RelayServer.BroadcastIsExact | crates/relaykit-server/src/lib.rs:1213-1255 | Queue by queue: exactly one error with the stream's own id for a listening, non-full queue of the session, and no change to any other queue. |
| AgentLoop.AgentLoop.constructor | crates/relaykit-agent/src/lib.rs:144-148 | The table is collected by a loop in which later specs replace earlier ones; the loop starts with no streams. |
| AgentLoop.AgentLoop.Run | crates/relaykit-agent/src/lib.rs:189-258 | For any frames, dial results and channel closures: while the loop lasts its map holds exactly the streams opened and not ended since, exactly their data was handed on in order and the data for other streams discarded, and exactly the requests that could not be served were answered with an error; it ends early only at an error frame or a closed channel, and then the map is empty and at most the chunk in hand is lost. |
| StreamTasks.ReaderTask | crates/relaykit-agent/src/lib.rs:289-321 | With a buffer reused in place and any read sizes, the task sends a word of Data* [Error] Close carrying a prefix of what it read, all of it unless the channel closed, with an error exactly if the source failed. |
| StreamTasks.ForwardFrames | crates/relaykit-server/src/lib.rs:974-1008 | The operator handler's loop sends every frame on under the stream's id, in order, stops after an error frame, and fails at the first frame the agent's channel refuses. |
| StreamTasks.SendChunks | crates/relaykit-agent/src/lib.rs:290-314 | The data loop: non-empty chunks of at most 16 KiB whose concatenation is the input, or a prefix of it if the channel closed. |
| StreamTasks.ToRelay | crates/relaykit-tunnel/src/lib.rs:329-353 | On success all bytes read were sent, in order, then one close; after a read error or a broken websocket a prefix was sent, all of it if only the read failed, and no close. |
| StreamTasks.FromRelay | crates/relaykit-tunnel/src/lib.rs:355-374 | The data of the frames before the first close or error is written; the end is reported as it came: close, error from the relay, broken websocket, or a failed write, which leaves a proper prefix. |
| ShellWords.LexQuoted | crates/relaykit-cli/src/bin/rk.rs:2191-2193 | A quoted value is read by the shell as exactly that value, whatever surrounds it. |
| ShellWords.DisplayRoundTrip | crates/relaykit-cli/src/bin/rk.rs:1488-1496 | The words of a displayed command are exactly the program and its arguments, for all strings. |
| ShellWords.DisplayInjective | crates/relaykit-cli/src/bin/rk.rs:1488-1496 | Different commands are displayed differently. |
| ShellWords.SudoChecksumRoundTrip | crates/relaykit-cli/src/bin/rk.rs:1934-1950 | With sudo, the checksum command lexes to sudo, sh, -c and the inner script verbatim. |
| ShellWords.ChecksumThroughSsh | crates/relaykit-cli/src/bin/rk.rs:1934-1950 | The script survives both the shell that reads the displayed ssh command and the one the remote host starts. |
| ShellWords.NestedRoundTrip | crates/relaykit-cli/src/bin/rk.rs:2191-2193 | Quoting is inverted at every nesting depth. |
| JoinCommand.PortRoundTrip | crates/relaykit-agent/src/lib.rs:59-61 | A printed 16-bit port is parsed back to itself. |
| JoinCommand.ExposeRoundTrip | crates/relaykit-agent/src/lib.rs:49-75 | A printed tunnel is parsed back to itself if and only if its name is non-empty and free of '=' and its host is non-empty. |
| JoinCommand.AgentCommand | crates/relaykit-server/src/lib.rs:1328-1359 | The command grown flag by flag in the loop is the quoted rendering of relay, code, optional fingerprint and label, and one --tcp per tunnel in order. |
| JoinCommand.LexCommand | crates/relaykit-server/src/lib.rs:1328-1359 | The shell reads the printed command as the program, the subcommand, and each flag followed by its value. |
| JoinCommand.UnderstoodExactly | crates/relaykit-cli/src/bin/relaykit-agent.rs:33-48 | The agent's flags give back relay, code, label, fingerprint and every tunnel if and only if no value looks like a flag and every tunnel is printable. |
| JoinCommand.OwnOffersAccepted | crates/relaykit-server/src/lib.rs:1284-1308 | The offers made from a session's own tunnels are accepted if and only if the tunnels' names are distinct. |
| JoinCommand.JoinCommandWorks | crates/relaykit-server/src/lib.rs:1328-1359 | The printed command, lexed, parsed, planned and offered, recovers everything and is accepted by the relay that printed it if and only if: the tunnel list is non-empty, names are distinct, non-empty, '='-free and do not start with '-', hosts are non-empty, and relay, code and label do not look like flags. |
| JoinCommand.OwnCommandWorks | crates/relaykit-server/src/lib.rs:512-533 | With the code the relay makes itself the printed command works if and only if url, label and tunnels meet that condition. |
| JoinCommand.EqualsSignBreaksCommand | crates/relaykit-server/src/lib.rs:1310-1318 | A session with a tunnel named a=b may be created; the command printed for it never works. |
| JoinCommand.RepeatedNameBreaksCommand | crates/relaykit-server/src/lib.rs:1310-1318 | Nor does that of a session with the same tunnel twice. |
| PowerShellText.ArrayRoundTrip | crates/relaykit-server/src/lib.rs:1672-1678 | Reading the printed array gives back the original values, newlines included, if and only if no value contains one of PowerShell's typographic single quotes. |
| PowerShellText.TypographicQuoteBreaksArray | crates/relaykit-server/src/lib.rs:1672-1678 | A label holding U+2019 is not read back. |
| PowerShellText.ReadQuoted | crates/relaykit-server/src/lib.rs:1691-1693 | A printed literal is read as its value whatever separator follows. |
| Base64.DecodesExactly | crates/relaykit-server/src/lib.rs:303-305 | A text decodes to some bytes if and only if it is their canonical padded encoding. |
| Base64.EncodesBits | crates/relaykit-server/src/lib.rs:303-305 | Group by group, the text shows the three bytes' 24 bits as four characters of the standard's table, padding standing for those that hold none of the input. |
| Pem.BlocksLoop | crates/relaykit-server/src/lib.rs:285-310 | The loop, whose rest shrinks each time, returns what `Pem.ExtractsExactly` characterises. |
| Pem.FirstPemBlock | crates/relaykit-server/src/lib.rs:312-321 | The result is decided by the first label, in label order, that the file has blocks of or cannot be read for; without any there is no supported block. |
| Pem.ExtractsExactly | crates/relaykit-server/src/lib.rs:285-310 | For any file: the bytes of its blocks if and only if every begin marker reached is followed by an end marker and a decodable body; refused as unterminated if and only if a begin marker without end marker is reached, as invalid if and only if an undecodable body is. |
| Pem.TruncatedIsRefused | crates/relaykit-server/src/lib.rs:293-296 | A file cut off inside its last block is refused, however many whole blocks stand before it. |
| Pem.UndecodableIsRefused | crates/relaykit-server/src/lib.rs:303-305 | A file with a block that is the encoding of no bytes is refused, whatever stands around it. |
| Pem.ExtractionInvertsRendering | crates/relaykit-server/src/lib.rs:285-310 | For any DER list, line widths, header lines with a colon, blanks at line ends and text between blocks, extraction returns exactly the list in order. |
| Pem.OtherBlockIsNoise | crates/relaykit-server/src/lib.rs:285-310 | A block of another label hides nothing and yields nothing. |
| Pem.LabelOrderDecides | crates/relaykit-server/src/lib.rs:312-321 | Of two blocks the one of the first label is chosen although the other stands first in the file. |
| Fingerprint.ParseExactly | crates/relaykit-tunnel/src/lib.rs:118-142 | A text parses to a digest if and only if it is 64 hex digits worth, by their places in the two tables of digits, the digest's 32 bytes, in either case, with colons anywhere among them, an optional sha256: or SHA256: prefix, and blanks around. |
| Fingerprint.ParseIsCanonical | crates/relaykit-tunnel/src/lib.rs:118-142 | Whatever is parsed is 64 lower-case hex digits. |
| Fingerprint.ParseDisplay | crates/relaykit-tunnel/src/lib.rs:112-116 | Parsing a printed fingerprint is the identity. |
| Fingerprint.PrintedIsRead | crates/relaykit-tunnel/src/lib.rs:118-142 | A digest printed in upper or lower case, with or without colons between its bytes, after either prefix or none, is read as that digest in lower case. |
| Fingerprint.SpellingIsRead | crates/relaykit-tunnel/src/lib.rs:118-142 | Whatever the case of each digit and the place of the colons, the text is read as the digest its digits are worth, and the pinned verifier then accepts that digest and no other. |
| Fingerprint.LowerHexLoop | crates/relaykit-tunnel/src/lib.rs:447-455 | The pushing loop yields two digits per byte, high half first. |
| Fingerprint.LowerHexInjective | crates/relaykit-tunnel/src/lib.rs:447-455 | Different byte strings print differently. |
| Fingerprint.HexOfBytes | crates/relaykit-tunnel/src/lib.rs:447-455 | Every even-length lower-case hex text is the print of the bytes it denotes. |
| Fingerprint.VerifierAcceptsOnlyThePinned | crates/relaykit-tunnel/src/lib.rs:215-232 | The pinned verifier accepts a certificate if and only if its digest is the 32 bytes the configured text denotes. |
| RelayCli.WaitForAgent | crates/relaykit-cli/src/bin/rk.rs:938-981 | At most ceil(T/2s)+1 polls; connected, failed or timed out as the last poll says, never timed out before the deadline; progress lines before the deadline, one per 10 s interval at most, fewer than ceil(T/10s) of them; the next line always a whole number of intervals after the start. |
| RelayCli.ReportProgress | crates/relaykit-cli/src/bin/rk.rs:968-973 | A line is printed exactly when one is due, and the next one then lies in the future. |
| RelayCli.NextProgressAfter | crates/relaykit-cli/src/bin/rk.rs:970-972 | The inner loop advances by whole intervals to the first time after now. |
| RelayCli.PlanRelayStatus | crates/relaykit-cli/src/bin/rk.rs:1855-1932 | Two commands for the relay, then exactly two for each artifact, its own, in artifact order; an invalid request or an empty artifact list is refused. |
| RelayCli.ActiveCommandRuns | crates/relaykit-cli/src/bin/rk.rs:1872-1886 | The remote shell asks the service manager about the service's own unit. |
| RelayCli.HealthCommandRuns | crates/relaykit-cli/src/bin/rk.rs:1873-1896 | The remote shell runs curl on the loopback health address: over https without certificate check if the relay has TLS, over http otherwise. |
| RelayCli.ExecutableCommandRuns | crates/relaykit-cli/src/bin/rk.rs:1897-1922 | The remote shell, with sudo unless told otherwise, tests the very file the report names, and the report's checksum file is the one beside it. |
| RelayCli.ChecksumScriptChecks | crates/relaykit-cli/src/bin/rk.rs:1934-1943 | The script enters the artifact's directory, looks for its checksum file, and has either verifier check that very file. |
| RelayCli.ChecksumCommandRuns | crates/relaykit-cli/src/bin/rk.rs:1934-1950 | With sudo or without, the remote shell gets that script verbatim. |
| RelayCli.RunCommands | crates/relaykit-cli/src/bin/rk.rs:1830-1846 | Every index is in bounds; each artifact's fields hold the results of its own two commands; the verdict is that all commands succeeded; a command that cannot be started stops the run there. |
| RelayCli.CheckRelayStatus | crates/relaykit-cli/src/bin/rk.rs:1822-1853 | A dry run runs nothing; otherwise every planned command runs once in order, each result lands in its own field, and the status is ok if and only if all succeeded. |

## Left out

- TLS, websocket handshakes, HTTP routing, authentication of operators and TCP: a websocket is an unbounded FIFO of messages, a socket a source of arbitrary non-empty chunks or a sink of arbitrary partial writes, either of which may end at any step.
- JSON encoding of wire messages: messages are values; a frame that does not decode ends a loop like any other error.
- SHA-256, UUIDs and URLs: a digest, an id or a URL is a parameter.
- The exact text of error messages that spell out endpoints or operating-system errors; the texts the peers exchange are parameters or shortened.
- Session fields that nothing in the protocol decides by: capabilities, the agent's remote address, the recorded fingerprint.
- The graceful shutdown of a local writer when its stream leaves the map: a writer may stop at any step, which covers it.
- Liveness, fairness and freedom from cycles of full channels: a full channel blocks whoever sends to it, and the code promises none of these; `Progress` says only that nothing else is waited for.
- What the code does not keep, and the model therefore does not claim: that an agent is present while streams are, that an ended session sends its agent nothing more, that every operator hears of a disconnect (a full queue drops the notice), isolation from agents that invent stream ids.
- The await points of the agent and the bridge inside their classes and loops: concurrency is modelled by the steps of `RelaySystem`; `AgentLoop` and `StreamTasks` are the same code between awaits.
- The command-line parser: only the flags the join command prints are read, in the form it prints them; environment defaults and other flags are not part of this model.
- The join command on Windows shells: it is read by a POSIX shell whatever the agent's platform, which only chooses the default tunnels. A label or URL holding a NUL character cannot be an argument of any program; the lexer treats it as any other character.
- Character-class validators, scheme checks and precedence rules of the command line: the status plan takes the first complaint of its validators, and the port of the listen address, as parameters.
- The fixed bodies of the install, Linux and PowerShell join scripts, deployment, artifact publishing, printing and audit output.
- ShellWords.Lex: rejects unquoted operators, expansions and patterns instead of interpreting them, and knows no here-documents or aliases.
- SHA-256 collisions: the verifier lemma speaks of digests, not of certificates.
