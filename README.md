# client-benchmark: signaling router, send loop and statistics, in Dafny

This project models the sequential core of libdatachannel's `client-benchmark`
example. The example is a throughput benchmark. It sets up one peer connection
through a WebSocket signaling server. It then keeps the data channel full with
65535-byte messages, holding back whenever the channel buffers data, and reports
KB/s once per second. The model covers:

- **Signaling** (`signaling.dfy`). This module has three parts:
  - the `ws->onMessage` router, as the pure function `Route`, built from `Decode`, `CreatePeer` and `DispatchTo`;
  - the process-wide `peerConnectionMap` and `dataChannelMap`, kept in the class `Client` together with a log of the calls made into the peer-connection engine (connections made, remote descriptions set, remote candidates added, data channels created) and the messages sent on the signaling socket;
  - the envelopes built by `onLocalDescription` and `onLocalCandidate`.

  The maps use insert-if-absent semantics (`unordered_map::emplace`, modelled by `Emplace`). The `Client` methods are proved equal to the pure functions.
- **Benchmark** (`benchmark.dfy`). The data channel is the class `Channel`. Its `send` outcomes, and the buffered amount and open state after each send, come from a script. The send loop `SendWhileEmpty` is proved against the recursive function `RunBurst`. The lemma `RunBurstPerforms` states what every burst does: each send is issued with the guard true, and the burst stops exactly when the guard fails or a send throws. The accounting is in the contract of `SendWhileEmpty`: `sentSize` grows by 65535 for each send that returned. The statistics loop `StatsLoop` is proved against `TickReport`.
- **Addresses** (`addresses.dfy`). This module builds the STUN URL and the WebSocket URL, each adding its scheme only when it is missing. Parsers beside them prove that each URL splits back into its parts. It also holds the remote-id check and `randomId`, given the values of the random draws.

## Model

| member | source | states |
|---|---|---|
| `Addresses.WithPrefix` | examples/client-benchmark/main.cpp:75-77 | the result always starts with the scheme; an input that already starts with it is returned unchanged; any other input gets the scheme prepended |
| `Addresses.WithPrefixIdempotent` | examples/client-benchmark/main.cpp:140-142 | normalising an already normalised server adds no second scheme |
| `Addresses.NatToString` | examples/client-benchmark/main.cpp:78 | `to_string` of a port is a nonempty digit string with no leading zero |
| `Addresses.IntToStringRoundTrip` | examples/client-benchmark/main.cpp:143-144 | reading back the rendered port gives the same number, negative ones included |
| `Addresses.IntToString` | examples/client-benchmark/main.cpp:78 | `to_string` of a port never contains the URL separators `:` and `/` |
| `Addresses.StunServerUrl` | examples/client-benchmark/main.cpp:75-78 | the STUN entry starts with `stun:` and ends with the rendered port |
| `Addresses.WebSocketUrl` | examples/client-benchmark/main.cpp:139-144 | the signaling URL starts with `ws://` and ends with the local id |
| `Addresses.StunServerUrlRoundTrip` | examples/client-benchmark/main.cpp:75-78 | the STUN URL starts with `stun:` and splits at its last `:` into the normalised server and the port, whatever the server contains |
| `Addresses.WebSocketUrlRoundTrip` | examples/client-benchmark/main.cpp:139-144 | the signaling URL starts with `ws://` and splits back into the normalised server, the port and the local id, for any id without `/` |
| `Addresses.CheckRemoteId` | examples/client-benchmark/main.cpp:155-162 | an offer is made exactly when the typed id is nonempty and differs from the local id; an empty id means nothing to do, whatever the local id is |
| `Addresses.RandomId` | examples/client-benchmark/main.cpp:324-332 | the id has the requested length, its i-th character is the alphabet character chosen by the i-th draw, and it never contains `/` |
| `Addresses.GeneratedWebSocketUrlRoundTrip` | examples/client-benchmark/main.cpp:83 | with the 4-character generated local id, the signaling URL always splits back into the normalised server, the port and that id |
| `Benchmark.RunBurst` | examples/client-benchmark/main.cpp:177-180 | a burst issues at most as many returning sends as the channel has outcomes left; `RunBurstPerforms` says how it runs |
| `Benchmark.RunBurstPerforms` | examples/client-benchmark/main.cpp:176-183 | every send of a burst is issued with `bufferedAmount() == 0` (and `isOpen()` in the resume loop); all sends before the last returned; without a throw the guard is false at the end; with a throw the burst ends at the first throwing send |
| `Benchmark.SendWhileEmpty` | examples/client-benchmark/main.cpp:193-200 | the loop performs exactly `RunBurst`; `sentSize` grows by 65535 for each send that returned, and a throwing send is not counted; every recorded send attempt met the guard; the channel accepted exactly those messages |
| `Benchmark.Channel.Send` | examples/client-benchmark/main.cpp:178 | a send returns or throws as its script says, records the channel state it found, and leaves the channel as its outcome says |
| `Benchmark.Channel.Drain` | examples/client-benchmark/main.cpp:187 | the engine empties the buffer, the condition under which it calls `onBufferedAmountLow`; nothing else about the channel changes |
| `Benchmark.OnOpen` | examples/client-benchmark/main.cpp:172-185 | an expired channel is a no-op; otherwise one burst without the open check |
| `Benchmark.OnBufferedAmountLow` | examples/client-benchmark/main.cpp:187-201 | an expired channel is a no-op; otherwise one burst that also requires the channel open |
| `Benchmark.Counters.OnMessage` | examples/client-benchmark/main.cpp:205-208 | a binary message adds its length to `receivedSize`; a text message changes nothing |
| `Benchmark.BackpressureScenario` | examples/client-benchmark/main.cpp:177-180 | with three sends leaving the buffer empty and a fourth filling it, the burst stops after exactly four sends; once drained, the resume burst sends until the buffer fills again |
| `Benchmark.ResumeAfterDrain` | examples/client-benchmark/main.cpp:172-201 | the same run on a channel object: four sends on open, a drain, two sends on resume, and six messages counted in `sentSize` |
| `Benchmark.Duration` | examples/client-benchmark/main.cpp:212 | the loop length is `durationInSec` when that is positive and INT32_MAX otherwise |
| `Benchmark.KB` | examples/client-benchmark/main.cpp:219-220 | the reported KB is the largest whole number of 1024-byte units in the counter |
| `Benchmark.MB` | examples/client-benchmark/main.cpp:227-228 | the reported MB is the largest whole number of 1048576-byte units in the lifetime counter |
| `Benchmark.TickReport` | examples/client-benchmark/main.cpp:219-229 | a tick reports both window counters in truncated KB; the lifetime totals (truncated MB) and the RTT are present exactly when the tick number is a multiple of 5, and the RTT is 0 when the connection has none |
| `Benchmark.StatsLoop` | examples/client-benchmark/main.cpp:215-233 | the loop makes exactly `Duration(durationInSec)` reports, which is `durationInSec` when positive and INT32_MAX otherwise; report k is `TickReport` of the bytes counted in its window, where bytes counted before the loop fall in tick 1; it ends with both counters reset to 0 |
| `Benchmark.TotalsEveryFifthTick` | examples/client-benchmark/main.cpp:223-225 | among n reports numbered from 1, exactly n/5 carry lifetime totals |
| `Benchmark.TwoMessagesInOneWindow` | examples/client-benchmark/main.cpp:219 | two 65535-byte messages in one window are reported as 127 KB/s, because the division truncates |
| `Benchmark.Int32Increment` | examples/client-benchmark/main.cpp:217 | `++i` on a 32-bit index stays in range and adds one below INT32_MAX |
| `Benchmark.AsWrittenTickLoopNeverExits` | examples/client-benchmark/main.cpp:212-217 | when the duration falls back to INT32_MAX, the guard `i <= duration` holds after every increment of a 32-bit index, and INT32_MAX wraps to INT32_MIN |
| `Signaling.Find` | examples/client-benchmark/main.cpp:109-117 | `find` succeeds exactly on an object that has the member, and yields that member |
| `Signaling.GetString` | examples/client-benchmark/main.cpp:130-134 | `message[key].get<string>()` yields a string exactly when the member exists and is a string, and yields that string |
| `Signaling.Decode` | examples/client-benchmark/main.cpp:104-117 | a message goes on to routing exactly when it is text, parses, and has string `id` and `type` members; binary payloads and documents lacking `id` (or having a string `id` but lacking `type`) are skipped |
| `Signaling.Emplace` | examples/client-benchmark/main.cpp:319 | insert-if-absent: the key set grows by at most the key, existing entries are never overwritten, and the size grows by one exactly when the key was new |
| `Signaling.CreatePeer` | examples/client-benchmark/main.cpp:249-320 | a fresh connection is always made and returned; it is filed under the id only when the id was free; if the id was taken, the filed entry is an older connection, not the returned one; the registry invariant is kept |
| `Signaling.DispatchTo` | examples/client-benchmark/main.cpp:129-136 | at most one engine call, always on the given session: `offer`/`answer` with a string description sets the remote description with that description and type; `candidate` with string candidate and mid adds that candidate; a missing member aborts with a decode error; any other type makes no call |
| `Signaling.Route` | examples/client-benchmark/main.cpp:103-137 | the registry invariant is kept; entries are never removed or overwritten; the registry grows by one entry exactly for an offer from an unknown id, and is unchanged otherwise; undecodable messages and messages from an unknown id that are not offers make no engine call; a known id is reused whatever its type |
| `Signaling.RepeatedOfferReusesSession` | examples/client-benchmark/main.cpp:120-124 | a second offer from the same id creates nothing and goes to the connection the first one created |
| `Signaling.RouteAllKeys` | examples/client-benchmark/main.cpp:119-127 | after any sequence of messages, the registry holds exactly its earlier ids plus the ids that sent an offer |
| `Signaling.RouteAllKeepsEntries` | examples/client-benchmark/main.cpp:120-121 | an entry, once made, survives any later sequence of messages unchanged |
| `Signaling.DescriptionEnvelope` | examples/client-benchmark/main.cpp:258-260 | the outgoing description envelope carries string `id`, `type` and `description` members and no candidate members |
| `Signaling.CandidateEnvelope` | examples/client-benchmark/main.cpp:266-270 | the outgoing candidate envelope carries string `id`, `type: "candidate"`, `candidate` and `mid` members and no description |
| `Signaling.DescriptionEnvelopeRoutes` | examples/client-benchmark/main.cpp:129-131 | a description envelope received by a peer that knows the id, or that is offered to, sets the remote description once with the sent description and type, on the session filed under the id |
| `Signaling.CandidateEnvelopeRoutes` | examples/client-benchmark/main.cpp:132-135 | a candidate envelope for a known id makes one add-candidate call with the sent candidate and mid; for an unknown id it changes nothing |
| `Signaling.AnswererScenario` | examples/client-benchmark/main.cpp:122-131 | an offer from unknown id `AB12` on an empty registry files one new connection and sets its remote description once with the offer's description and type `offer` |
| `Signaling.Client.constructor` | examples/client-benchmark/main.cpp:47-48 | both maps start empty, as do the engine log and the outbox |
| `Signaling.Client.CreatePeerConnection` | examples/client-benchmark/main.cpp:249-321 | the state changes exactly as `CreatePeer` says, and the new connection is logged |
| `Signaling.Client.OnSignalingMessage` | examples/client-benchmark/main.cpp:103-137 | the registry, the engine log and the outcome change exactly as `Route` says; the channel map and the outbox are untouched |
| `Signaling.Client.ReadEnvelope` | examples/client-benchmark/main.cpp:104-117 | the text/parse/`id`/`type` checks skip, fail or accept a message exactly as `Decode` does |
| `Signaling.Client.Deliver` | examples/client-benchmark/main.cpp:129-136 | appends exactly the call `DispatchTo` chooses, and nothing else changes |
| `Signaling.Client.OfferTo` | examples/client-benchmark/main.cpp:164-170 | the offering side makes a connection, as `CreatePeer` says, then a `benchmark` data channel on it, and files the channel only if the id has none (`dataChannelMap.emplace` at line 210) |
| `Signaling.Client.OnDataChannel` | examples/client-benchmark/main.cpp:276-317 | an answerer's received channel first gets one burst without the open check, then is filed if the id has none; the registry and the log are unchanged |
| `Signaling.Client.OnLocalDescription` | examples/client-benchmark/main.cpp:258-264 | the description envelope is sent exactly when the WebSocket is still alive |
| `Signaling.Client.OnLocalCandidate` | examples/client-benchmark/main.cpp:266-274 | the candidate envelope is sent exactly when the WebSocket is still alive |
| `Signaling.Client.Clear` | examples/client-benchmark/main.cpp:237-238 | both maps are emptied; nothing else changes |

## Where the code decides

The model follows the code in these places, where the code may not do what one expects:

- A `candidate` or `answer` message is malformed when a needed member is missing or is not a string. Then `get<string>()` throws out of the WebSocket callback. The model reports `DecodeError` and stops that message. For an offer from an unknown id the connection is created before the description is read. So even when the description is missing, the new entry stays filed.
- `createPeerConnection` has no duplicate check. On the offering path, an id that an incoming offer already registered still gets a new connection. `emplace` does not file it, so the map keeps the older entry (`CreatePeer`).
- Two 65535-byte messages in one window report 127 KB/s, not 128: 131070 / 1024 truncates.
- The first burst, in `onOpen` and at the start of `onDataChannel`, does not check `isOpen()`. Only the resume bursts in `onBufferedAmountLow` do. The model keeps the difference (`checkOpen`).
- The statistics loop reads the counters (lines 219-220) and resets them (line 222) as separate steps, not one atomic read-and-reset.

## Left out

- Parsing and dumping JSON (nlohmann) is left out. Messages arrive as parsed values (`Json`), and a text that does not parse arrives as `Text(None)`. The dumped envelopes are assumed to parse back to the same values.
- The WebSocket transport is left out: `open`, `onOpen`, `onError`, `onClosed`, and the promise/future wait before reading the remote id (lines 86-101, 146-149). The error exit (lines 241-245) is represented only by the map cleanup in `Client.Clear`.
- The peer-connection engine is reduced to a log of four kinds of call. Registering the callbacks (lines 172-208, 253-276) is not logged, and the statistics reads `bytesReceived`, `bytesSent` and `rtt` (lines 227-229) arrive as `StatsLoop` inputs. Errors raised by `setRemoteDescription`, `addRemoteCandidate` or `Description(sdp, type)` are not modelled. Connection-state and gathering-state callbacks, and the channel's `onClosed` (lines 203, 253-256, 309), only log, so they are left out.
- A send on an exhausted script throws, so a burst on a channel whose buffer never fills is cut off at the end of its script (`RunBurst` always terminates). The real loop would keep sending until the buffer fills or the channel closes.
- The scripted channel changes its buffered amount and open state only at `send` calls. A drain or close that happens between two iterations of a burst is not modelled. `Channel.Drain` stands for the drain that triggers `onBufferedAmountLow`.
- Threads and atomics are left out. `StatsLoop` models the increments made during each one-second sleep (`sleep_for`, line 218) as bytes added just before the tick reads the counters. An increment lost between the read and the reset cannot happen in the model.
- `Benchmark.Counters.OnMessage`: `receivedSize` and `sentSize` are `size_t`, but the model counts in unbounded integers. The 2^64 wrap-around is not modelled, because a run never reaches 2^64 bytes: the offering side resets both counters every tick, and the answering side, which never runs the statistics loop and never resets them, would need decades at 10 GB/s.
- `Benchmark.StatsLoop` is the corrected loop: its index is unbounded, so it ends after `Duration` ticks (see Findings). `printStatCounter` is likewise unbounded.
- Console output is left out. Each `#i` line and its `Stats#` line become a `Report` value, and the other log lines are dropped.
- Reading the remote id from stdin (lines 151-154) and the `Cmdline` parser are left out; `parse_cl.h` is not part of this model. Server, port and duration are parameters. The no-STUN branch (lines 71-73), `config.iceServers.emplace_back` (line 80) and `ws->open(url)` (line 146) are not modelled beyond building the URLs.
- `randomId` is modelled over given draws. The random engine and the uniform distribution are not modelled.
- `main` as one sequence is not modelled. Its steps are modelled as separate members: URL building, the remote-id check, `OfferTo`, the handlers, `StatsLoop` and `Clear`.

## Findings

| source | as written | input that shows it | evidently intended | confidence | as-written member | corrected member |
|---|---|---|---|---|---|---|
| examples/client-benchmark/main.cpp:212-217 | `for (int i = 1; i <= duration; ++i)` with `duration = INT32_MAX` when no positive duration is given: no 32-bit `i` exceeds the bound, and `++i` at INT32_MAX overflows (undefined behaviour; wraps in practice) | `durationInSec = 0`, after tick 2147483647 | the loop runs the 2147483647 ticks it announces, then cleans up | low: only after 68 years of running; not executed | `Benchmark.AsWrittenTickLoopNeverExits` | `Benchmark.StatsLoop` |
