# b4ck-client core, modelled in Dafny

b4ck-client is a reverse-tunnel client. It dials a public rendezvous server,
registers a public port with a `listen` message, and waits for the server's
control messages. When the server sends `start`, the client connects to the
local service and relays bytes between the two connections until both
directions have finished. This project models the sequential decision logic
of that client over given outcomes of its I/O steps (dial ok or failed, a
received message or a failed receive, a copy that ended after n bytes with or
without an error).

The model has these modules:

- `Common` (common.dfy): `Option`, Go's `byte`, the `uint64` range, and the
  decimal rendering of Go's `%d`, with its round trip.
- `Logging` (logging.dfy), after log.go:
  - the five level constants;
  - case-insensitive `ParseLevel`;
  - a `Logger` class with `Child`, `SetLogLevel` and the level filter and
    prefix construction of `printf`.
- `Framing` (framing.dfy), after net.go:
  - the control message `Msg`;
  - the one-length-byte frame;
  - `io.ReadAtLeast` over a byte stream;
  - a `Stream` class whose `RcvMsg` consumes a frame;
  - a `Writer` class whose `SndMsg` performs the single write.
- `Relay` (relay.dfy), after proxy.go:
  - the close and reset policy of `copy`;
  - a `Proxy` class with the two byte counters and the completion queue;
  - `Transfer`, with the two copy directions run one after the other in the
    order in which they settle.
- `Startup` (startup.dfy), after main.go:
  - `strings.Split` and `strings.Join` on `:`;
  - the address rewrite and flag validation of `GetContext`;
  - the connection-ID counter.
- `Session` (session.dfy), after main.go: `remote`, both as a loop `method`
  and as the function that specifies it, and the TLS version label.
- `Handoff` (handoff.dfy), after main.go: `local`, which calls the relay.
- `Scheduler` (scheduler.dfy), after main.go: the backoff sleep, the `worker`
  loop and the start-up of the three workers in `main`.

Three points where the code behaves differently from what one might
expect of such a client:

- **Backoff.** A hint N does not give a sleep of 1 to N seconds. The code
  sleeps `1000 + rand.Intn(N*1000)` ms (main.go:138), which is anything from
  1000 ms up to 1000·N + 999 ms, for example up to 9999 ms for hint 9.
- **Frame size.** The wire format has room for at most 255 payload bytes, but
  the code writes `byte(len(serialized))` and never rejects a longer payload
  (net.go:61). See Findings.
- **Worker count.** The pool always has three workers (main.go:49-53); there
  is no setting for it.

Receives are modelled as a finite list of incoming messages. When that list
runs out, the next receive fails, as a deadline expiry would make it.

## Model

| member | source | states |
|---|---|---|
| Common.Decimal | main.go:50 | `%d` of a natural number is a non-empty string of digits with no leading zero |
| Common.DecimalRoundTrip | main.go:50 | reading back the digits of `%d` gives the number again |
| Common.DecimalInjective | main.go:262 | distinct numbers get distinct `%d` texts, so distinct IDs give distinct logger names |
| Logging.Emits | log.go:119-121 | the level filter of printf: a message passes when its level is at most the logger's; a logger at DEBUG or beyond lets every named level through |
| Logging.LevelsOrdered | log.go:32-38 | UNSPECIFIED = 0 < ERROR < WARNING < INFO < DEBUG = 4 |
| Logging.ParseLevel | log.go:77-90 | the flag is true exactly when the level is one of ERROR..DEBUG; otherwise the level is UNSPECIFIED; an accepted string upper-cases to that level's keyword |
| Logging.UpperMatchesSpelling | log.go:78 | upper-casing a string gives a keyword exactly when the string spells that keyword in some mix of letter cases |
| Logging.ParseLevelAcceptsKeywords | log.go:77-90 | `ParseLevel(s) == (L, true)` if and only if `s` spells L's keyword ignoring case, for each of the four named levels |
| Logging.ParseLevelRejects | log.go:87-88 | a string that spells none of the four keywords parses as (UNSPECIFIED, false) |
| Logging.ParseLevelIgnoresCase | log.go:78 | upper-casing the input first does not change the parse |
| Logging.PrefixShape | log.go:126-135 | the prefix format ends in `"%s %s: "` with name and level as its last two arguments; the `file:line` pair is present exactly when the logger is at DEBUG and a caller position exists |
| Logging.UnspecifiedIsSilent | log.go:119-121 | a logger at UNSPECIFIED emits no message at any named level |
| Logging.Logger.constructor | log.go:98-106 | GetLogger: the given name, level UNSPECIFIED, a fresh empty output |
| Logging.Logger.Child | log.go:108-112 | a fresh logger named parent + "." + suffix, with the parent's level and output; the parent is unchanged |
| Logging.Logger.SetLogLevel | log.go:114-116 | sets the level and changes nothing else |
| Logging.Logger.Printf | log.go:118-139 | a message is emitted if and only if its level ≤ the logger's level; when emitted, exactly one record is appended: the prefix format and arguments followed by the caller's |
| Logging.Logger.Errorf | log.go:141-143 | printf at ERROR |
| Logging.Logger.Warningf | log.go:145-147 | printf at WARNING |
| Logging.Logger.Infof | log.go:149-151 | printf at INFO |
| Logging.Logger.Debugf | log.go:153-155 | printf at DEBUG |
| Framing.EncodeFrame | net.go:61-62 | the frame is one byte equal to the payload length mod 256, followed by the payload unchanged |
| Framing.ReadFull | net.go:42 | io.ReadAtLeast: succeeds exactly when n bytes remain, and then splits the input into the n bytes read and the rest; on a cleanly ended stream it reports EOF exactly when nothing remained, otherwise an unexpected EOF; on a broken stream it reports the stream's failure |
| Framing.DecodeFrame | net.go:41-50 | succeeds exactly when a length byte L and at least L more bytes are present, and then the input is the length byte, the L-byte payload and the rest; an empty, cleanly ended stream gives EOF; a short body is a read error, never a decode error |
| Framing.FrameRoundTrip | net.go:41-62 | for a payload of at most 255 bytes, decoding the written frame followed by any bytes yields the payload and leaves exactly those bytes (an empty payload included) |
| Framing.OversizePayloadMisframed | net.go:61 | for a payload over 255 bytes, the reader takes only the first len mod 256 bytes, and the rest of the payload becomes the start of the next frame |
| Framing.EncodeFrameChecked | net.go:61 | corrected framing: refuses exactly the payloads over 255 bytes, and every frame it produces decodes back to its payload |
| Framing.Stream.constructor | net.go:39-41 | a stream positioned at its first byte |
| Framing.Stream.ReadAtLeast | net.go:42 | consumes what ReadFull reads, or on error consumes everything, and reports ReadFull's error |
| Framing.Stream.RcvMsg | net.go:39-53 | on a complete frame, consumes exactly 1 + L bytes and returns the decoder's result for exactly the L payload bytes; on a short read, returns the zero message with the read error |
| Framing.Writer.SndMsg | net.go:55-64 | a failed marshal writes nothing and returns an error; otherwise there is exactly one write, of the encoded frame, and an error exactly when it fails |
| Relay.CopyEffects | proxy.go:94-107 | clean end: only CloseWrite on dst, present exactly when dst is TCP or TLS. Error end: only linger 0, on dst exactly when dst is TCP and on src exactly when src is TCP |
| Relay.DirectionBytes | proxy.go:57-58 | the bytes one copy direction moved, whichever of the two settled first |
| Relay.PhaseEvents | proxy.go:60-85 | one wait of Transfer: both deadlines set, then one direction's close or reset, then its completion taken |
| Relay.TransferEvents | proxy.go:44-85 | everything Transfer does to the connections: the disabling phase for the first direction to settle, then the one-minute phase for the other |
| Relay.TransferPhases | proxy.go:44-85 | both deadlines are disabled first; each direction settles exactly once; the one-minute deadlines are set only strictly between the first and the second settlement |
| Relay.Proxy.constructor | proxy.go:36-41 | GetProxy: both counters zero, nothing pending |
| Relay.Proxy.Copy | proxy.go:91-109 | adds exactly n to its own direction's counter whatever the outcome, leaves the other counter, applies CopyEffects, and posts exactly one completion |
| Relay.Proxy.Await | proxy.go:61 | takes the oldest posted completion and nothing else |
| Relay.Proxy.Settle | proxy.go:60-66 | sets both deadlines, counts the settling direction's bytes in its own counter, applies its effects and takes exactly its one completion |
| Relay.Proxy.Transfer | proxy.go:44-89 | `sent` grows by the bytes copied from `lconn` to `rconn` and `rcvd` by those copied back; returns sent + rcvd; both posted completions are consumed; the effects are exactly TransferEvents |
| Startup.Split | main.go:85 | strings.Split always returns at least one piece; its pieces are the split of the text before the last ':' followed by the text after it |
| Startup.Join | main.go:86 | strings.Join on ':'; JoinSplit states that it undoes Split |
| Startup.LastColon | main.go:85-86 | the position of the last ':' (or -1): in range, and a ':' when it is not -1 |
| Startup.LastColonIsLast | main.go:85-86 | no ':' follows the position LastColon finds |
| Startup.JoinSplit | main.go:85-86 | joining the pieces of a split on ':' gives back the original string |
| Startup.SplitPiecesColonFree | main.go:85 | no piece of the split holds a ':'; with JoinSplit this makes Split the one colon-free sequence of pieces that joins back to the string, which is what strings.Split returns |
| Startup.SplitLastPiece | main.go:88 | the last piece is the text after the last ':' |
| Startup.SplitInitPieces | main.go:86 | there are two or more pieces exactly when there is a ':', and the earlier pieces, joined, are the text before the last ':' |
| Startup.DialAddress | main.go:85-86 | the dial address is the text before the last ':' (nothing when there is none) followed by ":1" |
| Startup.PortText | main.go:85-88 | the port looked up is the text after the last ':' (the whole address when there is none) |
| Startup.ChosenLevel | main.go:60-70 | always one of the named levels; INFO when -d is absent; the level whose keyword -d spells in any letter case; DEBUG when -d spells none |
| Startup.GetContext | main.go:56-132 | exit 2 exactly when -r or -k is missing, otherwise exit 1 or a context; with both flags present, a context exactly when the port lookup succeeds and the key decodes to exactly 6 bytes; the context holds the rewritten address, looked-up port, decoded key, -l (default ":80") and TLS unless -t; its level is ChosenLevel: INFO without -d, DEBUG for an unknown word |
| Startup.ConnIds.constructor | main.go:113-114 | the counter starts at 0 |
| Startup.ConnIds.Next | main.go:113-119 | hands out the number of earlier calls, modulo 2^64, so 0, 1, 2, … each exactly once below 2^64 |
| Session.Serve | main.go:199-249 | the receive loop over the remaining messages; its ending is hint 0, hint 9 or exit 1, and the connection was dialed |
| Session.RemoteSpec | main.go:145-250 | the whole session; its ending is hint 0, 9 or 99 or exit 1, and the connection is not dialed exactly when the dial failed |
| Session.Remote | main.go:145-250 | the loop method computes exactly RemoteSpec: the hint or exit, the messages sent, the fast spawns, the connection's fate and the deadline re-arms |
| Session.ServeOutcomes | main.go:199-249 | the loop ends with hint 0 or 9 or exit 1; it exits exactly when the connection is left to the exit; hand-off only on `start`, with hint 0 and one fast spawn exactly when fast; a fast session sends only the TIMEOUT notice and never re-arms; a slow one sends only keepalive replies |
| Session.ServeExitsOnError | main.go:243-245 | the process exits only after receiving an `error` message |
| Session.ServeZeroHint | main.go:207-242 | the loop returns 0 only after receiving `start`, a notice, or (on a fast session) a keepalive |
| Session.RemoteOutcomes | main.go:145-250 | the hint is 0, 9 or 99 and the exit code 1; 99 exactly when the dial succeeded and the first SetDeadline failed; 9 after a failed dial, a failed TLS handshake or a failed `listen` send; otherwise the receive loop decides; hint 0 only after a message that ends with 0; not dialed exactly when the dial failed; `listen` is the first message sent, and something is sent exactly when dial, deadline and any TLS handshake succeeded |
| Session.ServeDispatch | main.go:206-248 | start: hint 0, the connection handed off, one fast spawn exactly when fast; keepalive on a fast session: TIMEOUT then hint 0; keepalive on a slow one: continue when reply and re-arm succeed, hint 9 after the reply when either fails; debug, info and warning: hint 0; error: exit 1; any other type: ignored |
| Session.ReceiveFailureEnds | main.go:201-205 | a failed receive ends the loop with hint 9 and the connection closed |
| Session.TlsVersionLabels | main.go:181-183 | wire versions 0x0301 + m (m < 10) are labelled TLSv1.m; 0x0304 gives "TLSv1.3" |
| Handoff.LocalSpec | main.go:252-293 | two fast spawns exactly when the message asks for fast; the rendezvous connection is always closed; `success` is sent exactly when the local dial and deadline succeed; the relay runs exactly when the send also succeeds; `sent` is then the bytes from the rendezvous connection to the local service and `rcvd` those back, because `Transfer(rconn, lconn)` passes the rendezvous connection as `lconn` |
| Handoff.Local | main.go:252-293 | takes exactly one connection ID and does what LocalSpec describes, calling Transfer with the rendezvous connection first |
| Handoff.PromotionSpawns | main.go:207-258 | on promotion, the session and its hand-off together spawn one fast session when the session is fast plus two when the message asks for fast |
| Handoff.CleanRelay | main.go:291-292 | when both directions end cleanly, the relay reports n1 sent and n2 received, n1 + n2 in all, half-closes both connections and resets neither |
| Scheduler.Backoff | main.go:137-140 | no sleep after hint 0; after hint d > 0, a sleep of 1000 to 1000·d + 999 ms |
| Scheduler.BackoffCoversRange | main.go:138 | every sleep in that range is reached by some random draw |
| Scheduler.SessionBackoff | main.go:136-140 | after a slow session, the sleep is zero exactly when the hint is 0, and between 1000 and 9999 ms after hint 9 (always so after a failed dial) or between 1000 and 99999 ms after hint 99 |
| Scheduler.Worker | main.go:134-142 | runs only slow sessions; each sleep is Backoff of that session's hint; the loop stops only when a session exits the process |
| Scheduler.SpawnPool | main.go:49-53 | exactly three worker calls, whose loggers are named root.2, root.1 and root.0 in start order, with a pause of 900 to 1099 ms after each of the first two |
| Scheduler.WorkerNamesDistinct | main.go:50-53 | worker calls with distinct numbers get distinct logger names (the loggers are unused by the worker loop, so this fixes only the names) |

## Findings

| source | as written | input that shows it | evidently intended | confidence | as-written member | corrected member |
|---|---|---|---|---|---|---|
| net.go:61 | the length byte is `byte(len(serialized))`, which keeps only the low eight bits, and nothing rejects a longer payload | a 300-byte payload is framed with length byte 44; the reader takes 44 bytes as the message and the next 256 as the start of the following frame | refuse payloads over 255 bytes so that every frame written decodes back to its payload | not executed | Framing.OversizePayloadMisframed | Framing.EncodeFrameChecked |

## Left out

- Networking is represented only by given outcomes: `net.Dial`, `SetDeadline`, the TLS handshake and its session cache, `io.Copy`, `CloseWrite` and `SetLinger`. Shutdown actions are recorded as events. The TLS configuration (server name, minimum version) is not modelled.
- JSON marshalling and unmarshalling (jsoniter and its `omitempty` fields) belong to a foreign library. The marshal outcome is a parameter of SndMsg, and the unmarshaller is a function parameter of RcvMsg.
- The results of `flag.Parse`, unpadded base64 decoding and `net.LookupPort` are inputs of GetContext.
- Goroutines and channels are sequentialised:
  - `Transfer` runs the two copy directions in their settling order;
  - spawned `remote(true)` calls are counted, not run;
  - the connection-ID channel is a counter object.
- `math/rand` and `time.Sleep`: random numbers are given draws, and sleeps are returned as durations.
- `os.Exit` is a terminal outcome. The process-level exit after `GetContext` is its `Exit` result.
- The endless `worker` loop runs over a finite list of rounds.
- The worker's logger parameter is unused by the source, so the model leaves it out.
- `Level.String` and `Level.Color` depend on a terminal colour library, and `Color` is unused. A level argument is recorded as the level itself.
- `runtime.Caller` and `path.Base`: the caller position is a given optional value.
- The underlying Go `log.Logger` output formatting is not modelled.
- Logging.ParseLevel: `strings.ToUpper` is Unicode-aware; the model upper-cases ASCII letters only, so for example "ınfo" (with a dotless ı) parses as INFO in Go but is rejected here.
- The log calls inside `remote`, `local` and `Transfer` are not modelled, and neither are the warnings Transfer logs when SetDeadline fails. Those failures never change the outcome.
- Relay.TransferEvents: fixes one interleaving. In the source the second direction's close or reset can happen before Transfer sets the one-minute deadlines, because only its completion post waits for Transfer; the model orders those effects after the deadlines.
- Relay.Proxy.Copy: the counters are `int64` in the source; the model does not capture overflow beyond 2^63 − 1 bytes.
- Session.TlsVersionLabel has no contract of its own. Its labels for the versions the client accepts are stated by Session.TlsVersionLabels.
