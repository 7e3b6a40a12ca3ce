# ConnectivityTest, modelled in Dafny

`ConnectivityTest` is an HTTP-triggered Azure Function that checks whether a
server (by default `imap.gmail.com:993`) can be reached and spoken to over
TLS. `Run` clears a static transcript, writes a header and the configuration,
and calls `TestConnectivity`. That procedure works in five steps:

1. DNS resolution.
2. A quick connect to every resolved address. Each is raced against five
   seconds and sorted into a reachable list or a failed dictionary.
3. A detailed connect to the host name, raced against thirty seconds.
4. A TLS handshake, with a certificate callback that logs and accepts.
5. A bounded read of the server's greeting, which is never fatal.

It ends with a fixed summary. `Run` answers OK with a success trailer, or
InternalServerError with the exception's type, message and stack trace.

The model treats the network as an input. A `Network` value (module `Oracle`)
holds every answer the platform would give: the DNS answer, one quick-connect
result per address, the detailed connect, the handshake (with the arguments
the callback sees, if it is invoked), and the bytes the server has sent. Each
race against a timer is an `Attempt`: `Completed`, `TimedOut` or `Error`.

The model is in three layers.

- **Imperative procedure** (`connectivity_test.dfy`). It follows the source
  statement by statement:
  - the transcript is an `OutputBuffer` object whose `AddOutput` appends a line;
  - each `TcpClient` and `SslStream` is a `Handle` object;
  - creating or disposing a handle appends an event to a `HandleLog`;
  - the `foreach` of step 2 is a loop with invariants.
- **Reference pipeline** (`stages.dfy`). It computes, as pure functions, the
  lines a run writes, how it ends (returns or raises which exception), and
  the sequence of handle events. Every method of the procedure is proved to
  leave exactly that transcript, that handle log and that result.
- **Properties** (`properties.dfy`). What the code promises, proved about
  the pipeline. Through the method contracts, each one also holds for the
  procedure:
  - the reachable/failed partition and its three-way verdict;
  - which stages are fatal, and that nothing is written after a fatal stage;
  - that the greeting read never decides the outcome;
  - that the transcript only grows;
  - that every disposable is released on every path, innermost first;
  - the status and trailer of `Run`.

Disposal is stated with `Lifecycle.Pending`. It replays the handle log as a
stack of open handles and fails as soon as a dispose is not the innermost
open handle. "Everything opened was disposed exactly once, in nesting order"
is then `Pending(after) == Pending(before)`.

Two behaviours of the code are modelled as written:

- **Repeated address.** If DNS returns the same address twice and both
  quick connects fail, `failedAddresses.Add` throws `ArgumentException` from
  inside the `catch` block. The loop ends there, and that probe client is
  never disposed. `Properties.DuplicateFailureLeaksClient` proves this.
  The properties that need the loop to complete assume distinct addresses.
- **Step 3 target.** The comment on step 3 says it uses the first
  successful address, but the code connects to the host name. The model
  follows the code: nothing chosen in step 2 feeds step 3.

`Environment.NewLine` is taken to be `"\n"`, the line break on the Linux host
the function runs on.

## Model

| member | source | states |
|---|---|---|
| Transcript.OutputBuffer.AddOutput | ConnectivityTest.cs:137-140 | the message becomes the new last line; earlier lines are unchanged |
| Transcript.OutputBuffer.Clear | ConnectivityTest.cs:20 | the transcript is empty afterwards |
| Transcript.OutputBuffer.GetOutputText | ConnectivityTest.cs:142-145 | splitting the text at line breaks gives back the lines, whenever no line contains a break itself |
| Transcript.SplitJoin | ConnectivityTest.cs:144 | joining lines that contain no break with NewLine, then splitting, gives the same lines back |
| Transcript.JoinAppend | ConnectivityTest.cs:144 | the text of two non-empty runs of lines is the two texts joined by one NewLine |
| Decimal.NatToString | ConnectivityTest.cs:163 | a millisecond count or a byte count prints as a non-empty run of digits with no leading zero |
| Decimal.ParseNatToString | ConnectivityTest.cs:163 | reading the printed digits back gives the original number |
| Decimal.NatToStringInjective | ConnectivityTest.cs:227 | different counts print differently |
| Decimal.IntToString | ConnectivityTest.cs:39 | an int prints non-empty, starting with '-' exactly when it is negative |
| Text.DecodeByte | ConnectivityTest.cs:345 | the ASCII decoder yields a character below 128 for every byte |
| Text.AsciiDecode | ConnectivityTest.cs:345 | one ASCII character per byte read |
| Text.AsciiRoundTrip | ConnectivityTest.cs:345 | bytes below 128 decode without loss |
| Text.NonAsciiIsReplaced | ConnectivityTest.cs:345 | a byte of 128 or more decodes to '?' |
| Text.TrimIsMaximalSlice | ConnectivityTest.cs:345 | `Trim` returns a contiguous slice of its input with no white space at either end |
| Text.TrimIdempotent | ConnectivityTest.cs:345 | trimming a trimmed greeting changes nothing |
| Text.TrimAllWhiteSpace | ConnectivityTest.cs:345 | a greeting of white space alone trims to the empty string |
| Lifecycle.Handle.constructor | ConnectivityTest.cs:190 | creating a `TcpClient` or `SslStream` logs its creation; the handle is named by its place in the log |
| Lifecycle.Handle.Dispose | ConnectivityTest.cs:208 | disposing logs the disposal of exactly this handle |
| Lifecycle.PendingOpened | ConnectivityTest.cs:242 | creating a handle pushes it on the stack of open handles |
| Lifecycle.PendingDisposed | ConnectivityTest.cs:314-315 | disposing the innermost open handle pops it |
| Lifecycle.BrokenStaysBroken | ConnectivityTest.cs:314-315 | the measure of disposal: once a dispose was out of nesting order, no later event repairs the log, so a run whose open handles end as they began never disposed out of order |
| Stages.WithAddresses | ConnectivityTest.cs:164-167 | one line per resolved address, in resolution order, after the lines already written |
| ConnectivityTest.ValidateCertificate | ConnectivityTest.cs:284-294 | the callback returns true whatever the certificate and policy errors, and appends exactly its six lines |
| ConnectivityTest.ReadAsync | ConnectivityTest.cs:327 | the read fills min(count, bytes sent) bytes from the offset with the first bytes sent, and leaves the rest of the buffer unchanged |
| ConnectivityTest.LogPreamble | ConnectivityTest.cs:149-151 | the target, timeout and blank lines are appended |
| ConnectivityTest.LogResolved | ConnectivityTest.cs:163-168 | the DNS success line, one line per address and a blank line are appended |
| ConnectivityTest.TestConnectivity | ConnectivityTest.cs:147-376 | the procedure leaves exactly the transcript, handle log and outcome of the reference pipeline |
| ConnectivityTest.ProbeAddresses | ConnectivityTest.cs:179-217 | the loop leaves the reachable list, the failed dictionary, the transcript, the handle log and any thrown exception as the reference loop does |
| ConnectivityTest.AbortPersists | ConnectivityTest.cs:214 | once `Add` has thrown, the remaining addresses are never probed |
| ConnectivityTest.LogConnected | ConnectivityTest.cs:259-263 | the five lines of a completed detailed connect are appended |
| ConnectivityTest.DetailedConnect | ConnectivityTest.cs:236-271 | step 3 onwards leaves the transcript, handle log and outcome of the reference; a failed connect disposes the client and rethrows |
| ConnectivityTest.LogSession | ConnectivityTest.cs:300-308 | the nine lines of a completed handshake are appended |
| ConnectivityTest.LogSummary | ConnectivityTest.cs:370-375 | the six summary lines are appended |
| ConnectivityTest.SecureSession | ConnectivityTest.cs:274-367 | steps 4 and 5 leave the reference transcript, log and outcome; the stream and then the client are disposed on both paths |
| ConnectivityTest.ReadGreeting | ConnectivityTest.cs:320-362 | each way the greeting read ends appends its lines and none escapes |
| ConnectivityTest.Run | ConnectivityTest.cs:16-135 | the transcript starts from empty and ends as the reference report, with the status it gives |
| Properties.Reachable | ConnectivityTest.cs:206-207 | the reference list of the addresses whose quick connect completed, in resolution order (so never longer than the resolved list) |
| Properties.FailureCount | ConnectivityTest.cs:210-214 | the reference count of the quick connects that did not complete (so never more than the probes) |
| Properties.ProbeNeverThrows | ConnectivityTest.cs:183-217 | with distinct addresses the loop never throws, and every failed key is a resolved address |
| Properties.ProbeReachable | ConnectivityTest.cs:206-207 | whenever the loop did not throw, the reachable list is exactly the addresses whose connect completed, in resolution order |
| Properties.ProbeFailures | ConnectivityTest.cs:210-214 | an address is a failed key exactly when its connect did not complete, mapped to that exception's message |
| Properties.ProbeFailureCount | ConnectivityTest.cs:214 | whenever the loop did not throw, the failed dictionary has one entry per failed connect |
| Properties.ReachablePlusFailures | ConnectivityTest.cs:183-217 | every address is counted as reachable or as failed, never both |
| Properties.ProbeTranscript | ConnectivityTest.cs:206-213 | whenever the loop did not throw, one REACHABLE or FAILED line per address, in resolution order, after the existing lines |
| Properties.ProbeDisposesClients | ConnectivityTest.cs:185-215 | whenever the loop did not throw, the log gains exactly one creation per address, each followed at once by the disposal of that client, before the next is created; so the open handles are as they were |
| Properties.ReachableEmpty | ConnectivityTest.cs:220 | no address is reachable exactly when no quick connect completed |
| Properties.ProbeVerdict | ConnectivityTest.cs:219-232 | whenever the loop did not throw: all failed when no connect completed, some failed when one completed and one did not, none failed when all completed |
| Properties.ProbeAllAppends | ConnectivityTest.cs:183-217 | the loop only appends to the transcript, repeated addresses or not |
| Properties.DuplicateFailureLeaksClient | ConnectivityTest.cs:213-215 | an address resolved twice with both connects failing makes the loop throw `ArgumentException`, leaving the second client undisposed |
| Properties.GreetingReadBound | ConnectivityTest.cs:326-327 | the read takes at most 4096 bytes, from the start of what was sent, and none exactly when nothing was sent |
| Properties.GreetingIsTrimmed | ConnectivityTest.cs:345 | the logged greeting is a slice of the decoded bytes with no white space at either end |
| Properties.DetailedOutcome | ConnectivityTest.cs:236-317 | step 3 onwards throws the connect's exception (a `TimeoutException` when the timer won), else the handshake's, else returns |
| Properties.SecureDisposes | ConnectivityTest.cs:314-315 | steps 4 and 5 dispose the stream, then the client, whichever way they end |
| Properties.DetailedDisposes | ConnectivityTest.cs:237-367 | step 3 onwards disposes every handle it creates, innermost first, on every path |
| Properties.DetailedIgnoresGreeting | ConnectivityTest.cs:324-367 | from step 3 on, the greeting changes neither the outcome nor the handle log |
| Properties.DetailedEndsWithSummary | ConnectivityTest.cs:370-375 | when step 3 onwards returns, its last six lines are the summary block, with the server and port |
| Properties.DetailedFailureIsLast | ConnectivityTest.cs:265-317 | when step 3 onwards throws, the failing stage's ❌ line is the last line written |
| Properties.GreetingAppends | ConnectivityTest.cs:320-375 | step 5 and the summary only append to the transcript |
| Properties.HandshakeAppends | ConnectivityTest.cs:274-321 | the callback lines and the handshake report only append to the transcript |
| Properties.SecureAppends | ConnectivityTest.cs:274-375 | steps 4 and 5 only append to the transcript |
| Properties.DetailedAppends | ConnectivityTest.cs:236-375 | step 3 onwards only appends to the transcript |
| Properties.JudgedOutcome | ConnectivityTest.cs:219-224 | after a loop that did not throw, the run throws "All N DNS-resolved addresses failed" when none was reachable, else ends as step 3 onwards |
| Properties.JudgedDisposes | ConnectivityTest.cs:219-367 | what follows the loop disposes every handle it creates |
| Properties.JudgedIgnoresGreeting | ConnectivityTest.cs:219-367 | what follows the loop does not depend on the greeting for its outcome or handle log |
| Properties.JudgedEndsWithSummary | ConnectivityTest.cs:219-375 | what follows the loop, when it returns, ends with the six-line summary block |
| Properties.JudgedFailureIsLast | ConnectivityTest.cs:219-224 | after a loop that did not throw, a throw comes right after the all-failed line when nothing was reachable, and otherwise right after the failing connect or handshake line |
| Properties.JudgedAppends | ConnectivityTest.cs:219-233 | what follows the loop only appends to the transcript |
| Properties.OutcomeIsFirstFailure | ConnectivityTest.cs:147-376 | with distinct addresses the procedure throws exactly the first failing stage's exception, and returns exactly when DNS, some quick connect, the detailed connect and the handshake succeed; an empty DNS answer fails in step 2 |
| Properties.DisposesEverything | ConnectivityTest.cs:185-367 | with distinct addresses every client and stream is disposed exactly once, innermost first, on every path |
| Properties.GreetingNeverFatal | ConnectivityTest.cs:357-362 | the greeting read decides neither the outcome nor the handle log |
| Properties.FatalStageIsLast | ConnectivityTest.cs:170-174 | with distinct addresses a throw comes right after the failing stage's ❌ line; no later step header or summary line follows |
| Properties.ReturnedEndsWithSummary | ConnectivityTest.cs:370-375 | a run that returns ends with the six-line summary block: header, pass line, "   Server: server:port", and the three status lines |
| Properties.ProbeStartAppends | ConnectivityTest.cs:149-178 | the preamble, step 1 and step 2's header only append |
| Properties.TranscriptOnlyAppends | ConnectivityTest.cs:147-376 | the procedure only appends to the transcript it is handed |
| Properties.AnswerReportsOutcome | ConnectivityTest.cs:44-97 | status OK exactly when the procedure returned, the transcript then gaining a blank line and the success line; otherwise a blank line, the type, the message and the stack trace |
| Properties.RunStatus | ConnectivityTest.cs:44-97 | with distinct addresses `Run` answers OK exactly when every stage succeeds, ending with the summary block, a blank line and the success line; otherwise its last four lines are a blank line, the first failing stage's exception type and message, and the stack trace |
| Properties.RunTranscript | ConnectivityTest.cs:20-40 | whatever earlier requests left in the buffer, the answer starts with this run's header and configuration |
| Properties.RunDisposes | ConnectivityTest.cs:46 | with distinct addresses a request leaves no client or stream undisposed |

## Left out

- The network itself (DNS lookup, TCP connects, TLS handshake, stream read). These are platform calls. Each is an input in `Oracle.Network`, with its result already decided.
- `Task.WhenAny`/`Task.Delay` races, and the connect or read left running after its timer wins. This is concurrency. Each race is an `Attempt` that has already completed, timed out or failed.
- Socket `ReceiveTimeout`/`SendTimeout` settings. They affect only the platform calls above.
- Stopwatch readings and `DateTime.UtcNow`. These are clock values, carried as opaque numbers and a timestamp string.
- The static buffer being shared by concurrent requests. This is concurrency. One run owns one `OutputBuffer`.
- The HTML page, `WebUtility.HtmlEncode`, response headers and `WriteStringAsync`. These are presentation only. `Run` yields the transcript and the status.
- The query-string and environment lookup and `int.TryParse`. These are library parsing. `Run` takes the parsed port as an `Option<int>`, defaulting to 993, and the server name as given.
- How the platform prints certificate dates, policy errors, endpoints and TLS properties. These are platform formatting and are carried as strings.
- The text of the exception stack trace. It is a runtime artefact and is carried as a string.
- `GetStream()` and the `SslStream` constructor throwing. The model assumes both succeed; only the handshake fails.
- `new TcpClient()` throwing, in the bulk probe and in step 3. The model assumes creating a client succeeds, so the path on which the `?.Dispose()` calls find no client is not modelled.
- `Environment.NewLine` is `"\n"`. On a Windows host it would be `"\r\n"`.
- Transcript.OutputBuffer.GetOutputText: the split round trip is stated only for lines with no line break. A greeting or exception message containing a break cannot be recovered from the joined text.
- Properties.ProbeNeverThrows: stated only for distinct addresses. With a repeated failing address the loop throws, as Properties.DuplicateFailureLeaksClient shows.
- Properties.ProbeDisposesClients: stated only for a loop that did not throw. With a repeated failing address the last client stays open, as Properties.DuplicateFailureLeaksClient shows.
- Properties.ProbeReachable: stated only for a loop that did not throw, which distinct addresses guarantee.
- Properties.ProbeFailureCount: stated only for a loop that did not throw, for the same reason.
- Properties.ProbeTranscript: stated only for a loop that did not throw. After the throw no later address is probed.
- Properties.ProbeVerdict: stated only for a loop that did not throw. After the throw no verdict is written.
- Properties.ProbeFailures: stated only for distinct addresses. With a repeated address that first fails and then completes, the address is a failed key although its second connect completed.
- Properties.DisposesEverything: stated only for distinct addresses. With a repeated failing address a probe client stays open.
- Properties.OutcomeIsFirstFailure: stated only for distinct addresses. With a repeated failing address the run ends with `ArgumentException`.
- Properties.FatalStageIsLast: stated only for distinct addresses. The `ArgumentException` case ends on the FAILED line of the repeated address.
- Properties.RunStatus: stated only for distinct addresses, for the same reason.
- Properties.RunDisposes: stated only for distinct addresses, for the same reason.
