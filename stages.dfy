/**
 * The probe pipeline as a function of the network's answers: the lines a
 * run appends to its transcript, how it ends (returns or throws), and the
 * order in which it creates and disposes its disposables. This is the
 * reference the imperative `TestConnectivity` and `Run` are proved against.
 */
module Stages {
  import opened Wrappers
  import opened Decimal
  import opened Text
  import opened Oracle
  import opened Lifecycle

  /** Seconds allowed to each quick connect of the bulk probe. */
  const QuickTestTimeout: int := 5
  /** Size of the greeting read buffer. */
  const BufferSize: nat := 4096
  /** The full timeout `Run` passes to the detailed connect. */
  const TimeoutSeconds: int := 30
  const DefaultPort: int := 993

  /** How `TestConnectivity` ends: it returns, or an exception leaves it. */
  datatype Outcome = Returned | Raised(ex: Exception)

  /**
   * What a stage leaves behind: the transcript, how it ended, and the log
   * of the disposables opened and disposed so far.
   */
  datatype Trace = Trace(lines: seq<string>, outcome: Outcome, events: seq<Event>)

  // ---- Lines that carry no data --------------------------------------------

  function StepHeader(k: nat): string
    requires 1 <= k <= 5
  {
    match k
    case 1 => "Step 1: DNS Resolution"
    case 2 => "Step 2: Testing All DNS Addresses"
    case 3 => "Step 3: TCP Connection (detailed test)"
    case 4 => "Step 4: SSL/TLS Handshake"
    case 5 => "Step 5: Reading Server Greeting"
  }

  const SummaryHeader := "=== Test Summary ==="
  const AllFailedLine := "❌ All DNS addresses failed to connect!"
  const CallbackBanner := "   📜 Certificate validation callback triggered"
  const GreetingNote := "ℹ️  Note: Mail servers (IMAP/SMTP/POP3) send automatic greetings. Web servers (HTTPS) typically don't."
  const NoGreetingLine := "⚠️  No greeting received within 5 seconds (server may not send automatic greeting)"
  const NoDataLine := "⚠️  No data received from server"

  // ---- Step 1 and the preamble ---------------------------------------------

  function TargetLine(server: string, port: int): string {
    "📡 Testing connectivity to: " + server + ":" + IntToString(port)
  }

  function TimeoutLine(timeoutSeconds: int): string {
    "⏱️  Timeout: " + IntToString(timeoutSeconds) + " seconds"
  }

  /**
   * Blocks of lines are written as functions of the transcript they are
   * appended to, one line at a time, in the order `AddOutput` writes them.
   */
  function WithPreamble(before: seq<string>, server: string, port: int, timeoutSeconds: int): seq<string> {
    before + [TargetLine(server, port)] + [TimeoutLine(timeoutSeconds)] + [""]
  }

  function FamilyName(f: Family): string {
    match f
    case InterNetwork => "InterNetwork"
    case InterNetworkV6 => "InterNetworkV6"
    case OtherFamily(name) => name
  }

  function DnsResolvedLine(ms: nat): string {
    "✅ DNS resolution successful (" + NatToString(ms) + "ms)"
  }

  function AddressLine(a: Address): string {
    "   - " + a.text + " (" + FamilyName(a.family) + ")"
  }

  /** One line per resolved address, in the resolver's order. */
  function WithAddresses(before: seq<string>, addresses: seq<Address>): (r: seq<string>)
    ensures |r| == |before| + |addresses|
    ensures forall i :: 0 <= i < |before| ==> r[i] == before[i]
    ensures forall i :: 0 <= i < |addresses| ==> r[|before| + i] == AddressLine(addresses[i])
    decreases |addresses|
  {
    if |addresses| == 0 then before
    else
      var n := |addresses| - 1;
      WithAddresses(before, addresses[..n]) + [AddressLine(addresses[n])]
  }

  /** Step 1's report once the host resolved. */
  function WithResolved(before: seq<string>, ms: nat, addresses: seq<Address>): seq<string> {
    WithAddresses(before + [DnsResolvedLine(ms)], addresses) + [""]
  }

  function DnsFailedLine(ex: Exception): string {
    "❌ DNS resolution failed: " + ex.message
  }

  // ---- Step 2: the bulk probe ----------------------------------------------

  function ReachableLine(a: Address, ms: nat): string {
    "   ✅ " + a.text + " - REACHABLE (" + NatToString(ms) + "ms)"
  }

  function FailedLine(a: Address, ms: nat, message: string): string {
    "   ❌ " + a.text + " - FAILED (" + NatToString(ms) + "ms): " + message
  }

  /** The exception a quick connect that lost the race (or faulted) throws. */
  function ProbeException(attempt: Attempt<()>): Exception
    requires !attempt.Completed?
  {
    if attempt.TimedOut? then Exception("TimeoutException", "Timeout after " + IntToString(QuickTestTimeout) + "s")
    else attempt.ex
  }

  /** The line a single quick connect adds to the transcript. */
  function ProbeLine(a: Address, probe: Timed<()>): string {
    if probe.attempt.Completed? then ReachableLine(a, probe.ms)
    else FailedLine(a, probe.ms, ProbeException(probe.attempt).message)
  }

  /** `Dictionary.Add` on a key it already holds. */
  function DuplicateKey(a: Address): Exception {
    Exception("ArgumentException", "An item with the same key has already been added. Key: " + a.text)
  }

  /**
   * The state of the `foreach` loop: the reachable list, the failed
   * dictionary, the transcript, the handle log, and the exception that left
   * the loop, if one did.
   */
  datatype ProbeState = ProbeState(
    successful: seq<Address>,
    failed: map<Address, string>,
    lines: seq<string>,
    events: seq<Event>,
    abort: Option<Exception>)

  /** One iteration of the loop, for address `a`: a fresh client, one line. */
  function ProbeStep(st: ProbeState, a: Address, probe: Timed<()>): ProbeState {
    if st.abort.Some? then st
    else
      var client := |st.events|;
      var withClient := st.events + [Opened(ProbeClient)];
      var lines := st.lines + [ProbeLine(a, probe)];
      if probe.attempt.Completed? then
        st.(successful := st.successful + [a], lines := lines, events := withClient + [Disposed(client)])
      else if a in st.failed then
        // the Add throws from inside the catch block, before the Dispose
        st.(lines := lines, events := withClient, abort := Some(DuplicateKey(a)))
      else
        st.(failed := st.failed[a := ProbeException(probe.attempt).message],
            lines := lines, events := withClient + [Disposed(client)])
  }

  /** The loop run over `addresses` in order, on top of a transcript and a handle log. */
  function ProbeAll(before: seq<string>, ledger: seq<Event>, addresses: seq<Address>, probes: seq<Timed<()>>): ProbeState
    requires |addresses| == |probes|
    decreases |addresses|
  {
    if |addresses| == 0 then ProbeState([], map[], before, ledger, None)
    else
      var n := |addresses| - 1;
      ProbeStep(ProbeAll(before, ledger, addresses[..n], probes[..n]), addresses[n], probes[n])
  }

  /** The three ways the aggregate of the bulk probe is judged. */
  datatype Verdict = AllFailed | SomeFailed | NoneFailed

  function Classify(reachable: nat, failed: nat): Verdict {
    if reachable == 0 then AllFailed
    else if failed > 0 then SomeFailed
    else NoneFailed
  }

  function VerdictLine(v: Verdict, failed: nat, total: nat): string {
    match v
    case AllFailed => AllFailedLine
    case SomeFailed => "⚠️  Warning: " + NatToString(failed) + "/" + NatToString(total) + " addresses failed"
    case NoneFailed => "✅ All " + NatToString(total) + " DNS addresses are reachable"
  }

  function AllFailedException(total: nat): Exception {
    Exception("Exception", "All " + NatToString(total) + " DNS-resolved addresses failed to connect")
  }

  // ---- Step 3: the detailed connect ----------------------------------------

  function ConnectTimeout(timeoutSeconds: int): Exception {
    Exception("TimeoutException", "Connection attempt timed out after " + IntToString(timeoutSeconds) + " seconds")
  }

  function ConnectException(attempt: Attempt<Endpoints>, timeoutSeconds: int): Exception
    requires !attempt.Completed?
  {
    if attempt.TimedOut? then ConnectTimeout(timeoutSeconds) else attempt.ex
  }

  function WithConnected(before: seq<string>, ms: nat, ep: Endpoints): seq<string> {
    before
      + ["✅ TCP connection established (" + NatToString(ms) + "ms)"]
      + ["   Local endpoint: " + ep.local]
      + ["   Remote endpoint: " + ep.remote]
      + ["   Connected: " + BoolToString(ep.connected)]
      + [""]
  }

  function ConnectFailedLine(ms: nat, ex: Exception): string {
    "❌ TCP connection failed (" + NatToString(ms) + "ms): " + ex.message
  }

  // ---- Step 4: the TLS handshake -------------------------------------------

  /**
   * The six lines the certificate validation callback writes; a missing
   * certificate leaves its four fields empty.
   */
  function WithCertificate(before: seq<string>, args: CallbackArgs): seq<string> {
    var c := args.certificate;
    before
      + [CallbackBanner]
      + ["      Subject: " + (if c.Some? then c.value.subject else "")]
      + ["      Issuer: " + (if c.Some? then c.value.issuer else "")]
      + ["      Valid from: " + (if c.Some? then c.value.validFrom else "")]
      + ["      Valid to: " + (if c.Some? then c.value.validTo else "")]
      + ["      SSL Policy Errors: " + args.policyErrors]
  }

  /** What the callback wrote during the handshake, if the platform invoked it. */
  function WithCallback(before: seq<string>, callback: Option<CallbackArgs>): seq<string> {
    if callback.Some? then WithCertificate(before, callback.value) else before
  }

  function WithSession(before: seq<string>, ms: nat, s: TlsSession): seq<string> {
    before
      + ["✅ SSL/TLS handshake successful (" + NatToString(ms) + "ms)"]
      + ["   SSL Protocol: " + s.protocol]
      + ["   Cipher Algorithm: " + s.cipher + " (" + IntToString(s.cipherStrength) + " bits)"]
      + ["   Hash Algorithm: " + s.hash + " (" + IntToString(s.hashStrength) + " bits)"]
      + ["   Key Exchange Algorithm: " + s.keyExchange + " (" + IntToString(s.keyExchangeStrength) + " bits)"]
      + ["   Is Authenticated: " + BoolToString(s.isAuthenticated)]
      + ["   Is Encrypted: " + BoolToString(s.isEncrypted)]
      + ["   Is Signed: " + BoolToString(s.isSigned)]
      + [""]
  }

  function HandshakeFailedLine(ms: nat, ex: Exception): string {
    "❌ SSL/TLS handshake failed (" + NatToString(ms) + "ms): " + ex.message
  }

  // ---- Step 5: the greeting ------------------------------------------------

  function Min(a: nat, b: nat): nat {
    if a <= b then a else b
  }

  /** What a read of at most `count` bytes takes from the bytes the server has sent. */
  function BytesRead(available: seq<byte>, count: nat): seq<byte> {
    available[..Min(count, |available|)]
  }

  /** The greeting as logged: the bytes read, ASCII-decoded and trimmed. */
  function Greeting(bytes: seq<byte>): string {
    Trim(AsciiDecode(bytes))
  }

  function GreetingReceivedLine(ms: nat, count: nat): string {
    "✅ Received server greeting (" + NatToString(ms) + "ms, " + NatToString(count) + " bytes)"
  }

  function ResponseLine(greeting: string): string {
    "   Response: " + greeting
  }

  function GreetingFailedLine(ms: nat, ex: Exception): string {
    "⚠️  Failed to read greeting (" + NatToString(ms) + "ms): " + ex.message
  }

  /** The lines of step 5 after its note, for each way the read can end. */
  function WithGreeting(before: seq<string>, g: Timed<seq<byte>>): seq<string> {
    match g.attempt
    case TimedOut => before + [NoGreetingLine] + [""]
    case Error(ex) => before + [GreetingFailedLine(g.ms, ex)] + [""]
    case Completed(available) =>
      var bytes := BytesRead(available, BufferSize);
      if |bytes| > 0 then before + [GreetingReceivedLine(g.ms, |bytes|)] + [ResponseLine(Greeting(bytes))] + [""]
      else before + [NoDataLine] + [""]
  }

  const SummaryLast := "   Server Protocol: RESPONDING"

  /** The fixed closing block of a run that got through every stage. */
  function WithSummary(before: seq<string>, server: string, port: int): seq<string> {
    before
      + [SummaryHeader]
      + ["✅ All connectivity tests passed!"]
      + ["   Server: " + server + ":" + IntToString(port)]
      + ["   Status: REACHABLE"]
      + ["   SSL/TLS: WORKING"]
      + [SummaryLast]
  }

  // ---- The pipeline --------------------------------------------------------

  /**
   * `TestConnectivity` run on a transcript that already holds `before` and
   * a handle log that already holds `ledger`.
   */
  function Connectivity(before: seq<string>, ledger: seq<Event>, server: string, port: int,
                        timeoutSeconds: int, net: Network): Trace
    requires WellFormed(net)
  {
    var opening := WithPreamble(before, server, port, timeoutSeconds) + [StepHeader(1)];
    match net.dns
    case DnsError(ex) => Trace(opening + [DnsFailedLine(ex)], Raised(ex), ledger)
    case Resolved(ms, addresses) =>
      Judged(ProbeAll(WithResolved(opening, ms, addresses) + [StepHeader(2)], ledger, addresses, net.probes),
             |addresses|, server, port, timeoutSeconds, net)
  }

  /**
   * What follows the bulk probe over `total` addresses: the exception that
   * left the loop, or the verdict and, unless every address failed, step 3
   * onwards.
   */
  function Judged(probed: ProbeState, total: nat, server: string, port: int, timeoutSeconds: int,
                  net: Network): Trace
  {
    if probed.abort.Some? then Trace(probed.lines, Raised(probed.abort.value), probed.events)
    else
      var verdict := Classify(|probed.successful|, |probed.failed|);
      var judged := probed.lines + [""] + [VerdictLine(verdict, |probed.failed|, total)];
      if verdict == AllFailed then Trace(judged, Raised(AllFailedException(total)), probed.events)
      else Detailed(judged + [""], probed.events, server, port, timeoutSeconds, net)
  }

  /** Step 3 and everything after it. */
  function Detailed(before: seq<string>, ledger: seq<Event>, server: string, port: int,
                    timeoutSeconds: int, net: Network): Trace
  {
    var lines := before + [StepHeader(3)];
    var client := |ledger|;
    var events := ledger + [Opened(DetailClient)];
    var c := net.connect;
    if c.attempt.Completed? then
      Secure(WithConnected(lines, c.ms, c.attempt.value), events, client, server, port, net)
    else
      var ex := ConnectException(c.attempt, timeoutSeconds);
      Trace(lines + [ConnectFailedLine(c.ms, ex)], Raised(ex), events + [Disposed(client)])
  }

  /**
   * Step 4, and when the handshake succeeds, step 5 and the summary; the
   * stream and then the connection `client` are disposed on either path.
   */
  function Secure(before: seq<string>, ledger: seq<Event>, client: nat, server: string, port: int,
                  net: Network): Trace
  {
    var h := net.handshake;
    var lines := WithCallback(before + [StepHeader(4)], h.callback);
    var stream := |ledger|;
    var closed := ledger + [Opened(TlsStream)] + [Disposed(stream)] + [Disposed(client)];
    match h.result
    case HandshakeError(ex) => Trace(lines + [HandshakeFailedLine(h.ms, ex)], Raised(ex), closed)
    case Authenticated(s) =>
      var noted := WithSession(lines, h.ms, s) + [StepHeader(5)] + [GreetingNote];
      Trace(WithSummary(WithGreeting(noted, net.greeting), server, port), Returned, closed)
  }

  // ---- Run -----------------------------------------------------------------

  /** The HTTP status `Run` answers with. */
  datatype Status = OK | InternalServerError

  datatype Report = Report(lines: seq<string>, status: Status, events: seq<Event>)

  const StartedLine := "=== Network Connectivity Test Started ==="

  /** The first lines of every run, written to the freshly cleared transcript. */
  function RunHeader(timestamp: string): seq<string> {
    [StartedLine] + ["Timestamp: " + timestamp + " UTC"] + [""]
  }

  function ConfigurationLine(server: string, port: int): string {
    "Configuration: Server=" + server + ", Port=" + IntToString(port) + ", Timeout=" + IntToString(TimeoutSeconds) + "s"
  }

  const SuccessLine := "✅ Test completed successfully!"

  function WithSuccess(before: seq<string>): seq<string> {
    before + [""] + [SuccessLine]
  }

  function WithFailure(before: seq<string>, ex: Exception, stackTrace: string): seq<string> {
    before + [""] + ["❌ Test failed: " + ex.kind] + ["Message: " + ex.message] + ["Stack Trace: " + stackTrace]
  }

  /** The port `Run` uses: the parsed setting, or 993 when it did not parse. */
  function ChosenPort(parsedPort: Option<int>): int {
    parsedPort.GetOr(DefaultPort)
  }

  /** The answer `Run` builds from the transcript and outcome of the procedure. */
  function Answer(t: Trace, stackTrace: string): Report {
    match t.outcome
    case Returned => Report(WithSuccess(t.lines), OK, t.events)
    case Raised(ex) => Report(WithFailure(t.lines, ex, stackTrace), InternalServerError, t.events)
  }

  /** `Run`: a fresh transcript, the configuration, the pipeline, and its trailer. */
  function RunReport(server: string, parsedPort: Option<int>, timestamp: string, stackTrace: string,
                     ledger: seq<Event>, net: Network): Report
    requires WellFormed(net)
  {
    var port := ChosenPort(parsedPort);
    Answer(Connectivity(RunHeader(timestamp) + [ConfigurationLine(server, port)] + [""], ledger,
                        server, port, TimeoutSeconds, net), stackTrace)
  }
}
