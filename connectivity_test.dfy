/**
 * `ConnectivityTest`: the probe run as the step-by-step procedure it is.
 * The static `_outputBuffer` is an `OutputBuffer` passed to each step; each
 * `TcpClient` and `SslStream` is a `Handle` whose creation and disposal go
 * to a `HandleLog`. Every method is proved to leave the transcript, the
 * handle log and its result exactly as the reference pipeline in module
 * Stages says.
 */
module ConnectivityTest {
  import opened Wrappers
  import opened Decimal
  import opened Text
  import opened Transcript
  import opened Oracle
  import opened Lifecycle
  import opened Stages

  /**
   * The `userCertificateValidationCallback`: it writes six lines about the
   * certificate and accepts it whatever the certificate and the policy
   * errors are.
   */
  method ValidateCertificate(output: OutputBuffer, args: CallbackArgs) returns (accept: bool)
    modifies output
    ensures accept
    ensures output.lines == WithCertificate(old(output.lines), args)
  {
    var c := args.certificate;
    output.AddOutput(CallbackBanner);
    output.AddOutput("      Subject: " + (if c.Some? then c.value.subject else ""));
    output.AddOutput("      Issuer: " + (if c.Some? then c.value.issuer else ""));
    output.AddOutput("      Valid from: " + (if c.Some? then c.value.validFrom else ""));
    output.AddOutput("      Valid to: " + (if c.Some? then c.value.validTo else ""));
    output.AddOutput("      SSL Policy Errors: " + args.policyErrors);
    accept := true;
  }

  /**
   * `ReadAsync(buffer, offset, count)` on a stream whose server has sent
   * `available`: it fills at most `count` bytes from `offset` and reports
   * how many.
   */
  method ReadAsync(buffer: array<byte>, offset: nat, count: nat, available: seq<byte>) returns (bytesRead: nat)
    requires offset + count <= buffer.Length
    modifies buffer
    ensures bytesRead == Min(count, |available|)
    ensures buffer[offset..offset + bytesRead] == available[..bytesRead]
    ensures forall i :: 0 <= i < buffer.Length && !(offset <= i < offset + bytesRead) ==> buffer[i] == old(buffer[i])
  {
    bytesRead := Min(count, |available|);
    forall i | offset <= i < offset + bytesRead {
      buffer[i] := available[i - offset];
    }
  }

  /** The three lines `TestConnectivity` opens with. */
  method LogPreamble(output: OutputBuffer, server: string, port: int, timeoutSeconds: int)
    modifies output
    ensures output.lines == WithPreamble(old(output.lines), server, port, timeoutSeconds)
  {
    output.AddOutput(TargetLine(server, port));
    output.AddOutput(TimeoutLine(timeoutSeconds));
    output.AddOutput("");
  }

  /** Step 1's report once the host resolved: the time, then one line per address. */
  method LogResolved(output: OutputBuffer, ms: nat, addresses: seq<Address>)
    modifies output
    ensures output.lines == WithResolved(old(output.lines), ms, addresses)
  {
    output.AddOutput(DnsResolvedLine(ms));
    ghost var start := output.lines;
    var k := 0;
    while k < |addresses|
      invariant 0 <= k <= |addresses|
      invariant output.lines == WithAddresses(start, addresses[..k])
    {
      output.AddOutput(AddressLine(addresses[k]));
      assert addresses[..k + 1][..k] == addresses[..k];
      k := k + 1;
    }
    assert addresses[..k] == addresses;
    output.AddOutput("");
  }

  /**
   * `TestConnectivity`: the five steps and the summary, writing to `output`
   * as they go. A stage that fails raises, and the caller sees `Raised`.
   */
  method TestConnectivity(output: OutputBuffer, ghost log: HandleLog, server: string, port: int,
                          timeoutSeconds: int, net: Network)
    returns (outcome: Outcome)
    requires WellFormed(net)
    modifies output, log
    ensures output.lines == Connectivity(old(output.lines), old(log.events), server, port, timeoutSeconds, net).lines
    ensures log.events == Connectivity(old(output.lines), old(log.events), server, port, timeoutSeconds, net).events
    ensures outcome == Connectivity(old(output.lines), old(log.events), server, port, timeoutSeconds, net).outcome
  {
    LogPreamble(output, server, port, timeoutSeconds);

    // Step 1: DNS resolution
    output.AddOutput(StepHeader(1));
    if net.dns.DnsError? {
      output.AddOutput(DnsFailedLine(net.dns.ex));
      return Raised(net.dns.ex);
    }
    var addresses := net.dns.addresses;
    LogResolved(output, net.dns.ms, addresses);

    // Step 2: every resolved address, one quick connect each
    output.AddOutput(StepHeader(2));
    var successfulAddresses, failedAddresses, thrown := ProbeAddresses(output, log, addresses, net.probes);
    if thrown.Some? {
      return Raised(thrown.value);
    }
    output.AddOutput("");
    var verdict := Classify(|successfulAddresses|, |failedAddresses|);
    output.AddOutput(VerdictLine(verdict, |failedAddresses|, |addresses|));
    if verdict == AllFailed {
      return Raised(AllFailedException(|addresses|));
    }
    output.AddOutput("");

    outcome := DetailedConnect(output, log, server, port, timeoutSeconds, net);
  }

  /**
   * The `foreach` of step 2: a quick connect to each address in order,
   * each client disposed once its outcome is known, filling the reachable
   * list and the failed dictionary.
   */
  method ProbeAddresses(output: OutputBuffer, ghost log: HandleLog,
                        addresses: seq<Address>, probes: seq<Timed<()>>)
    returns (successfulAddresses: seq<Address>, failedAddresses: map<Address, string>,
             thrown: Option<Exception>)
    requires |addresses| == |probes|
    modifies output, log
    ensures successfulAddresses == ProbeAll(old(output.lines), old(log.events), addresses, probes).successful
    ensures failedAddresses == ProbeAll(old(output.lines), old(log.events), addresses, probes).failed
    ensures thrown == ProbeAll(old(output.lines), old(log.events), addresses, probes).abort
    ensures output.lines == ProbeAll(old(output.lines), old(log.events), addresses, probes).lines
    ensures log.events == ProbeAll(old(output.lines), old(log.events), addresses, probes).events
  {
    ghost var lines0, events0 := output.lines, log.events;
    successfulAddresses, failedAddresses, thrown := [], map[], None;
    var i := 0;
    while i < |addresses|
      invariant 0 <= i <= |addresses|
      invariant ProbeAll(lines0, events0, addresses[..i], probes[..i]).abort == None
      invariant successfulAddresses == ProbeAll(lines0, events0, addresses[..i], probes[..i]).successful
      invariant failedAddresses == ProbeAll(lines0, events0, addresses[..i], probes[..i]).failed
      invariant output.lines == ProbeAll(lines0, events0, addresses[..i], probes[..i]).lines
      invariant log.events == ProbeAll(lines0, events0, addresses[..i], probes[..i]).events
    {
      var address := addresses[i];
      var probe := probes[i];
      assert addresses[..i + 1][..i] == addresses[..i] && probes[..i + 1][..i] == probes[..i];
      var testClient := new Handle(ProbeClient, log);
      if probe.attempt.Completed? {
        output.AddOutput(ReachableLine(address, probe.ms));
        successfulAddresses := successfulAddresses + [address];
        testClient.Dispose();
      } else {
        var ex := ProbeException(probe.attempt);
        output.AddOutput(FailedLine(address, probe.ms, ex.message));
        if address in failedAddresses {
          // Dictionary.Add throws here, so the Dispose below never runs
          thrown := Some(DuplicateKey(address));
          AbortPersists(lines0, events0, addresses, probes, i + 1);
          return;
        }
        failedAddresses := failedAddresses[address := ex.message];
        testClient.Dispose();
      }
      i := i + 1;
    }
    assert addresses[..i] == addresses && probes[..i] == probes;
  }

  /** Once the loop has thrown, the remaining addresses change nothing. */
  lemma {:induction false} AbortPersists(before: seq<string>, ledger: seq<Event>, addresses: seq<Address>,
                                         probes: seq<Timed<()>>, n: nat)
    requires |addresses| == |probes| && n <= |addresses|
    requires ProbeAll(before, ledger, addresses[..n], probes[..n]).abort.Some?
    ensures ProbeAll(before, ledger, addresses, probes) == ProbeAll(before, ledger, addresses[..n], probes[..n])
    decreases |addresses| - n
  {
    if n < |addresses| {
      var m := |addresses| - 1;
      assert addresses[..m][..n] == addresses[..n] && probes[..m][..n] == probes[..n];
      AbortPersists(before, ledger, addresses[..m], probes[..m], n);
    } else {
      assert addresses[..n] == addresses && probes[..n] == probes;
    }
  }

  /** The report of a completed step 3 connect. */
  method LogConnected(output: OutputBuffer, ms: nat, ep: Endpoints)
    modifies output
    ensures output.lines == WithConnected(old(output.lines), ms, ep)
  {
    output.AddOutput("✅ TCP connection established (" + NatToString(ms) + "ms)");
    output.AddOutput("   Local endpoint: " + ep.local);
    output.AddOutput("   Remote endpoint: " + ep.remote);
    output.AddOutput("   Connected: " + BoolToString(ep.connected));
    output.AddOutput("");
  }

  /**
   * Step 3: one connect to the host name, raced against the full timeout;
   * on failure the client is disposed and the exception rethrown.
   */
  method DetailedConnect(output: OutputBuffer, ghost log: HandleLog, server: string, port: int,
                         timeoutSeconds: int, net: Network)
    returns (outcome: Outcome)
    modifies output, log
    ensures output.lines == Detailed(old(output.lines), old(log.events), server, port, timeoutSeconds, net).lines
    ensures log.events == Detailed(old(output.lines), old(log.events), server, port, timeoutSeconds, net).events
    ensures outcome == Detailed(old(output.lines), old(log.events), server, port, timeoutSeconds, net).outcome
  {
    output.AddOutput(StepHeader(3));
    var tcpClient := new Handle(DetailClient, log);
    var connect := net.connect;
    if !connect.attempt.Completed? {
      var ex := ConnectException(connect.attempt, timeoutSeconds);
      output.AddOutput(ConnectFailedLine(connect.ms, ex));
      tcpClient.Dispose();
      return Raised(ex);
    }
    LogConnected(output, connect.ms, connect.attempt.value);
    outcome := SecureSession(output, log, tcpClient, server, port, net);
  }

  /** The report of a completed handshake. */
  method LogSession(output: OutputBuffer, ms: nat, s: TlsSession)
    modifies output
    ensures output.lines == WithSession(old(output.lines), ms, s)
  {
    output.AddOutput("✅ SSL/TLS handshake successful (" + NatToString(ms) + "ms)");
    output.AddOutput("   SSL Protocol: " + s.protocol);
    output.AddOutput("   Cipher Algorithm: " + s.cipher + " (" + IntToString(s.cipherStrength) + " bits)");
    output.AddOutput("   Hash Algorithm: " + s.hash + " (" + IntToString(s.hashStrength) + " bits)");
    output.AddOutput("   Key Exchange Algorithm: " + s.keyExchange + " (" + IntToString(s.keyExchangeStrength) + " bits)");
    output.AddOutput("   Is Authenticated: " + BoolToString(s.isAuthenticated));
    output.AddOutput("   Is Encrypted: " + BoolToString(s.isEncrypted));
    output.AddOutput("   Is Signed: " + BoolToString(s.isSigned));
    output.AddOutput("");
  }

  /** The summary written once every step has passed. */
  method LogSummary(output: OutputBuffer, server: string, port: int)
    modifies output
    ensures output.lines == WithSummary(old(output.lines), server, port)
  {
    output.AddOutput(SummaryHeader);
    output.AddOutput("✅ All connectivity tests passed!");
    output.AddOutput("   Server: " + server + ":" + IntToString(port));
    output.AddOutput("   Status: REACHABLE");
    output.AddOutput("   SSL/TLS: WORKING");
    output.AddOutput(SummaryLast);
  }

  /**
   * Step 4 and, once the handshake succeeded, step 5 and the summary.
   * The stream and the connection under it are disposed on every way out:
   * in the handshake's catch, or in step 5's finally.
   */
  method SecureSession(output: OutputBuffer, ghost log: HandleLog, tcpClient: Handle, server: string, port: int,
                       net: Network)
    returns (outcome: Outcome)
    requires tcpClient.log == log
    modifies output, log
    ensures output.lines == Secure(old(output.lines), old(log.events), tcpClient.name, server, port, net).lines
    ensures log.events == Secure(old(output.lines), old(log.events), tcpClient.name, server, port, net).events
    ensures outcome == Secure(old(output.lines), old(log.events), tcpClient.name, server, port, net).outcome
  {
    var handshake := net.handshake;
    output.AddOutput(StepHeader(4));
    var sslStream := new Handle(TlsStream, log);
    if handshake.callback.Some? {
      var _ := ValidateCertificate(output, handshake.callback.value);
    }
    if handshake.result.HandshakeError? {
      var ex := handshake.result.ex;
      output.AddOutput(HandshakeFailedLine(handshake.ms, ex));
      sslStream.Dispose();
      tcpClient.Dispose();
      return Raised(ex);
    }
    LogSession(output, handshake.ms, handshake.result.session);

    // Step 5: a bounded read of whatever the server sends first; never fatal
    output.AddOutput(StepHeader(5));
    output.AddOutput(GreetingNote);
    ReadGreeting(output, net.greeting);
    // the finally block
    sslStream.Dispose();
    tcpClient.Dispose();

    LogSummary(output, server, port);
    outcome := Returned;
  }

  /**
   * The body of step 5's try and catch: read into a 4096-byte buffer,
   * raced against five seconds; every ending is logged and none escapes.
   */
  method ReadGreeting(output: OutputBuffer, greeting: Timed<seq<byte>>)
    modifies output
    ensures output.lines == WithGreeting(old(output.lines), greeting)
  {
    var buffer := new byte[BufferSize];
    match greeting.attempt {
      case TimedOut =>
        output.AddOutput(NoGreetingLine);
        output.AddOutput("");
      case Error(ex) =>
        output.AddOutput(GreetingFailedLine(greeting.ms, ex));
        output.AddOutput("");
      case Completed(available) =>
        var bytesRead := ReadAsync(buffer, 0, buffer.Length, available);
        ghost var bytes := BytesRead(available, BufferSize);
        assert buffer[..bytesRead] == buffer[0..0 + bytesRead] == bytes;
        if bytesRead > 0 {
          var text := Trim(AsciiDecode(buffer[..bytesRead]));
          output.AddOutput(GreetingReceivedLine(greeting.ms, bytesRead));
          output.AddOutput(ResponseLine(text));
          output.AddOutput("");
        } else {
          output.AddOutput(NoDataLine);
          output.AddOutput("");
        }
    }
  }

  /**
   * `Run`, the function's entry point: clear the transcript, record the
   * start and the configuration, run the probe, and answer OK with the
   * success trailer or InternalServerError with the exception's kind,
   * message and stack trace.
   */
  method Run(output: OutputBuffer, ghost log: HandleLog, serverFqdn: string, parsedPort: Option<int>,
             timestamp: string, stackTrace: string, net: Network)
    returns (status: Status)
    requires WellFormed(net)
    modifies output, log
    ensures output.lines == RunReport(serverFqdn, parsedPort, timestamp, stackTrace, old(log.events), net).lines
    ensures log.events == RunReport(serverFqdn, parsedPort, timestamp, stackTrace, old(log.events), net).events
    ensures status == RunReport(serverFqdn, parsedPort, timestamp, stackTrace, old(log.events), net).status
  {
    output.Clear();
    output.AddOutput(StartedLine);
    assert output.lines == [StartedLine];
    output.AddOutput("Timestamp: " + timestamp + " UTC");
    output.AddOutput("");

    var portNumber := ChosenPort(parsedPort);
    output.AddOutput(ConfigurationLine(serverFqdn, portNumber));
    output.AddOutput("");

    var outcome := TestConnectivity(output, log, serverFqdn, portNumber, TimeoutSeconds, net);
    match outcome {
      case Returned =>
        output.AddOutput("");
        output.AddOutput(SuccessLine);
        status := OK;
      case Raised(ex) =>
        output.AddOutput("");
        output.AddOutput("❌ Test failed: " + ex.kind);
        output.AddOutput("Message: " + ex.message);
        output.AddOutput("Stack Trace: " + stackTrace);
        status := InternalServerError;
    }
  }
}
