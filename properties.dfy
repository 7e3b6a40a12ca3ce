/**
 * What the probe promises, proved about the reference pipeline of module
 * Stages (and so, through the contracts of module ConnectivityTest, about
 * the procedure itself).
 */
module Properties {
  import opened Wrappers
  import opened Text
  import opened Oracle
  import opened Lifecycle
  import opened Stages

  // ---- Step 2: the bulk probe ----------------------------------------------

  /** The addresses whose quick connect completed, in the resolver's order. */
  function Reachable(addresses: seq<Address>, probes: seq<Timed<()>>): (r: seq<Address>)
    requires |addresses| == |probes|
    ensures |r| <= |addresses|
    decreases |addresses|
  {
    if |addresses| == 0 then []
    else
      var n := |addresses| - 1;
      Reachable(addresses[..n], probes[..n]) + (if probes[n].attempt.Completed? then [addresses[n]] else [])
  }

  /** How many quick connects failed. */
  function FailureCount(probes: seq<Timed<()>>): (r: nat)
    ensures r <= |probes|
    decreases |probes|
  {
    if |probes| == 0 then 0
    else
      var n := |probes| - 1;
      FailureCount(probes[..n]) + (if probes[n].attempt.Completed? then 0 else 1)
  }

  /**
   * With no address resolved twice, the loop never throws, and every key
   * of the failed dictionary is a resolved address.
   */
  lemma {:induction false} ProbeNeverThrows(before: seq<string>, ledger: seq<Event>, addresses: seq<Address>,
                                            probes: seq<Timed<()>>)
    requires |addresses| == |probes| && Distinct(addresses)
    ensures ProbeAll(before, ledger, addresses, probes).abort == None
    ensures forall a :: a in ProbeAll(before, ledger, addresses, probes).failed ==> a in addresses
    decreases |addresses|
  {
    if |addresses| > 0 {
      var n := |addresses| - 1;
      ProbeNeverThrows(before, ledger, addresses[..n], probes[..n]);
      assert addresses[n] !in addresses[..n];
    }
  }

  /**
   * Once the loop has not thrown (whenever no address repeats, by
   * ProbeNeverThrows), the reachable list holds the addresses whose
   * connect completed, in order.
   */
  lemma {:induction false} ProbeReachable(before: seq<string>, ledger: seq<Event>, addresses: seq<Address>,
                                          probes: seq<Timed<()>>)
    requires |addresses| == |probes|
    requires ProbeAll(before, ledger, addresses, probes).abort == None
    ensures ProbeAll(before, ledger, addresses, probes).successful == Reachable(addresses, probes)
    decreases |addresses|
  {
    if |addresses| > 0 {
      var n := |addresses| - 1;
      var st := ProbeAll(before, ledger, addresses[..n], probes[..n]);
      assert ProbeAll(before, ledger, addresses, probes) == ProbeStep(st, addresses[n], probes[n]);
      ProbeReachable(before, ledger, addresses[..n], probes[..n]);
    }
  }

  /**
   * The failed dictionary maps exactly the addresses whose connect did not
   * complete, each to its exception's message.
   */
  lemma {:induction false} ProbeFailures(before: seq<string>, ledger: seq<Event>, addresses: seq<Address>,
                                         probes: seq<Timed<()>>)
    requires |addresses| == |probes| && Distinct(addresses)
    ensures forall i :: 0 <= i < |addresses| ==>
              (addresses[i] in ProbeAll(before, ledger, addresses, probes).failed <==> !probes[i].attempt.Completed?)
    ensures forall i :: 0 <= i < |addresses| && !probes[i].attempt.Completed? ==>
              ProbeAll(before, ledger, addresses, probes).failed[addresses[i]] == ProbeException(probes[i].attempt).message
    decreases |addresses|
  {
    if |addresses| > 0 {
      var n := |addresses| - 1;
      var a, p := addresses[..n], probes[..n];
      ProbeFailures(before, ledger, a, p);
      ProbeNeverThrows(before, ledger, a, p);
      var st := ProbeAll(before, ledger, a, p);
      assert addresses[n] !in a;
      var next := ProbeAll(before, ledger, addresses, probes);
      assert next == ProbeStep(st, addresses[n], probes[n]);
      assert next.failed == if probes[n].attempt.Completed? then st.failed
                            else st.failed[addresses[n] := ProbeException(probes[n].attempt).message];
      forall i | 0 <= i < n
        ensures addresses[i] in next.failed <==> !probes[i].attempt.Completed?
        ensures !probes[i].attempt.Completed? ==> next.failed[addresses[i]] == ProbeException(probes[i].attempt).message
      {
        assert addresses[i] != addresses[n];
        assert addresses[i] == a[i] && probes[i] == p[i];
      }
    }
  }

  /** Once the loop has not thrown, the failed dictionary has one entry per failed connect. */
  lemma {:induction false} ProbeFailureCount(before: seq<string>, ledger: seq<Event>, addresses: seq<Address>,
                                             probes: seq<Timed<()>>)
    requires |addresses| == |probes|
    requires ProbeAll(before, ledger, addresses, probes).abort == None
    ensures |ProbeAll(before, ledger, addresses, probes).failed| == FailureCount(probes)
    decreases |addresses|
  {
    if |addresses| > 0 {
      var n := |addresses| - 1;
      var a, p := addresses[..n], probes[..n];
      var st := ProbeAll(before, ledger, a, p);
      assert ProbeAll(before, ledger, addresses, probes) == ProbeStep(st, addresses[n], probes[n]);
      StepKept(st, addresses[n], probes[n]);
      ProbeFailureCount(before, ledger, a, p);
      assert !probes[n].attempt.Completed? ==> addresses[n] !in st.failed;
    }
  }

  /** Every address is either reachable or counted as a failure, never both. */
  lemma {:induction false} ReachablePlusFailures(addresses: seq<Address>, probes: seq<Timed<()>>)
    requires |addresses| == |probes|
    ensures |Reachable(addresses, probes)| + FailureCount(probes) == |addresses|
    decreases |addresses|
  {
    if |addresses| > 0 {
      var n := |addresses| - 1;
      ReachablePlusFailures(addresses[..n], probes[..n]);
      assert probes[..n] == probes[..|probes| - 1];
    }
  }

  /**
   * Once the loop has not thrown, it has written one line per address, in
   * order, after the transcript so far.
   */
  lemma {:induction false} ProbeTranscript(before: seq<string>, ledger: seq<Event>, addresses: seq<Address>,
                                           probes: seq<Timed<()>>)
    requires |addresses| == |probes|
    requires ProbeAll(before, ledger, addresses, probes).abort == None
    ensures |ProbeAll(before, ledger, addresses, probes).lines| == |before| + |addresses|
    ensures before <= ProbeAll(before, ledger, addresses, probes).lines
    ensures forall i :: 0 <= i < |addresses| ==>
              ProbeAll(before, ledger, addresses, probes).lines[|before| + i] == ProbeLine(addresses[i], probes[i])
    decreases |addresses|
  {
    if |addresses| > 0 {
      var n := |addresses| - 1;
      var a, p := addresses[..n], probes[..n];
      var st := ProbeAll(before, ledger, a, p);
      var next := ProbeAll(before, ledger, addresses, probes);
      assert next == ProbeStep(st, addresses[n], probes[n]);
      StepKept(st, addresses[n], probes[n]);
      ProbeTranscript(before, ledger, a, p);
      forall i | 0 <= i < |addresses|
        ensures next.lines[|before| + i] == ProbeLine(addresses[i], probes[i])
      {
        if i < n {
          assert addresses[i] == a[i] && probes[i] == p[i];
        }
      }
    }
  }

  /**
   * Once the loop has not thrown, it has created one client per address and
   * disposed each right after creating it, before the next is created: the
   * log gains, per address, the client's creation and then its disposal.
   * So the handles open before the loop are exactly the ones open after it.
   */
  lemma {:induction false} ProbeDisposesClients(before: seq<string>, ledger: seq<Event>, addresses: seq<Address>,
                                                probes: seq<Timed<()>>)
    requires |addresses| == |probes|
    requires ProbeAll(before, ledger, addresses, probes).abort == None
    ensures var ev := ProbeAll(before, ledger, addresses, probes).events;
            |ev| == |ledger| + 2 * |addresses| && ev[..|ledger|] == ledger &&
            forall i :: |ledger| <= i < |ev| ==>
              ev[i] == if (i - |ledger|) % 2 == 0 then Opened(ProbeClient) else Disposed(i - 1)
    ensures Pending(ledger).Some? ==> Pending(ProbeAll(before, ledger, addresses, probes).events) == Pending(ledger)
    decreases |addresses|
  {
    if |addresses| > 0 {
      var n := |addresses| - 1;
      var a, p := addresses[..n], probes[..n];
      var st := ProbeAll(before, ledger, a, p);
      assert ProbeAll(before, ledger, addresses, probes) == ProbeStep(st, addresses[n], probes[n]);
      StepKept(st, addresses[n], probes[n]);
      ProbeDisposesClients(before, ledger, a, p);
      var ev := st.events + [Opened(ProbeClient)] + [Disposed(|st.events|)];
      assert ev[..|ledger|] == ledger by {
        assert ev[..|ledger|] == st.events[..|ledger|];
      }
      forall i | |ledger| <= i < |ev|
        ensures ev[i] == if (i - |ledger|) % 2 == 0 then Opened(ProbeClient) else Disposed(i - 1)
      {
        if i < |st.events| {
          assert ev[i] == st.events[i];
        } else if i == |st.events| {
          assert i - |ledger| == 2 * n;
        } else {
          assert i - |ledger| == 2 * n + 1;
        }
      }
      if Pending(ledger).Some? {
        PendingOpened(st.events, ProbeClient);
        PendingDisposed(st.events + [Opened(ProbeClient)], Pending(ledger).value, |st.events|);
      }
    }
  }

  /** One quick connect that did not make the loop throw: one line, one client opened and disposed. */
  lemma StepKept(st: ProbeState, a: Address, probe: Timed<()>)
    requires ProbeStep(st, a, probe).abort == None
    ensures st.abort == None
    ensures ProbeStep(st, a, probe).lines == st.lines + [ProbeLine(a, probe)]
    ensures ProbeStep(st, a, probe).events == st.events + [Opened(ProbeClient)] + [Disposed(|st.events|)]
  {
  }

  /** One quick connect to an address the failed dictionary does not hold yet, before anything threw. */
  lemma StepFresh(st: ProbeState, a: Address, probe: Timed<()>)
    requires st.abort == None && a !in st.failed
    ensures ProbeStep(st, a, probe).abort == None
    ensures ProbeStep(st, a, probe).lines == st.lines + [ProbeLine(a, probe)]
    ensures ProbeStep(st, a, probe).events == st.events + [Opened(ProbeClient)] + [Disposed(|st.events|)]
  {
  }

  /** Whether some quick connect completed. */
  predicate AnyReachable(probes: seq<Timed<()>>) {
    exists i :: 0 <= i < |probes| && probes[i].attempt.Completed?
  }

  /** The reachable list is empty exactly when no quick connect completed. */
  lemma {:induction false} ReachableEmpty(addresses: seq<Address>, probes: seq<Timed<()>>)
    requires |addresses| == |probes|
    ensures Reachable(addresses, probes) == [] <==> !AnyReachable(probes)
    decreases |addresses|
  {
    if |addresses| > 0 {
      var n := |addresses| - 1;
      ReachableEmpty(addresses[..n], probes[..n]);
      if AnyReachable(probes[..n]) {
        var i :| 0 <= i < n && probes[..n][i].attempt.Completed?;
        assert probes[i].attempt.Completed?;
      }
      if AnyReachable(probes) && !probes[n].attempt.Completed? {
        var i :| 0 <= i < |probes| && probes[i].attempt.Completed?;
        assert probes[..n][i].attempt.Completed?;
      }
    }
  }

  /**
   * The verdict of step 2 once the loop has not thrown: all failed when no
   * connect completed, some failed when one completed and one did not, none
   * failed when every connect completed.
   */
  lemma ProbeVerdict(before: seq<string>, ledger: seq<Event>, addresses: seq<Address>, probes: seq<Timed<()>>)
    requires |addresses| == |probes|
    requires ProbeAll(before, ledger, addresses, probes).abort == None
    ensures var st := ProbeAll(before, ledger, addresses, probes);
            Classify(|st.successful|, |st.failed|) ==
              if !AnyReachable(probes) then AllFailed
              else if FailureCount(probes) > 0 then SomeFailed
              else NoneFailed
  {
    ProbeReachable(before, ledger, addresses, probes);
    ProbeFailureCount(before, ledger, addresses, probes);
    ReachableEmpty(addresses, probes);
  }

  /** The bulk probe only appends to the transcript, duplicates or not. */
  lemma {:induction false} ProbeAllAppends(before: seq<string>, ledger: seq<Event>, addresses: seq<Address>,
                                           probes: seq<Timed<()>>)
    requires |addresses| == |probes|
    ensures before <= ProbeAll(before, ledger, addresses, probes).lines
    decreases |addresses|
  {
    if |addresses| > 0 {
      var n := |addresses| - 1;
      ProbeAllAppends(before, ledger, addresses[..n], probes[..n]);
    }
  }

  /**
   * An address resolved twice whose connects both fail: the second `Add`
   * to the failed dictionary throws, so the loop ends with that exception
   * and the second probe client is never disposed.
   */
  lemma DuplicateFailureLeaksClient(before: seq<string>, ledger: seq<Event>, a: Address,
                                    first: Timed<()>, second: Timed<()>)
    requires Pending(ledger).Some?
    requires !first.attempt.Completed? && !second.attempt.Completed?
    ensures var st := ProbeAll(before, ledger, [a, a], [first, second]);
            st.abort == Some(DuplicateKey(a)) &&
            Pending(st.events) == Some(Pending(ledger).value + [|ledger| + 2])
  {
    var s0 := ProbeState([], map[], before, ledger, None);
    var s1 := ProbeAll(before, ledger, [a], [first]);
    assert s1 == ProbeStep(s0, a, first) by {
      assert [a][..0] == [] && [first][..0] == [];
      assert ProbeAll(before, ledger, [], []) == s0;
    }
    StepFresh(s0, a, first);
    assert a in s1.failed;
    assert ProbeAll(before, ledger, [a, a], [first, second]) == ProbeStep(s1, a, second) by {
      assert [a, a][..1] == [a] && [first, second][..1] == [first];
    }
    PendingOpened(ledger, ProbeClient);
    PendingDisposed(ledger + [Opened(ProbeClient)], Pending(ledger).value, |ledger|);
    PendingOpened(s1.events, ProbeClient);
  }

  // ---- Step 5: the greeting ------------------------------------------------

  /** Step 5 reads at most one buffer, from the start of what the server sent. */
  lemma GreetingReadBound(available: seq<byte>)
    ensures |BytesRead(available, BufferSize)| <= 4096
    ensures BytesRead(available, BufferSize) <= available
    ensures |BytesRead(available, BufferSize)| == 0 <==> |available| == 0
  {
  }

  /** The logged greeting is the decoded bytes without leading or trailing white space. */
  lemma GreetingIsTrimmed(bytes: seq<byte>)
    ensures IsTrimmed(Greeting(bytes))
    ensures exists i, j :: 0 <= i <= j <= |bytes| && Greeting(bytes) == AsciiDecode(bytes)[i..j]
  {
    TrimIsMaximalSlice(AsciiDecode(bytes));
  }

  // ---- Step 3 onwards -------------------------------------------------------

  /** How step 3 onwards ends: the connect's or the handshake's exception, or a return. */
  function FromStep3(net: Network, timeoutSeconds: int): Outcome {
    if !net.connect.attempt.Completed? then Raised(ConnectException(net.connect.attempt, timeoutSeconds))
    else match net.handshake.result
      case HandshakeError(ex) => Raised(ex)
      case Authenticated(_) => Returned
  }

  /** Step 3 onwards throws the exception of its first failing stage, or returns. */
  lemma DetailedOutcome(before: seq<string>, ledger: seq<Event>, server: string, port: int,
                        timeoutSeconds: int, net: Network)
    ensures Detailed(before, ledger, server, port, timeoutSeconds, net).outcome == FromStep3(net, timeoutSeconds)
  {
  }

  /** Steps 4 and 5 dispose the stream, then the connection `client` they were handed. */
  lemma SecureDisposes(before: seq<string>, ledger: seq<Event>, open: seq<nat>, client: nat,
                       server: string, port: int, net: Network)
    requires Pending(ledger) == Some(open + [client])
    ensures Pending(Secure(before, ledger, client, server, port, net).events) == Some(open)
  {
    var stream := |ledger|;
    PendingOpened(ledger, TlsStream);
    PendingDisposed(ledger + [Opened(TlsStream)], open + [client], stream);
    PendingDisposed(ledger + [Opened(TlsStream)] + [Disposed(stream)], open, client);
  }

  /** Step 3 onwards disposes every handle it opens, innermost first. */
  lemma DetailedDisposes(before: seq<string>, ledger: seq<Event>, server: string, port: int,
                         timeoutSeconds: int, net: Network)
    requires Pending(ledger).Some?
    ensures Pending(Detailed(before, ledger, server, port, timeoutSeconds, net).events) == Pending(ledger)
  {
    var client := |ledger|;
    var open := Pending(ledger).value;
    PendingOpened(ledger, DetailClient);
    if net.connect.attempt.Completed? {
      var lines := WithConnected(before + [StepHeader(3)], net.connect.ms, net.connect.attempt.value);
      SecureDisposes(lines, ledger + [Opened(DetailClient)], open, client, server, port, net);
    } else {
      PendingDisposed(ledger + [Opened(DetailClient)], open, client);
    }
  }

  /** From step 3 on, the greeting decides neither how the run ends nor what it disposes. */
  lemma DetailedIgnoresGreeting(before: seq<string>, ledger: seq<Event>, server: string, port: int,
                                timeoutSeconds: int, net: Network, greeting: Timed<seq<byte>>)
    ensures var t := Detailed(before, ledger, server, port, timeoutSeconds, net);
            var u := Detailed(before, ledger, server, port, timeoutSeconds, net.(greeting := greeting));
            t.outcome == u.outcome && t.events == u.events
  {
  }

  /** The summary block is the last six lines of whatever it is appended to. */
  lemma SummaryTail(before: seq<string>, server: string, port: int)
    ensures var s := WithSummary(before, server, port);
            |s| == |before| + 6 && s[|before|..] == WithSummary([], server, port)
  {
  }

  /**
   * From step 3 on, a run that returns ends with the whole summary block:
   * the header, the pass line, the server and port, and the three status
   * lines.
   */
  lemma DetailedEndsWithSummary(before: seq<string>, ledger: seq<Event>, server: string, port: int,
                                timeoutSeconds: int, net: Network)
    ensures var t := Detailed(before, ledger, server, port, timeoutSeconds, net);
            t.outcome == Returned ==> |t.lines| >= 6 && t.lines[|t.lines| - 6..] == WithSummary([], server, port)
  {
    var c := net.connect;
    var h := net.handshake;
    if c.attempt.Completed? && h.result.Authenticated? {
      var lines := WithCallback(WithConnected(before + [StepHeader(3)], c.ms, c.attempt.value) + [StepHeader(4)],
                                h.callback);
      var noted := WithSession(lines, h.ms, h.result.session) + [StepHeader(5)] + [GreetingNote];
      SummaryTail(WithGreeting(noted, net.greeting), server, port);
    }
  }

  /** The line the failing stage of step 3 onwards writes before it rethrows. */
  function Step3FailureLine(net: Network, timeoutSeconds: int): string {
    if !net.connect.attempt.Completed? then
      ConnectFailedLine(net.connect.ms, ConnectException(net.connect.attempt, timeoutSeconds))
    else match net.handshake.result
      case HandshakeError(ex) => HandshakeFailedLine(net.handshake.ms, ex)
      case Authenticated(_) => ""
  }

  /** When step 3 onwards throws, the failing stage's line is the last one written. */
  lemma DetailedFailureIsLast(before: seq<string>, ledger: seq<Event>, server: string, port: int,
                              timeoutSeconds: int, net: Network)
    ensures var t := Detailed(before, ledger, server, port, timeoutSeconds, net);
            t.outcome.Raised? ==> |t.lines| > 0 && t.lines[|t.lines| - 1] == Step3FailureLine(net, timeoutSeconds)
  {
  }

  /** Prefixes compose: a transcript extended twice still starts with the original. */
  lemma PrefixTransitive(a: seq<string>, b: seq<string>, c: seq<string>)
    requires a <= b && b <= c
    ensures a <= c
  {
    assert c[..|a|] == c[..|b|][..|a|];
  }

  /** Step 5 and the summary only append to the transcript. */
  lemma GreetingAppends(before: seq<string>, greeting: Timed<seq<byte>>, server: string, port: int)
    ensures before <= WithSummary(WithGreeting(before, greeting), server, port)
  {
    var greeted := WithGreeting(before, greeting);
    PrefixTransitive(before, greeted, WithSummary(greeted, server, port));
  }

  /** The certificate callback and the session report only append to the transcript. */
  lemma HandshakeAppends(before: seq<string>, h: Handshake)
    ensures before <= WithCallback(before + [StepHeader(4)], h.callback)
    ensures h.result.Authenticated? ==>
              before <= WithSession(WithCallback(before + [StepHeader(4)], h.callback), h.ms, h.result.session)
                          + [StepHeader(5)] + [GreetingNote]
  {
    var lines := WithCallback(before + [StepHeader(4)], h.callback);
    if h.result.Authenticated? {
      PrefixTransitive(before, lines, WithSession(lines, h.ms, h.result.session) + [StepHeader(5)] + [GreetingNote]);
    }
  }

  /** Steps 4 and 5 only append to the transcript. */
  lemma SecureAppends(before: seq<string>, ledger: seq<Event>, client: nat, server: string, port: int,
                      net: Network)
    ensures before <= Secure(before, ledger, client, server, port, net).lines
  {
    var h := net.handshake;
    HandshakeAppends(before, h);
    if h.result.Authenticated? {
      var noted := WithSession(WithCallback(before + [StepHeader(4)], h.callback), h.ms, h.result.session)
                     + [StepHeader(5)] + [GreetingNote];
      GreetingAppends(noted, net.greeting, server, port);
      PrefixTransitive(before, noted, WithSummary(WithGreeting(noted, net.greeting), server, port));
    }
  }

  /** From step 3 on, the procedure only appends to the transcript. */
  lemma DetailedAppends(before: seq<string>, ledger: seq<Event>, server: string, port: int,
                        timeoutSeconds: int, net: Network)
    ensures before <= Detailed(before, ledger, server, port, timeoutSeconds, net).lines
  {
    var lines := before + [StepHeader(3)];
    if net.connect.attempt.Completed? {
      var connected := WithConnected(lines, net.connect.ms, net.connect.attempt.value);
      assert before <= connected;
      SecureAppends(connected, ledger + [Opened(DetailClient)], |ledger|, server, port, net);
    }
  }

  // ---- After the bulk probe -------------------------------------------------

  /**
   * Once the loop has not thrown, the run throws the all-failed exception
   * when no address was reachable, and otherwise ends as step 3 onwards do.
   */
  lemma JudgedOutcome(probed: ProbeState, total: nat, server: string, port: int, timeoutSeconds: int,
                      net: Network)
    requires probed.abort == None
    ensures Judged(probed, total, server, port, timeoutSeconds, net).outcome ==
              if |probed.successful| == 0 then Raised(AllFailedException(total)) else FromStep3(net, timeoutSeconds)
  {
    var verdict := Classify(|probed.successful|, |probed.failed|);
    var judged := probed.lines + [""] + [VerdictLine(verdict, |probed.failed|, total)];
    DetailedOutcome(judged + [""], probed.events, server, port, timeoutSeconds, net);
  }

  /** What follows the loop disposes every handle it opens, innermost first. */
  lemma JudgedDisposes(probed: ProbeState, total: nat, server: string, port: int, timeoutSeconds: int,
                       net: Network)
    requires Pending(probed.events).Some?
    ensures Pending(Judged(probed, total, server, port, timeoutSeconds, net).events) == Pending(probed.events)
  {
    var verdict := Classify(|probed.successful|, |probed.failed|);
    var judged := probed.lines + [""] + [VerdictLine(verdict, |probed.failed|, total)];
    DetailedDisposes(judged + [""], probed.events, server, port, timeoutSeconds, net);
  }

  /** What follows the loop does not depend on the greeting for how it ends or what it disposes. */
  lemma JudgedIgnoresGreeting(probed: ProbeState, total: nat, server: string, port: int, timeoutSeconds: int,
                              net: Network, greeting: Timed<seq<byte>>)
    ensures var t := Judged(probed, total, server, port, timeoutSeconds, net);
            var u := Judged(probed, total, server, port, timeoutSeconds, net.(greeting := greeting));
            t.outcome == u.outcome && t.events == u.events
  {
    var verdict := Classify(|probed.successful|, |probed.failed|);
    var judged := probed.lines + [""] + [VerdictLine(verdict, |probed.failed|, total)];
    DetailedIgnoresGreeting(judged + [""], probed.events, server, port, timeoutSeconds, net, greeting);
  }

  /** When what follows the loop returns, its last six lines are the summary block. */
  lemma JudgedEndsWithSummary(probed: ProbeState, total: nat, server: string, port: int, timeoutSeconds: int,
                              net: Network)
    ensures var t := Judged(probed, total, server, port, timeoutSeconds, net);
            t.outcome == Returned ==> |t.lines| >= 6 && t.lines[|t.lines| - 6..] == WithSummary([], server, port)
  {
    var verdict := Classify(|probed.successful|, |probed.failed|);
    var judged := probed.lines + [""] + [VerdictLine(verdict, |probed.failed|, total)];
    DetailedEndsWithSummary(judged + [""], probed.events, server, port, timeoutSeconds, net);
  }

  /** When what follows a loop that did not throw throws, the failing stage's line is the last one. */
  lemma JudgedFailureIsLast(probed: ProbeState, total: nat, server: string, port: int, timeoutSeconds: int,
                            net: Network)
    requires probed.abort == None
    ensures var t := Judged(probed, total, server, port, timeoutSeconds, net);
            t.outcome.Raised? ==>
              |t.lines| > 0 &&
              t.lines[|t.lines| - 1] == if |probed.successful| == 0 then AllFailedLine
                                        else Step3FailureLine(net, timeoutSeconds)
  {
    var verdict := Classify(|probed.successful|, |probed.failed|);
    var judged := probed.lines + [""] + [VerdictLine(verdict, |probed.failed|, total)];
    if |probed.successful| == 0 {
      assert VerdictLine(verdict, |probed.failed|, total) == AllFailedLine;
      assert Judged(probed, total, server, port, timeoutSeconds, net).lines == judged;
    } else {
      assert Judged(probed, total, server, port, timeoutSeconds, net)
          == Detailed(judged + [""], probed.events, server, port, timeoutSeconds, net);
      DetailedFailureIsLast(judged + [""], probed.events, server, port, timeoutSeconds, net);
    }
  }

  /** What follows the loop only appends to the transcript. */
  lemma JudgedAppends(probed: ProbeState, total: nat, server: string, port: int, timeoutSeconds: int,
                      net: Network)
    ensures probed.lines <= Judged(probed, total, server, port, timeoutSeconds, net).lines
  {
    var verdict := Classify(|probed.successful|, |probed.failed|);
    var judged := probed.lines + [""] + [VerdictLine(verdict, |probed.failed|, total)];
    DetailedAppends(judged + [""], probed.events, server, port, timeoutSeconds, net);
    PrefixTransitive(probed.lines, judged + [""], Detailed(judged + [""], probed.events, server, port, timeoutSeconds, net).lines);
  }

  // ---- The whole procedure -------------------------------------------------

  /**
   * How the stages say a run ends, read off the network directly: the
   * exception of the first stage that fails, or a normal return.
   */
  function FirstFailure(net: Network, timeoutSeconds: int): Outcome {
    match net.dns
    case DnsError(ex) => Raised(ex)
    case Resolved(_, addresses) =>
      if !AnyReachable(net.probes) then Raised(AllFailedException(|addresses|))
      else FromStep3(net, timeoutSeconds)
  }

  /** The transcript the bulk probe starts from: the preamble, step 1's report and step 2's header. */
  function ProbeStart(before: seq<string>, server: string, port: int, timeoutSeconds: int,
                      ms: nat, addresses: seq<Address>): seq<string> {
    WithResolved(WithPreamble(before, server, port, timeoutSeconds) + [StepHeader(1)], ms, addresses) + [StepHeader(2)]
  }

  /**
   * With no address resolved twice, `TestConnectivity` throws exactly the
   * exception of the first stage that fails, and returns normally exactly
   * when DNS, some quick connect, the detailed connect and the handshake
   * all succeed.
   */
  lemma OutcomeIsFirstFailure(before: seq<string>, ledger: seq<Event>, server: string, port: int,
                              timeoutSeconds: int, net: Network)
    requires WellFormed(net)
    requires net.dns.Resolved? ==> Distinct(net.dns.addresses)
    ensures Connectivity(before, ledger, server, port, timeoutSeconds, net).outcome == FirstFailure(net, timeoutSeconds)
  {
    if net.dns.Resolved? {
      var start := ProbeStart(before, server, port, timeoutSeconds, net.dns.ms, net.dns.addresses);
      ProbeNeverThrows(start, ledger, net.dns.addresses, net.probes);
      ProbeReachable(start, ledger, net.dns.addresses, net.probes);
      ReachableEmpty(net.dns.addresses, net.probes);
      JudgedOutcome(ProbeAll(start, ledger, net.dns.addresses, net.probes), |net.dns.addresses|,
                    server, port, timeoutSeconds, net);
    }
  }

  /**
   * With no address resolved twice, every `TcpClient` and `SslStream` the
   * procedure creates is disposed exactly once, each before any handle
   * opened earlier, whichever way it ends: the handles open afterwards are
   * those open before.
   */
  lemma DisposesEverything(before: seq<string>, ledger: seq<Event>, server: string, port: int,
                           timeoutSeconds: int, net: Network)
    requires WellFormed(net)
    requires net.dns.Resolved? ==> Distinct(net.dns.addresses)
    requires Pending(ledger).Some?
    ensures Pending(Connectivity(before, ledger, server, port, timeoutSeconds, net).events) == Pending(ledger)
  {
    if net.dns.Resolved? {
      var start := ProbeStart(before, server, port, timeoutSeconds, net.dns.ms, net.dns.addresses);
      ProbeNeverThrows(start, ledger, net.dns.addresses, net.probes);
      ProbeDisposesClients(start, ledger, net.dns.addresses, net.probes);
      JudgedDisposes(ProbeAll(start, ledger, net.dns.addresses, net.probes), |net.dns.addresses|,
                     server, port, timeoutSeconds, net);
    }
  }

  /** The greeting read decides neither how the procedure ends nor what it disposes. */
  lemma GreetingNeverFatal(before: seq<string>, ledger: seq<Event>, server: string, port: int,
                           timeoutSeconds: int, net: Network, greeting: Timed<seq<byte>>)
    requires WellFormed(net)
    ensures var t := Connectivity(before, ledger, server, port, timeoutSeconds, net);
            var u := Connectivity(before, ledger, server, port, timeoutSeconds, net.(greeting := greeting));
            t.outcome == u.outcome && t.events == u.events
  {
    if net.dns.Resolved? {
      var start := ProbeStart(before, server, port, timeoutSeconds, net.dns.ms, net.dns.addresses);
      JudgedIgnoresGreeting(ProbeAll(start, ledger, net.dns.addresses, net.probes), |net.dns.addresses|,
                            server, port, timeoutSeconds, net, greeting);
    }
  }

  /** The line the first failing stage writes before it throws. */
  function FailureLine(net: Network, timeoutSeconds: int): string {
    match net.dns
    case DnsError(ex) => DnsFailedLine(ex)
    case Resolved(_, _) => if !AnyReachable(net.probes) then AllFailedLine else Step3FailureLine(net, timeoutSeconds)
  }

  /**
   * With no address resolved twice, a run that throws stops right after the
   * failing stage's ❌ line: no later step header and no summary follow it.
   */
  lemma FatalStageIsLast(before: seq<string>, ledger: seq<Event>, server: string, port: int,
                         timeoutSeconds: int, net: Network)
    requires WellFormed(net)
    requires net.dns.Resolved? ==> Distinct(net.dns.addresses)
    ensures var t := Connectivity(before, ledger, server, port, timeoutSeconds, net);
            t.outcome.Raised? ==> |t.lines| > 0 && t.lines[|t.lines| - 1] == FailureLine(net, timeoutSeconds)
  {
    if net.dns.Resolved? {
      var start := ProbeStart(before, server, port, timeoutSeconds, net.dns.ms, net.dns.addresses);
      ProbeNeverThrows(start, ledger, net.dns.addresses, net.probes);
      ProbeReachable(start, ledger, net.dns.addresses, net.probes);
      ReachableEmpty(net.dns.addresses, net.probes);
      JudgedFailureIsLast(ProbeAll(start, ledger, net.dns.addresses, net.probes), |net.dns.addresses|,
                          server, port, timeoutSeconds, net);
    }
  }

  /**
   * A run that returns ends with the whole summary block, naming the server
   * and port it tested.
   */
  lemma ReturnedEndsWithSummary(before: seq<string>, ledger: seq<Event>, server: string, port: int,
                                timeoutSeconds: int, net: Network)
    requires WellFormed(net)
    ensures var t := Connectivity(before, ledger, server, port, timeoutSeconds, net);
            t.outcome == Returned ==> |t.lines| >= 6 && t.lines[|t.lines| - 6..] == WithSummary([], server, port)
  {
    if net.dns.Resolved? {
      var start := ProbeStart(before, server, port, timeoutSeconds, net.dns.ms, net.dns.addresses);
      JudgedEndsWithSummary(ProbeAll(start, ledger, net.dns.addresses, net.probes), |net.dns.addresses|,
                            server, port, timeoutSeconds, net);
    }
  }

  /** Step 1 and the header of step 2 only append to the transcript. */
  lemma ProbeStartAppends(before: seq<string>, server: string, port: int, timeoutSeconds: int,
                          ms: nat, addresses: seq<Address>)
    ensures before <= ProbeStart(before, server, port, timeoutSeconds, ms, addresses)
  {
    var resolved := WithPreamble(before, server, port, timeoutSeconds) + [StepHeader(1)] + [DnsResolvedLine(ms)];
    var listed := WithAddresses(resolved, addresses);
    assert before <= listed by {
      assert forall i :: 0 <= i < |before| ==> listed[i] == resolved[i];
    }
  }

  /** The procedure only appends to the transcript it is handed. */
  lemma TranscriptOnlyAppends(before: seq<string>, ledger: seq<Event>, server: string, port: int,
                              timeoutSeconds: int, net: Network)
    requires WellFormed(net)
    ensures before <= Connectivity(before, ledger, server, port, timeoutSeconds, net).lines
  {
    if net.dns.Resolved? {
      var start := ProbeStart(before, server, port, timeoutSeconds, net.dns.ms, net.dns.addresses);
      ProbeStartAppends(before, server, port, timeoutSeconds, net.dns.ms, net.dns.addresses);
      ProbeAllAppends(start, ledger, net.dns.addresses, net.probes);
      var probed := ProbeAll(start, ledger, net.dns.addresses, net.probes);
      JudgedAppends(probed, |net.dns.addresses|, server, port, timeoutSeconds, net);
      PrefixTransitive(before, start, probed.lines);
      PrefixTransitive(before, probed.lines,
                       Judged(probed, |net.dns.addresses|, server, port, timeoutSeconds, net).lines);
    }
  }

  // ---- Run -----------------------------------------------------------------

  /** The transcript `Run` hands to the procedure: the header and the configuration line. */
  function RunPrefix(server: string, parsedPort: Option<int>, timestamp: string): seq<string> {
    RunHeader(timestamp) + [ConfigurationLine(server, ChosenPort(parsedPort))] + [""]
  }

  /**
   * The answer is 200 exactly when the procedure returned, and then the
   * transcript gains a blank line and the success line; otherwise 500, and
   * it gains a blank line, the type and the message of the exception, and
   * the stack trace.
   */
  lemma AnswerReportsOutcome(t: Trace, stackTrace: string)
    ensures var r := Answer(t, stackTrace);
            (r.status == OK <==> t.outcome == Returned) &&
            t.lines <= r.lines && r.events == t.events &&
            (t.outcome == Returned ==> r.lines[|t.lines|..] == ["", SuccessLine]) &&
            (t.outcome.Raised? ==> r.lines[|t.lines|..] == ["", "❌ Test failed: " + t.outcome.ex.kind,
                                                            "Message: " + t.outcome.ex.message,
                                                            "Stack Trace: " + stackTrace])
  {
  }

  /**
   * With no address resolved twice, `Run` answers 200 exactly when every
   * stage succeeds, closing with the summary block, a blank line and the
   * success line; otherwise it answers 500 and its closing lines are a blank
   * line and the type and message of the first failing stage's exception,
   * then the stack trace.
   */
  lemma RunStatus(server: string, parsedPort: Option<int>, timestamp: string, stackTrace: string,
                  ledger: seq<Event>, net: Network)
    requires WellFormed(net)
    requires net.dns.Resolved? ==> Distinct(net.dns.addresses)
    ensures var r := RunReport(server, parsedPort, timestamp, stackTrace, ledger, net);
            var first := FirstFailure(net, TimeoutSeconds);
            (r.status == OK <==> first == Returned) &&
            (first == Returned ==> |r.lines| >= 8 &&
                                   r.lines[|r.lines| - 8..] == WithSuccess(WithSummary([], server, ChosenPort(parsedPort)))) &&
            (first.Raised? ==> |r.lines| >= 4 &&
                               r.lines[|r.lines| - 4..] == ["", "❌ Test failed: " + first.ex.kind,
                                                            "Message: " + first.ex.message,
                                                            "Stack Trace: " + stackTrace])
  {
    var prefix := RunPrefix(server, parsedPort, timestamp);
    var port := ChosenPort(parsedPort);
    var t := Connectivity(prefix, ledger, server, port, TimeoutSeconds, net);
    OutcomeIsFirstFailure(prefix, ledger, server, port, TimeoutSeconds, net);
    ReturnedEndsWithSummary(prefix, ledger, server, port, TimeoutSeconds, net);
    AnswerTail(t, stackTrace, WithSummary([], server, port));
    assert RunReport(server, parsedPort, timestamp, stackTrace, ledger, net) == Answer(t, stackTrace);
  }

  /** The trailer `Run` adds, read off the end of the answer rather than after the transcript. */
  lemma AnswerTail(t: Trace, stackTrace: string, block: seq<string>)
    ensures var r := Answer(t, stackTrace).lines;
            (t.outcome == Returned && |block| <= |t.lines| && t.lines[|t.lines| - |block|..] == block ==>
               |r| >= |block| + 2 && r[|r| - |block| - 2..] == WithSuccess(block)) &&
            (t.outcome.Raised? ==>
               |r| >= 4 && r[|r| - 4..] == ["", "❌ Test failed: " + t.outcome.ex.kind,
                                            "Message: " + t.outcome.ex.message, "Stack Trace: " + stackTrace])
  {
    var r := Answer(t, stackTrace).lines;
    if t.outcome == Returned && |block| <= |t.lines| && t.lines[|t.lines| - |block|..] == block {
      assert r == t.lines + [""] + [SuccessLine];
      assert r[|r| - |block| - 2..] == t.lines[|t.lines| - |block|..] + [""] + [SuccessLine];
    }
  }

  /**
   * `Run` starts from a cleared transcript: whatever earlier requests left
   * in the buffer, the answer starts with this run's header and configuration.
   */
  lemma RunTranscript(server: string, parsedPort: Option<int>, timestamp: string, stackTrace: string,
                      ledger: seq<Event>, net: Network)
    requires WellFormed(net)
    ensures RunPrefix(server, parsedPort, timestamp) <= RunReport(server, parsedPort, timestamp, stackTrace, ledger, net).lines
  {
    var prefix := RunPrefix(server, parsedPort, timestamp);
    var port := ChosenPort(parsedPort);
    TranscriptOnlyAppends(prefix, ledger, server, port, TimeoutSeconds, net);
    var t := Connectivity(prefix, ledger, server, port, TimeoutSeconds, net);
    AnswerReportsOutcome(t, stackTrace);
    PrefixTransitive(prefix, t.lines, Answer(t, stackTrace).lines);
  }

  /** With no address resolved twice, a request leaves no `TcpClient` or `SslStream` undisposed. */
  lemma RunDisposes(server: string, parsedPort: Option<int>, timestamp: string, stackTrace: string,
                    ledger: seq<Event>, net: Network)
    requires WellFormed(net)
    requires net.dns.Resolved? ==> Distinct(net.dns.addresses)
    requires Pending(ledger).Some?
    ensures Pending(RunReport(server, parsedPort, timestamp, stackTrace, ledger, net).events) == Pending(ledger)
  {
    DisposesEverything(RunPrefix(server, parsedPort, timestamp), ledger, server, ChosenPort(parsedPort),
                       TimeoutSeconds, net);
  }
}
