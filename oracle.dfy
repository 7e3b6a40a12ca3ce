/**
 * What the network answers. Every call the probe makes into the platform
 * (DNS lookup, TCP connect, TLS handshake, stream read), and every race of
 * such a call against a timer, is an input here whose result is already
 * decided. Elapsed stopwatch times are opaque numbers carried with them.
 */
module Oracle {
  import opened Wrappers
  import opened Text

  datatype Family = InterNetwork | InterNetworkV6 | OtherFamily(name: string)

  /** An `IPAddress`: its text form and its `AddressFamily`. */
  datatype Address = Address(text: string, family: Family)

  /** A .NET exception: its type name and its `Message`. */
  datatype Exception = Exception(kind: string, message: string)

  /**
   * A call raced against `Task.Delay`: it completed first, the timer
   * fired first, or the call faulted.
   */
  datatype Attempt<T> = Completed(value: T) | TimedOut | Error(ex: Exception)

  /** An attempt with the stopwatch reading taken when it was decided. */
  datatype Timed<T> = Timed(ms: nat, attempt: Attempt<T>)

  /** `Dns.GetHostAddressesAsync`: the addresses in resolution order, or the exception. */
  datatype DnsAnswer = Resolved(ms: nat, addresses: seq<Address>) | DnsError(ex: Exception)

  /** What a connected `TcpClient` reports. */
  datatype Endpoints = Endpoints(local: string, remote: string, connected: bool)

  /** The fields of the peer certificate that the callback prints. */
  datatype Certificate = Certificate(subject: string, issuer: string, validFrom: string, validTo: string)

  /** The arguments the platform passes to the validation callback; the certificate may be null. */
  datatype CallbackArgs = CallbackArgs(certificate: Option<Certificate>, policyErrors: string)

  /** The negotiated properties an authenticated `SslStream` reports. */
  datatype TlsSession = TlsSession(
    protocol: string,
    cipher: string, cipherStrength: int,
    hash: string, hashStrength: int,
    keyExchange: string, keyExchangeStrength: int,
    isAuthenticated: bool, isEncrypted: bool, isSigned: bool)

  datatype HandshakeResult = Authenticated(session: TlsSession) | HandshakeError(ex: Exception)

  /**
   * `AuthenticateAsClientAsync`: whether the platform invoked the
   * validation callback (and with what), and how the handshake ended.
   * The handshake is not raced against a timer.
   */
  datatype Handshake = Handshake(ms: nat, callback: Option<CallbackArgs>, result: HandshakeResult)

  /**
   * One run's view of the network. `probes[i]` is the quick connect to
   * the i-th resolved address; `greeting` completes with the bytes the
   * server has sent, of which the read takes what fits in its buffer.
   */
  datatype Network = Network(
    dns: DnsAnswer,
    probes: seq<Timed<()>>,
    connect: Timed<Endpoints>,
    handshake: Handshake,
    greeting: Timed<seq<byte>>)

  /** There is one quick-probe answer per resolved address. */
  predicate WellFormed(net: Network) {
    net.dns.Resolved? ==> |net.probes| == |net.dns.addresses|
  }

  predicate Distinct(addresses: seq<Address>) {
    forall i, j :: 0 <= i < j < |addresses| ==> addresses[i] != addresses[j]
  }
}
