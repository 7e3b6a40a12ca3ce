/**
 * The lifetime of the disposables a run opens. Each `TcpClient` and each
 * `SslStream` is a `Handle`; a `HandleLog` records, in order, every handle
 * created and every call to a handle's `Dispose`. The handle opened by the
 * event at index `i` of the log is named `i`.
 */
module Lifecycle {
  import opened Wrappers

  datatype HandleKind = ProbeClient | DetailClient | TlsStream

  datatype Event = Opened(kind: HandleKind) | Disposed(handle: nat)

  /**
   * The handles still open after `events`, innermost last, provided every
   * `Dispose` so far closed the innermost handle still open; `None` as soon
   * as one did not (a second dispose, or one out of nesting order).
   */
  function Pending(events: seq<Event>): Option<seq<nat>>
    decreases |events|
  {
    if |events| == 0 then Some([])
    else
      var n := |events| - 1;
      var open := Pending(events[..n]);
      match events[n]
      case Opened(_) => if open.Some? then Some(open.value + [n]) else None
      case Disposed(h) =>
        if open.Some? && |open.value| > 0 && open.value[|open.value| - 1] == h
        then Some(open.value[..|open.value| - 1])
        else None
  }

  /** Creating a handle pushes its name on the open handles. */
  lemma PendingOpened(events: seq<Event>, kind: HandleKind)
    requires Pending(events).Some?
    ensures Pending(events + [Opened(kind)]) == Some(Pending(events).value + [|events|])
  {
    assert (events + [Opened(kind)])[..|events|] == events;
  }

  /** Disposing the innermost open handle pops it. */
  lemma PendingDisposed(events: seq<Event>, open: seq<nat>, h: nat)
    requires Pending(events) == Some(open + [h])
    ensures Pending(events + [Disposed(h)]) == Some(open)
  {
    assert (events + [Disposed(h)])[..|events|] == events;
    assert (open + [h])[..|open|] == open;
  }

  /** Disposing anything else breaks the nesting for good. */
  lemma {:induction false} BrokenStaysBroken(events: seq<Event>, more: seq<Event>)
    requires Pending(events).None?
    ensures Pending(events + more).None?
    decreases |more|
  {
    if |more| == 0 {
      assert events + more == events;
    } else {
      var n := |more| - 1;
      BrokenStaysBroken(events, more[..n]);
      assert (events + more)[..|events| + n] == events + more[..n];
    }
  }

  /** The log of one run's disposables. */
  class HandleLog {
    ghost var events: seq<Event>

    constructor ()
      ensures events == []
    {
      events := [];
    }
  }

  /** A `TcpClient` or an `SslStream`: created once, disposed by `Dispose`. */
  class Handle {
    const kind: HandleKind
    ghost const log: HandleLog
    ghost const name: nat

    constructor (kind: HandleKind, ghost log: HandleLog)
      modifies log
      ensures this.kind == kind && this.log == log
      ensures name == |old(log.events)|
      ensures log.events == old(log.events) + [Opened(kind)]
    {
      this.kind := kind;
      this.log := log;
      name := |log.events|;
      new;
      log.events := log.events + [Opened(kind)];
    }

    method Dispose()
      modifies log
      ensures log.events == old(log.events) + [Disposed(name)]
    {
      log.events := log.events + [Disposed(name)];
    }
  }
}
