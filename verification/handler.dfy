/** The per-connection pipeline `tcpHandleConnection` (tcp.go:20-118).

    Every collaborator the handler calls is an input: the origin filter's
    verdict, the outcome of the single `conn.Read`, the PROXY header parser,
    `AddrVersion`, the dialer, both `SetNoDelay` calls, the upstream writer and
    the first relay result. The handler returns why it stopped and the trace
    of its effects on the buffer pool and the two sockets.

    `Run` states the outcome of every path as one expression; the method
    `HandleConnection` follows the source statement by statement, with Go's
    defer stack made explicit, and is proved to produce that outcome. The
    module `Guarantees` states the handler's promises about `Run`. */
module Handler {
  import opened Types
  import opened Trace
  import Target
  import Preface

  /** The single `conn.Read(buffer)`: an error, or the `buffer[:n]` it filled. */
  datatype ReadOutcome = ReadError | ReadOk(data: seq<byte>)

  /** What `PROXYReadRemoteAddr` yields on success: the original client's
      address (possibly nil) and the payload bytes that followed the header. */
  datatype Header = Header(saddr: Option<TcpAddr>, rest: seq<byte>)

  datatype ParseOutcome = ParseError | Parsed(header: Header)

  /** The collaborators' answers for one connection. */
  datatype Env = Env(
    originAllowed: bool,                      // CheckOriginAllowed(remote IP)
    read: ReadOutcome,                        // conn.Read(buffer)
    parse: seq<byte> -> ParseOutcome,         // PROXYReadRemoteAddr(_, TCP)
    addrVersion: Option<TcpAddr> -> int,      // AddrVersion
    runeCapacity: Target.RuneCapacity,        // cap([]rune(literal))
    dial: DialRequest -> bool,                // dialer.Dial succeeds
    noDelayDownstreamOk: bool,                // conn.SetNoDelay(true)
    noDelayUpstreamOk: bool,                  // upstreamConn.SetNoDelay(true)
    writer: Preface.Writer,                   // upstreamConn.Write
    relayFirstError: bool)                    // the first value received from outErr is non-nil

  /** Where the handler stopped. */
  datatype Exit =
    | DroppedAtOrigin
    | DroppedAtRead
    | DroppedAtParse
    /** The slice at tcp.go:53 is out of bounds. The run-time panic is not
        recovered: this connection's deferred calls run, then the whole
        process exits, taking every other connection down without its
        teardown. Only this connection is modelled. */
    | PortSlicePanic
    | DroppedAtDial
    | DroppedAtWrite
    | RelayEnded(broken: bool)

  datatype Outcome = Outcome(exit: Exit, trace: seq<Event>)

  /** The header, when the origin is allowed and the read and the parse both
      succeed. */
  function HeaderOf(env: Env): Option<Header>
  {
    if env.originAllowed && env.read.ReadOk? && env.parse(env.read.data).Parsed?
    then Some(env.parse(env.read.data).header)
    else None
  }

  /** The dialer the handler builds (tcp.go:68-71): the client address is the
      local endpoint, and the transparent-dial hook, keyed by the client's
      port, is attached only when that address is non-nil. */
  function DialFor(saddr: Option<TcpAddr>, target: string): (q: DialRequest)
    ensures q.local == saddr && q.target == target
    ensures q.controlPort.Some? <==> saddr.Some?
    ensures saddr.Some? ==> q.controlPort.value == saddr.value.port
  {
    DialRequest(saddr, if saddr.Some? then Some(saddr.value.port) else None, target)
  }

  /** The dial the header calls for, if there is a header and the target
      slice is in bounds. */
  function ExpectedDial(opts: Options, env: Env): Option<DialRequest>
  {
    match HeaderOf(env)
    case None => None
    case Some(h) =>
      match Target.TargetAddress(opts, env.addrVersion(h.saddr), env.runeCapacity)
      case None => None
      case Some(target) => Some(DialFor(h.saddr, target))
  }

  /** The handler holds an upstream connection. */
  predicate DialSucceeded(opts: Options, env: Env)
  {
    ExpectedDial(opts, env).Some? && env.dial(ExpectedDial(opts, env).value)
  }

  /** A drop after the buffer was borrowed and before any dial: the
      deferred release and close run. */
  const EarlyDrop: seq<Event> := [Borrow, ReadHeader, Put, CloseDownstream]

  /** The last events after a write error: the three deferred calls. */
  const WriteTeardown: seq<Event> := [WriteFailed, CloseUpstream, Put, CloseDownstream]

  /** The last events after a full preface: the explicit release, the relay,
      then the two deferred closes (the release closure sees nil). */
  const RelayTeardown: seq<Event> := [Put, RelayStart, CloseUpstream, CloseDownstream]

  /** What the handler does once the dial succeeded (tcp.go:78-117): the two
      NoDelay calls, the preface, then teardown or the relay. */
  function AfterDial(env: Env, rest: seq<byte>): (r: Outcome)
    requires Preface.HonestWriter(env.writer)
    ensures |r.trace| >= 6
    // NoDelay outcomes are recorded but never decide the path
    ensures r.trace[..2] == [SetNoDelay(Downstream, env.noDelayDownstreamOk), SetNoDelay(Upstream, env.noDelayUpstreamOk)]
    ensures r.exit == DroppedAtWrite || r.exit == RelayEnded(env.relayFirstError)
    ensures r.exit.RelayEnded? <==> Preface.FlushRun(rest, env.writer, 0).ok
    ensures r.trace[|r.trace| - 4..] == (if r.exit.RelayEnded? then RelayTeardown else WriteTeardown)
  {
    var f := Preface.FlushRun(rest, env.writer, 0);
    var opening := [SetNoDelay(Downstream, env.noDelayDownstreamOk), SetNoDelay(Upstream, env.noDelayUpstreamOk)];
    var t := opening + WriteEvents(f.chunks) + (if f.ok then RelayTeardown else WriteTeardown);
    assert t[..2] == opening;
    Outcome(if f.ok then RelayEnded(env.relayFirstError) else DroppedAtWrite, t)
  }

  /** What the handler does, path by path. */
  function Run(opts: Options, env: Env): (r: Outcome)
    requires Preface.HonestWriter(env.writer)
    ensures r.trace != [] && r.trace[|r.trace| - 1] == CloseDownstream
    ensures r.exit == DroppedAtOrigin <==> !env.originAllowed
  {
    if !env.originAllowed then Outcome(DroppedAtOrigin, [CloseDownstream])
    else if env.read.ReadError? then Outcome(DroppedAtRead, EarlyDrop)
    else if env.parse(env.read.data).ParseError? then Outcome(DroppedAtParse, EarlyDrop)
    else
      var later := WithHeader(opts, env, env.parse(env.read.data).header);
      Outcome(later.exit, [Borrow, ReadHeader] + later.trace)
  }

  /** What the handler does once the header parsed (tcp.go:53-117): the
      events after the read. */
  function WithHeader(opts: Options, env: Env, h: Header): (r: Outcome)
    requires Preface.HonestWriter(env.writer)
    ensures r.trace != [] && r.trace[|r.trace| - 1] == CloseDownstream
    ensures r.exit != DroppedAtOrigin && r.exit != DroppedAtRead && r.exit != DroppedAtParse
  {
    match Target.TargetAddress(opts, env.addrVersion(h.saddr), env.runeCapacity)
    case None => Outcome(PortSlicePanic, [Put, CloseDownstream])
    case Some(target) =>
      var q := DialFor(h.saddr, target);
      if !env.dial(q) then Outcome(DroppedAtDial, [Dial(q), Put, CloseDownstream])
      else
        var after := AfterDial(env, h.rest);
        Outcome(after.exit, [Dial(q)] + after.trace)
  }

  /** `tcpHandleConnection`, statement by statement. The deferred calls are
      pushed on a stack as they are registered and unwound at every return,
      the run-time panic of the port slice included. */
  method HandleConnection(opts: Options, env: Env) returns (exit: Exit, trace: seq<Event>)
    requires Preface.HonestWriter(env.writer)
    ensures Outcome(exit, trace) == Run(opts, env)
    ensures trace[|trace| - 1] == CloseDownstream
  {
    // defer conn.Close()
    var deferred := [CloseDownstreamConn];
    if !env.originAllowed {
      exit := DroppedAtOrigin;
      UnwindOne(false);
      trace := Unwind(deferred, false);
      return;
    }
    exit, trace := Admit(opts, env, deferred);
  }

  /** The handler from `GetBuffer` to the parse, for an allowed origin,
      with the close of the downstream connection already deferred. */
  method Admit(opts: Options, env: Env, deferred: seq<Deferred>) returns (exit: Exit, trace: seq<Event>)
    requires Preface.HonestWriter(env.writer)
    requires env.originAllowed && deferred == [CloseDownstreamConn]
    ensures Outcome(exit, trace) == Run(opts, env)
  {
    // buffer := GetBuffer(), with its nil-guarded release deferred
    trace := [Borrow];
    var bufferHeld := true;
    var stack := deferred + [ReleaseBufferIfHeld];
    assert stack == [CloseDownstreamConn, ReleaseBufferIfHeld];
    HeldTeardown(stack);

    trace := trace + [ReadHeader];
    if env.read.ReadError? {
      exit := DroppedAtRead;
      trace := trace + Unwind(stack, bufferHeld);
      return;
    }

    var parsed := env.parse(env.read.data);
    if parsed.ParseError? {
      exit := DroppedAtParse;
      trace := trace + Unwind(stack, bufferHeld);
      return;
    }
    assert trace == [Borrow, ReadHeader];
    var events;
    exit, events := Connect(opts, env, parsed.header, stack, bufferHeld);
    trace := trace + events;
  }

  /** The handler from the target selection to the dial, with the buffer
      held and its release deferred; `events` follow the read. */
  method Connect(opts: Options, env: Env, header: Header, deferred: seq<Deferred>, bufferHeld: bool)
    returns (exit: Exit, events: seq<Event>)
    requires Preface.HonestWriter(env.writer)
    requires deferred == [CloseDownstreamConn, ReleaseBufferIfHeld] && bufferHeld
    ensures Outcome(exit, events) == WithHeader(opts, env, header)
  {
    HeldTeardown(deferred);
    var target := Target.TargetAddress(opts, env.addrVersion(header.saddr), env.runeCapacity);
    if target.None? {
      // a run-time panic still runs the deferred calls
      exit := PortSlicePanic;
      events := Unwind(deferred, bufferHeld);
      return;
    }

    var request := DialFor(header.saddr, target.value);
    events := [Dial(request)];
    if !env.dial(request) {
      exit := DroppedAtDial;
      events := events + Unwind(deferred, bufferHeld);
      return;
    }
    var later;
    exit, later := Forward(env, header.rest, deferred, bufferHeld);
    events := events + later;
  }

  /** Unwinding the stack of a connection that holds the buffer but no
      upstream connection. */
  lemma HeldTeardown(deferred: seq<Deferred>)
    requires deferred == [CloseDownstreamConn, ReleaseBufferIfHeld]
    ensures Unwind(deferred, true) == [Put, CloseDownstream]
    ensures [Borrow] + [ReadHeader] + Unwind(deferred, true) == EarlyDrop
  {
    UnwindTwo(true);
  }

  /** The rest of `tcpHandleConnection` once the dial succeeded, with the
      defer stack and the buffer as the first part left them; `events` ends
      with the unwinding of the stack. */
  method Forward(env: Env, rest: seq<byte>, deferred: seq<Deferred>, bufferHeld: bool) returns (exit: Exit, events: seq<Event>)
    requires Preface.HonestWriter(env.writer)
    requires deferred == [CloseDownstreamConn, ReleaseBufferIfHeld] && bufferHeld
    ensures exit == AfterDial(env, rest).exit
    ensures events == AfterDial(env, rest).trace
  {
    // defer upstreamConn.Close()
    var stack := deferred + [CloseUpstreamConn];
    var held := bufferHeld;
    // best effort: a failure is only logged
    var opening := [SetNoDelay(Downstream, env.noDelayDownstreamOk), SetNoDelay(Upstream, env.noDelayUpstreamOk)];

    var flushed, chunks := Preface.Flush(rest, env.writer);
    if !flushed {
      exit := DroppedAtWrite;
      Teardowns(stack);
      events := opening + WriteEvents(chunks) + ([WriteFailed] + Unwind(stack, held));
      return;
    }

    // PutBuffer(buffer); buffer = nil
    held := false;
    // the relay goroutines start; the handler returns on the first copy outcome
    exit := RelayEnded(env.relayFirstError);
    Teardowns(stack);
    events := opening + WriteEvents(chunks) + ([Put, RelayStart] + Unwind(stack, held));
  }

  /** Unwinding the full stack after a write error, and after the explicit release. */
  lemma Teardowns(stack: seq<Deferred>)
    requires stack == [CloseDownstreamConn, ReleaseBufferIfHeld] + [CloseUpstreamConn]
    ensures [WriteFailed] + Unwind(stack, true) == WriteTeardown
    ensures [Put, RelayStart] + Unwind(stack, false) == RelayTeardown
  {
    assert stack == [CloseDownstreamConn, ReleaseBufferIfHeld, CloseUpstreamConn];
    UnwindThree(true);
    UnwindThree(false);
  }

  lemma UnwindOne(bufferHeld: bool)
    ensures Unwind([CloseDownstreamConn], bufferHeld) == [CloseDownstream]
  {
    assert [CloseDownstreamConn][1..] == [];
  }

  lemma UnwindTwo(bufferHeld: bool)
    ensures Unwind([CloseDownstreamConn, ReleaseBufferIfHeld], bufferHeld)
         == (if bufferHeld then [Put] else []) + [CloseDownstream]
  {
    UnwindOne(bufferHeld);
    UnwindPush([CloseDownstreamConn], ReleaseBufferIfHeld, bufferHeld);
    assert [CloseDownstreamConn] + [ReleaseBufferIfHeld] == [CloseDownstreamConn, ReleaseBufferIfHeld];
  }

  lemma UnwindThree(bufferHeld: bool)
    ensures Unwind([CloseDownstreamConn, ReleaseBufferIfHeld, CloseUpstreamConn], bufferHeld)
         == [CloseUpstream] + (if bufferHeld then [Put] else []) + [CloseDownstream]
  {
    UnwindTwo(bufferHeld);
    UnwindPush([CloseDownstreamConn, ReleaseBufferIfHeld], CloseUpstreamConn, bufferHeld);
    assert [CloseDownstreamConn, ReleaseBufferIfHeld] + [CloseUpstreamConn]
        == [CloseDownstreamConn, ReleaseBufferIfHeld, CloseUpstreamConn];
  }
}
