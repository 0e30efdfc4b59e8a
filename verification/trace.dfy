/** The observable actions of one connection handler, and Go's defer stack.

    Every side effect of `tcpHandleConnection` on the buffer pool and the two
    sockets is recorded as an `Event`. The deferred calls registered at
    tcp.go:21, tcp.go:35-39 and tcp.go:78 are kept on an explicit stack and
    run last-registered-first when the handler returns. */
module Trace {
  import opened Types

  datatype Side = Downstream | Upstream

  /** What the handler asks the dialer for: the local endpoint, the source
      port the transparent-dial control hook is keyed by (None: no hook),
      and the "host:port" target. */
  datatype DialRequest = DialRequest(local: Option<TcpAddr>, controlPort: Option<int>, target: string)

  datatype Event =
    | Borrow                          // GetBuffer
    | ReadHeader                      // the single conn.Read
    | Dial(request: DialRequest)      // dialer.Dial
    | SetNoDelay(side: Side, ok: bool)
    | Wrote(chunk: seq<byte>)         // bytes accepted by one upstream Write
    | WriteFailed                     // an upstream Write returned an error
    | Put                             // PutBuffer
    | RelayStart                      // the two copy goroutines are launched
    | CloseUpstream
    | CloseDownstream

  /** The deferred calls the handler registers. */
  datatype Deferred =
    | CloseDownstreamConn             // defer conn.Close()
    | ReleaseBufferIfHeld             // defer func() { if buffer != nil { PutBuffer(buffer) } }()
    | CloseUpstreamConn               // defer upstreamConn.Close()

  /** The events one deferred call produces; the release closure does
      nothing once the buffer has been set to nil. */
  function Effect(d: Deferred, bufferHeld: bool): seq<Event>
  {
    match d
    case CloseDownstreamConn => [CloseDownstream]
    case ReleaseBufferIfHeld => if bufferHeld then [Put] else []
    case CloseUpstreamConn => [CloseUpstream]
  }

  /** Running the defer stack at return, newest first. */
  function Unwind(stack: seq<Deferred>, bufferHeld: bool): (events: seq<Event>)
    ensures |events| <= |stack|
    // the first-registered call runs last
    ensures stack != [] && stack[0] == CloseDownstreamConn ==> events != [] && events[|events| - 1] == CloseDownstream
  {
    if stack == [] then [] else Unwind(stack[1..], bufferHeld) + Effect(stack[0], bufferHeld)
  }

  /** Registering one more deferred call puts its effect in front. */
  lemma {:induction false} UnwindPush(stack: seq<Deferred>, d: Deferred, bufferHeld: bool)
    ensures Unwind(stack + [d], bufferHeld) == Effect(d, bufferHeld) + Unwind(stack, bufferHeld)
  {
    if stack != [] {
      assert (stack + [d])[1..] == stack[1..] + [d];
      UnwindPush(stack[1..], d, bufferHeld);
    }
  }

  /** Whether the deferred call `d` produces the event `x`. */
  function Yields(d: Deferred, bufferHeld: bool, x: Event): nat
  {
    if x == CloseDownstream && d == CloseDownstreamConn then 1
    else if x == CloseUpstream && d == CloseUpstreamConn then 1
    else if x == Put && bufferHeld && d == ReleaseBufferIfHeld then 1
    else 0
  }

  /** How often the registered calls of `stack` produce `x`: once per
      registered close, and once per release closure only while the buffer
      is held. */
  function Produced(stack: seq<Deferred>, bufferHeld: bool, x: Event): nat
  {
    if x == CloseDownstream then multiset(stack)[CloseDownstreamConn]
    else if x == CloseUpstream then multiset(stack)[CloseUpstreamConn]
    else if x == Put && bufferHeld then multiset(stack)[ReleaseBufferIfHeld]
    else 0
  }

  lemma EffectYields(d: Deferred, bufferHeld: bool, x: Event)
    ensures multiset(Effect(d, bufferHeld))[x] == Yields(d, bufferHeld, x)
  {
  }

  lemma ProducedCons(d: Deferred, rest: seq<Deferred>, bufferHeld: bool, x: Event)
    ensures Produced([d] + rest, bufferHeld, x) == Yields(d, bufferHeld, x) + Produced(rest, bufferHeld, x)
  {
    assert multiset([d] + rest) == multiset{d} + multiset(rest);
  }

  /** Unwinding runs every registered call once: each close happens as often
      as it was deferred, and the nil-guarded release returns the buffer only
      if it is still held. */
  lemma {:induction false} UnwindCount(stack: seq<Deferred>, bufferHeld: bool, x: Event)
    ensures multiset(Unwind(stack, bufferHeld))[x] == Produced(stack, bufferHeld, x)
  {
    if stack != [] {
      var later := Unwind(stack[1..], bufferHeld);
      var own := Effect(stack[0], bufferHeld);
      UnwindCount(stack[1..], bufferHeld, x);
      EffectYields(stack[0], bufferHeld, x);
      ProducedCons(stack[0], stack[1..], bufferHeld, x);
      assert stack == [stack[0]] + stack[1..];
      assert multiset(later + own) == multiset(later) + multiset(own);
    }
  }

  /** Unwinding only closes sockets and returns the buffer. */
  lemma {:induction false} UnwindOnlyTearsDown(stack: seq<Deferred>, bufferHeld: bool)
    ensures forall e :: e in Unwind(stack, bufferHeld) ==> e == Put || e == CloseUpstream || e == CloseDownstream
  {
    if stack != [] {
      UnwindOnlyTearsDown(stack[1..], bufferHeld);
    }
  }

  /** The bytes the upstream socket accepted, in order. */
  function Delivered(t: seq<Event>): seq<byte>
  {
    if t == [] then []
    else (if t[0].Wrote? then t[0].chunk else []) + Delivered(t[1..])
  }

  /** A trace without upstream writes delivers nothing. */
  lemma {:induction false} DeliveredNone(t: seq<Event>)
    requires forall e :: e in t ==> !e.Wrote?
    ensures Delivered(t) == []
  {
    if t != [] {
      assert forall e :: e in t[1..] ==> e in t;
      DeliveredNone(t[1..]);
    }
  }

  /** The bytes delivered by a concatenation are those of its parts, in order. */
  lemma {:induction false} DeliveredAppend(a: seq<Event>, b: seq<Event>)
    ensures Delivered(a + b) == Delivered(a) + Delivered(b)
  {
    if a == [] {
      assert a + b == b;
    } else {
      assert (a + b)[1..] == a[1..] + b;
      DeliveredAppend(a[1..], b);
    }
  }

  /** One `Wrote` event per accepted chunk. */
  function WriteEvents(chunks: seq<seq<byte>>): (r: seq<Event>)
    ensures |r| == |chunks|
    ensures forall i :: 0 <= i < |r| ==> r[i] == Wrote(chunks[i])
  {
    if chunks == [] then []
    else [Wrote(chunks[0])] + WriteEvents(chunks[1..])
  }

  /** The write events deliver exactly the accepted chunks. */
  lemma {:induction false} WriteEventsDeliver(chunks: seq<seq<byte>>)
    ensures Delivered(WriteEvents(chunks)) == Concat(chunks)
  {
    if chunks != [] {
      var rest := WriteEvents(chunks[1..]);
      assert WriteEvents(chunks)[1..] == rest;
      WriteEventsDeliver(chunks[1..]);
    }
  }
}
