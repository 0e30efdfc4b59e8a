/** What `tcpHandleConnection` promises, for every answer its collaborators
    can give: the buffer goes back to the pool exactly once, the downstream
    connection is always closed, nothing is dialed before the header is
    understood, the upstream connection is closed exactly when it was opened,
    a NoDelay failure never ends the connection, and the relay starts only
    once the whole preface went upstream. */
module Guarantees {
  import opened Types
  import opened Trace
  import opened Handler
  import Target
  import Preface

  /** The trace holds no dial. */
  predicate NoDial(t: seq<Event>)
  {
    forall e :: e in t ==> !e.Dial?
  }

  /** Nothing in the trace was written upstream. */
  predicate NoWrite(t: seq<Event>)
  {
    forall e :: e in t ==> !e.Wrote?
  }

  /** The trace dials `q` once and dials nothing else. */
  predicate DialsOnly(t: seq<Event>, q: DialRequest)
  {
    multiset(t)[Dial(q)] == 1 && forall e :: e in t && e.Dial? ==> e == Dial(q)
  }

  /** The preface the header carried: the bytes after it in the first read. */
  function PrefaceBytes(env: Env): seq<byte>
  {
    if HeaderOf(env).Some? then HeaderOf(env).value.rest else []
  }

  /** The events of a connection whose dial succeeded, up to the preface. */
  function Opening(q: DialRequest, env: Env): seq<Event>
  {
    [Borrow, ReadHeader, Dial(q), SetNoDelay(Downstream, env.noDelayDownstreamOk), SetNoDelay(Upstream, env.noDelayUpstreamOk)]
  }

  /** The failed dial's trace. */
  function DialDrop(q: DialRequest): seq<Event>
  {
    [Borrow, ReadHeader, Dial(q), Put, CloseDownstream]
  }

  /** Every path that never holds an upstream connection. */
  lemma EarlyPaths(opts: Options, env: Env)
    requires Preface.HonestWriter(env.writer)
    requires !DialSucceeded(opts, env)
    ensures var r := Run(opts, env);
      && (!env.originAllowed ==> r == Outcome(DroppedAtOrigin, [CloseDownstream]))
      && (env.originAllowed && ExpectedDial(opts, env).None? ==>
            r.trace == EarlyDrop && r.exit in {DroppedAtRead, DroppedAtParse, PortSlicePanic})
      && (ExpectedDial(opts, env).Some? ==>
            r == Outcome(DroppedAtDial, DialDrop(ExpectedDial(opts, env).value)))
  {
    if env.originAllowed && ExpectedDial(opts, env).None? {
      UntargetedPath(opts, env);
    } else if ExpectedDial(opts, env).Some? {
      HeaderPath(opts, env);
      UndialedAfterHeader(opts, env, HeaderOf(env).value);
    }
  }

  /** An allowed connection that never reaches the dial borrows, reads,
      releases and closes. */
  lemma UntargetedPath(opts: Options, env: Env)
    requires Preface.HonestWriter(env.writer)
    requires env.originAllowed && ExpectedDial(opts, env).None?
    ensures Run(opts, env).trace == EarlyDrop
    ensures Run(opts, env).exit in {DroppedAtRead, DroppedAtParse, PortSlicePanic}
  {
    if env.read.ReadError? {
      assert Run(opts, env) == Outcome(DroppedAtRead, EarlyDrop);
    } else if env.parse(env.read.data).ParseError? {
      assert Run(opts, env) == Outcome(DroppedAtParse, EarlyDrop);
    } else {
      HeaderPath(opts, env);
      UndialedAfterHeader(opts, env, HeaderOf(env).value);
    }
  }

  /** Once the header parsed, the trace is the borrow, the read, then the
      events after the read. */
  lemma HeaderPath(opts: Options, env: Env)
    requires Preface.HonestWriter(env.writer)
    requires HeaderOf(env).Some?
    ensures var later := WithHeader(opts, env, HeaderOf(env).value);
      Run(opts, env) == Outcome(later.exit, [Borrow, ReadHeader] + later.trace)
  {
  }

  /** The events after the read when no upstream connection is held. */
  lemma UndialedAfterHeader(opts: Options, env: Env, h: Header)
    requires Preface.HonestWriter(env.writer)
    requires HeaderOf(env) == Some(h) && !DialSucceeded(opts, env)
    ensures var later := WithHeader(opts, env, h);
      && (ExpectedDial(opts, env).None? ==>
            later == Outcome(PortSlicePanic, [Put, CloseDownstream])
            && [Borrow, ReadHeader] + later.trace == EarlyDrop)
      && (ExpectedDial(opts, env).Some? ==>
            later.exit == DroppedAtDial
            && [Borrow, ReadHeader] + later.trace == DialDrop(ExpectedDial(opts, env).value))
  {
    if ExpectedDial(opts, env).Some? {
      assert [Borrow, ReadHeader] + [Dial(ExpectedDial(opts, env).value), Put, CloseDownstream]
          == DialDrop(ExpectedDial(opts, env).value);
    } else {
      assert [Borrow, ReadHeader] + [Put, CloseDownstream] == EarlyDrop;
    }
  }

  /** The path that holds an upstream connection, in three parts. */
  lemma ConnectedPath(opts: Options, env: Env)
    requires Preface.HonestWriter(env.writer)
    requires DialSucceeded(opts, env)
    ensures HeaderOf(env).Some? && env.originAllowed
    ensures var f := Preface.FlushRun(PrefaceBytes(env), env.writer, 0);
      var r := Run(opts, env);
      && r.trace == Opening(ExpectedDial(opts, env).value, env) + WriteEvents(f.chunks)
                    + (if f.ok then RelayTeardown else WriteTeardown)
      && r.exit == (if f.ok then RelayEnded(env.relayFirstError) else DroppedAtWrite)
  {
    var q := ExpectedDial(opts, env).value;
    var h := HeaderOf(env).value;
    var after := AfterDial(env, PrefaceBytes(env));
    HeaderPath(opts, env);
    assert WithHeader(opts, env, h) == Outcome(after.exit, [Dial(q)] + after.trace);
    AfterDialParts(q, env, PrefaceBytes(env));
  }

  /** The events after the dial, joined with the three before it. */
  lemma AfterDialParts(q: DialRequest, env: Env, rest: seq<byte>)
    requires Preface.HonestWriter(env.writer)
    ensures var f := Preface.FlushRun(rest, env.writer, 0);
      [Borrow, ReadHeader] + ([Dial(q)] + AfterDial(env, rest).trace)
      == Opening(q, env) + WriteEvents(f.chunks) + (if f.ok then RelayTeardown else WriteTeardown)
  {
    var f := Preface.FlushRun(rest, env.writer, 0);
    var opening := [SetNoDelay(Downstream, env.noDelayDownstreamOk), SetNoDelay(Upstream, env.noDelayUpstreamOk)];
    var teardown := if f.ok then RelayTeardown else WriteTeardown;
    assert AfterDial(env, rest).trace == opening + WriteEvents(f.chunks) + teardown;
    assert [Borrow, ReadHeader] + ([Dial(q)] + AfterDial(env, rest).trace)
        == [Borrow, ReadHeader, Dial(q)] + AfterDial(env, rest).trace;
    assert [Borrow, ReadHeader, Dial(q)] + opening == Opening(q, env);
    Regroup([Borrow, ReadHeader, Dial(q)], opening, WriteEvents(f.chunks), teardown);
  }

  lemma Regroup(a: seq<Event>, b: seq<Event>, c: seq<Event>, d: seq<Event>)
    ensures a + (b + c + d) == (a + b) + c + d
  {
  }

  /** How often each control event occurs in a trace. */
  datatype Counts = Counts(borrow: nat, read: nat, put: nat, closeUp: nat, closeDown: nat, relay: nat)

  function CountsOf(t: seq<Event>): Counts
  {
    var m := multiset(t);
    Counts(m[Borrow], m[ReadHeader], m[Put], m[CloseUpstream], m[CloseDownstream], m[RelayStart])
  }

  /** Write events do not change how often a control event occurs. */
  lemma ControlCount(start: seq<Event>, chunks: seq<seq<byte>>, ending: seq<Event>, x: Event)
    requires !x.Wrote?
    ensures multiset(start + WriteEvents(chunks) + ending)[x] == multiset(start)[x] + multiset(ending)[x]
  {
    var writes := WriteEvents(chunks);
    assert multiset(start + writes + ending) == multiset(start) + multiset(writes) + multiset(ending);
    assert x !in writes;
  }

  function Plus(a: Counts, b: Counts): Counts
  {
    Counts(a.borrow + b.borrow, a.read + b.read, a.put + b.put, a.closeUp + b.closeUp,
           a.closeDown + b.closeDown, a.relay + b.relay)
  }

  /** Write events add nothing to the counts. */
  lemma CountsAcrossWrites(start: seq<Event>, chunks: seq<seq<byte>>, ending: seq<Event>)
    ensures CountsOf(start + WriteEvents(chunks) + ending) == Plus(CountsOf(start), CountsOf(ending))
  {
    ControlCount(start, chunks, ending, Borrow);
    ControlCount(start, chunks, ending, ReadHeader);
    ControlCount(start, chunks, ending, Put);
    ControlCount(start, chunks, ending, CloseUpstream);
    ControlCount(start, chunks, ending, CloseDownstream);
    ControlCount(start, chunks, ending, RelayStart);
  }

  /** The control events of the fixed parts of a connected trace. */
  lemma OpeningCounts(q: DialRequest, env: Env)
    ensures CountsOf(Opening(q, env)) == Counts(1, 1, 0, 0, 0, 0)
  {
  }

  lemma TeardownCounts()
    ensures CountsOf(RelayTeardown) == Counts(0, 0, 1, 1, 1, 1)
    ensures CountsOf(WriteTeardown) == Counts(0, 0, 1, 1, 1, 0)
  {
  }

  /** The control events of a connection whose dial succeeded. */
  lemma ConnectedCounts(q: DialRequest, env: Env, chunks: seq<seq<byte>>, ok: bool)
    ensures var t := Opening(q, env) + WriteEvents(chunks) + (if ok then RelayTeardown else WriteTeardown);
      CountsOf(t) == Counts(1, 1, 1, 1, 1, if ok then 1 else 0)
  {
    OpeningCounts(q, env);
    TeardownCounts();
    CountsAcrossWrites(Opening(q, env), chunks, if ok then RelayTeardown else WriteTeardown);
  }

  /** The control events of the paths that never hold an upstream connection. */
  lemma EarlyCounts(q: DialRequest)
    ensures CountsOf([CloseDownstream]) == Counts(0, 0, 0, 0, 1, 0)
    ensures CountsOf(EarlyDrop) == Counts(1, 1, 1, 0, 1, 0)
    ensures CountsOf(DialDrop(q)) == Counts(1, 1, 1, 0, 1, 0)
  {
  }

  /** Each control event occurs as often as the path calls for: one borrow,
      one read and one release when the origin is allowed, one upstream close
      when the dial succeeded, one downstream close always, one relay when it
      ran. */
  lemma RunCounts(opts: Options, env: Env)
    requires Preface.HonestWriter(env.writer)
    ensures var r := Run(opts, env);
      var once := if env.originAllowed then 1 else 0;
      CountsOf(r.trace) == Counts(once, once, once, if DialSucceeded(opts, env) then 1 else 0, 1,
                                  if r.exit.RelayEnded? then 1 else 0)
  {
    if DialSucceeded(opts, env) {
      ConnectedPath(opts, env);
      var f := Preface.FlushRun(PrefaceBytes(env), env.writer, 0);
      ConnectedCounts(ExpectedDial(opts, env).value, env, f.chunks, f.ok);
    } else {
      EarlyPaths(opts, env);
      EarlyCounts(if ExpectedDial(opts, env).Some? then ExpectedDial(opts, env).value else DialRequest(None, None, ""));
    }
  }

  /** A rejected origin gets nothing but the close; otherwise the buffer is
      borrowed before anything else happens. */
  lemma RejectedOriginUntouched(opts: Options, env: Env)
    requires Preface.HonestWriter(env.writer)
    ensures !env.originAllowed ==> Run(opts, env).trace == [CloseDownstream]
    ensures env.originAllowed ==> Run(opts, env).trace[0] == Borrow
  {
    if DialSucceeded(opts, env) {
      ConnectedPath(opts, env);
    } else {
      EarlyPaths(opts, env);
    }
  }

  /** Why the handler stopped before the dial, in terms of the
      collaborators' answers. */
  lemma ExitReasons(opts: Options, env: Env)
    requires Preface.HonestWriter(env.writer)
    ensures var exit := Run(opts, env).exit;
      && (exit == DroppedAtRead <==> env.originAllowed && env.read.ReadError?)
      && (exit == DroppedAtParse <==> env.originAllowed && env.read.ReadOk? && env.parse(env.read.data).ParseError?)
      && (exit == PortSlicePanic <==>
            HeaderOf(env).Some? && Target.PortSlice(opts.listenAddrLen, env.runeCapacity).None?)
  {
    if DialSucceeded(opts, env) {
      ConnectedPath(opts, env);
    } else {
      EarlyPaths(opts, env);
    }
  }

  /** A failed dial is the only way to stop at the dial, and a held upstream
      connection ends in a write error or the relay. */
  lemma DialExits(opts: Options, env: Env)
    requires Preface.HonestWriter(env.writer)
    ensures var exit := Run(opts, env).exit;
      && (exit == DroppedAtDial <==> ExpectedDial(opts, env).Some? && !DialSucceeded(opts, env))
      && (exit == DroppedAtWrite || exit.RelayEnded? <==> DialSucceeded(opts, env))
  {
    if DialSucceeded(opts, env) {
      ConnectedPath(opts, env);
    } else {
      EarlyPaths(opts, env);
    }
  }

  /** The dials and writes of the paths that never hold an upstream
      connection. */
  lemma EarlyQuiet()
    ensures NoDial([CloseDownstream]) && NoWrite([CloseDownstream])
    ensures NoDial(EarlyDrop) && NoWrite(EarlyDrop)
  {
  }

  lemma DialDropDials(q: DialRequest)
    ensures DialsOnly(DialDrop(q), q)
  {
  }

  /** Write events and a dial-free ending keep a trace's single dial single. */
  lemma DialsAcrossWrites(start: seq<Event>, chunks: seq<seq<byte>>, ending: seq<Event>, q: DialRequest)
    requires DialsOnly(start, q) && NoDial(ending)
    ensures DialsOnly(start + WriteEvents(chunks) + ending, q)
  {
    var writes := WriteEvents(chunks);
    ControlCount(start, chunks, ending, Dial(q));
    assert Dial(q) !in ending;
    forall e | e in start + writes + ending && e.Dial?
      ensures e == Dial(q)
    {
      assert e in start || e in writes || e in ending;
    }
  }

  lemma OpeningDials(q: DialRequest, env: Env)
    ensures DialsOnly(Opening(q, env), q)
  {
  }

  lemma TeardownsQuiet()
    ensures NoDial(RelayTeardown) && NoDial(WriteTeardown)
  {
  }

  /** A connected trace dials once, before the preface. */
  lemma ConnectedDials(q: DialRequest, env: Env, chunks: seq<seq<byte>>, ok: bool)
    ensures DialsOnly(Opening(q, env) + WriteEvents(chunks) + (if ok then RelayTeardown else WriteTeardown), q)
  {
    OpeningDials(q, env);
    TeardownsQuiet();
    DialsAcrossWrites(Opening(q, env), chunks, if ok then RelayTeardown else WriteTeardown, q);
  }

  /** The path's dial, if any: the dialed request, or none at all. */
  lemma RunDials(opts: Options, env: Env)
    requires Preface.HonestWriter(env.writer)
    ensures ExpectedDial(opts, env).None? ==> NoDial(Run(opts, env).trace) && NoWrite(Run(opts, env).trace)
    ensures ExpectedDial(opts, env).Some? ==> DialsOnly(Run(opts, env).trace, ExpectedDial(opts, env).value)
  {
    if DialSucceeded(opts, env) {
      ConnectedPath(opts, env);
      var f := Preface.FlushRun(PrefaceBytes(env), env.writer, 0);
      ConnectedDials(ExpectedDial(opts, env).value, env, f.chunks, f.ok);
    } else {
      EarlyPaths(opts, env);
      EarlyQuiet();
      if ExpectedDial(opts, env).Some? {
        DialDropDials(ExpectedDial(opts, env).value);
      }
    }
  }

  /** Nothing is dialed, and nothing written upstream, unless the origin is
      allowed, the header parsed and the target slice is in bounds. */
  lemma NoDialWithoutTarget(opts: Options, env: Env)
    requires Preface.HonestWriter(env.writer)
    ensures NoDial(Run(opts, env).trace) <==> ExpectedDial(opts, env).None?
    ensures NoDial(Run(opts, env).trace) ==> NoWrite(Run(opts, env).trace)
  {
    RunDials(opts, env);
    if ExpectedDial(opts, env).Some? {
      assert Dial(ExpectedDial(opts, env).value) in Run(opts, env).trace;
    }
  }

  /** At most one dial, and it is the one the header calls for: local
      address and control-hook port from the client, host by family. */
  lemma DialAsHeaderSays(opts: Options, env: Env)
    requires Preface.HonestWriter(env.writer)
    requires ExpectedDial(opts, env).Some?
    ensures DialsOnly(Run(opts, env).trace, ExpectedDial(opts, env).value)
  {
    RunDials(opts, env);
  }

  /** The outcomes of the two NoDelay calls never change where the handler
      stops. */
  lemma NoDelayNeverAborts(opts: Options, env: Env, downstreamOk: bool, upstreamOk: bool)
    requires Preface.HonestWriter(env.writer)
    ensures var other := env.(noDelayDownstreamOk := downstreamOk, noDelayUpstreamOk := upstreamOk);
      Run(opts, other).exit == Run(opts, env).exit
  {
    var other := env.(noDelayDownstreamOk := downstreamOk, noDelayUpstreamOk := upstreamOk);
    assert HeaderOf(other) == HeaderOf(env);
    assert ExpectedDial(opts, other) == ExpectedDial(opts, env);
    DialExits(opts, env);
    DialExits(opts, other);
    if DialSucceeded(opts, env) {
      ConnectedPath(opts, env);
      ConnectedPath(opts, other);
    }
  }

  /** Once connected, both NoDelay calls are made and their outcomes
      recorded. */
  lemma NoDelayRecorded(opts: Options, env: Env)
    requires Preface.HonestWriter(env.writer)
    requires DialSucceeded(opts, env)
    ensures SetNoDelay(Downstream, env.noDelayDownstreamOk) in Run(opts, env).trace
    ensures SetNoDelay(Upstream, env.noDelayUpstreamOk) in Run(opts, env).trace
  {
    ConnectedPath(opts, env);
    var t := Run(opts, env).trace;
    assert t[3] == SetNoDelay(Downstream, env.noDelayDownstreamOk);
    assert t[4] == SetNoDelay(Upstream, env.noDelayUpstreamOk);
  }

  /** The relay runs exactly when the dial succeeded and every preface byte
      was accepted; by then the preface went upstream whole and in order,
      and the buffer was returned. */
  lemma PrefaceBeforeRelay(opts: Options, env: Env)
    requires Preface.HonestWriter(env.writer)
    ensures var r := Run(opts, env);
      r.exit.RelayEnded? <==> DialSucceeded(opts, env) && Preface.FlushRun(PrefaceBytes(env), env.writer, 0).ok
    ensures var r := Run(opts, env);
      r.exit.RelayEnded? ==>
        && |r.trace| >= 4
        && r.trace[|r.trace| - 4..] == RelayTeardown
        && Delivered(r.trace[..|r.trace| - 4]) == PrefaceBytes(env)
        && r.exit.broken == env.relayFirstError
  {
    var r := Run(opts, env);
    if DialSucceeded(opts, env) {
      ConnectedPath(opts, env);
      var q := ExpectedDial(opts, env).value;
      var f := Preface.FlushRun(PrefaceBytes(env), env.writer, 0);
      if f.ok {
        assert r.trace[..|r.trace| - 4] == Opening(q, env) + WriteEvents(f.chunks);
        OpeningDelivers(q, env, f.chunks);
      }
    } else {
      EarlyPaths(opts, env);
    }
  }

  /** A write error stops the preface part-way: a proper prefix went
      upstream, then the three deferred calls run. */
  lemma WriteErrorTearsDown(opts: Options, env: Env)
    requires Preface.HonestWriter(env.writer)
    ensures var r := Run(opts, env);
      r.exit == DroppedAtWrite ==>
        && |r.trace| >= 4
        && r.trace[|r.trace| - 4..] == WriteTeardown
        && Delivered(r.trace) < PrefaceBytes(env)
  {
    DialExits(opts, env);
    if Run(opts, env).exit == DroppedAtWrite {
      ConnectedPath(opts, env);
      var f := Preface.FlushRun(PrefaceBytes(env), env.writer, 0);
      WrittenThenFailed(ExpectedDial(opts, env).value, env, f.chunks, PrefaceBytes(env));
    }
  }

  /** A connected trace ending in a write error delivers the accepted
      chunks and ends with the three deferred calls. */
  lemma WrittenThenFailed(q: DialRequest, env: Env, chunks: seq<seq<byte>>, preface: seq<byte>)
    requires Concat(chunks) < preface
    ensures var t := Opening(q, env) + WriteEvents(chunks) + WriteTeardown;
      && t[|t| - 4..] == WriteTeardown
      && Delivered(t) < preface
  {
    var t := Opening(q, env) + WriteEvents(chunks) + WriteTeardown;
    OpeningDelivers(q, env, chunks);
    DeliveredAppend(Opening(q, env) + WriteEvents(chunks), WriteTeardown);
    DeliveredNone(WriteTeardown);
    assert t[|t| - 4..] == WriteTeardown;
  }

  /** Only the write events carry bytes upstream. */
  lemma OpeningDelivers(q: DialRequest, env: Env, chunks: seq<seq<byte>>)
    ensures Delivered(Opening(q, env) + WriteEvents(chunks)) == Concat(chunks)
  {
    DeliveredNone(Opening(q, env));
    WriteEventsDeliver(chunks);
    DeliveredAppend(Opening(q, env), WriteEvents(chunks));
  }
}
