/** Forwarding the bytes that followed the PROXY header in the first read
    (tcp.go:95-103): `Write` is called on the remaining bytes until none are
    left; a partial write advances past the accepted prefix, an error ends
    the loop. */
module Preface {
  import opened Types

  /** The result of one `upstreamConn.Write(p)`: the count it reports, or an
      error. */
  datatype WriteOutcome = Wrote(n: int) | WriteError

  /** The upstream socket's answers: the outcome of the attempt-th write of
      the given bytes. */
  type Writer = (nat, seq<byte>) -> WriteOutcome

  /** Go's io.Writer contract as the loop relies on it: a write of a
      non-empty slice without an error made progress and did not
      over-report. The loop never writes an empty slice (tcp.go:95). */
  predicate Progresses(w: WriteOutcome, len: nat)
  {
    w.Wrote? ==> 0 < w.n <= len
  }

  ghost predicate HonestWriter(writer: Writer)
  {
    forall attempt: nat, p: seq<byte> | |p| > 0 :: Progresses(writer(attempt, p), |p|)
  }

  /** The chunks the upstream accepted, and whether the loop ran to the end. */
  datatype FlushResult = FlushResult(chunks: seq<seq<byte>>, ok: bool)

  /** Reference definition of the loop, one write per recursive step. */
  function FlushRun(rest: seq<byte>, writer: Writer, attempt: nat): (r: FlushResult)
    requires HonestWriter(writer)
    ensures forall c :: c in r.chunks ==> |c| > 0
    ensures |r.chunks| <= |rest|
    // success: the accepted chunks are exactly the bytes, in order
    ensures r.ok ==> Concat(r.chunks) == rest
    // failure: a proper prefix was accepted
    ensures !r.ok ==> Concat(r.chunks) < rest
    decreases |rest|
  {
    if |rest| == 0 then FlushResult([], true)
    else
      match writer(attempt, rest)
      case WriteError => FlushResult([], false)
      case Wrote(n) =>
        assert Progresses(writer(attempt, rest), |rest|);
        var tail := FlushRun(rest[n..], writer, attempt + 1);
        var chunks := [rest[..n]] + tail.chunks;
        assert chunks[1..] == tail.chunks;
        assert rest == rest[..n] + rest[n..];
        FlushResult(chunks, tail.ok)
  }

  /** `chunks` accepted before the loop reached `r`'s starting point. */
  function Prepend(chunks: seq<seq<byte>>, r: FlushResult): FlushResult
  {
    FlushResult(chunks + r.chunks, r.ok)
  }

  /** One accepted write advances the reference run by one chunk. */
  lemma FlushRunStep(chunks: seq<seq<byte>>, rest: seq<byte>, writer: Writer, attempt: nat, n: int)
    requires HonestWriter(writer)
    requires |rest| > 0 && writer(attempt, rest) == Wrote(n)
    ensures 0 < n <= |rest|
    ensures Prepend(chunks, FlushRun(rest, writer, attempt))
         == Prepend(chunks + [rest[..n]], FlushRun(rest[n..], writer, attempt + 1))
  {
    assert Progresses(writer(attempt, rest), |rest|);
    var tail := FlushRun(rest[n..], writer, attempt + 1).chunks;
    assert chunks + ([rest[..n]] + tail) == (chunks + [rest[..n]]) + tail;
  }

  /** Accepting a chunk moves it from the remaining bytes to the delivered ones. */
  lemma DeliveredStep(chunks: seq<seq<byte>>, remaining: seq<byte>, n: int)
    requires 0 <= n <= |remaining|
    ensures Concat(chunks + [remaining[..n]]) + remaining[n..] == Concat(chunks) + remaining
  {
    var c := remaining[..n];
    ConcatAppend(chunks, [c]);
    assert Concat([c]) == c by {
      assert [c][1..] == [];
    }
    calc {
      Concat(chunks + [c]) + remaining[n..];
      (Concat(chunks) + c) + remaining[n..];
      Concat(chunks) + (c + remaining[n..]);
      { assert c + remaining[n..] == remaining; }
      Concat(chunks) + remaining;
    }
  }

  /** The loop at tcp.go:95-103. */
  method Flush(rest: seq<byte>, writer: Writer) returns (ok: bool, chunks: seq<seq<byte>>)
    requires HonestWriter(writer)
    ensures FlushResult(chunks, ok) == FlushRun(rest, writer, 0)
    ensures ok ==> Concat(chunks) == rest
    ensures !ok ==> Concat(chunks) < rest
  {
    var remaining := rest;
    var attempt: nat := 0;
    chunks := [];
    assert chunks + FlushRun(rest, writer, 0).chunks == FlushRun(rest, writer, 0).chunks;
    while |remaining| > 0
      invariant Concat(chunks) + remaining == rest
      invariant FlushRun(rest, writer, 0) == Prepend(chunks, FlushRun(remaining, writer, attempt))
      decreases |remaining|
    {
      match writer(attempt, remaining)
      case WriteError =>
        assert chunks + [] == chunks;
        ok := false;
        return;
      case Wrote(n) =>
        FlushRunStep(chunks, remaining, writer, attempt, n);
        DeliveredStep(chunks, remaining, n);
        chunks := chunks + [remaining[..n]];
        remaining := remaining[n..];
        attempt := attempt + 1;
    }
    assert chunks + [] == chunks;
    ok := true;
  }
}
