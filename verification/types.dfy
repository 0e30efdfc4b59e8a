/** Basic values shared by the connection-handler model: bytes, optional
    values, TCP endpoints, the read-only process options the handler consults,
    and byte-chunk concatenation. */
module Types {

  /** An octet, as carried by `[]byte` in the relay. */
  newtype byte = b: int | 0 <= b < 256

  /** A value that may be absent; `None` stands for Go's nil. */
  datatype Option<T> = None | Some(value: T)

  /** A TCP endpoint as the PROXY header parser reports it. The IP bytes are
      opaque to the handler; only the port is ever inspected. */
  datatype TcpAddr = TcpAddr(ip: seq<byte>, port: int)

  /** The fields of the global `Opts` that the TCP handler reads. */
  datatype Options = Options(listenAddrLen: int, targetAddr4: string, targetAddr6: string)

  /** The bytes of a sequence of chunks, in order. */
  function Concat(chunks: seq<seq<byte>>): seq<byte>
  {
    if chunks == [] then [] else chunks[0] + Concat(chunks[1..])
  }

  /** Concatenation distributes over appending chunk lists. */
  lemma {:induction false} ConcatAppend(a: seq<seq<byte>>, b: seq<seq<byte>>)
    ensures Concat(a + b) == Concat(a) + Concat(b)
  {
    if a == [] {
      assert a + b == b;
    } else {
      assert (a + b)[1..] == a[1..] + b;
      ConcatAppend(a[1..], b);
    }
  }
}
