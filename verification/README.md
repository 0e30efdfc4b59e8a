# go-mmproxy TCP connection handler, modelled in Dafny

go-mmproxy accepts connections that start with a PROXY protocol header. It
dials the upstream service with the original client's address as the local
endpoint, so the service sees the real client. Then it relays bytes in both
directions. This project models `tcpHandleConnection` in `tcp.go`, the
per-connection pipeline:

1. It checks the origin.
2. It borrows a buffer and reads the header once.
3. It parses the header.
4. It picks the upstream target by address family.
5. It dials the target.
6. It sets NoDelay on both sockets.
7. It writes the bytes that followed the header, retrying partial writes until none are left.
8. It returns the buffer.
9. It starts the relay.

Every collaborator is an input (`Handler.Env`):

- the origin filter's verdict;
- the outcome of the single read;
- the PROXY header parser;
- `AddrVersion`;
- whether the dial succeeds;
- the two NoDelay results;
- the upstream writer's answers;
- whether the first relay result is an error.

Given these inputs, the handler yields where it stopped (`Handler.Exit`) and
a trace of its effects (`Trace.Event`):

- borrowing and returning the buffer;
- the read;
- the dial, with its local address, control-hook port and target;
- the NoDelay calls;
- each chunk the upstream accepted;
- a write error;
- the relay start;
- the two closes.

Go's `defer` statements are kept on an explicit stack. `Trace.Unwind` runs that stack last-registered-first at every return, including the run-time panic of the port slice. That panic is not recovered, so after the deferred calls it ends the whole process; the model follows only the connection that panicked.

Files:

- `types.dfy`: bytes, `Option`, TCP endpoints, the options the handler reads, and chunk concatenation.
- `target.dfy`: the port slice `[]rune("190.115.196.10:10000")[L:L+5]` and the target address.
- `trace.dfy`: events, the defer stack, and the bytes a trace delivered upstream.
- `preface.dfy`: the partial-write loop as a `while` loop, proved equal to a recursive reference run.
- `handler.dfy`: `Run` gives every path as one expression. `HandleConnection` follows the source statement by statement and is proved to produce the same outcome.
- `guarantees.dfy`: the handler's promises, stated and proved over `Run`.

Three behaviours of the code are easy to misread:

- **Port.** The target port is not taken from the configuration. It is sliced out of a fixed address literal, and the model keeps that slice as written.
- **Buffer return.** The buffer is not returned as soon as the leftover bytes are captured. It goes back after the preface flush, because the leftover bytes still alias it.
- **Slice bounds.** A Go slice expression on a slice is bounded by the capacity, not the length. The capacity of `[]rune(literal)` is at least its 20 runes and is otherwise left to the implementation. It is therefore a parameter (`Target.RuneCapacity`), and the slots past the 20 runes read as zero runes. At capacity 20 the slice is in bounds exactly for `0 <= ListenAddrLen <= 15`.

## Model

| member | source | states |
|---|---|---|
| Handler.HandleConnection | tcp.go:20-118 | The statement-by-statement handler, with an explicit defer stack, produces exactly the exit and trace of `Run`. The last event is always the close of the downstream connection. |
| Handler.Run | tcp.go:20-118 | Every path ends by closing the downstream connection. The handler stops at the origin check exactly when the origin is not allowed. |
| Handler.WithHeader | tcp.go:53-117 | Once the header parsed, every path still ends with the downstream close, and the handler never stops at the origin, read or parse steps. |
| Handler.AfterDial | tcp.go:78-117 | After a successful dial, the first two events are the two NoDelay calls, carrying their outcomes. The handler stops at a write error or at the relay. The relay is reached exactly when the preface flush succeeded. The last four events are the relay teardown or the write-error teardown, whichever matches the exit. |
| Handler.Admit | tcp.go:34-51 | With the downstream close already deferred, the buffer borrow, the deferred nil-guarded release, the single read and the parse, followed by the rest of the handler, produce exactly the exit and trace of `Run` for an allowed origin. |
| Handler.Connect | tcp.go:53-76 | The target selection, the panic on an out-of-bounds slice and the dial, run with the buffer held and its release deferred, produce the events of `WithHeader`. |
| Handler.Forward | tcp.go:78-117 | NoDelay, the preface flush, the explicit release and the relay, run on the full defer stack, produce the exit and events of `AfterDial`. |
| Handler.DialFor | tcp.go:68-71 | The dialer's local address is the client address. The control hook is present exactly when that address is non-nil, keyed by its port. The target is the selected address. |
| Handler.HeldTeardown | tcp.go:34-51 | With the downstream close and the nil-guarded release deferred, an early return returns the buffer and then closes the downstream connection. |
| Handler.Teardowns | tcp.go:78-106 | With all three calls deferred, a write error closes upstream, returns the buffer, then closes downstream. After the explicit release the deferred release does nothing. |
| Trace.Unwind | tcp.go:21 | A stack whose first registered call is the downstream close ends its unwinding with that close. |
| Trace.UnwindPush | tcp.go:35-39 | A newly deferred call runs before everything registered earlier. |
| Trace.UnwindCount | tcp.go:35-39 | Unwinding produces each close once per registration. It produces the buffer release once per registered closure, and only while the buffer is held. |
| Trace.UnwindOnlyTearsDown | tcp.go:21 | Unwinding only returns the buffer and closes sockets. |
| Trace.WriteEventsDeliver | tcp.go:96 | The write events deliver exactly the concatenation of the accepted chunks. |
| Preface.FlushRun | tcp.go:95-103 | Reference run of the loop. Every accepted chunk is non-empty. On success the chunks concatenate to the original bytes, in order. On a write error they concatenate to a proper prefix. |
| Preface.FlushRunStep | tcp.go:96-102 | An accepted write of n bytes moves the first n remaining bytes into the delivered chunks, with 0 < n <= remaining length. |
| Preface.Flush | tcp.go:95-103 | The `while` loop computes the reference run, so the remaining length strictly decreases. It either delivers exactly the original bytes or stops at the first error after a proper prefix. |
| Target.PortSlice | tcp.go:53 | The slice is in bounds exactly when 0 <= L and L+5 <= capacity. It then has five runes, which are the literal's runes when L+5 <= 20. |
| Target.InBoundsAtExactCapacity | tcp.go:53 | When the rune slice's capacity equals its 20 runes, the slice is in bounds exactly for 0 <= ListenAddrLen <= 15. |
| Target.PortAtFifteen | tcp.go:53-56 | At L = 15 the port is "10000" for every capacity, and an IPv4 client's target is TargetAddr4 + ":10000". |
| Target.PortNumericOnlyAtFifteen | tcp.go:53 | Of all in-bounds offsets, only L = 15 yields an all-digit port. |
| Target.TargetAddress | tcp.go:53-57 | A target exists exactly when the slice is in bounds. It is host + ":" + the sliced port. The host is TargetAddr4 exactly when AddrVersion is 4, otherwise TargetAddr6. |
| Target.FamiliesSharePort | tcp.go:53-57 | Any two address versions both get a target or neither does, and they carry the same port suffix. |
| Guarantees.EarlyPaths | tcp.go:25-76 | Without an upstream connection there are three outcomes. A rejected origin only closes downstream. An allowed connection that never dials borrows, reads, returns the buffer and closes. A failed dial borrows, reads, dials, returns the buffer and closes. |
| Guarantees.UntargetedPath | tcp.go:41-57 | A read error, a parse error or an out-of-bounds port slice leaves the trace borrow, read, release, close. |
| Guarantees.ConnectedPath | tcp.go:72-117 | With an upstream connection, the trace is borrow, read, dial, the two NoDelay calls, one write per accepted chunk, then the relay or write-error teardown. The exit matches the flush outcome. |
| Guarantees.RunCounts | tcp.go:20-118 | On every path, each event occurs the expected number of times. The buffer is borrowed, read into and returned once when the origin is allowed, otherwise never. Upstream is closed once exactly when the dial succeeded. Downstream is closed exactly once. The relay starts once exactly when reached. |
| Guarantees.RejectedOriginUntouched | tcp.go:21-34 | A rejected origin yields only the downstream close. Otherwise the buffer is borrowed first. |
| Guarantees.ExitReasons | tcp.go:41-53 | The handler stops at the read exactly on a read error, and at the parse exactly on a parse error. It panics exactly when the header parsed and the port slice is out of bounds. |
| Guarantees.DialExits | tcp.go:72-117 | The handler stops at the dial exactly when a dial was attempted and failed. It ends at a write error or in the relay exactly when the dial succeeded. |
| Guarantees.NoDialWithoutTarget | tcp.go:25-72 | The trace holds no dial exactly when the origin was rejected, the read or parse failed, or the slice panicked. A trace without a dial writes nothing upstream. |
| Guarantees.DialAsHeaderSays | tcp.go:53-72 | When a dial is made, it is made once, with the client address, the control port and the family's target. |
| Guarantees.NoDelayNeverAborts | tcp.go:83-93 | Changing either NoDelay outcome never changes where the handler stops. |
| Guarantees.NoDelayRecorded | tcp.go:83-93 | Once connected, both NoDelay calls occur with their outcomes. |
| Guarantees.PrefaceBeforeRelay | tcp.go:95-112 | The relay starts exactly when the dial succeeded and the whole preface was accepted. Everything before the relay teardown delivered exactly the preface, in order. The exit carries the first relay result. |
| Guarantees.WriteErrorTearsDown | tcp.go:95-101 | A write error ends with the upstream close, the buffer return and the downstream close, and only a proper prefix of the preface went upstream. |

## Left out

- `TCPListen` (tcp.go:120-161): the listener goroutines and their channels are concurrency and networking, not per-connection logic.
- `tcpCopyData` and the two relay goroutines (tcp.go:15-18, 108-112): the relay is reduced to its first outcome, an input, followed by the return. The second copy and the channel's capacity are concurrency concerns.
- `PROXYReadRemoteAddr`, `CheckOriginAllowed`, `GetBuffer`/`PutBuffer`, `DialUpstreamControl` and `AddrVersion` are not part of this model. Their results are inputs, and their internals are not specified.
- Logging, the `Opts.Verbose` gating and the `"UNKNOWN"` client string (tcp.go:22-23, 30-32, 59-66) affect only log output.
- Socket semantics: transparent-proxy routing, blocking, timeouts and the bytes a `Read` actually returns are not modelled. The read is an input.
- Preface.Flush: a write that returns an error carries no count, so bytes a failing `Write` reports alongside its error are not modelled. The loop drops them in any case.
- Preface.HonestWriter: writers that report n = 0 or n > len without an error, for a non-empty slice, are excluded, following the io.Writer contract. With n = 0 the loop would spin forever, and with n > len the re-slice would panic.
- The process-wide effect of the port-slice panic: `PortSlicePanic` is an unrecovered run-time panic. The handler runs in a bare goroutine (tcp.go:159) and nothing calls `recover`, so after this connection's deferred calls run, the whole process exits and every other open connection is dropped without its own teardown. The model follows only the panicking connection, and its guarantees (for example `Guarantees.RunCounts`) describe that connection alone. Because `ListenAddrLen` is fixed configuration, an out-of-range value stops the whole service at the first connection whose header parses.
- Target.PortSlice: `ListenAddrLen + 5` is computed in unbounded integers, so 64-bit overflow of Go's `int` is not modelled.
- The buffer's size and contents beyond the bytes read are not modelled.
