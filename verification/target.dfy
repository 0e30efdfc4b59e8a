/** Upstream target selection (tcp.go:53-57).

    The port is not taken from the options: it is sliced out of a fixed
    address literal with `[]rune(AddrLiteral)[L:L+5]`, where `L` is
    `Opts.ListenAddrLen`. Go bounds the high index of a slice expression on a
    SLICE by its capacity, and the capacity of a `[]rune` conversion is left
    to the implementation; it is at least the rune count (20). Slots between
    the length and the capacity hold zero runes. An index outside the bounds
    is a run-time panic, modelled here as `None`. */
module Target {
  import opened Types

  /** The address literal the port is sliced from. */
  const AddrLiteral: string := "190.115.196.10:10000"

  /** Possible capacities of `[]rune(AddrLiteral)`: never below its 20 runes. */
  type RuneCapacity = c: int | 20 <= c witness 20

  /** The backing store seen by the slice expression: the literal's runes,
      then zero runes up to the capacity. */
  function Backing(capacity: RuneCapacity): (b: seq<char>)
    ensures |b| == capacity
    ensures b[..|AddrLiteral|] == AddrLiteral
    ensures forall i :: |AddrLiteral| <= i < capacity ==> b[i] == '\0'
  {
    AddrLiteral + seq(capacity - |AddrLiteral|, _ => '\0')
  }

  /** `[]rune(AddrLiteral)[low:low+5]`, or `None` where Go panics. */
  function PortSlice(low: int, capacity: RuneCapacity): (r: Option<string>)
    ensures r.Some? <==> 0 <= low && low + 5 <= capacity
    ensures r.Some? ==> |r.value| == 5
    ensures r.Some? && low + 5 <= |AddrLiteral| ==> r.value == AddrLiteral[low..low + 5]
  {
    if 0 <= low && low + 5 <= capacity then Some(Backing(capacity)[low..low + 5]) else None
  }

  /** When the capacity equals the rune count, the slice is in bounds exactly
      for 0 <= ListenAddrLen <= 15. */
  lemma InBoundsAtExactCapacity(low: int)
    ensures PortSlice(low, 20).Some? <==> 0 <= low <= 15
  {
  }

  /** ListenAddrLen = 15 picks out "10000", whatever the capacity; the
      IPv4 host is then joined with that port. */
  lemma PortAtFifteen(opts: Options, capacity: RuneCapacity)
    requires opts.listenAddrLen == 15
    ensures PortSlice(15, capacity) == Some("10000")
    ensures TargetAddress(opts, 4, capacity) == Some(opts.targetAddr4 + ":10000")
  {
    assert AddrLiteral[15..20] == "10000";
    var r := TargetAddress(opts, 4, capacity).value;
    assert r[..|r| - 6] == opts.targetAddr4 && r[|r| - 6] == ':' && r[|r| - 5..] == "10000";
    assert r == r[..|r| - 6] + [r[|r| - 6]] + r[|r| - 5..];
    assert [':'] + "10000" == ":10000";
    assert r == opts.targetAddr4 + ":10000";
  }

  predicate IsDigit(c: char) { '0' <= c <= '9' }

  predicate AllDigits(s: string) { forall i :: 0 <= i < |s| ==> IsDigit(s[i]) }

  /** Of all in-bounds offsets, only 15 yields a numeric port: every other
      window covers one of the literal's separators or a zero rune. */
  lemma PortNumericOnlyAtFifteen(low: int, capacity: RuneCapacity)
    requires PortSlice(low, capacity).Some?
    ensures AllDigits(PortSlice(low, capacity).value) <==> low == 15
  {
    var s := PortSlice(low, capacity).value;
    var b := Backing(capacity);
    assert s == b[low..low + 5];
    if low == 15 {
      assert s == "10000";
    } else {
      // an offset in the window whose rune is not a digit
      var bad :=
        if low <= 3 then 3
        else if low <= 7 then 7
        else if low <= 11 then 11
        else if low <= 14 then 14
        else if low <= 20 then 20
        else low;
      assert low <= bad < low + 5;
      assert s[bad - low] == b[bad];
      if bad < 20 {
        assert b[bad] == AddrLiteral[bad];
      }
      assert !IsDigit(s[bad - low]);
    }
  }

  /** The dial target `host + ":" + port`, the host chosen by address family. */
  function TargetAddress(opts: Options, version: int, capacity: RuneCapacity): (r: Option<string>)
    ensures r.Some? <==> 0 <= opts.listenAddrLen && opts.listenAddrLen + 5 <= capacity
    ensures r.Some? ==> |r.value| >= 6 && r.value[|r.value| - 6] == ':'
    // the port suffix does not depend on the family
    ensures r.Some? ==> r.value[|r.value| - 5..] == PortSlice(opts.listenAddrLen, capacity).value
    // the host is the IPv4 target exactly for version 4, otherwise the IPv6 target
    ensures r.Some? ==> r.value[..|r.value| - 6] == (if version == 4 then opts.targetAddr4 else opts.targetAddr6)
  {
    match PortSlice(opts.listenAddrLen, capacity)
    case None => None
    case Some(port) =>
      var host := if version == 4 then opts.targetAddr4 else opts.targetAddr6;
      var r := host + ":" + port;
      assert r[..|r| - 6] == host;
      Some(r)
  }

  /** Both families get a target, or neither does, and they share the port. */
  lemma FamiliesSharePort(opts: Options, v: int, w: int, capacity: RuneCapacity)
    ensures TargetAddress(opts, v, capacity).Some? <==> TargetAddress(opts, w, capacity).Some?
    ensures TargetAddress(opts, v, capacity).Some? ==>
      var a := TargetAddress(opts, v, capacity).value;
      var b := TargetAddress(opts, w, capacity).value;
      a[|a| - 5..] == b[|b| - 5..]
  {
  }
}
