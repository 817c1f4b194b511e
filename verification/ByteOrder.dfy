/**
 The name of a CAS marker. BucketSet renders htonll_64 of the CAS the client library handed
 back (network byte order); handleDcpEvent renders the CAS of the DCP event (host order).
 The protocol works only because both are the same decimal string.
 */
module ByteOrder {
  import opened Text

  /** htonl on a little-endian host. */
  function Htonl(v: bv32): bv32 {
    (v << 24) | ((v & 0xFF00) << 8) | ((v >> 8) & 0xFF00) | (v >> 24)
  }

  /** bucket.cc htonll_64: two swapped 32-bit halves on a little-endian host, else identity. */
  function Htonll64(littleEndian: bool, value: bv64): bv64 {
    if littleEndian then
      var high := Htonl((value >> 32) as bv32);
      var low := Htonl((value & 0xFFFF_FFFF) as bv32);
      ((low as bv64) << 32) | high as bv64
    else
      value
  }

  /** The bytes of a 64-bit word, least significant first. */
  function Bytes(v: bv64): (bytes: seq<bv64>)
    ensures |bytes| == 8
  {
    [v & 0xFF, (v >> 8) & 0xFF, (v >> 16) & 0xFF, (v >> 24) & 0xFF,
     (v >> 32) & 0xFF, (v >> 40) & 0xFF, (v >> 48) & 0xFF, v >> 56]
  }

  function Reversed<T>(s: seq<T>): seq<T> {
    seq(|s|, i requires 0 <= i < |s| => s[|s| - 1 - i])
  }

  /** `wire` is `host` in network order, as it lies in the memory of the given host. */
  predicate IsNetworkOrder(littleEndian: bool, wire: bv64, host: bv64) {
    Bytes(wire) == if littleEndian then Reversed(Bytes(host)) else Bytes(host)
  }

  lemma LowHalf(v: bv64)
    ensures var w := Htonll64(true, v);
            w & 0xFF == v >> 56
            && (w >> 8) & 0xFF == (v >> 48) & 0xFF
            && (w >> 16) & 0xFF == (v >> 40) & 0xFF
            && (w >> 24) & 0xFF == (v >> 32) & 0xFF
  {
  }

  lemma HighHalf(v: bv64)
    ensures var w := Htonll64(true, v);
            (w >> 32) & 0xFF == (v >> 24) & 0xFF
            && (w >> 40) & 0xFF == (v >> 16) & 0xFF
            && (w >> 48) & 0xFF == (v >> 8) & 0xFF
            && w >> 56 == v & 0xFF
  {
  }

  lemma ReversedBytes(w: bv64, v: bv64)
    requires w & 0xFF == v >> 56 && (w >> 8) & 0xFF == (v >> 48) & 0xFF
    requires (w >> 16) & 0xFF == (v >> 40) & 0xFF && (w >> 24) & 0xFF == (v >> 32) & 0xFF
    requires (w >> 32) & 0xFF == (v >> 24) & 0xFF && (w >> 40) & 0xFF == (v >> 16) & 0xFF
    requires (w >> 48) & 0xFF == (v >> 8) & 0xFF && w >> 56 == v & 0xFF
    ensures Bytes(w) == Reversed(Bytes(v))
  {
    BytesReversed(Bytes(w), Bytes(v));
  }

  lemma BytesReversed(a: seq<bv64>, b: seq<bv64>)
    requires |a| == |b| == 8
    requires a[0] == b[7] && a[1] == b[6] && a[2] == b[5] && a[3] == b[4]
    requires a[4] == b[3] && a[5] == b[2] && a[6] == b[1] && a[7] == b[0]
    ensures a == Reversed(b)
  {
  }

  /** Swapping the bytes of both halves and the halves themselves reverses all eight bytes. */
  lemma FullReversal(littleEndian: bool, v: bv64)
    ensures IsNetworkOrder(littleEndian, Htonll64(littleEndian, v), v)
  {
    if littleEndian {
      LowHalf(v);
      HighHalf(v);
      ReversedBytes(Htonll64(true, v), v);
    }
  }

  lemma SameBytes(v: bv64, w: bv64)
    requires Bytes(v) == Bytes(w)
    ensures v == w
  {
    var a, b := Bytes(v), Bytes(w);
    assert a[0] == b[0] && a[1] == b[1] && a[2] == b[2] && a[3] == b[3];
    assert a[4] == b[4] && a[5] == b[5] && a[6] == b[6] && a[7] == b[7];
  }

  /** The key BucketSet writes, from the CAS as the client library returns it. */
  function KeyWritten(littleEndian: bool, wire: bv64): string {
    Decimal(Htonll64(littleEndian, wire) as nat)
  }

  /** The key handleDcpEvent looks up, from the CAS of the event. */
  function KeyLookedUp(cas: bv64): string {
    Decimal(cas as nat)
  }

  /** For every CAS and both byte orders the key written is the key looked up. */
  lemma KeyAgreement(littleEndian: bool, wire: bv64, cas: bv64)
    requires IsNetworkOrder(littleEndian, wire, cas)
    ensures KeyWritten(littleEndian, wire) == KeyLookedUp(cas)
  {
    var host := Htonll64(littleEndian, wire);
    FullReversal(littleEndian, wire);
    if littleEndian {
      assert Reversed(Reversed(Bytes(cas))) == Bytes(cas);
    }
    SameBytes(host, cas);
  }

  /** Distinct CASes never share a key. */
  lemma KeyInjective(a: bv64, b: bv64)
    requires KeyLookedUp(a) == KeyLookedUp(b)
    ensures a == b
  {
    DecimalInjective(a as nat, b as nat);
    assert (a as nat) as bv64 == a;
  }
}
