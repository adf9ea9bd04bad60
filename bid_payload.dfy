/** The binary bid message published in answer to a bid request
    (tno/essim_battery/essim_mqtt_client.py): an 8-byte big-endian signed timestamp,
    then one (price, energy) pair of 8-byte doubles per curve point, in curve order.
    The IEEE-754 layout of a double is not modelled: the encoder of one double is a
    parameter that yields 8 bytes. */
module BidPayload {
  import opened Common
  import opened BatteryCurve

  newtype byte = x: int | 0 <= x < 256

  const TwoTo63: int := 0x8000_0000_0000_0000
  const TwoTo64: int := 0x1_0000_0000_0000_0000

  /** The range `struct.pack(">q", v)` accepts. */
  predicate InInt64(v: int) {
    -TwoTo63 <= v < TwoTo63
  }

  /** An encoder of doubles as `struct.pack(">d", x)` would give them: always 8 bytes. */
  ghost predicate EightByteDoubles(encodeDouble: real -> seq<byte>) {
    forall x :: |encodeDouble(x)| == 8
  }

  function Pow256(n: nat): (r: nat)
    ensures r > 0
  {
    if n == 0 then 1 else 256 * Pow256(n - 1)
  }

  /** The n low-order bytes of u, most significant first. */
  function BigEndian(u: nat, n: nat): (b: seq<byte>)
    ensures |b| == n
  {
    if n == 0 then [] else BigEndian(u / 256, n - 1) + [(u % 256) as byte]
  }

  /** The unsigned value of a big-endian byte string. */
  function FromBigEndian(b: seq<byte>): nat {
    if b == [] then 0 else FromBigEndian(b[..|b| - 1]) * 256 + b[|b| - 1] as nat
  }

  lemma {:induction false} BigEndianRoundTrip(u: nat, n: nat)
    requires u < Pow256(n)
    ensures FromBigEndian(BigEndian(u, n)) == u
  {
    if n > 0 {
      assert u / 256 < Pow256(n - 1);
      BigEndianRoundTrip(u / 256, n - 1);
      var b := BigEndian(u, n);
      assert b[..|b| - 1] == BigEndian(u / 256, n - 1);
    }
  }

  /** `struct.pack(">q", v)`: the two's complement of v in 8 bytes, big-endian. */
  function Int64BigEndian(v: int): (b: seq<byte>)
    requires InInt64(v)
    ensures |b| == 8
  {
    BigEndian(if v >= 0 then v else v + TwoTo64, 8)
  }

  /** `struct.unpack(">q", b)`. */
  function DecodeInt64BigEndian(b: seq<byte>): int
    requires |b| == 8
  {
    var u := FromBigEndian(b);
    if u >= TwoTo63 then u - TwoTo64 else u
  }

  lemma Int64RoundTrip(v: int)
    requires InInt64(v)
    ensures DecodeInt64BigEndian(Int64BigEndian(v)) == v
  {
    assert Pow256(8) == TwoTo64 by {
      assert Pow256(4) == 0x1_0000_0000;
    }
    BigEndianRoundTrip(if v >= 0 then v else v + TwoTo64, 8);
  }

  /** The bytes of the curve points as the packing loop accumulates them. */
  function PointBytes(c: Curve, encodeDouble: real -> seq<byte>): seq<byte> {
    if c == [] then []
    else PointBytes(c[..|c| - 1], encodeDouble) + encodeDouble(c[|c| - 1].price) + encodeDouble(c[|c| - 1].energy)
  }

  function BidPayloadBytes(timestamp: int, c: Curve, encodeDouble: real -> seq<byte>): seq<byte>
    requires InInt64(timestamp)
  {
    Int64BigEndian(timestamp) + PointBytes(c, encodeDouble)
  }

  lemma {:induction false} PointBytesLayout(c: Curve, encodeDouble: real -> seq<byte>)
    requires EightByteDoubles(encodeDouble)
    ensures |PointBytes(c, encodeDouble)| == 16 * |c|
    ensures forall k :: 0 <= k < |c| ==>
      && PointBytes(c, encodeDouble)[16 * k .. 16 * k + 8] == encodeDouble(c[k].price)
      && PointBytes(c, encodeDouble)[16 * k + 8 .. 16 * k + 16] == encodeDouble(c[k].energy)
  {
    if c != [] {
      var init := c[..|c| - 1];
      PointBytesLayout(init, encodeDouble);
      var p := PointBytes(c, encodeDouble);
      var q := PointBytes(init, encodeDouble);
      assert p == q + encodeDouble(c[|c| - 1].price) + encodeDouble(c[|c| - 1].energy);
      forall k | 0 <= k < |c|
        ensures p[16 * k .. 16 * k + 8] == encodeDouble(c[k].price)
        ensures p[16 * k + 8 .. 16 * k + 16] == encodeDouble(c[k].energy)
      {
        if k < |c| - 1 {
          assert c[k] == init[k];
          assert p[16 * k .. 16 * k + 8] == q[16 * k .. 16 * k + 8];
          assert p[16 * k + 8 .. 16 * k + 16] == q[16 * k + 8 .. 16 * k + 16];
        }
      }
    }
  }

  /** The payload is 8 + 16 n bytes, starts with the timestamp (which decodes back), and
      carries point k's price and energy at bytes 8 + 16 k onwards. */
  lemma BidPayloadLayout(timestamp: int, c: Curve, encodeDouble: real -> seq<byte>)
    requires InInt64(timestamp) && EightByteDoubles(encodeDouble)
    ensures var p := BidPayloadBytes(timestamp, c, encodeDouble);
      && |p| == 8 + 16 * |c|
      && DecodeInt64BigEndian(p[..8]) == timestamp
      && forall k :: 0 <= k < |c| ==>
           && p[8 + 16 * k .. 16 + 16 * k] == encodeDouble(c[k].price)
           && p[16 + 16 * k .. 24 + 16 * k] == encodeDouble(c[k].energy)
  {
    var p := BidPayloadBytes(timestamp, c, encodeDouble);
    var q := PointBytes(c, encodeDouble);
    PointBytesLayout(c, encodeDouble);
    Int64RoundTrip(timestamp);
    assert p[..8] == Int64BigEndian(timestamp);
    forall k | 0 <= k < |c|
      ensures p[8 + 16 * k .. 16 + 16 * k] == encodeDouble(c[k].price)
      ensures p[16 + 16 * k .. 24 + 16 * k] == encodeDouble(c[k].energy)
    {
      assert p[8 + 16 * k .. 16 + 16 * k] == q[16 * k .. 16 * k + 8];
      assert p[16 + 16 * k .. 24 + 16 * k] == q[16 * k + 8 .. 16 * k + 16];
    }
  }

  /** The packing loop: the timestamp, then each point's price and energy. */
  method PackBid(timestamp: int, c: Curve, encodeDouble: real -> seq<byte>) returns (r: Result<seq<byte>>)
    ensures r.Err? <==> !InInt64(timestamp)
    ensures r.Err? ==> r.error == OutOfInt64Range
    ensures r.Ok? ==> r.value == BidPayloadBytes(timestamp, c, encodeDouble)
  {
    if !InInt64(timestamp) {
      return Err(OutOfInt64Range);
    }
    var response := Int64BigEndian(timestamp);
    for i := 0 to |c|
      invariant response == Int64BigEndian(timestamp) + PointBytes(c[..i], encodeDouble)
    {
      assert c[..i + 1][..i] == c[..i];
      response := response + encodeDouble(c[i].price) + encodeDouble(c[i].energy);
    }
    assert c[..|c|] == c;
    return Ok(response);
  }
}
