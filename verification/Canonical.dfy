/**
 * The canonical form of a list of request bodies (email/resend.py): each body is
 * preceded by its length as eight big-endian bytes.  Parse is an independent reader
 * of that format; it undoes Encode and accepts nothing else.
 */
module Canonical {
  import opened Basics

  type Byte = b: int | 0 <= b < 256
  type Bytes = seq<Byte>

  const PREFIX: nat := 8
  const LENGTH_LIMIT: nat := 0x1_0000_0000_0000_0000

  // A body whose length fits the eight-byte prefix; int.to_bytes(8) raises on any other.
  type Body = b: Bytes | |b| < LENGTH_LIMIT

  function Pow256(n: nat): (p: nat)
    ensures p >= 1
  {
    if n == 0 then 1 else 256 * Pow256(n - 1)
  }

  /** int.to_bytes(width, "big") */
  function BigEndian(n: nat, width: nat): (bs: Bytes)
    ensures |bs| == width
  {
    if width == 0 then [] else BigEndian(n / 256, width - 1) + [n % 256]
  }

  function Number(bs: Bytes): nat {
    if bs == [] then 0 else Number(bs[..|bs| - 1]) * 256 + bs[|bs| - 1]
  }

  lemma {:induction false} NumberOfBigEndian(n: nat, width: nat)
    requires n < Pow256(width)
    ensures Number(BigEndian(n, width)) == n
  {
    if width > 0 {
      NumberOfBigEndian(n / 256, width - 1);
      var bs := BigEndian(n, width);
      assert bs[..|bs| - 1] == BigEndian(n / 256, width - 1);
    }
  }

  lemma {:induction false} BigEndianOfNumber(bs: Bytes)
    ensures Number(bs) < Pow256(|bs|)
    ensures BigEndian(Number(bs), |bs|) == bs
  {
    if bs != [] {
      var init := bs[..|bs| - 1];
      BigEndianOfNumber(init);
      assert Number(bs) / 256 == Number(init) && Number(bs) % 256 == bs[|bs| - 1];
    }
  }

  lemma PrefixCapacity()
    ensures Pow256(PREFIX) == LENGTH_LIMIT
  {
    assert Pow256(2) == 0x1_0000;
    assert Pow256(4) == 0x1_0000_0000;
    assert Pow256(6) == 0x1_0000_0000_0000;
  }

  function Encode(bodies: seq<Body>): Bytes {
    if bodies == [] then []
    else BigEndian(|bodies[0]|, PREFIX) + bodies[0] + Encode(bodies[1..])
  }

  function Parse(bs: Bytes): (r: Option<seq<Body>>)
    decreases |bs|
  {
    if bs == [] then Some([])
    else if |bs| < PREFIX then None
    else
      var n := Number(bs[..PREFIX]);
      if |bs| < PREFIX + n || n >= LENGTH_LIMIT then None
      else
        match Parse(bs[PREFIX + n..])
        case None => None
        case Some(rest) => Some([bs[PREFIX..PREFIX + n]] + rest)
  }

  lemma {:induction false} ParseOfEncode(bodies: seq<Body>)
    ensures Parse(Encode(bodies)) == Some(bodies)
  {
    if bodies != [] {
      var head, tail := bodies[0], Encode(bodies[1..]);
      var bs := Encode(bodies);
      PrefixCapacity();
      NumberOfBigEndian(|head|, PREFIX);
      assert bs[..PREFIX] == BigEndian(|head|, PREFIX);
      assert bs[PREFIX..PREFIX + |head|] == head;
      assert bs[PREFIX + |head|..] == tail;
      ParseOfEncode(bodies[1..]);
      assert Parse(tail) == Some(bodies[1..]);
      assert bodies == [head] + bodies[1..];
    }
  }

  lemma {:induction false} EncodeOfParse(bs: Bytes)
    requires Parse(bs).Some?
    ensures Encode(Parse(bs).value) == bs
    decreases |bs|
  {
    if bs != [] {
      var n := Number(bs[..PREFIX]);
      var rest := bs[PREFIX + n..];
      EncodeOfParse(rest);
      BigEndianOfNumber(bs[..PREFIX]);
      assert Parse(bs).value[1..] == Parse(rest).value;
      assert bs == bs[..PREFIX] + bs[PREFIX..PREFIX + n] + rest;
    }
  }

  lemma EncodeInjective(a: seq<Body>, b: seq<Body>)
    ensures Encode(a) == Encode(b) <==> a == b
  {
    ParseOfEncode(a);
    ParseOfEncode(b);
  }

  /**
   * A keyed digest of the canonical bytes.  HMAC-SHA-256 is taken as collision free, so
   * the digest is represented by what it was computed from.
   */
  datatype Fingerprint = Hmac(key: Bytes, message: Bytes)

  function FingerprintOf(key: Bytes, bodies: seq<Body>): Fingerprint {
    Hmac(key, Encode(bodies))
  }

  /** The bodies a fingerprint commits to. */
  function Committed(f: Fingerprint): seq<Body> {
    Parse(f.message).GetOr([])
  }

  lemma FingerprintCommits(key: Bytes, bodies: seq<Body>)
    ensures Committed(FingerprintOf(key, bodies)) == bodies
  {
    ParseOfEncode(bodies);
  }
}
