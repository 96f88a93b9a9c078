/**
  The denylist key of a JWT (norviq/api/session_revocation.py, `token_hash`): a digest over the decoded
  segments, each prefixed with its length in big-endian bytes - eight of them there,
  any number here. SHA-256 itself is out of the model;
  what is proved is that its input says exactly which segments were presented.
 */
module TokenKey {
  type Byte = b: int | 0 <= b < 256

  function Power(width: nat): nat {
    if width == 0 then 1 else 256 * Power(width - 1)
  }

  /** `n.to_bytes(width, "big")`. */
  function BigEndian(n: nat, width: nat): (bytes: seq<Byte>)
    ensures |bytes| == width
  {
    if width == 0 then [] else BigEndian(n / 256, width - 1) + [n % 256]
  }

  lemma {:induction false} BigEndianInjective(m: nat, n: nat, width: nat)
    requires m < Power(width) && n < Power(width) && BigEndian(m, width) == BigEndian(n, width)
    ensures m == n
  {
    if width > 0 {
      var a, b := BigEndian(m / 256, width - 1), BigEndian(n / 256, width - 1);
      assert (a + [m % 256])[..width - 1] == a && (b + [n % 256])[..width - 1] == b;
      assert (a + [m % 256])[width - 1] == m % 256 && (b + [n % 256])[width - 1] == n % 256;
      BigEndianInjective(m / 256, n / 256, width - 1);
    }
  }

  /** The length fits its prefix; otherwise `to_bytes` would raise. */
  predicate Fits(segment: seq<Byte>, width: nat) { |segment| < Power(width) }

  /** The bytes fed to the hash. */
  function Preimage(segments: seq<seq<Byte>>, width: nat): seq<Byte> {
    if segments == [] then []
    else BigEndian(|segments[0]|, width) + segments[0] + Preimage(segments[1..], width)
  }

  /** The boundaries cannot be shifted: two tokens with equally many segments feed the same bytes to the
      hash exactly when they decode to the same segments. */
  lemma {:induction false} PreimageNamesTheSegments(a: seq<seq<Byte>>, b: seq<seq<Byte>>, width: nat)
    requires |a| == |b|
    requires (forall s | s in a :: Fits(s, width)) && (forall s | s in b :: Fits(s, width))
    ensures Preimage(a, width) == Preimage(b, width) <==> a == b
  {
    if a != [] && Preimage(a, width) == Preimage(b, width) {
      assert a[0] in a && b[0] in b;
      var la, lb := BigEndian(|a[0]|, width), BigEndian(|b[0]|, width);
      assert Preimage(a, width) == la + (a[0] + Preimage(a[1..], width)) && Preimage(b, width) == lb + (b[0] + Preimage(b[1..], width));
      assert la == Preimage(a, width)[..width] && lb == Preimage(b, width)[..width];
      BigEndianInjective(|a[0]|, |b[0]|, width);
      assert a[0] == Preimage(a, width)[width..width + |a[0]|] && b[0] == Preimage(b, width)[width..width + |a[0]|];
      assert Preimage(a[1..], width) == Preimage(a, width)[width + |a[0]|..] && Preimage(b[1..], width) == Preimage(b, width)[width + |a[0]|..];
      PreimageNamesTheSegments(a[1..], b[1..], width);
      assert a == [a[0]] + a[1..] && b == [b[0]] + b[1..];
    }
  }
}
