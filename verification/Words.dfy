/** Byte strings and the number encodings of math/big and go-ethereum's common package
    that the node stores in its scratch pads and call data. */
module Words {

  datatype Option<+T> = None | Some(value: T)

  type Byte = x: int | 0 <= x < 256
  type Bytes = seq<Byte>
  type Hash = b: Bytes | |b| == 32 witness Zeros(32)
  type Address = b: Bytes | |b| == 20 witness Zeros(20)

  const TWO_63: nat := 0x8000_0000_0000_0000
  const TWO_64: nat := 0x1_0000_0000_0000_0000

  function Zeros(n: nat): (z: Bytes)
    ensures |z| == n
  {
    seq(n, _ => 0)
  }

  const ZERO_HASH: Hash := Zeros(32)

  function Pow256(n: nat): (p: nat)
    ensures p > 0
  {
    if n == 0 then 1 else 256 * Pow256(n - 1)
  }

  function Abs(i: int): nat {
    if i < 0 then -i else i
  }

  /** big.Int.SetBytes: a byte string read as an unsigned big-endian number. */
  function ToNat(b: Bytes): nat {
    if b == [] then 0 else 256 * ToNat(b[..|b| - 1]) + b[|b| - 1]
  }

  /** big.Int.Bytes: the minimal big-endian encoding of the absolute value. */
  function BigEndian(n: nat): Bytes {
    if n == 0 then [] else BigEndian(n / 256) + [n % 256]
  }

  /** big.Int.FillBytes into a buffer of w bytes. The original panics when n does not fit. */
  function FillBytes(n: nat, w: nat): (b: Bytes)
    ensures |b| == w
  {
    if w == 0 then [] else FillBytes(n / 256, w - 1) + [n % 256]
  }

  /** common.BytesToHash (w = 32) and common.BytesToAddress (w = 20): keep the last w bytes,
      pad with zeros on the left. */
  function FitRight(b: Bytes, w: nat): (r: Bytes)
    ensures |r| == w
  {
    if |b| >= w then b[|b| - w..] else Zeros(w - |b|) + b
  }

  /** The conversion int64(n) of a uint64. */
  function Int64(n: nat): int
    requires n < TWO_64
  {
    if n < TWO_63 then n else n - TWO_64
  }

  /** How a nonce is stored: big.NewInt(int64(nonce)).Bytes(), which drops the sign. */
  function NonceBytes(n: nat): Bytes
    requires n < TWO_64
  {
    BigEndian(Abs(Int64(n)))
  }

  /** How a nonce is read: new(big.Int).SetBytes(b).Uint64(). */
  function NonceOf(b: Bytes): nat {
    ToNat(b) % TWO_64
  }

  lemma {:induction false} BigEndianRoundTrip(n: nat)
    ensures ToNat(BigEndian(n)) == n
  {
    if n != 0 {
      BigEndianRoundTrip(n / 256);
      var b := BigEndian(n);
      assert b[..|b| - 1] == BigEndian(n / 256);
    }
  }

  lemma {:induction false} FillBytesRoundTrip(n: nat, w: nat)
    requires n < Pow256(w)
    ensures ToNat(FillBytes(n, w)) == n
  {
    if w != 0 {
      FillBytesRoundTrip(n / 256, w - 1);
      var b := FillBytes(n, w);
      assert b[..|b| - 1] == FillBytes(n / 256, w - 1);
    }
  }

  lemma {:induction false} ToNatRoundTrip(b: Bytes)
    ensures ToNat(b) < Pow256(|b|)
    ensures FillBytes(ToNat(b), |b|) == b
  {
    if b != [] {
      ToNatRoundTrip(b[..|b| - 1]);
    }
  }

  /** Minimal digits cut or padded to w are the w low digits. */
  lemma {:induction false} FitIsFill(n: nat, w: nat)
    ensures FitRight(BigEndian(n), w) == FillBytes(n, w)
  {
    if w != 0 {
      FitIsFill(n / 256, w - 1);
      if n == 0 {
        assert FitRight([], w) == FitRight([], w - 1) + [0];
      } else {
        assert FitRight(BigEndian(n), w) == FitRight(BigEndian(n / 256), w - 1) + [n % 256];
      }
    }
  }

  lemma FitSnoc(front: Bytes, last: Byte, w: nat)
    requires w > 0
    ensures FitRight(front + [last], w) == FitRight(front, w - 1) + [last]
  {
  }

  /** The w low digits of a byte string's number are its last w bytes. */
  lemma {:induction false} FillOfNat(b: Bytes, w: nat)
    ensures FillBytes(ToNat(b), w) == FitRight(b, w)
  {
    if w != 0 {
      if b == [] {
        FillOfNat(b, w - 1);
        assert FitRight(b, w) == FitRight(b, w - 1) + [0];
      } else {
        var front, last := b[..|b| - 1], b[|b| - 1];
        FillOfNat(front, w - 1);
        assert ToNat(b) / 256 == ToNat(front) && ToNat(b) % 256 == last by {
          assert ToNat(b) == 256 * ToNat(front) + last;
        }
        assert FillBytes(ToNat(b), w) == FitRight(front, w - 1) + [last];
        FitSnoc(front, last, w);
        assert front + [last] == b;
      }
    }
  }

  /** The exact range of nonces that survives the int64 detour. */
  lemma NonceSurvives(n: nat)
    requires n < TWO_64
    ensures NonceOf(NonceBytes(n)) == n <==> n <= TWO_63
    ensures n > TWO_63 ==> NonceOf(NonceBytes(n)) == TWO_64 - n
  {
    hide BigEndian, ToNat;
    BigEndianRoundTrip(Abs(Int64(n)));
  }

  lemma {:induction false} FillBytesDigits(n: nat, w: nat)
    ensures ToNat(FillBytes(n, w)) == n % Pow256(w)
  {
    if w != 0 {
      FillBytesDigits(n / 256, w - 1);
      var b, p := FillBytes(n, w), Pow256(w - 1);
      assert b[..|b| - 1] == FillBytes(n / 256, w - 1);
      ModSplits(n, p);
    }
  }

  lemma ModSplits(n: nat, p: nat)
    requires p > 0
    ensures 256 * (n / 256 % p) + n % 256 == n % (256 * p)
  {
    var q, r := n / 256 / p, 256 * (n / 256 % p) + n % 256;
    assert n == 256 * (p * q + n / 256 % p) + n % 256;
    assert n == (256 * p) * q + r && r < 256 * p by {
      assert 256 * (p * q) == (256 * p) * q;
    }
    Remainder(n, 256 * p, q, r);
  }

  lemma Remainder(n: nat, d: nat, q: nat, r: nat)
    requires r < d && n == d * q + r
    ensures n % d == r
  {
    var k := n / d - q;
    assert d * k == d * (n / d) - d * q == r - n % d;
    Multiples(d, k);
  }

  lemma Multiples(d: nat, k: int)
    ensures k >= 1 ==> d * k >= d
    ensures k <= -1 ==> d * k + d <= 0
  {
  }

  /** A stored nonce is read as the number of its last eight bytes. */
  lemma NonceIsLowWord(b: Bytes)
    ensures NonceOf(b) == ToNat(FitRight(b, 8))
  {
    FillOfNat(b, 8);
    FillBytesDigits(ToNat(b), 8);
    assert Pow256(8) == TWO_64;
  }

  /** Zeros in front do not change the number. */
  lemma {:induction false} LeadingZeros(n: nat, b: Bytes)
    ensures ToNat(Zeros(n) + b) == ToNat(b)
  {
    if b == [] {
      assert Zeros(n) + b == Zeros(n);
      if n > 0 {
        LeadingZeros(n - 1, []);
        assert Zeros(n)[..n - 1] == Zeros(n - 1) + [];
      }
    } else {
      LeadingZeros(n, b[..|b| - 1]);
      assert (Zeros(n) + b)[..n + |b| - 1] == Zeros(n) + b[..|b| - 1];
    }
  }

  lemma FitExact(b: Bytes, w: nat)
    requires |b| == w
    ensures FitRight(b, w) == b
  {
  }

  /** Fixed-width numbers are ordered and compared by the whole string: equal value, equal bytes. */
  lemma ToNatInjective(a: Bytes, b: Bytes)
    requires |a| == |b| && ToNat(a) == ToNat(b)
    ensures a == b
  {
    ToNatRoundTrip(a);
    ToNatRoundTrip(b);
  }
}
