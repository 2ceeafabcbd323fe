/** The byte-level view the host has of one guest linear memory: little-endian
    encoding and decoding of unsigned integers, stores into a byte sequence,
    and the in-place write that every DataView setter and Uint8Array copy or
    fill in the host amounts to. */
module LinearMemory {

  /** One byte of linear memory. */
  newtype Byte = b: int | 0 <= b < 256

  /** Size of a WebAssembly page in bytes. */
  const PageSize: nat := 65536

  /** 2^32: the modulus of JavaScript's `value >>> 0`. */
  const TwoTo32: nat := 0x1_0000_0000

  function Pow256(n: nat): (r: nat)
    ensures r > 0
  {
    if n == 0 then 1 else 256 * Pow256(n - 1)
  }

  lemma Pow256Of4()
    ensures Pow256(4) == TwoTo32
  {
    assert Pow256(1) == 256;
    assert Pow256(2) == 65536;
    assert Pow256(3) == 16777216;
  }

  /** JavaScript's `value >>> 0` (ToUint32) on an integral Number. */
  function ToUint32(v: int): (r: nat)
    ensures r < TwoTo32
    ensures (r - v) % TwoTo32 == 0
  {
    v % TwoTo32
  }

  /** ToUint8, the conversion Uint8Array.prototype.fill applies to its value. */
  function ToUint8(v: int): (r: Byte)
    ensures (r as int - v) % 256 == 0
  {
    (v % 256) as Byte
  }

  /** The `ptr .. ptr + len` region lies inside a buffer of `size` bytes. */
  predicate InBounds(ptr: int, len: int, size: int)
  {
    0 <= ptr && 0 <= len && ptr + len <= size
  }

  /** The n little-endian bytes of v modulo 256^n, least significant first. */
  function LeBytes(v: int, n: nat): (r: seq<Byte>)
    ensures |r| == n
    decreases n
  {
    if n == 0 then [] else [(v % 256) as Byte] + LeBytes(v / 256, n - 1)
  }

  /** The unsigned value of a little-endian byte string. */
  function LeValue(s: seq<Byte>): (r: nat)
    ensures r < Pow256(|s|)
  {
    if s == [] then 0 else s[0] as nat + 256 * LeValue(s[1..])
  }

  /** Euclidean division has one quotient and one remainder. */
  lemma DivModUnique(v: int, d: int, k: int, m: int)
    requires d > 0 && v == d * k + m && 0 <= m < d
    ensures v / d == k && v % d == m
  {
    var k', m' := v / d, v % d;
    assert v == d * k' + m';
    assert d * (k - k') == m' - m;
    if k - k' >= 1 {
    } else if k - k' <= -1 {
    }
  }

  /** Splitting off the low byte of a remainder modulo 256 * p. */
  lemma ModSplit(v: int, p: nat)
    requires p > 0
    ensures v % (256 * p) == v % 256 + 256 * ((v / 256) % p)
  {
    var q, r := v / 256, v % 256;
    var q2, r2 := q / p, q % p;
    assert v == 256 * q + r;
    assert q == p * q2 + r2;
    assert v == (256 * p) * q2 + (256 * r2 + r) by {
      assert 256 * q == 256 * (p * q2) + 256 * r2;
      assert 256 * (p * q2) == (256 * p) * q2;
    }
    assert 256 * r2 + r < 256 * p by {
      assert r2 <= p - 1;
      assert 256 * r2 <= 256 * (p - 1);
    }
    DivModUnique(v, 256 * p, q2, 256 * r2 + r);
  }

  /** Decoding an encoding yields the value modulo 256^n. */
  lemma {:induction false} LeRoundTrip(v: int, n: nat)
    ensures LeValue(LeBytes(v, n)) == v % Pow256(n)
    decreases n
  {
    if n == 0 {
      assert LeBytes(v, 0) == [];
    } else {
      var s := LeBytes(v, n);
      assert s[0] == (v % 256) as Byte;
      assert s[1..] == LeBytes(v / 256, n - 1);
      LeRoundTrip(v / 256, n - 1);
      ModSplit(v, Pow256(n - 1));
    }
  }

  /** Encoding a decoded byte string gives the byte string back. */
  lemma {:induction false} LeBytesOfValue(s: seq<Byte>)
    ensures LeBytes(LeValue(s), |s|) == s
  {
    if s != [] {
      var rest := LeValue(s[1..]);
      DivModUnique(LeValue(s), 256, rest, s[0] as int);
      LeBytesOfValue(s[1..]);
    }
  }

  /** The encoding of zero is all zero bytes. */
  lemma {:induction false} LeBytesOfZero(n: nat)
    ensures forall i :: 0 <= i < n ==> LeBytes(0, n)[i] == 0
  {
    if n > 0 {
      LeBytesOfZero(n - 1);
    }
  }

  /** An all-zero byte string has value zero. */
  lemma {:induction false} LeValueOfZeros(s: seq<Byte>)
    requires forall i :: 0 <= i < |s| ==> s[i] == 0
    ensures LeValue(s) == 0
  {
    if s != [] {
      LeValueOfZeros(s[1..]);
    }
  }

  lemma MulAssoc(a: int, b: int, c: int)
    ensures a * (b * c) == (a * b) * c
  {
  }

  /** The value of a concatenation: the high part is scaled by 256^|a|. */
  lemma {:induction false} LeValueAppend(a: seq<Byte>, b: seq<Byte>)
    ensures LeValue(a + b) == LeValue(a) + Pow256(|a|) * LeValue(b)
  {
    if a != [] {
      assert (a + b)[1..] == a[1..] + b;
      LeValueAppend(a[1..], b);
      var x, y, z, p' := LeValue(a[1..]), LeValue(b), LeValue(a[1..] + b), Pow256(|a| - 1);
      assert z == x + p' * y;
      assert LeValue(a + b) == a[0] as nat + 256 * z;
      assert LeValue(a) == a[0] as nat + 256 * x;
      assert Pow256(|a|) == 256 * p';
      MulAssoc(256, p', y);
    } else {
      assert a + b == b;
    }
  }

  /** `m` with the bytes at `p .. p + |bytes|` replaced by `bytes`. */
  function Store(m: seq<Byte>, p: int, bytes: seq<Byte>): (r: seq<Byte>)
    requires InBounds(p, |bytes|, |m|)
    ensures |r| == |m|
    ensures forall i :: 0 <= i < |m| ==> r[i] == if p <= i < p + |bytes| then bytes[i - p] else m[i]
  {
    m[..p] + bytes + m[p + |bytes|..]
  }

  /** The unsigned little-endian integer in `m[p .. p + n]` (DataView getUintN). */
  function Load(m: seq<Byte>, p: int, n: nat): (r: nat)
    requires InBounds(p, n, |m|)
    ensures r < Pow256(n)
  {
    LeValue(m[p..p + n])
  }

  /** What a Store of `bytes` puts at its offset is read back there. */
  lemma StoreThenLoad(m: seq<Byte>, p: int, bytes: seq<Byte>)
    requires InBounds(p, |bytes|, |m|)
    ensures Load(Store(m, p, bytes), p, |bytes|) == LeValue(bytes)
  {
    var r := Store(m, p, bytes);
    assert r[p..p + |bytes|] == bytes;
  }

  /** Storing an n-byte little-endian value and loading it back yields it modulo 256^n. */
  lemma StoreLoadRoundTrip(m: seq<Byte>, p: int, v: int, n: nat)
    requires InBounds(p, n, |m|)
    ensures Load(Store(m, p, LeBytes(v, n)), p, n) == v % Pow256(n)
  {
    StoreThenLoad(m, p, LeBytes(v, n));
    LeRoundTrip(v, n);
  }

  /** n copies of x: the contents Uint8Array.prototype.fill writes. */
  function Repeat(x: Byte, n: nat): (r: seq<Byte>)
    ensures |r| == n && forall i :: 0 <= i < n ==> r[i] == x
  {
    seq(n, _ => x)
  }

  /** Writes `bytes` into the buffer at `p`, leaving every other byte as it was. */
  method SetBytes(mem: array<Byte>, p: int, bytes: seq<Byte>)
    requires InBounds(p, |bytes|, mem.Length)
    modifies mem
    ensures mem[..] == Store(old(mem[..]), p, bytes)
  {
    forall i | p <= i < p + |bytes| {
      mem[i] := bytes[i - p];
    }
    assert forall i :: 0 <= i < mem.Length ==> mem[..][i] == Store(old(mem[..]), p, bytes)[i];
  }
}
