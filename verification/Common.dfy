/** Values shared by every part of the Rift model: bytes, identities, optional values and
    big-endian integers. */
module Common {

  type byte = x: int | 0 <= x < 256

  const ID_LIMIT: nat := 0x1_0000_0000_0000_0000_0000_0000_0000_0000_0000_0000_0000_0000_0000_0000_0000_0000

  /** A 32-byte device identity. Identities are only ever compared, and comparing fixed-width
      byte strings lexicographically is comparing the numbers they spell. */
  type DeviceId = x: nat | x < ID_LIMIT

  /** A 32-byte hash. */
  type Digest = d: seq<byte> | |d| == 32 witness seq(32, i => 0)

  const U32_MAX: nat := 0xFFFF_FFFF
  const U64_MAX: nat := 0xFFFF_FFFF_FFFF_FFFF

  datatype Option<+T> = None | Some(value: T)

  datatype Result<+T, +E> = Ok(value: T) | Err(error: E)

  function Min(a: nat, b: nat): nat { if a <= b then a else b }

  function Max(a: nat, b: nat): nat { if a >= b then a else b }

  function U32Bytes(n: nat): (s: seq<byte>)
    requires n <= U32_MAX
    ensures |s| == 4
  {
    [n / 0x100_0000, n / 0x1_0000 % 256, n / 256 % 256, n % 256]
  }

  function U32Value(s: seq<byte>): nat
    requires |s| == 4
  {
    var a: int, b: int, c: int := s[0], s[1], s[2];
    a * 0x100_0000 + b * 0x1_0000 + c * 256 + s[3]
  }

  function U16Value(s: seq<byte>): nat
    requires |s| == 2
  {
    var a: int := s[0];
    a * 256 + s[1]
  }

  lemma U32RoundTrip(n: nat)
    requires n <= U32_MAX
    ensures U32Value(U32Bytes(n)) == n
  {
    assert n / 0x1_0000 == n / 0x100_0000 * 256 + n / 0x1_0000 % 256;
    assert n / 256 == n / 0x1_0000 * 256 + n / 256 % 256;
  }

  lemma U32ValueBytes(s: seq<byte>)
    requires |s| == 4
    ensures U32Value(s) <= U32_MAX && U32Bytes(U32Value(s)) == s
  {
    var n, a: int, b: int, d: int := U32Value(s), s[0], s[1], s[2];
    assert n / 256 == a * 0x1_0000 + b * 256 + d && n % 256 == s[3];
    assert n / 0x1_0000 == a * 256 + b;
  }

  lemma SliceOfPrefix<T>(s: seq<T>, v: nat, from: nat, to: nat)
    requires from <= to <= v <= |s|
    ensures s[..v][from..to] == s[from..to]
  {
  }

  lemma SliceOfSlice<T>(s: seq<T>, offset: nat, n: nat, from: nat, to: nat)
    requires offset + n <= |s| && from <= to <= n
    ensures s[offset..offset + n][from..to] == s[offset + from..offset + to]
  {
    var part := s[offset..offset + n];
    var a, b := part[from..to], s[offset + from..offset + to];
    forall i | 0 <= i < |a|
      ensures a[i] == b[i]
    {
      assert a[i] == part[from + i] == s[offset + from + i];
    }
  }

  /** Distinct members of a set are no more than the set has. */
  lemma {:induction false} DistinctFit<T>(s: seq<T>, all: set<T>)
    requires forall i | 0 <= i < |s| :: s[i] in all
    requires forall i, j | 0 <= i < j < |s| :: s[i] != s[j]
    ensures |s| <= |all|
    decreases |s|
  {
    if s != [] {
      DistinctFit(s[..|s| - 1], all - {s[|s| - 1]});
    }
  }
}
