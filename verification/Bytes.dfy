/** Bytes, big-endian fields and the pieces a stream is delivered in. */
module Bytes {

  type byte = b: int | 0 <= b < 256

  /** A one-byte field at position `i`. */
  function U8(s: seq<byte>, i: nat): (n: nat)
    requires i < |s|
    ensures n < 256
  {
    s[i] as int
  }

  /** A big-endian 16-bit field at position `i`. */
  function U16(s: seq<byte>, i: nat): (n: nat)
    requires i + 2 <= |s|
    ensures n < 65536
  {
    s[i] as int * 256 + s[i + 1] as int
  }

  /** A big-endian 24-bit field at position `i`. */
  function U24(s: seq<byte>, i: nat): (n: nat)
    requires i + 3 <= |s|
    ensures n < 16777216
  {
    s[i] as int * 65536 + s[i + 1] as int * 256 + s[i + 2] as int
  }

  function Put16(n: nat): (s: seq<byte>)
    requires n < 65536
    ensures |s| == 2 && U16(s, 0) == n
  {
    [n / 256, n % 256]
  }

  function Put24(n: nat): (s: seq<byte>)
    requires n < 16777216
    ensures |s| == 3 && U24(s, 0) == n
  {
    [n / 65536, n / 256 % 256, n % 256]
  }

  /** The first `n` elements, or all of them when there are fewer: the clamping of Buffer.subarray. */
  function Take<T>(s: seq<T>, n: nat): (r: seq<T>)
    ensures |r| == if n <= |s| then n else |s|
  {
    if n <= |s| then s[..n] else s
  }

  /** Everything a list of pieces carries, in order. */
  function Flatten<T>(pieces: seq<seq<T>>): seq<T> {
    if pieces == [] then [] else pieces[0] + Flatten(pieces[1..])
  }

  lemma {:induction false} FlattenAppend<T>(a: seq<seq<T>>, b: seq<seq<T>>)
    ensures Flatten(a + b) == Flatten(a) + Flatten(b)
  {
    if a == [] {
      assert a + b == b;
    } else {
      assert (a + b)[0] == a[0] && (a + b)[1..] == a[1..] + b;
      FlattenAppend(a[1..], b);
      assert a[0] + (Flatten(a[1..]) + Flatten(b)) == a[0] + Flatten(a[1..]) + Flatten(b);
    }
  }

  lemma FlattenOne<T>(a: seq<seq<T>>, x: seq<T>)
    ensures Flatten(a + [x]) == Flatten(a) + x
  {
    FlattenAppend(a, [x]);
    assert [x][1..] == [];
    assert Flatten([x]) == x;
  }
}
