/**
 * Base-32 packing and switch identifiers
 * (webserver/src/utils/crypto_v2.js:17-43, 87-96, webserver/src/utils/validation.js:14).
 */
module Base32 {

  import opened Options
  import opened Bytes

  // ============================================================ strings of bits

  function Pow2(k: nat): (p: nat)
    ensures p > 0
  {
    if k == 0 then 1 else 2 * Pow2(k - 1)
  }

  lemma TimesAssociates(a: int, b: int, c: int)
    ensures a * (b * c) == a * b * c
  {
  }

  lemma {:induction false} Pow2Adds(j: nat, k: nat)
    ensures Pow2(j + k) == Pow2(j) * Pow2(k)
  {
    if j > 0 {
      Pow2Adds(j - 1, k);
      TimesAssociates(2, Pow2(j - 1), Pow2(k));
    }
  }

  /** The `k` lowest bits of an integer in two's complement, highest first. */
  function LowBits(x: int, k: nat): (bits: seq<bool>)
    ensures |bits| == k
    decreases k, x
  {
    if k == 0 then [] else LowBits(x / 2, k - 1) + [x % 2 == 1]
  }

  function Value(bits: seq<bool>): (v: nat)
    ensures v < Pow2(|bits|)
  {
    if bits == [] then 0
    else 2 * Value(bits[..|bits| - 1]) + (if bits[|bits| - 1] then 1 else 0)
  }

  function Zeros(n: nat): (bits: seq<bool>)
    ensures |bits| == n
  {
    seq(n, _ => false)
  }

  /** Shifting in `j` new low bits appends them. */
  lemma {:induction false} LowBitsShift(x: int, b: int, k: nat, j: nat)
    requires 0 <= b < Pow2(j)
    ensures LowBits(x * Pow2(j) + b, k + j) == LowBits(x, k) + LowBits(b, j)
    decreases j
  {
    if j > 0 {
      var p := Pow2(j - 1);
      assert x * Pow2(j) == 2 * (x * p);
      assert (x * Pow2(j) + b) / 2 == x * p + b / 2;
      LowBitsShift(x, b / 2, k, j - 1);
      assert LowBits(x, k) + (LowBits(b / 2, j - 1) + [b % 2 == 1])
          == LowBits(x, k) + LowBits(b / 2, j - 1) + [b % 2 == 1];
    } else {
      assert LowBits(x, k) + [] == LowBits(x, k);
    }
  }

  /** Only the value modulo 2^k matters. */
  lemma {:induction false} LowBitsWrap(x: int, m: int, k: nat)
    ensures LowBits(x + m * Pow2(k), k) == LowBits(x, k)
    decreases k
  {
    if k > 0 {
      assert m * Pow2(k) == 2 * (m * Pow2(k - 1));
      assert (x + m * Pow2(k)) / 2 == x / 2 + m * Pow2(k - 1);
      LowBitsWrap(x / 2, m, k - 1);
    }
  }

  lemma Divides(x: int, p: int)
    requires p > 0
    ensures x % p + x / p * p == x
  {
  }

  lemma LowBitsMod(x: int, k: nat)
    ensures LowBits(x % Pow2(k), k) == LowBits(x, k)
  {
    var p := Pow2(k);
    Divides(x, p);
    LowBitsWrap(x % p, x / p, k);
  }

  /** The low bits split at any place. */
  lemma LowBitsSplit(x: int, j: nat, k: nat)
    ensures LowBits(x, j + k) == LowBits(x / Pow2(k), j) + LowBits(x, k)
  {
    var p := Pow2(k);
    Divides(x, p);
    LowBitsShift(x / p, x % p, j, k);
    LowBitsMod(x, k);
  }

  lemma {:induction false} ZeroBits(k: nat)
    ensures LowBits(0, k) == Zeros(k)
  {
    if k > 0 {
      ZeroBits(k - 1);
    }
  }

  lemma {:induction false} ValueOfLowBits(x: nat, k: nat)
    requires x < Pow2(k)
    ensures Value(LowBits(x, k)) == x
    decreases k
  {
    if k > 0 {
      ValueOfLowBits(x / 2, k - 1);
      assert LowBits(x, k)[..k - 1] == LowBits(x / 2, k - 1);
    }
  }

  lemma {:induction false} LowBitsOfValue(bits: seq<bool>)
    ensures LowBits(Value(bits), |bits|) == bits
    decreases |bits|
  {
    if bits != [] {
      LowBitsOfValue(bits[..|bits| - 1]);
      assert bits == bits[..|bits| - 1] + [bits[|bits| - 1]];
    }
  }

  /** The concatenation of fields of `w` bits each, and its inverse. */
  function Spread(fields: seq<int>, w: nat): (bits: seq<bool>)
    ensures |bits| == w * |fields|
  {
    if fields == [] then [] else LowBits(fields[0], w) + Spread(fields[1..], w)
  }

  function Fields(bits: seq<bool>, w: nat): (fields: seq<nat>)
    requires w > 0
    ensures w * |fields| <= |bits| < w * |fields| + w
    ensures forall i :: 0 <= i < |fields| ==> fields[i] < Pow2(w)
    decreases |bits|
  {
    if |bits| < w then []
    else
      var rest := Fields(bits[w..], w);
      assert w * (1 + |rest|) == w + w * |rest|;
      [Value(bits[..w])] + rest
  }

  lemma {:induction false} SpreadAppend(a: seq<int>, b: seq<int>, w: nat)
    ensures Spread(a + b, w) == Spread(a, w) + Spread(b, w)
  {
    if a == [] {
      assert a + b == b;
    } else {
      assert (a + b)[1..] == a[1..] + b;
      SpreadAppend(a[1..], b, w);
    }
  }

  lemma SpreadOne(a: seq<int>, x: int, w: nat)
    ensures Spread(a + [x], w) == Spread(a, w) + LowBits(x, w)
  {
    SpreadAppend(a, [x], w);
    assert Spread([x][1..], w) == [];
    assert Spread([x], w) == LowBits(x, w) + [];
  }

  lemma {:induction false} FieldsOfSpread(fields: seq<int>, w: nat, rest: seq<bool>)
    requires w > |rest| && forall i :: 0 <= i < |fields| ==> 0 <= fields[i] < Pow2(w)
    ensures Fields(Spread(fields, w) + rest, w) == fields
    decreases |fields|
  {
    if fields != [] {
      var bits := Spread(fields, w) + rest;
      assert bits[..w] == LowBits(fields[0], w);
      assert bits[w..] == Spread(fields[1..], w) + rest;
      ValueOfLowBits(fields[0], w);
      FieldsOfSpread(fields[1..], w, rest);
    }
  }

  /** The first field and the bits after it. */
  lemma FieldsStep(bits: seq<bool>, w: nat)
    requires 0 < w <= |bits|
    ensures Fields(bits, w)[0] == Value(bits[..w]) && Fields(bits, w)[1..] == Fields(bits[w..], w)
  {
  }

  lemma {:induction false} SpreadOfFields(bits: seq<bool>, w: nat, n: nat)
    requires w > 0 && |bits| == w * n
    ensures Spread(Fields(bits, w), w) == bits
    decreases n
  {
    if n > 0 {
      OneFieldLess(w, n);
      FieldsStep(bits, w);
      SpreadOfFields(bits[w..], w, n - 1);
      LowBitsOfValue(bits[..w]);
      assert bits == bits[..w] + bits[w..];
    } else {
      assert bits == [];
    }
  }

  lemma OneFieldLess(w: nat, n: nat)
    requires n > 0
    ensures w * n == w + w * (n - 1) && w * n >= w
  {
  }

  // ================================================================ the code

  const ALPHABET := "0123456789abcdefghjkmnpqrstvwxyz"

  function Symbols(fields: seq<nat>): (text: string)
    requires forall i :: 0 <= i < |fields| ==> fields[i] < 32
    ensures |text| == |fields| && forall i :: 0 <= i < |fields| ==> text[i] == ALPHABET[fields[i]]
  {
    seq(|fields|, i requires 0 <= i < |fields| => ALPHABET[fields[i]])
  }

  function Padding(n: nat): (pad: nat)
    ensures pad < 5 && 8 * n + pad == 5 * ((8 * n + 4) / 5)
  {
    5 * ((8 * n + 4) / 5) - 8 * n
  }

  /**
   * Section 6 of RFC 4648 without padding characters: the bits of the bytes, highest first,
   * filled up with zeros to whole groups of five.
   */
  function Groups(bytes: seq<byte>): (fields: seq<nat>)
    ensures |fields| == (8 * |bytes| + 4) / 5
    ensures forall i :: 0 <= i < |fields| ==> fields[i] < 32
  {
    assert Pow2(5) == 32;
    Fields(Spread(bytes, 8) + Zeros(Padding(|bytes|)), 5)
  }

  function Encode(bytes: seq<byte>): string { Symbols(Groups(bytes)) }

  /** The place of a character in the alphabet. */
  function IndexOf(c: char, n: nat): Option<nat>
    requires n <= 32
  {
    if n == 0 then None else if ALPHABET[n - 1] == c then Some(n - 1) else IndexOf(c, n - 1)
  }

  function Indices(text: string): Option<seq<nat>> {
    if text == "" then Some([])
    else
      var first, rest := IndexOf(text[0], 32), Indices(text[1..]);
      if first.Some? && rest.Some? then Some([first.value] + rest.value) else None
  }

  /** Whole bytes of what the characters spell; bits left over are dropped. */
  function Decode(text: string): Option<seq<nat>> {
    var fields := Indices(text);
    if fields.None? then None else Some(Fields(Spread(fields.value, 5), 8))
  }

  lemma AlphabetIsDistinct(i: nat, j: nat)
    requires i < j < 32
    ensures ALPHABET[i] != ALPHABET[j]
  {
    assert forall k :: 0 <= k < 9 ==> ALPHABET[k] < ALPHABET[k + 1];
    assert forall k :: 9 <= k < 31 ==> ALPHABET[k] < ALPHABET[k + 1];
    Ascending(i, j);
  }

  lemma {:induction false} Ascending(i: nat, j: nat)
    requires i < j < 32 && forall k :: 0 <= k < 31 ==> ALPHABET[k] < ALPHABET[k + 1]
    ensures ALPHABET[i] < ALPHABET[j]
    decreases j - i
  {
    if i + 1 < j {
      Ascending(i, j - 1);
      assert ALPHABET[j - 1] < ALPHABET[j - 1 + 1];
    } else {
      assert ALPHABET[i] < ALPHABET[i + 1];
    }
  }

  lemma {:induction false} IndexOfSymbol(i: nat, n: nat)
    requires i < n <= 32
    ensures IndexOf(ALPHABET[i], n) == Some(i)
    decreases n
  {
    if i < n - 1 {
      AlphabetIsDistinct(i, n - 1);
      IndexOfSymbol(i, n - 1);
    }
  }

  lemma {:induction false} IndicesOfSymbols(fields: seq<nat>)
    requires forall i :: 0 <= i < |fields| ==> fields[i] < 32
    ensures Indices(Symbols(fields)) == Some(fields)
    decreases |fields|
  {
    if fields != [] {
      IndexOfSymbol(fields[0], 32);
      assert Symbols(fields)[1..] == Symbols(fields[1..]);
      IndicesOfSymbols(fields[1..]);
      assert fields == [fields[0]] + fields[1..];
    }
  }

  /** Every byte string comes back, whatever its length. */
  lemma DecodeEncode(bytes: seq<byte>)
    ensures Decode(Encode(bytes)) == Some(bytes)
  {
    var zeros := Zeros(Padding(|bytes|));
    IndicesOfSymbols(Groups(bytes));
    SpreadOfFields(Spread(bytes, 8) + zeros, 5, |Groups(bytes)|);
    assert Pow2(8) == 256;
    FieldsOfSpread(bytes, 8, zeros);
  }

  /** No two byte strings share an encoding. */
  lemma EncodeIsInjective(a: seq<byte>, b: seq<byte>)
    requires Encode(a) == Encode(b)
    ensures a == b
  {
    DecodeEncode(a);
    DecodeEncode(b);
  }

  /** Five bits a character, rounded up. */
  lemma EncodedLength(bytes: seq<byte>)
    ensures |Encode(bytes)| == (8 * |bytes| + 4) / 5
  {
  }

  // ==================================================== the 32-bit accumulator

  const TWO32 := 0x1_0000_0000

  /** What a 32-bit signed register keeps of an integer. */
  function ToInt32(x: int): (r: int)
    ensures -0x8000_0000 <= r < 0x8000_0000
  {
    (x + 0x8000_0000) % TWO32 - 0x8000_0000
  }

  /** `(bits << 8) | b`: the shift wraps, and its low byte is clear. */
  function ShiftIn(bits: int, b: byte): int { ToInt32(bits * 256) + b }

  /** `(bits >> k) & 31` on a signed register. */
  function Take5(bits: int, k: nat): (field: nat)
    ensures field < 32
  {
    bits / Pow2(k) % 32
  }

  /** The wrap removes a multiple of 2^32. */
  lemma Wraps(x: int) returns (m: int)
    ensures ToInt32(x) == x + m * TWO32
  {
    m := -((x + 0x8000_0000) / TWO32);
  }

  lemma WrapKeepsLowBits(x: int, m: int, k: nat)
    requires k <= 32
    ensures LowBits(x + m * TWO32, k) == LowBits(x, k)
  {
    Pow2Adds(32 - k, k);
    Pow2Is32();
    TimesAssociates(m, Pow2(32 - k), Pow2(k));
    LowBitsWrap(x, m * Pow2(32 - k), k);
  }

  lemma Pow2Is32()
    ensures Pow2(5) == 32 && Pow2(8) == 256 && Pow2(32) == TWO32
  {
    assert Pow2(5) == 32 && Pow2(8) == 256;
    Pow2Adds(8, 8);
    Pow2Adds(16, 16);
  }

  lemma ByteShift(x: int, b: int, k: nat)
    requires 0 <= b < 256
    ensures LowBits(x * 256 + b, k + 8) == LowBits(x, k) + LowBits(b, 8)
  {
    var p := Pow2(8);
    assert p == 256;
    LowBitsShift(x, b, k, 8);
    assert x * p == x * 256;
  }

  /** A byte goes in at the end of what is pending, wrap-around or not. */
  lemma ShiftInAppends(bits: int, b: byte, k: nat)
    requires k + 8 <= 32
    ensures LowBits(ShiftIn(bits, b), k + 8) == LowBits(bits, k) + LowBits(b, 8)
  {
    var m := Wraps(bits * 256);
    WrapKeepsLowBits(bits * 256 + b, m, k + 8);
    ByteShift(bits, b, k);
  }

  /** Five bits come out at the front of what is pending. */
  lemma Take5Removes(bits: int, k: nat)
    ensures LowBits(bits, k + 5) == LowBits(Take5(bits, k), 5) + LowBits(bits, k)
  {
    LowBitsSplit(bits, 5, k);
    assert Pow2(5) == 32;
    LowBitsMod(bits / Pow2(k), 5);
  }

  /** The last field: what is pending, shifted left to fill five bits. */
  lemma LastField(bits: int, k: nat)
    requires 0 < k < 5
    ensures LowBits(ToInt32(bits * Pow2(5 - k)) % 32, 5) == LowBits(bits, k) + Zeros(5 - k)
  {
    assert Pow2(5) == 32;
    LowBitsMod(ToInt32(bits * Pow2(5 - k)), 5);
    var m := Wraps(bits * Pow2(5 - k));
    WrapKeepsLowBits(bits * Pow2(5 - k), m, 5);
    LowBitsShift(bits, 0, k, 5 - k);
    ZeroBits(5 - k);
  }

  lemma PaddingIsUnique(n: nat, groups: nat, pad: nat)
    requires pad < 5 && 5 * groups == 8 * n + pad
    ensures pad == Padding(n)
  {
  }

  lemma GroupsAreUnique(bytes: seq<byte>, fields: seq<nat>, pad: nat)
    requires pad < 5 && Spread(fields, 5) == Spread(bytes, 8) + Zeros(pad)
    requires forall i :: 0 <= i < |fields| ==> fields[i] < 32
    ensures Groups(bytes) == fields
  {
    PaddingIsUnique(|bytes|, |fields|, |Spread(fields, 5)| - |Spread(bytes, 8)|);
    assert Pow2(5) == 32;
    FieldsOfSpread(fields, 5, []);
    assert Spread(fields, 5) + [] == Spread(fields, 5);
  }

  /** The characters written so far and the bits still pending spell the bytes read. */
  ghost predicate Packed(bytes: seq<byte>, fields: seq<nat>, output: string, bits: int, bitsLength: nat) {
    && (forall i :: 0 <= i < |fields| ==> fields[i] < 32)
    && output == Symbols(fields)
    && Spread(bytes, 8) == Spread(fields, 5) + LowBits(bits, bitsLength)
  }

  lemma Regroup(a: seq<bool>, b: seq<bool>, c: seq<bool>)
    ensures a + (b + c) == a + b + c
  {
  }

  lemma SymbolsOne(fields: seq<nat>, index: nat)
    requires index < 32 && forall i :: 0 <= i < |fields| ==> fields[i] < 32
    ensures Symbols(fields + [index]) == Symbols(fields) + [ALPHABET[index]]
  {
  }

  lemma PackByte(bytes: seq<byte>, b: byte, fields: seq<nat>, output: string, bits: int, k: nat, next: int)
    requires Packed(bytes, fields, output, bits, k)
    requires LowBits(next, k + 8) == LowBits(bits, k) + LowBits(b, 8)
    ensures Packed(bytes + [b], fields, output, next, k + 8)
  {
    SpreadOne(bytes, b, 8);
    Regroup(Spread(fields, 5), LowBits(bits, k), LowBits(b, 8));
  }

  lemma UnpackField(bytes: seq<byte>, fields: seq<nat>, output: string, bits: int, k: nat, index: nat)
    requires index < 32 && Packed(bytes, fields, output, bits, k + 5)
    requires LowBits(bits, k + 5) == LowBits(index, 5) + LowBits(bits, k)
    ensures Packed(bytes, fields + [index], output + [ALPHABET[index]], bits, k)
  {
    SpreadOne(fields, index, 5);
    Regroup(Spread(fields, 5), LowBits(index, 5), LowBits(bits, k));
    SymbolsOne(fields, index);
  }

  lemma OneMoreByte(bytes: seq<byte>, i: nat)
    requires i < |bytes|
    ensures bytes[..i + 1] == bytes[..i] + [bytes[i]]
  {
  }

  lemma Push(bytes: seq<byte>, i: nat, fields: seq<nat>, output: string, bits: int, k: nat)
    requires i < |bytes| && k < 5 && Packed(bytes[..i], fields, output, bits, k)
    ensures Packed(bytes[..i + 1], fields, output, ShiftIn(bits, bytes[i]), k + 8)
  {
    ShiftInAppends(bits, bytes[i], k);
    OneMoreByte(bytes, i);
    PackByte(bytes[..i], bytes[i], fields, output, bits, k, ShiftIn(bits, bytes[i]));
  }

  lemma Pop(bytes: seq<byte>, fields: seq<nat>, output: string, bits: int, k: nat)
    requires Packed(bytes, fields, output, bits, k + 5)
    ensures Packed(bytes, fields + [Take5(bits, k)], output + [ALPHABET[Take5(bits, k)]], bits, k)
  {
    Take5Removes(bits, k);
    UnpackField(bytes, fields, output, bits, k, Take5(bits, k));
  }

  lemma PackLast(bytes: seq<byte>, fields: seq<nat>, output: string, bits: int, k: nat)
    requires k < 5 && Packed(bytes, fields, output, bits, k)
    ensures Encode(bytes)
         == if k > 0 then output + [ALPHABET[ToInt32(bits * Pow2(5 - k)) % 32]] else output
  {
    if k > 0 {
      var index := ToInt32(bits * Pow2(5 - k)) % 32;
      LastField(bits, k);
      SpreadOne(fields, index, 5);
      assert Spread(fields, 5) + (LowBits(bits, k) + Zeros(5 - k)) == Spread(bytes, 8) + Zeros(5 - k);
      GroupsAreUnique(bytes, fields + [index], 5 - k);
      SymbolsOne(fields, index);
    } else {
      assert Spread(bytes, 8) + Zeros(0) == Spread(fields, 5);
      GroupsAreUnique(bytes, fields, 0);
    }
  }

  /** The 32-bit loop computes the encoding, for byte strings of every length. */
  method Base32Encode(bytes: seq<byte>) returns (output: string)
    ensures output == Encode(bytes)
  {
    var bits, bitsLength := 0, 0;
    ghost var fields: seq<nat> := [];
    output := "";
    for i := 0 to |bytes|
      invariant 0 <= bitsLength < 5 && Packed(bytes[..i], fields, output, bits, bitsLength)
    {
      Push(bytes, i, fields, output, bits, bitsLength);
      bits := ShiftIn(bits, bytes[i]);
      bitsLength := bitsLength + 8;
      while bitsLength >= 5
        invariant 0 <= bitsLength <= 12 && Packed(bytes[..i + 1], fields, output, bits, bitsLength)
      {
        bitsLength := bitsLength - 5;
        var index := Take5(bits, bitsLength);
        Pop(bytes[..i + 1], fields, output, bits, bitsLength);
        output := output + [ALPHABET[index]];
        fields := fields + [index];
      }
    }
    assert bytes[..|bytes|] == bytes;
    PackLast(bytes, fields, output, bits, bitsLength);
    if bitsLength > 0 {
      output := output + [ALPHABET[ToInt32(bits * Pow2(5 - bitsLength)) % 32]];
    }
  }

  // ========================================================== switch identifiers

  const PREFIX := "vs_"

  /** The characters the pattern for identifiers admits, which ignores case. */
  predicate UidChar(c: char) {
    var lower := if 'A' <= c <= 'Z' then c - 'A' + 'a' else c;
    '0' <= lower <= '9' || 'a' <= lower <= 'h' || lower in "jkmnpqrstvwxyz"
  }

  predicate MatchesV2Uid(uid: string) {
    && |uid| == 29
    && (uid[0] == 'v' || uid[0] == 'V') && (uid[1] == 's' || uid[1] == 'S') && uid[2] == '_'
    && forall i :: 3 <= i < 29 ==> UidChar(uid[i])
  }

  /** A switch's identifier, from the digest of its public key. */
  function SwitchUid(digest: seq<byte>): string
    requires |digest| >= 16
  {
    PREFIX + Encode(digest[..16])
  }

  lemma AlphabetFitsPattern(i: nat)
    requires i < 32
    ensures UidChar(ALPHABET[i])
  {
  }

  lemma SwitchUidTells(digest: seq<byte>, other: seq<byte>)
    requires |digest| >= 16 && |other| >= 16 && SwitchUid(digest) == SwitchUid(other)
    ensures digest[..16] == other[..16]
  {
    assert SwitchUid(digest)[3..] == Encode(digest[..16]);
    assert SwitchUid(other)[3..] == Encode(other[..16]);
    EncodeIsInjective(digest[..16], other[..16]);
  }

  lemma SwitchUidMatches(digest: seq<byte>)
    requires |digest| >= 16
    ensures MatchesV2Uid(SwitchUid(digest))
  {
    var fields := Groups(digest[..16]);
    forall i | 3 <= i < 29 ensures UidChar(SwitchUid(digest)[i]) {
      AlphabetFitsPattern(fields[i - 3]);
    }
  }

  /** Every digest gives an identifier the pattern accepts; identifiers agree only when the digests' first halves do. */
  lemma SwitchUidIsValid(digest: seq<byte>, other: seq<byte>)
    requires |digest| >= 16 && |other| >= 16
    ensures MatchesV2Uid(SwitchUid(digest))
    ensures SwitchUid(digest) == SwitchUid(other) <==> digest[..16] == other[..16]
  {
    SwitchUidMatches(digest);
    if SwitchUid(digest) == SwitchUid(other) {
      SwitchUidTells(digest, other);
    }
  }
}
