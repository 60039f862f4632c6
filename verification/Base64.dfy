/** The Base64 encoder behind encoded ntfy header values (builtin-plugins/ntfy-runtime/src/lib.rs), against a
    decoder written from section 4 of RFC 4648. */
module Base64 {
  import opened Text
  import opened Wrappers

  type byte = x: int | 0 <= x < 256

  type sextet = x: int | 0 <= x < 64

  const UPPER: string := "ABCDEFGHIJKLMNOPQRSTUVWXYZ"
  const LOWER: string := "abcdefghijklmnopqrstuvwxyz"
  const DIGITS: string := "0123456789"
  const TABLE: string := UPPER + LOWER + DIGITS + "+/"

  const PAD: char := '='

  // The shifts and masks on bytes, as arithmetic.

  /** `first >> 2` */
  function Sextet0(first: byte): sextet { first / 4 }

  /** `((first & 3) << 4) | (second >> 4)` */
  function Sextet1(first: byte, second: byte): sextet { first % 4 * 16 + second / 16 }

  /** `((second & 15) << 2) | (third >> 6)` */
  function Sextet2(second: byte, third: byte): sextet { second % 16 * 4 + third / 64 }

  /** `third & 63` */
  function Sextet3(third: byte): sextet { third % 64 }

  /** The alphabet by ranges; `SymbolInTable` ties it to the table. */
  function Symbol(v: sextet): char {
    if v < 26 then 'A' + v as char
    else if v < 52 then 'a' + (v - 26) as char
    else if v < 62 then '0' + (v - 52) as char
    else if v == 62 then '+' else '/'
  }

  lemma {:induction false} SymbolInTable(v: sextet)
    ensures |TABLE| == 64 && TABLE[v] == Symbol(v)
  {
    if v < 26 {
      assert TABLE[v] == UPPER[v];
    } else if v < 52 {
      assert TABLE[v] == LOWER[v - 26];
    } else if v < 62 {
      assert TABLE[v] == DIGITS[v - 52];
    } else {
      assert TABLE[v] == "+/"[v - 62];
    }
  }

  method Lookup(v: sextet) returns (c: char)
    ensures c == Symbol(v)
  {
    SymbolInTable(v);
    c := TABLE[v];
  }

  function EncodedChunk(chunk: seq<byte>): (symbols: string)
    requires 1 <= |chunk| <= 3
    ensures |symbols| == 4
  {
    var first := chunk[0];
    var second := if |chunk| > 1 then chunk[1] else 0;
    var third := if |chunk| > 2 then chunk[2] else 0;
    [Symbol(Sextet0(first)), Symbol(Sextet1(first, second)),
     if |chunk| > 1 then Symbol(Sextet2(second, third)) else PAD,
     if |chunk| > 2 then Symbol(Sextet3(third)) else PAD]
  }

  function Encoded(bytes: seq<byte>): string {
    if bytes == [] then ""
    else if |bytes| <= 3 then EncodedChunk(bytes)
    else EncodedChunk(bytes[..3]) + Encoded(bytes[3..])
  }

  method EncodeChunk(chunk: seq<byte>) returns (symbols: string)
    requires 1 <= |chunk| <= 3
    ensures symbols == EncodedChunk(chunk)
  {
    var first := chunk[0];
    var second := if |chunk| > 1 then chunk[1] else 0;
    var third := if |chunk| > 2 then chunk[2] else 0;
    var c0 := Lookup(first / 4);
    var c1 := Lookup(first % 4 * 16 + second / 16);
    var c2, c3 := PAD, PAD;
    if |chunk| > 1 {
      c2 := Lookup(second % 16 * 4 + third / 64);
    }
    if |chunk| > 2 {
      c3 := Lookup(third % 64);
    }
    symbols := [c0, c1, c2, c3];
  }

  /** `base64_encode`. */
  method Base64Encode(bytes: seq<byte>) returns (encoded: string)
    ensures encoded == Encoded(bytes)
  {
    encoded := "";
    var i := 0;
    assert bytes[0..] == bytes;
    while i < |bytes|
      invariant 0 <= i <= |bytes|
      invariant encoded + Encoded(bytes[i..]) == Encoded(bytes)
    {
      var n := if i + 3 <= |bytes| then 3 else |bytes| - i;
      var symbols := EncodeChunk(bytes[i..i + n]);
      EncodedStep(bytes[i..], n);
      assert bytes[i..][..n] == bytes[i..i + n] && bytes[i..][n..] == bytes[i + n..];
      Reassociate(encoded, symbols, Encoded(bytes[i + n..]));
      encoded := encoded + symbols;
      i := i + n;
    }
    assert bytes[i..] == [] && encoded + "" == encoded;
  }

  lemma {:induction false} EncodedStep(bytes: seq<byte>, n: nat)
    requires bytes != [] && n == if |bytes| >= 3 then 3 else |bytes|
    ensures Encoded(bytes) == EncodedChunk(bytes[..n]) + Encoded(bytes[n..])
  {
    if |bytes| <= 3 {
      assert bytes[..n] == bytes && bytes[n..] == [];
      assert EncodedChunk(bytes) + "" == EncodedChunk(bytes);
    }
  }

  // ---------------------------------------------------------------------------------------------
  // Decoding
  // ---------------------------------------------------------------------------------------------

  function ValueOf(c: char): Option<sextet> {
    if 'A' <= c <= 'Z' then Some(c as int - 'A' as int)
    else if 'a' <= c <= 'z' then Some(c as int - 'a' as int + 26)
    else if '0' <= c <= '9' then Some(c as int - '0' as int + 52)
    else if c == '+' then Some(62)
    else if c == '/' then Some(63)
    else None
  }

  /** Four symbols; padding only where `last` allows it, and unused bits must be zero. */
  function DecodedQuad(a: char, b: char, c: char, d: char, last: bool): Option<seq<byte>> {
    var v0, v1, v2, v3 := ValueOf(a), ValueOf(b), ValueOf(c), ValueOf(d);
    if v0.None? || v1.None? then None
    else if last && c == PAD && d == PAD then
      if v1.value % 16 == 0 then Some([v0.value * 4 + v1.value / 16]) else None
    else if v2.None? then None
    else if last && d == PAD then
      if v2.value % 4 == 0 then Some([v0.value * 4 + v1.value / 16, v1.value % 16 * 16 + v2.value / 4]) else None
    else if v3.None? then None
    else Some([v0.value * 4 + v1.value / 16, v1.value % 16 * 16 + v2.value / 4, v2.value % 4 * 64 + v3.value])
  }

  function Decoded(s: string): Option<seq<byte>> {
    if s == "" then Some([])
    else if |s| < 4 then None
    else
      var head := DecodedQuad(s[0], s[1], s[2], s[3], |s| == 4);
      var tail := Decoded(s[4..]);
      if head.None? || tail.None? then None else Some(head.value + tail.value)
  }

  lemma {:induction false} SymbolHasValue(v: sextet)
    ensures ValueOf(Symbol(v)) == Some(v)
  {}

  lemma {:induction false} QuadDecodes(s0: sextet, s1: sextet, s2: sextet, s3: sextet, last: bool)
    ensures DecodedQuad(Symbol(s0), Symbol(s1), Symbol(s2), Symbol(s3), last)
         == Some([s0 * 4 + s1 / 16, s1 % 16 * 16 + s2 / 4, s2 % 4 * 64 + s3])
    ensures s2 % 4 == 0 ==>
      DecodedQuad(Symbol(s0), Symbol(s1), Symbol(s2), PAD, true) == Some([s0 * 4 + s1 / 16, s1 % 16 * 16 + s2 / 4])
    ensures s1 % 16 == 0 ==> DecodedQuad(Symbol(s0), Symbol(s1), PAD, PAD, true) == Some([s0 * 4 + s1 / 16])
  {
    SymbolHasValue(s0);
    SymbolHasValue(s1);
    SymbolHasValue(s2);
    SymbolHasValue(s3);
  }

  lemma {:induction false} ChunkForms(first: byte, second: byte, third: byte)
    ensures EncodedChunk([first]) == [Symbol(Sextet0(first)), Symbol(Sextet1(first, 0)), PAD, PAD]
    ensures EncodedChunk([first, second])
         == [Symbol(Sextet0(first)), Symbol(Sextet1(first, second)), Symbol(Sextet2(second, 0)), PAD]
    ensures EncodedChunk([first, second, third])
         == [Symbol(Sextet0(first)), Symbol(Sextet1(first, second)),
             Symbol(Sextet2(second, third)), Symbol(Sextet3(third))]
  {}

  lemma {:induction false} OneDecodes(first: byte)
    ensures var q := EncodedChunk([first]); DecodedQuad(q[0], q[1], q[2], q[3], true) == Some([first])
  {
    Packing(first, 0, 0);
    ChunkForms(first, 0, 0);
    QuadDecodes(Sextet0(first), Sextet1(first, 0), 0, 0, true);
  }

  lemma {:induction false} TwoDecode(first: byte, second: byte)
    ensures var q := EncodedChunk([first, second]); DecodedQuad(q[0], q[1], q[2], q[3], true) == Some([first, second])
  {
    Packing(first, second, 0);
    ChunkForms(first, second, 0);
    QuadDecodes(Sextet0(first), Sextet1(first, second), Sextet2(second, 0), 0, true);
  }

  lemma {:induction false} ThreeDecode(first: byte, second: byte, third: byte, last: bool)
    ensures var q := EncodedChunk([first, second, third]);
      DecodedQuad(q[0], q[1], q[2], q[3], last) == Some([first, second, third])
  {
    Packing(first, second, third);
    ChunkForms(first, second, third);
    QuadDecodes(Sextet0(first), Sextet1(first, second), Sextet2(second, third), Sextet3(third), last);
  }

  lemma {:induction false} ChunkDecodes(chunk: seq<byte>, last: bool)
    requires 1 <= |chunk| <= 3 && (|chunk| < 3 ==> last)
    ensures var q := EncodedChunk(chunk); DecodedQuad(q[0], q[1], q[2], q[3], last) == Some(chunk)
  {
    if |chunk| == 1 {
      assert chunk == [chunk[0]];
      OneDecodes(chunk[0]);
    } else if |chunk| == 2 {
      assert chunk == [chunk[0], chunk[1]];
      TwoDecode(chunk[0], chunk[1]);
    } else {
      assert chunk == [chunk[0], chunk[1], chunk[2]];
      ThreeDecode(chunk[0], chunk[1], chunk[2], last);
    }
  }

  lemma {:induction false} Packing(first: byte, second: byte, third: byte)
    ensures Sextet0(first) * 4 + Sextet1(first, second) / 16 == first
    ensures Sextet1(first, second) % 16 * 16 + Sextet2(second, third) / 4 == second
    ensures Sextet2(second, third) % 4 * 64 + Sextet3(third) == third
  {}

  /** Decoding undoes encoding, for every byte sequence. */
  lemma {:induction false} DecodeEncoded(bytes: seq<byte>)
    ensures Decoded(Encoded(bytes)) == Some(bytes)
  {
    if bytes != [] {
      var n := if |bytes| >= 3 then 3 else |bytes|;
      var chunk, rest := bytes[..n], bytes[n..];
      EncodedStep(bytes, n);
      EncodedShape(rest);
      ChunkDecodes(chunk, rest == []);
      DecodeEncoded(rest);
      var s := Encoded(bytes);
      assert s[..4] == EncodedChunk(chunk) && s[4..] == Encoded(rest);
      assert chunk + rest == bytes;
    }
  }

  /** Four symbols per three bytes or part of three, and nothing but the empty input encodes to nothing. */
  lemma {:induction false} EncodedShape(bytes: seq<byte>)
    ensures |Encoded(bytes)| == (|bytes| + 2) / 3 * 4
  {
    if bytes != [] {
      var n := if |bytes| >= 3 then 3 else |bytes|;
      EncodedStep(bytes, n);
      EncodedShape(bytes[n..]);
      Quads(|bytes|, n);
    }
  }

  lemma {:induction false} Quads(size: nat, n: nat)
    requires size > 0 && n == if size >= 3 then 3 else size
    ensures (size + 2) / 3 * 4 == 4 + (size - n + 2) / 3 * 4
    ensures size > 3 ==> PaddingOf(size - n) == PaddingOf(size)
    ensures size <= 3 ==> PaddingOf(size) == 3 - n
  {}

  function PaddingOf(n: nat): nat {
    if n % 3 == 0 then 0 else 3 - n % 3
  }

  /** The padding is fixed by the length modulo three, and stands only at the end. */
  lemma {:induction false} PaddingAtEnd(bytes: seq<byte>, i: nat)
    requires i < |Encoded(bytes)|
    ensures Encoded(bytes)[i] == PAD <==> |Encoded(bytes)| - PaddingOf(|bytes|) <= i
  {
    var n := if |bytes| >= 3 then 3 else |bytes|;
    var symbols, rest := EncodedChunk(bytes[..n]), Encoded(bytes[n..]);
    EncodedStep(bytes, n);
    EncodedShape(bytes);
    EncodedShape(bytes[n..]);
    Quads(|bytes|, n);
    if i < 4 {
      assert (symbols + rest)[i] == symbols[i];
      ChunkPadding(bytes[..n], i);
    } else {
      assert (symbols + rest)[i] == rest[i - 4];
      PaddingAtEnd(bytes[n..], i - 4);
    }
  }

  lemma {:induction false} ChunkPadding(chunk: seq<byte>, i: nat)
    requires 1 <= |chunk| <= 3 && i < 4
    ensures EncodedChunk(chunk)[i] == PAD <==> i >= |chunk| + 1
  {
    var first := chunk[0];
    var second := if |chunk| > 1 then chunk[1] else 0;
    var third := if |chunk| > 2 then chunk[2] else 0;
    SymbolHasValue(Sextet0(first));
    SymbolHasValue(Sextet1(first, second));
    SymbolHasValue(Sextet2(second, third));
    SymbolHasValue(Sextet3(third));
    assert ValueOf(PAD).None?;
  }
}
