/**
 * Base32 as the accounts use it for TOTP secrets: `base32Encode` (src/accounts/totp.ts) and
 * `base32Decode` (src/accounts/service.ts), with the 32-bit accumulator that is never masked,
 * against section 6 of RFC 4648.
 */
module Base32 {
  import opened Wrappers

  type Byte = b: int | 0 <= b < 256

  type Digit = d: int | 0 <= d < 32

  const TWO32: nat := 0x1_0000_0000
  const SHORTEST_SECRET: nat := 16

  // ------------------------------------------------------------------ bits

  function Power2(k: nat): (r: nat)
    ensures r > 0
  {
    if k == 0 then 1 else 2 * Power2(k - 1)
  }

  /** The `k` low bits of `v`, most significant first. */
  function Low(v: nat, k: nat): (r: seq<bool>)
    ensures |r| == k
  {
    if k == 0 then [] else Low(v / 2, k - 1) + [v % 2 == 1]
  }

  lemma {:induction false} LowShift(v: nat, b: nat, k: nat, n: nat)
    requires b < Power2(n)
    ensures Low(v * Power2(n) + b, k + n) == Low(v, k) + Low(b, n)
    decreases n
  {
    if n == 0 {
      assert Low(v, k) + [] == Low(v, k);
    } else {
      var p := Power2(n - 1);
      var x := v * Power2(n) + b;
      HalfOf(v, p, b);
      LowShift(v, b / 2, k, n - 1);
    }
  }

  lemma HalfOf(v: nat, p: nat, b: nat)
    ensures (v * (2 * p) + b) / 2 == v * p + b / 2 && (v * (2 * p) + b) % 2 == b % 2
  {
    assert v * (2 * p) == 2 * (v * p);
  }

  /** `v >>> k` */
  function Shr(v: nat, k: nat): nat { if k == 0 then v else Shr(v / 2, k - 1) }

  lemma {:induction false} LowSplit(v: nat, a: nat, b: nat)
    ensures Low(v, a + b) == Low(Shr(v, b), a) + Low(v, b)
    decreases b
  {
    if b == 0 {
      assert Low(v, a) + [] == Low(v, a);
    } else {
      LowSplit(v / 2, a, b - 1);
    }
  }

  lemma DivIs(x: nat, y: nat, q: nat, r: nat)
    requires y > 0 && x == y * q + r && r < y
    ensures x / y == q && x % y == r
  {
    var q', r' := x / y, x % y;
    assert x == y * q' + r';
    if q' < q { Grows(y, q', q); }
    if q' > q { Grows(y, q, q'); }
  }

  lemma Grows(y: nat, a: nat, b: nat)
    requires a < b
    ensures y * a + y <= y * b
  {
    var d := b - a;
    assert y * b == y * a + y * d;
    assert y * d == y * (d - 1) + y;
  }

  lemma {:induction false} LowOfMod(v: nat, m: nat, k: nat)
    requires k <= m
    ensures Low(v % Power2(m), k) == Low(v, k)
    decreases k
  {
    if k > 0 {
      var p := Power2(m - 1);
      HalfOfMod(v, p);
      LowOfMod(v / 2, m - 1, k - 1);
    }
  }

  lemma HalfOfMod(v: nat, p: nat)
    requires p > 0
    ensures (v % (2 * p)) / 2 == (v / 2) % p && (v % (2 * p)) % 2 == v % 2
  {
    var q, r := v / (2 * p), v % (2 * p);
    assert v == (2 * p) * q + r;
    assert (2 * p) * q == 2 * (p * q);
    assert v / 2 == p * q + r / 2;
    DivIs(v / 2, p, q, r / 2);
  }

  lemma {:induction false} LowInjective(a: nat, b: nat, k: nat)
    requires a < Power2(k) && b < Power2(k) && Low(a, k) == Low(b, k)
    ensures a == b
    decreases k
  {
    if k > 0 {
      var x, y := Low(a, k), Low(b, k);
      assert x[..k - 1] == Low(a / 2, k - 1) && y[..k - 1] == Low(b / 2, k - 1);
      assert x[k - 1] == (a % 2 == 1) && y[k - 1] == (b % 2 == 1);
      LowInjective(a / 2, b / 2, k - 1);
    }
  }

  function BytesBits(bytes: seq<Byte>): (r: seq<bool>)
    ensures |r| == 8 * |bytes|
  {
    if bytes == [] then [] else BytesBits(bytes[..|bytes| - 1]) + Low(bytes[|bytes| - 1], 8)
  }

  function DigitsBits(digits: seq<Digit>): (r: seq<bool>)
    ensures |r| == 5 * |digits|
  {
    if digits == [] then [] else DigitsBits(digits[..|digits| - 1]) + Low(digits[|digits| - 1], 5)
  }

  lemma BytesOneMore(bytes: seq<Byte>, b: Byte)
    ensures BytesBits(bytes + [b]) == BytesBits(bytes) + Low(b, 8)
  {
    assert (bytes + [b])[..|bytes|] == bytes;
  }

  lemma DigitsOneMore(digits: seq<Digit>, d: Digit)
    ensures DigitsBits(digits + [d]) == DigitsBits(digits) + Low(d, 5)
  {
    assert (digits + [d])[..|digits|] == digits;
  }

  lemma {:induction false} BytesBitsInjective(a: seq<Byte>, b: seq<Byte>)
    requires BytesBits(a) == BytesBits(b)
    ensures a == b
    decreases |a|
  {
    assert |a| == |b|;
    if a != [] {
      var n := |a| - 1;
      var x, y := BytesBits(a), BytesBits(b);
      assert x[..8 * n] == BytesBits(a[..n]) && y[..8 * n] == BytesBits(b[..n]);
      assert x[8 * n..] == Low(a[n], 8) && y[8 * n..] == Low(b[n], 8);
      BytesBitsInjective(a[..n], b[..n]);
      assert Power2(8) == 256;
      LowInjective(a[n], b[n], 8);
      assert a == a[..n] + [a[n]] && b == b[..n] + [b[n]];
    }
  }

  // ------------------------------------------------------------------ the alphabet

  /** The character of a digit (RFC 4648, table 3). */
  function CharOf(d: Digit): char {
    if d < 26 then ('A' as int + d) as char else ('2' as int + d - 26) as char
  }

  /** `B32.indexOf` */
  function DigitOf(c: char): Option<Digit> {
    if 'A' <= c <= 'Z' then Some(c as int - 'A' as int)
    else if '2' <= c <= '7' then Some(c as int - '2' as int + 26)
    else None
  }

  /** Table 3 of RFC 4648, as the source writes it down. */
  const ALPHABET: string := "ABCDEFGHIJKLMNOPQRSTUVWXYZ234567"

  /** Digits and characters are those of the table, in its order, and no others. */
  lemma AlphabetIsTheTable(d: Digit, c: char)
    ensures |ALPHABET| == 32 && CharOf(d) == ALPHABET[d]
    ensures DigitOf(c) == Some(d) <==> c == ALPHABET[d]
    ensures DigitOf(c).None? <==> c !in ALPHABET
  {
    assert forall i :: 0 <= i < 26 ==> ALPHABET[i] == ('A' as int + i) as char;
    assert forall i :: 26 <= i < 32 ==> ALPHABET[i] == ('2' as int + i - 26) as char;
    if DigitOf(c).Some? { assert ALPHABET[DigitOf(c).value] == c; }
  }

  lemma AlphabetInverts(d: Digit)
    ensures DigitOf(CharOf(d)) == Some(d)
  {
  }

  function CharsOf(digits: seq<Digit>): (r: string)
    ensures |r| == |digits|
  {
    seq(|digits|, i requires 0 <= i < |digits| => CharOf(digits[i]))
  }

  // ------------------------------------------------------------------ encoding

  function Zeros(n: nat): (r: seq<bool>)
    ensures |r| == n
  {
    seq(n, i => false)
  }

  lemma {:induction false} LowOfZero(n: nat)
    ensures Low(0, n) == Zeros(n)
    decreases n
  {
    if n > 0 { LowOfZero(n - 1); }
  }

  /** The bits of the bytes in groups of five, the last one filled up with zeros (RFC 4648, section 6). */
  ghost predicate Encodes(bytes: seq<Byte>, digits: seq<Digit>) {
    exists pad: nat :: pad < 5 && DigitsBits(digits) == BytesBits(bytes) + Zeros(pad)
  }

  lemma TakeByte(value: nat, bits: nat, byte: Byte)
    requires bits + 8 <= 32
    ensures Low((value * 256 + byte) % TWO32, bits + 8) == Low(value, bits) + Low(byte, 8)
  {
    assert Power2(8) == 256;
    Power32();
    LowOfMod(value * 256 + byte, 32, bits + 8);
    LowShift(value, byte, bits, 8);
  }

  lemma TakeDigit(value: nat, bits: nat, digit: Digit)
    requires bits + 5 <= 32
    ensures Low((value * 32 + digit) % TWO32, bits + 5) == Low(value, bits) + Low(digit, 5)
  {
    assert Power2(5) == 32;
    Power32();
    LowOfMod(value * 32 + digit, 32, bits + 5);
    LowShift(value, digit, bits, 5);
  }

  lemma Power32()
    ensures Power2(32) == TWO32
  {
    assert Power2(8) == 256;
    assert Power2(16) == 65536;
    assert Power2(24) == 16777216;
  }

  lemma GiveDigit(value: nat, bits: nat)
    requires bits >= 5
    ensures Low(value, bits) == Low(Shr(value, bits - 5) % 32, 5) + Low(value, bits - 5)
  {
    assert Power2(5) == 32;
    LowSplit(value, 5, bits - 5);
    LowOfMod(Shr(value, bits - 5), 5, 5);
  }

  lemma GiveByte(value: nat, bits: nat)
    requires bits >= 8
    ensures Low(value, bits) == Low(Shr(value, bits - 8) % 256, 8) + Low(value, bits - 8)
  {
    assert Power2(8) == 256;
    LowSplit(value, 8, bits - 8);
    LowOfMod(Shr(value, bits - 8), 8, 8);
  }

  lemma PaddedLow(value: nat, bits: nat, n: nat)
    ensures Low(value * Power2(n), bits + n) == Low(value, bits) + Zeros(n)
  {
    LowShift(value, 0, bits, n);
    LowOfZero(n);
  }

  lemma LowOf32(x: nat)
    ensures Low(x % 32, 5) == Low(x, 5)
  {
    assert Power2(5) == 32;
    LowOfMod(x, 5, 5);
  }

  lemma GiveLast(value: nat, bits: nat)
    requires bits <= 5
    ensures Low((value * Power2(5 - bits)) % 32, 5) == Low(value, bits) + Zeros(5 - bits)
  {
    hide *;
    var x := value * Power2(5 - bits);
    LowOf32(x);
    PaddedLow(value, bits, 5 - bits);
  }

  /** `base32Encode`, with the accumulator of 32 bits. */
  method Encode(bytes: seq<Byte>) returns (text: string, ghost digits: seq<Digit>)
    ensures text == CharsOf(digits) && Encodes(bytes, digits)
  {
    hide Low, Shr, Power2, BytesBits, DigitsBits;
    var bits: nat, value: nat, i := 0, 0, 0;
    text, digits := [], [];
    NothingYet();
    while i < |bytes|
      invariant 0 <= i <= |bytes| && bits < 5
      invariant BytesBits(bytes[..i]) == DigitsBits(digits) + Low(value, bits)
      invariant text == CharsOf(digits)
    {
      assert bytes[..i + 1] == bytes[..i] + [bytes[i]];
      BytesOneMore(bytes[..i], bytes[i]);
      TakeByte(value, bits, bytes[i]);
      value := (value * 256 + bytes[i]) % TWO32;
      bits := bits + 8;
      while bits >= 5
        invariant bits <= 12
        invariant BytesBits(bytes[..i + 1]) == DigitsBits(digits) + Low(value, bits)
        invariant text == CharsOf(digits)
      {
        var d: Digit := Shr(value, bits - 5) % 32;
        GiveDigit(value, bits);
        DigitsOneMore(digits, d);
        text := text + [CharOf(d)];
        digits := digits + [d];
        bits := bits - 5;
      }
      i := i + 1;
    }
    assert bytes[..i] == bytes;
    if bits > 0 {
      var d: Digit := (value * Power2(5 - bits)) % 32;
      GiveLast(value, bits);
      DigitsOneMore(digits, d);
      text := text + [CharOf(d)];
      digits := digits + [d];
      assert DigitsBits(digits) == BytesBits(bytes) + Zeros(5 - bits);
    } else {
      NoBits(value);
      assert DigitsBits(digits) == BytesBits(bytes) + Zeros(0);
    }
  }

  lemma NothingYet()
    ensures BytesBits([]) == [] && DigitsBits([]) == [] && Low(0, 0) == []
  {
  }

  lemma NoBits(value: nat)
    ensures Low(value, 0) == []
  {
  }

  // ------------------------------------------------------------------ decoding

  datatype Fault = NotBase32 | TooShort

  /** What `toUpperCase` does to the letters of the alphabet. */
  function Upper(c: char): char { if 'a' <= c <= 'z' then (c as int - 'a' as int + 'A' as int) as char else c }

  predicate IsFiller(c: char) { c == '=' || c == ' ' || c == '\t' || c == '\n' || c == '\r' || c == '\U{0B}' || c == '\U{0C}' }

  /** Upper case, without white space and padding. */
  function Clean(s: string): string {
    if s == [] then []
    else Clean(s[..|s| - 1]) + if IsFiller(s[|s| - 1]) then [] else [Upper(s[|s| - 1])]
  }

  /** The digits of a clean text; None when some character is not in the alphabet. */
  function DigitsOf(s: string): Option<seq<Digit>> {
    if s == [] then Some([])
    else
      var front, d := DigitsOf(s[..|s| - 1]), DigitOf(s[|s| - 1]);
      if front.Some? && d.Some? then Some(front.value + [d.value]) else None
  }

  /** Whole bytes; fewer than eight bits are left over and dropped. */
  ghost predicate Decodes(digits: seq<Digit>, bytes: seq<Byte>) {
    exists rest: seq<bool> :: |rest| < 8 && DigitsBits(digits) == BytesBits(bytes) + rest
  }

  lemma {:induction false} BadStaysBad(s: string, i: nat)
    requires i <= |s| && DigitsOf(s[..i]).None?
    ensures DigitsOf(s).None?
    decreases |s| - i
  {
    if i < |s| {
      assert s[..i + 1][..i] == s[..i];
      BadStaysBad(s, i + 1);
    } else {
      assert s[..i] == s;
    }
  }

  /** `base32Decode` */
  method Decode(s: string) returns (r: Result<seq<Byte>, Fault>)
    ensures r == Err(NotBase32) <==> DigitsOf(Clean(s)).None?
    ensures r.Ok? ==> DigitsOf(Clean(s)).Some? && Decodes(DigitsOf(Clean(s)).value, r.value) && |r.value| >= SHORTEST_SECRET
    ensures r == Err(TooShort) ==>
      DigitsOf(Clean(s)).Some? && exists bytes :: Decodes(DigitsOf(Clean(s)).value, bytes) && |bytes| < SHORTEST_SECRET
  {
    hide Low, Shr, Power2, BytesBits, DigitsBits, Clean;
    var clean := Clean(s);
    var bits: nat, value: nat, i := 0, 0, 0;
    var out: seq<Byte> := [];
    ghost var digits: seq<Digit> := [];
    NothingYet();
    while i < |clean|
      invariant 0 <= i <= |clean| && bits < 8 && DigitsOf(clean[..i]) == Some(digits)
      invariant DigitsBits(digits) == BytesBits(out) + Low(value, bits)
    {
      assert clean[..i + 1][..i] == clean[..i];
      var d := DigitOf(clean[i]);
      if d.None? {
        BadStaysBad(clean, i + 1);
        return Err(NotBase32);
      }
      DigitsOneMore(digits, d.value);
      TakeDigit(value, bits, d.value);
      digits := digits + [d.value];
      value := (value * 32 + d.value) % TWO32;
      bits := bits + 5;
      assert DigitsBits(digits) == BytesBits(out) + Low(value, bits);
      if bits >= 8 {
        var b: Byte := Shr(value, bits - 8) % 256;
        GiveByte(value, bits);
        BytesOneMore(out, b);
        out := out + [b];
        bits := bits - 8;
      }
      i := i + 1;
    }
    assert clean[..i] == clean;
    assert Decodes(digits, out);
    r := if |out| < SHORTEST_SECRET then Err(TooShort) else Ok(out);
  }

  // ------------------------------------------------------------------ round trip

  lemma CharIsClean(d: Digit)
    ensures !IsFiller(CharOf(d)) && Upper(CharOf(d)) == CharOf(d)
  {
  }

  lemma CleanOneMore(s: string, c: char)
    requires !IsFiller(c) && Upper(c) == c
    ensures Clean(s + [c]) == Clean(s) + [c]
  {
    hide IsFiller, Upper;
    assert (s + [c])[..|s|] == s;
  }

  lemma {:induction false} CleanAdds(a: string, b: string)
    ensures Clean(a + b) == Clean(a) + Clean(b)
    decreases |b|
  {
    hide IsFiller, Upper;
    if b == [] {
      assert a + b == a;
    } else {
      assert (a + b)[..|a + b| - 1] == a + b[..|b| - 1];
      CleanAdds(a, b[..|b| - 1]);
    }
  }

  /** White space and padding anywhere, and the case of a letter, make no difference. */
  lemma CleanForgives(a: string, c: char, b: string)
    ensures c in [' ', '\t', '\n', '\r', '='] ==> Clean(a + [c] + b) == Clean(a + b)
    ensures 'a' <= c <= 'z' ==> Clean(a + [c] + b) == Clean(a + [UPPER[c as int - 'a' as int]] + b)
  {
    hide Clean, Upper;
    CleanPut(a, c, b);
    if IsFiller(c) {
      assert Clean(a) + [] == Clean(a);
      CleanAdds(a, b);
    }
    if 'a' <= c <= 'z' {
      UpperIs(c);
      CleanPut(a, UPPER[c as int - 'a' as int], b);
    }
  }

  lemma CleanPut(a: string, c: char, b: string)
    ensures Clean(a + [c] + b) == Clean(a) + (if IsFiller(c) then [] else [Upper(c)]) + Clean(b)
  {
    hide IsFiller, Upper, Clean;
    CleanAdds(a + [c], b);
    CleanAdds(a, [c]);
    OneClean(c);
  }

  const UPPER: string := "ABCDEFGHIJKLMNOPQRSTUVWXYZ"

  lemma OneClean(c: char)
    ensures Clean([c]) == if IsFiller(c) then [] else [Upper(c)]
  {
    assert [c][..0] == [];
  }

  lemma UpperIs(c: char)
    requires 'a' <= c <= 'z'
    ensures var u := UPPER[c as int - 'a' as int]; Upper(c) == u && Upper(u) == u && !IsFiller(c) && !IsFiller(u)
  {
    assert forall i :: 0 <= i < 26 ==> UPPER[i] == ('A' as int + i) as char;
  }

  lemma ReadOneMore(s: string, c: char, digits: seq<Digit>, d: Digit)
    requires DigitsOf(s) == Some(digits) && DigitOf(c) == Some(d)
    ensures DigitsOf(s + [c]) == Some(digits + [d])
  {
    hide DigitOf;
    assert (s + [c])[..|s|] == s;
  }

  lemma {:induction false} CharsRead(digits: seq<Digit>)
    ensures Clean(CharsOf(digits)) == CharsOf(digits) && DigitsOf(CharsOf(digits)) == Some(digits)
    decreases |digits|
  {
    hide CharOf, IsFiller, Upper, DigitOf;
    if digits != [] {
      var n := |digits| - 1;
      var s, c := CharsOf(digits[..n]), CharOf(digits[n]);
      assert digits == digits[..n] + [digits[n]];
      assert CharsOf(digits) == s + [c];
      CharsRead(digits[..n]);
      CharIsClean(digits[n]);
      AlphabetInverts(digits[n]);
      CleanOneMore(s, c);
      ReadOneMore(s, c, digits[..n], digits[n]);
    }
  }

  /** What was encoded is the only thing that can be decoded. */
  lemma DecodingInverts(bytes: seq<Byte>, digits: seq<Digit>, out: seq<Byte>)
    requires Encodes(bytes, digits) && Decodes(digits, out)
    ensures out == bytes
  {
    hide BytesBits, DigitsBits;
    var pad: nat :| pad < 5 && DigitsBits(digits) == BytesBits(bytes) + Zeros(pad);
    var rest: seq<bool> :| |rest| < 8 && DigitsBits(digits) == BytesBits(out) + rest;
    assert |out| == |bytes|;
    var n := 8 * |bytes|;
    assert BytesBits(bytes) == DigitsBits(digits)[..n] && BytesBits(out) == DigitsBits(digits)[..n];
    BytesBitsInjective(bytes, out);
  }

  /** A secret of at least sixteen bytes comes back as it was; a shorter one is refused. */
  method RoundTrip(bytes: seq<Byte>) returns (r: Result<seq<Byte>, Fault>)
    ensures r == if |bytes| >= 16 then Ok(bytes) else Err(TooShort)
  {
    hide Encodes, Decodes, Clean, DigitsOf;
    var text, digits := Encode(bytes);
    CharsRead(digits);
    r := Decode(text);
    if r.Ok? {
      DecodingInverts(bytes, digits, r.value);
    } else {
      assert r == Err(TooShort) by { assert r.error == NotBase32 || r.error == TooShort; }
      ghost var out: seq<Byte> :| Decodes(digits, out) && |out| < SHORTEST_SECRET;
      DecodingInverts(bytes, digits, out);
    }
  }
}
