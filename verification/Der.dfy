/**
 * The DER writer (src/acme/der.ts) against readers written from ITU-T X.690: lengths (sections
 * 8.1.3 and 10.1), nesting, integers (8.3), object identifiers (8.19) and bit strings.
 */
module Der {
  import opened Wrappers

  type Byte = b: int | 0 <= b < 256

  const LONGEST: nat := 0xffffff

  // ------------------------------------------------------------------ length

  /** `len`: definite form only; None is the source's refusal of longer bodies. */
  function Len(n: nat): Option<seq<Byte>> {
    if n < 0x80 then Some([n])
    else if n <= 0xff then Some([0x81, n])
    else if n <= 0xffff then Some([0x82, n / 0x100, n % 0x100])
    else if n <= LONGEST then Some([0x83, n / 0x10000, n / 0x100 % 0x100, n % 0x100])
    else None
  }

  /** Big-endian value. */
  function Value(bytes: seq<Byte>): nat {
    if bytes == [] then 0 else Value(bytes[..|bytes| - 1]) * 256 + bytes[|bytes| - 1]
  }

  /** The value of length octets in any definite form (8.1.3), and what follows them. */
  function ReadLen(s: seq<Byte>): Option<(nat, seq<Byte>)> {
    if s == [] then None
    else if s[0] < 0x80 then Some((s[0], s[1..]))
    else
      var k := s[0] - 0x80;
      if k == 0 || k == 127 || |s| < k + 1 then None else Some((Value(s[1..k + 1]), s[k + 1..]))
  }

  lemma ValueOf1(a: Byte)
    ensures Value([a]) == a
  {
    assert [a][..0] == [];
  }

  lemma ValueOf2(a: Byte, b: Byte)
    ensures Value([a, b]) == a * 256 + b
  {
    assert [a, b][..1] == [a];
    ValueOf1(a);
  }

  lemma ValueOf3(a: Byte, b: Byte, c: Byte)
    ensures Value([a, b, c]) == (a * 256 + b) * 256 + c
  {
    assert [a, b, c][..2] == [a, b];
    ValueOf2(a, b);
  }

  lemma LenReads(n: nat, rest: seq<Byte>)
    requires n <= 0xffffff
    ensures Len(n).Some? && ReadLen(Len(n).value + rest) == Some((n, rest))
  {
    var l := Len(n).value;
    var s := l + rest;
    assert s[|l|..] == rest;
    if n >= 0x80 {
      assert s[1..|l|] == l[1..];
      if n <= 0xff {
        assert l[1..] == [n];
        ValueOf1(n);
      } else if n <= 0xffff {
        assert l[1..] == [n / 0x100, n % 0x100];
        ValueOf2(n / 0x100, n % 0x100);
      } else {
        assert l[1..] == [n / 0x10000, n / 0x100 % 0x100, n % 0x100];
        ValueOf3(n / 0x10000, n / 0x100 % 0x100, n % 0x100);
      }
    }
  }

  function Power256(k: nat): nat { if k == 0 then 1 else 256 * Power256(k - 1) }

  lemma {:induction false} ValueFits(bytes: seq<Byte>)
    ensures Value(bytes) < Power256(|bytes|)
    decreases |bytes|
  {
    if bytes != [] { ValueFits(bytes[..|bytes| - 1]); }
  }

  /** No definite form of the same length is shorter (10.1). */
  lemma LenIsMinimal(n: nat, other: seq<Byte>, rest: seq<Byte>)
    requires n <= LONGEST && ReadLen(other + rest) == Some((n, rest))
    ensures |Len(n).value| <= |other|
  {
    var s := other + rest;
    assert |s| == |other| + |rest|;
    if s[0] >= 0x80 {
      var k := s[0] - 0x80;
      assert |other| == k + 1;
      ValueFits(s[1..k + 1]);
      assert Power256(1) == 256 && Power256(2) == 65536 && Power256(3) == 16777216;
      if k < 3 { SmallPowers(k); }
    }
  }

  lemma SmallPowers(k: nat)
    requires 1 <= k < 3
    ensures k == 1 ==> Power256(k) == 256
    ensures k == 2 ==> Power256(k) == 65536
  {
    assert Power256(1) == 256 && Power256(2) == 65536;
  }

  // ------------------------------------------------------------------ tag, length, value

  /** `tlv` for bodies the writer accepts. */
  function Tlv(tag: Byte, body: seq<Byte>): seq<Byte>
    requires |body| <= LONGEST
  {
    [tag] + Len(|body|).value + body
  }

  function ReadTlv(s: seq<Byte>): Option<(Byte, seq<Byte>, seq<Byte>)> {
    if s == [] then None
    else match ReadLen(s[1..])
      case None => None
      case Some((n, rest)) => if |rest| < n then None else Some((s[0], rest[..n], rest[n..]))
  }

  lemma TlvReads(tag: Byte, body: seq<Byte>, rest: seq<Byte>)
    requires |body| <= LONGEST
    ensures ReadTlv(Tlv(tag, body) + rest) == Some((tag, body, rest))
  {
    hide Len, ReadLen;
    var s := Tlv(tag, body) + rest;
    LenReads(|body|, body + rest);
    assert s[1..] == Len(|body|).value + (body + rest);
    assert (body + rest)[..|body|] == body && (body + rest)[|body|..] == rest;
  }

  // ------------------------------------------------------------------ nesting

  /** What the writer builds: a primitive with its contents, or a constructed value with its parts. */
  datatype Node = Primitive(tag: Byte, body: seq<Byte>) | Constructed(tag: Byte, parts: seq<Node>)

  /** Bit 6 of the identifier octet. */
  predicate IsConstructed(tag: Byte) { tag / 0x20 % 2 == 1 }

  /** `tlv` of contents, `seq`, `set` and `context` of parts; None once a body is too long. */
  function Encode(n: Node): Option<seq<Byte>>
    decreases n, 0
  {
    match n
    case Primitive(tag, body) => if |body| <= LONGEST then Some(Tlv(tag, body)) else None
    case Constructed(tag, parts) =>
      var body := EncodeAll(parts);
      if body.Some? && |body.value| <= LONGEST then Some(Tlv(tag, body.value)) else None
  }

  /** `Buffer.concat(parts)` */
  function EncodeAll(parts: seq<Node>): Option<seq<Byte>>
    decreases parts, 1
  {
    if parts == [] then Some([])
    else
      var first, rest := Encode(parts[0]), EncodeAll(parts[1..]);
      if first.Some? && rest.Some? then Some(first.value + rest.value) else None
  }

  predicate IsNode(n: Node)
    decreases n
  {
    match n
    case Primitive(tag, _) => !IsConstructed(tag)
    case Constructed(tag, parts) => IsConstructed(tag) && forall p | p in parts :: IsNode(p)
  }

  lemma ReadLenShrinks(s: seq<Byte>)
    ensures ReadLen(s).Some? ==> |ReadLen(s).value.1| < |s|
  {
  }

  /** Reads a run of values to its end. */
  function Decode(s: seq<Byte>): Option<seq<Node>>
    decreases |s|
  {
    if s == [] then Some([])
    else
      ReadLenShrinks(s[1..]);
      match ReadTlv(s)
      case None => None
      case Some((tag, body, rest)) =>
        var more := Decode(rest);
        if more.None? then None
        else if IsConstructed(tag) then
          var parts := Decode(body);
          if parts.None? then None else Some([Constructed(tag, parts.value)] + more.value)
        else Some([Primitive(tag, body)] + more.value)
  }

  lemma TlvStarts(tag: Byte, body: seq<Byte>, rest: seq<Byte>)
    requires |body| <= LONGEST
    ensures Tlv(tag, body) + rest != []
  {
  }

  /** Reading what was written gives back the same values, nested as they were. */
  lemma {:induction false} NestingReads(parts: seq<Node>)
    requires (forall p | p in parts :: IsNode(p)) && EncodeAll(parts).Some?
    ensures Decode(EncodeAll(parts).value) == Some(parts)
    decreases parts
  {
    hide Tlv, ReadTlv, IsConstructed;
    if parts != [] {
      var n, rest := parts[0], EncodeAll(parts[1..]).value;
      assert n in parts && forall p | p in parts[1..] :: p in parts;
      NestingReads(parts[1..]);
      if n.Constructed? { NestingReads(n.parts); }
      var body := if n.Primitive? then n.body else EncodeAll(n.parts).value;
      assert Encode(n) == Some(Tlv(n.tag, body));
      TlvReads(n.tag, body, rest);
      TlvStarts(n.tag, body, rest);
      assert parts == [n] + parts[1..];
    }
  }

  /** One value, as the top of a document. */
  lemma DocumentReads(n: Node)
    requires IsNode(n) && Encode(n).Some?
    ensures Decode(Encode(n).value) == Some([n])
  {
    hide Encode, Decode;
    assert EncodeAll([n]).Some? && EncodeAll([n]).value == Encode(n).value by { OneEncodes(n); }
    NestingReads([n]);
  }

  lemma OneEncodes(n: Node)
    requires Encode(n).Some?
    ensures EncodeAll([n]).Some? && EncodeAll([n]).value == Encode(n).value
  {
    hide Encode;
    assert [n][1..] == [];
    assert Encode(n).value + [] == Encode(n).value;
  }

  // ------------------------------------------------------------------ integer and bit string

  /** The contents `integer` writes for the octets of a magnitude. */
  function IntegerBody(magnitude: seq<Byte>): (r: seq<Byte>)
    ensures r != []
  {
    var body := if magnitude == [] then [0] else magnitude;
    if body[0] >= 0x80 then [0] + body else body
  }

  /** Two's complement (8.3). */
  function ReadInteger(body: seq<Byte>): int
    requires body != []
  {
    if body[0] >= 0x80 then Value(body) - Power256(|body|) else Value(body)
  }

  lemma {:induction false} LeadingZero(body: seq<Byte>)
    ensures Value([0] + body) == Value(body)
    decreases |body|
  {
    if body != [] {
      var n := |body| - 1;
      assert ([0] + body)[..n + 1] == [0] + body[..n];
      LeadingZero(body[..n]);
    } else {
      ValueOf1(0);
      assert [0] + body == [0];
    }
  }

  /** A magnitude is never read back as a negative number. */
  lemma IntegerReads(magnitude: seq<Byte>)
    ensures ReadInteger(IntegerBody(magnitude)) == Value(magnitude)
  {
    if magnitude == [] { ValueOf1(0); }
    else if magnitude[0] >= 0x80 { LeadingZero(magnitude); }
  }

  /** The first nine bits are neither all zeros nor all ones (8.3.2). */
  predicate IsMinimal(body: seq<Byte>)
    requires body != []
  {
    |body| > 1 ==> !(body[0] == 0 && body[1] < 0x80) && !(body[0] == 0xff && body[1] >= 0x80)
  }

  /** The contents are the shortest there are exactly unless the magnitude brings a needless zero octet along. */
  lemma IntegerIsMinimalExactly(magnitude: seq<Byte>)
    ensures IsMinimal(IntegerBody(magnitude)) <==> !(|magnitude| > 1 && magnitude[0] == 0 && magnitude[1] < 0x80)
  {
    if magnitude != [] && magnitude[0] >= 0x80 { assert IntegerBody(magnitude)[1] == magnitude[0]; }
  }

  /** `bitString`: no unused bits. */
  function BitStringBody(body: seq<Byte>): seq<Byte> { [0] + body }

  /** The whole octets of a bit string without unused bits (8.6). */
  function ReadBitString(contents: seq<Byte>): Option<seq<Byte>> {
    if contents == [] || contents[0] != 0 then None else Some(contents[1..])
  }

  lemma BitStringReads(body: seq<Byte>)
    ensures ReadBitString(BitStringBody(body)) == Some(body)
  {
  }

  // ------------------------------------------------------------------ object identifiers

  const TWO32: nat := 0x1_0000_0000

  /** Seven bits at a time, most significant first. */
  function Groups(v: nat): (r: seq<Byte>)
    ensures r != [] && forall i :: 0 <= i < |r| ==> r[i] < 128
  {
    if v < 128 then [v] else Groups(v / 128) + [v % 128]
  }

  /** All but the last octet carry the continuation bit. */
  function Continued(groups: seq<Byte>): (r: seq<Byte>)
    requires forall i :: 0 <= i < |groups| ==> groups[i] < 128
    ensures |r| == |groups|
  {
    seq(|groups|, i requires 0 <= i < |groups| => WithBit(groups[i], i < |groups| - 1))
  }

  function WithBit(b: Byte, on: bool): Byte
    requires b < 128
  {
    if on then b + 128 else b
  }

  /** The octets of one arc, whose value the source takes modulo 2^32. */
  function ArcOctets(v: nat): seq<Byte> { Continued(Groups(v % TWO32)) }

  function Arcs(arcs: seq<nat>): seq<Byte> {
    if arcs == [] then [] else ArcOctets(arcs[0]) + Arcs(arcs[1..])
  }

  /** `oid`: an octet is stored modulo 256. */
  function OidBody(parts: seq<nat>): (r: Option<seq<Byte>>)
    ensures r.Some? <==> |parts| >= 2
  {
    if |parts| < 2 then None else Some([(parts[0] * 40 + parts[1]) % 256] + Arcs(parts[2..]))
  }

  /** One subidentifier: octets up to the first without the continuation bit (8.19.2). */
  function ReadArc(s: seq<Byte>, so: nat): Option<(nat, seq<Byte>)> {
    if s == [] then None
    else if s[0] >= 128 then ReadArc(s[1..], so * 128 + (s[0] - 128))
    else Some((so * 128 + s[0], s[1..]))
  }

  lemma {:induction false} ReadArcShrinks(s: seq<Byte>, so: nat)
    ensures ReadArc(s, so).Some? ==> |ReadArc(s, so).value.1| < |s|
    decreases |s|
  {
    if s != [] && s[0] >= 128 { ReadArcShrinks(s[1..], so * 128 + (s[0] - 128)); }
  }

  function ReadArcs(s: seq<Byte>): Option<seq<nat>>
    decreases |s|
  {
    if s == [] then Some([])
    else
      ReadArcShrinks(s, 0);
      match ReadArc(s, 0)
      case None => None
      case Some((v, rest)) =>
        var more := ReadArcs(rest);
        if more.None? then None else Some([v] + more.value)
  }

  /** The first subidentifier stands for the first two arcs (8.19.4). */
  function ReadOid(s: seq<Byte>): Option<seq<nat>> {
    match ReadArcs(s)
    case None => None
    case Some(vs) =>
      if vs == [] then None
      else if vs[0] < 40 then Some([0, vs[0]] + vs[1..])
      else if vs[0] < 80 then Some([1, vs[0] - 40] + vs[1..])
      else Some([2, vs[0] - 80] + vs[1..])
  }

  /** Every octet carries the continuation bit. */
  predicate AllContinued(s: seq<Byte>) { forall i :: 0 <= i < |s| ==> s[i] >= 128 }

  /** The value after reading only such octets. */
  function FoldFrom(s: seq<Byte>, so: nat): nat
    requires AllContinued(s)
  {
    if s == [] then so else FoldFrom(s[1..], so * 128 + (s[0] - 128))
  }

  lemma {:induction false} FoldFromEnd(s: seq<Byte>, so: nat, b: Byte)
    requires AllContinued(s) && b >= 128
    ensures FoldFrom(s + [b], so) == FoldFrom(s, so) * 128 + (b - 128)
    decreases |s|
  {
    if s == [] {
      assert (s + [b])[1..] == [];
    } else {
      assert (s + [b])[1..] == s[1..] + [b];
      FoldFromEnd(s[1..], so * 128 + (s[0] - 128), b);
    }
  }

  lemma {:induction false} ReadThrough(s: seq<Byte>, last: Byte, so: nat, rest: seq<Byte>)
    requires AllContinued(s) && last < 128
    ensures ReadArc(s + [last] + rest, so) == Some((FoldFrom(s, so) * 128 + last, rest))
    decreases |s|
  {
    if s == [] {
      assert (s + [last] + rest)[1..] == rest;
    } else {
      assert (s + [last] + rest)[1..] == s[1..] + [last] + rest;
      ReadThrough(s[1..], last, so * 128 + (s[0] - 128), rest);
    }
  }

  function WithBits(groups: seq<Byte>): (r: seq<Byte>)
    requires forall i :: 0 <= i < |groups| ==> groups[i] < 128
    ensures |r| == |groups| && AllContinued(r)
  {
    seq(|groups|, i requires 0 <= i < |groups| => WithBit(groups[i], true))
  }

  lemma {:induction false} GroupsFold(u: nat)
    ensures FoldFrom(WithBits(Groups(u)), 0) == u
    decreases u
  {
    if u < 128 {
      assert WithBits([u])[1..] == [];
    } else {
      var g := Groups(u / 128);
      GroupsFold(u / 128);
      assert WithBits(g + [u % 128]) == WithBits(g) + [u % 128 + 128];
      FoldFromEnd(WithBits(g), 0, u % 128 + 128);
    }
  }

  /** The octets of an arc: continued ones, and a last one. */
  lemma OctetsSplit(v: nat) returns (front: seq<Byte>, last: Byte)
    ensures AllContinued(front) && last < 128 && Continued(Groups(v)) == front + [last] && FoldFrom(front, 0) * 128 + last == v
  {
    if v < 128 {
      front, last := [], v;
    } else {
      var g := Groups(v / 128);
      front, last := WithBits(g), v % 128;
      GroupsFold(v / 128);
      assert Continued(g + [v % 128]) == front + [last];
    }
  }

  lemma ArcReads(v: nat, rest: seq<Byte>)
    ensures ReadArc(ArcOctets(v) + rest, 0) == Some((v % TWO32, rest))
  {
    hide Continued, Groups;
    var front, last := OctetsSplit(v % TWO32);
    ReadThrough(front, last, 0, rest);
  }

  /** The subidentifier never starts with the octet 0x80: it is the shortest (8.19.2). */
  lemma {:induction false} ArcIsMinimal(v: nat)
    ensures Groups(v)[0] == 0 ==> v == 0
    ensures Continued(Groups(v))[0] != 0x80
    decreases v
  {
    if v >= 128 {
      ArcIsMinimal(v / 128);
      assert Groups(v)[0] == Groups(v / 128)[0];
      assert |Groups(v)| > 1;
    }
  }

  function Wrapped(arcs: seq<nat>): (r: seq<nat>)
    ensures |r| == |arcs|
  {
    seq(|arcs|, i requires 0 <= i < |arcs| => arcs[i] % TWO32)
  }

  lemma ArcOctetsNotEmpty(v: nat)
    ensures ArcOctets(v) != []
  {
  }

  lemma {:induction false} ArcsRead(arcs: seq<nat>)
    ensures ReadArcs(Arcs(arcs)) == Some(Wrapped(arcs))
    decreases |arcs|
  {
    hide ArcOctets;
    if arcs != [] {
      ArcsRead(arcs[1..]);
      ArcReads(arcs[0], Arcs(arcs[1..]));
      ArcOctetsNotEmpty(arcs[0]);
      assert Arcs(arcs) != [];
      assert Wrapped(arcs) == [arcs[0] % TWO32] + Wrapped(arcs[1..]);
    }
  }

  /** What the writer can express: a first octet below 128 with arcs that are in range, and 32-bit arcs. */
  predicate IsOid(parts: seq<nat>)
    requires |parts| >= 2
  {
    && parts[0] <= 2 && (parts[0] < 2 ==> parts[1] < 40)
    && parts[0] * 40 + parts[1] < 128
    && forall i :: 2 <= i < |parts| ==> parts[i] < 0x1_0000_0000
  }

  lemma SmallFirst(parts: seq<nat>)
    requires |parts| >= 2 && (parts[0] * 40 + parts[1]) % 256 < 128
    ensures ReadArcs(OidBody(parts).value) == Some([(parts[0] * 40 + parts[1]) % 256] + Wrapped(parts[2..]))
  {
    hide Arcs;
    var first: Byte := (parts[0] * 40 + parts[1]) % 256;
    var s := OidBody(parts).value;
    ArcsRead(parts[2..]);
    assert s[0] == first && s[1..] == Arcs(parts[2..]);
    assert ReadArc(s, 0) == Some((first as nat, s[1..]));
  }

  /** A first octet with the continuation bit swallows the next arc. */
  lemma LargeFirst(parts: seq<nat>)
    requires |parts| >= 2 && (parts[0] * 40 + parts[1]) % 256 >= 128
    ensures ReadArcs(OidBody(parts).value).Some? ==> |ReadArcs(OidBody(parts).value).value| == |parts| - 2
  {
    hide Groups, Continued;
    var first: Byte := (parts[0] * 40 + parts[1]) % 256;
    var s := OidBody(parts).value;
    if |parts| == 2 {
      assert s == [first];
      assert ReadArc([], first - 128) == None;
    } else {
      var front, last := OctetsSplit(parts[2] % TWO32);
      var rest := Arcs(parts[3..]);
      assert parts[2..][1..] == parts[3..];
      assert s == [first] + front + [last] + rest;
      ReadThrough([first] + front, last, 0, rest);
      ArcsRead(parts[3..]);
    }
  }

  /** The identifier is read back exactly when the writer can express it. */
  lemma OidReadsExactly(parts: seq<nat>)
    requires |parts| >= 2
    ensures ReadOid(OidBody(parts).value) == Some(parts) <==> IsOid(parts)
  {
    hide ReadArcs, OidBody;
    var first := (parts[0] * 40 + parts[1]) % 256;
    if first < 128 {
      SmallFirst(parts);
      assert parts == [parts[0], parts[1]] + parts[2..];
      WrappedIsSame(parts[2..]);
      if ReadOid(OidBody(parts).value) == Some(parts) { OidParts(parts, first); }
      if IsOid(parts) { assert Wrapped(parts[2..]) == parts[2..]; }
    } else {
      LargeFirst(parts);
    }
  }

  lemma WrappedIsSame(arcs: seq<nat>)
    ensures Wrapped(arcs) == arcs <==> forall i :: 0 <= i < |arcs| ==> arcs[i] < TWO32
  {
    if Wrapped(arcs) == arcs {
      forall i | 0 <= i < |arcs| ensures arcs[i] < TWO32 { assert Wrapped(arcs)[i] == arcs[i]; }
    }
  }

  lemma OidParts(parts: seq<nat>, first: nat)
    requires |parts| >= 2 && first == (parts[0] * 40 + parts[1]) % 256 && first < 128
    requires ReadArcs(OidBody(parts).value) == Some([first] + Wrapped(parts[2..])) && ReadOid(OidBody(parts).value) == Some(parts)
    ensures IsOid(parts)
  {
    hide ReadArcs, OidBody;
    var vs := [first] + Wrapped(parts[2..]);
    var a, b := if first < 40 then 0 else if first < 80 then 1 else 2, if first < 40 then first else if first < 80 then first - 40 else first - 80;
    assert vs[1..] == Wrapped(parts[2..]);
    assert parts == [a, b] + vs[1..];
    assert parts[2..] == Wrapped(parts[2..]);
    WrappedIsSame(parts[2..]);
    forall i | 2 <= i < |parts| ensures parts[i] < TWO32 { assert parts[i] == parts[2..][i - 2]; }
  }

  // ------------------------------------------------------------------ the loop over an arc

  /** The do-while loop of `oid`: groups put in front, then the continuation bits. */
  method WriteArc(part: nat) returns (octets: seq<Byte>)
    ensures octets == ArcOctets(part)
  {
    hide Groups;
    var v := part % TWO32;
    var chunks: seq<Byte> := [v % 128];
    v := v / 128;
    GroupsStep(part % TWO32);
    while v > 0
      invariant forall i :: 0 <= i < |chunks| ==> chunks[i] < 128
      invariant chunks != [] && Groups(part % TWO32) == if v > 0 then Groups(v) + chunks else chunks
      decreases v
    {
      GroupsStep(v);
      chunks := [v % 128] + chunks;
      v := v / 128;
    }
    octets := chunks;
    var i := 0;
    assert chunks == Groups(part % TWO32);
    while i < |chunks| - 1
      invariant 0 <= i <= |chunks| - 1 && |octets| == |chunks|
      invariant forall k :: 0 <= k < |chunks| ==> octets[k] == if k < i then chunks[k] + 128 else chunks[k]
    {
      octets := octets[i := chunks[i] + 128];
      i := i + 1;
    }
  }

  lemma GroupsStep(v: nat)
    ensures Groups(v) == if v < 128 then [v] else Groups(v / 128) + [v % 128]
  {
  }
}
