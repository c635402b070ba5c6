/**
 The UTF-8 codec of the mobile client, over JavaScript strings: sequences of UTF-16 units that may
 hold lone surrogates. The decoder accepts exactly the octet sequences of RFC 3629 section 4.
 */
module Utf8 {
  import opened Common

  type byte = x: int | 0 <= x < 256
  type unit = x: int | 0 <= x < 0x10000
  type point = x: int | 0 <= x < 0x110000

  predicate IsSurrogate(x: int) { 0xD800 <= x <= 0xDFFF }

  predicate IsScalar(x: int) { 0 <= x < 0x110000 && !IsSurrogate(x) }

  type scalar = x: int | IsScalar(x)

  // ---- Strings as code points ----

  /** Whether the string starts with a high and a low surrogate. */
  predicate StartsWithPair(text: seq<unit>) {
    |text| >= 2 && 0xD800 <= text[0] <= 0xDBFF && 0xDC00 <= text[1] <= 0xDFFF
  }

  /** The first code point, as iteration over a string yields it. */
  function FirstPoint(text: seq<unit>): (p: point)
    requires text != []
  {
    var high: int := text[0];
    if StartsWithPair(text) then (high - 0xD800) * 0x400 + (text[1] as int - 0xDC00) + 0x10000
    else high
  }

  function Points(text: seq<unit>): seq<point> {
    if text == [] then []
    else [FirstPoint(text)] + Points(text[if StartsWithPair(text) then 2 else 1..])
  }

  function Units(p: point): (u: seq<unit>)
    ensures 1 <= |u| <= 2
  {
    if p < 0x10000 then [p]
    else [0xD800 + (p - 0x10000) / 0x400, 0xDC00 + (p - 0x10000) % 0x400]
  }

  function Text(ps: seq<point>): seq<unit> {
    if ps == [] then [] else Units(ps[0]) + Text(ps[1..])
  }

  /** What encode() sends for a code point: lone surrogates become U+FFFD. */
  function Scrub(p: point): (s: scalar)
    ensures s == p <==> !IsSurrogate(p)
  {
    if IsSurrogate(p) then 0xFFFD else p
  }

  function ScrubAll(ps: seq<point>): (r: seq<scalar>)
    ensures |r| == |ps|
  {
    if ps == [] then [] else [Scrub(ps[0])] + ScrubAll(ps[1..])
  }

  lemma {:induction false} TextOfPoints(text: seq<unit>)
    ensures Text(Points(text)) == text
  {
    if text != [] {
      var n := if StartsWithPair(text) then 2 else 1;
      TextOfPoints(text[n..]);
      assert Units(FirstPoint(text)) == text[..n];
      assert text == text[..n] + text[n..];
    }
  }

  lemma {:induction false} PointsOfText(ps: seq<scalar>)
    ensures Points(Text(ps)) == ps
  {
    if ps != [] {
      PointsOfText(ps[1..]);
      var u, rest := Units(ps[0]), Text(ps[1..]);
      var text := u + rest;
      assert Text(ps) == text;
      assert StartsWithPair(text) <==> |u| == 2;
      assert text[|u|..] == rest;
      assert FirstPoint(text) == ps[0];
    }
  }

  // ---- One character ----

  function Octets(s: scalar): (o: seq<byte>)
    ensures 1 <= |o| <= 4
  {
    assert IsScalar(s);
    if s < 0x80 then [s]
    else if s < 0x800 then [0xC0 + s / 64, 0x80 + s % 64]
    else if s < 0x10000 then [0xE0 + s / 4096, 0x80 + s / 64 % 64, 0x80 + s % 64]
    else [0xF0 + s / 262144, 0x80 + s / 4096 % 64, 0x80 + s / 64 % 64, 0x80 + s % 64]
  }

  predicate IsTail(b: byte) { 0x80 <= b <= 0xBF }

  /** How many octets the lead announces, or 0 for an octet that cannot start a character. */
  function Announced(lead: byte): (n: nat)
    ensures n <= 4
  {
    if lead < 0x80 then 1
    else if 0xC2 <= lead <= 0xDF then 2
    else if 0xE0 <= lead <= 0xEF then 3
    else if 0xF0 <= lead <= 0xF4 then 4
    else 0
  }

  /** The bits of the lead that belong to the code point. */
  function LeadBits(lead: byte): (bits: nat)
    requires Announced(lead) > 0
  {
    match Announced(lead)
    case 1 => lead
    case 2 => lead % 32
    case 3 => lead % 16
    case _ => lead % 8
  }

  function Minimum(n: nat): nat {
    match n
    case 2 => 0x80
    case 3 => 0x800
    case 4 => 0x10000
    case _ => 0
  }

  /** The point accumulated from `n` more tail octets, or None if one is missing or malformed. */
  function Accumulate(bits: nat, tails: seq<byte>, n: nat): (p: Option<nat>)
    ensures p.Some? ==> |tails| >= n
    decreases n
  {
    if n == 0 then Some(bits)
    else if tails == [] || !IsTail(tails[0]) then None
    else Accumulate(bits * 64 + tails[0] % 64, tails[1..], n - 1)
  }

  /** The first character of nonempty input, or None where the decoder throws. */
  function First(bytes: seq<byte>): (s: Option<scalar>)
    requires bytes != []
    ensures s.Some? ==> 1 <= Announced(bytes[0]) <= |bytes|
  {
    var n := Announced(bytes[0]);
    if n == 0 then None
    else
      var p := Accumulate(LeadBits(bytes[0]), bytes[1..], n - 1);
      if p.None? || p.value < Minimum(n) || !IsScalar(p.value) then None else Some(p.value)
  }

  lemma Split64(q: int, r: int)
    requires 0 <= r < 64
    ensures (64 * q + r) / 64 == q && (64 * q + r) % 64 == r
  {
  }

  lemma Split4096(q: int, r: int)
    requires 0 <= r < 4096
    ensures (4096 * q + r) / 4096 == q
  {
  }

  lemma Split262144(q: int, r: int)
    requires 0 <= r < 262144
    ensures (262144 * q + r) / 262144 == q
  {
  }

  /** The octets of a point put together from its six-bit pieces. */
  lemma OctetsOfPieces(s: scalar, a: nat, b: nat, c: nat, d: nat)
    requires a < 8 && b < 64 && c < 64 && d < 64
    requires s == ((a * 64 + b) * 64 + c) * 64 + d
    ensures s < 0x80 ==> Octets(s) == [s]
    ensures 0x80 <= s < 0x800 ==> Octets(s) == [0xC0 + c, 0x80 + d] && a == b == 0
    ensures 0x800 <= s < 0x10000 ==> Octets(s) == [0xE0 + b, 0x80 + c, 0x80 + d] && a == 0
    ensures 0x10000 <= s ==> Octets(s) == [0xF0 + a, 0x80 + b, 0x80 + c, 0x80 + d]
  {
    Split64((a * 64 + b) * 64 + c, d);
    Split4096(a * 64 + b, c * 64 + d);
    Split262144(a, (b * 64 + c) * 64 + d);
    Split64(a * 64 + b, c);
    Split64(a, b);
    assert s / 64 == (a * 64 + b) * 64 + c && s / 4096 == a * 64 + b && s / 262144 == a;
  }

  lemma Lead(lead: byte)
    ensures lead < 0x80 ==> Announced(lead) == 1 && LeadBits(lead) == lead
    ensures 0xC2 <= lead <= 0xDF ==> Announced(lead) == 2 && LeadBits(lead) == lead - 0xC0
    ensures 0xE0 <= lead <= 0xEF ==> Announced(lead) == 3 && LeadBits(lead) == lead - 0xE0
    ensures 0xF0 <= lead <= 0xF4 ==> Announced(lead) == 4 && LeadBits(lead) == lead - 0xF0
  {
  }

  lemma Tail(b: byte)
    ensures IsTail(b) ==> b % 64 == b - 0x80
  {
  }

  /** The six-bit pieces of a point. */
  lemma PiecesOf(s: scalar) returns (a: nat, b: nat, c: nat, d: nat)
    ensures a < 8 && b < 64 && c < 64 && d < 64
    ensures s == ((a * 64 + b) * 64 + c) * 64 + d
    ensures s < 0x80 ==> Octets(s) == [s]
    ensures 0x80 <= s < 0x800 ==> Octets(s) == [0xC0 + c, 0x80 + d] && a == b == 0
    ensures 0x800 <= s < 0x10000 ==> Octets(s) == [0xE0 + b, 0x80 + c, 0x80 + d] && a == 0
    ensures 0x10000 <= s ==> Octets(s) == [0xF0 + a, 0x80 + b, 0x80 + c, 0x80 + d]
  {
    assert IsScalar(s);
    var x: int := s;
    a, b, c, d := x / 262144, x / 4096 % 64, x / 64 % 64, x % 64;
    assert x / 64 / 64 == x / 4096 && x / 4096 / 64 == x / 262144;
    assert x == ((a * 64 + b) * 64 + c) * 64 + d;
    OctetsOfPieces(s, a, b, c, d);
  }

  lemma FirstOfFour(s: scalar, bytes: seq<byte>)
    requires Octets(s) <= bytes && s >= 0x10000
    ensures First(bytes) == Some(s)
  {
    assert IsScalar(s);
    var a, b, c, d := PiecesOf(s);
    hide Octets;
    Lead(bytes[0]);
    Tail(bytes[1]);
    Tail(bytes[2]);
    Tail(bytes[3]);
    AccumulateThree(a, bytes[1..]);
    hide Accumulate, LeadBits, Announced;
  }

  /** Every character decodes to itself, whatever follows it. */
  lemma FirstOfOctets(s: scalar, bytes: seq<byte>)
    requires Octets(s) <= bytes
    ensures First(bytes) == Some(s)
  {
    if 0x10000 <= s {
      FirstOfFour(s, bytes);
    } else {
      var a, b, c, d := PiecesOf(s);
      hide Octets;
      Lead(bytes[0]);
      if 0x800 <= s {
        Tail(bytes[1]);
        Tail(bytes[2]);
        AccumulateTwo(b, bytes[1..]);
      } else if 0x80 <= s {
        Tail(bytes[1]);
        AccumulateOne(c, bytes[1..]);
      } else {
        assert bytes[0] == s;
      }
    }
  }

  lemma TwoOctets(bytes: seq<byte>)
    requires |bytes| >= 1 && 0xC2 <= bytes[0] <= 0xDF && First(bytes).Some?
    ensures Octets(First(bytes).value) <= bytes && |Octets(First(bytes).value)| == 2
  {
    Lead(bytes[0]);
    AccumulateOne(bytes[0] - 0xC0, bytes[1..]);
    hide Accumulate, LeadBits, Announced;
    Tail(bytes[1]);
    OctetsOfPieces(First(bytes).value, 0, 0, bytes[0] - 0xC0, bytes[1] - 0x80);
    hide Octets;
  }

  lemma ThreeOctets(bytes: seq<byte>)
    requires |bytes| >= 1 && 0xE0 <= bytes[0] <= 0xEF && First(bytes).Some?
    ensures Octets(First(bytes).value) <= bytes && |Octets(First(bytes).value)| == 3
  {
    Lead(bytes[0]);
    AccumulateTwo(bytes[0] - 0xE0, bytes[1..]);
    hide Accumulate, LeadBits, Announced;
    Tail(bytes[1]);
    Tail(bytes[2]);
    OctetsOfPieces(First(bytes).value, 0, bytes[0] - 0xE0, bytes[1] - 0x80, bytes[2] - 0x80);
    hide Octets;
  }

  lemma FourOctets(bytes: seq<byte>)
    requires |bytes| >= 1 && 0xF0 <= bytes[0] <= 0xF4 && First(bytes).Some?
    ensures Octets(First(bytes).value) <= bytes && |Octets(First(bytes).value)| == 4
  {
    Lead(bytes[0]);
    AccumulateThree(bytes[0] - 0xF0, bytes[1..]);
    hide Accumulate, LeadBits, Announced;
    Tail(bytes[1]);
    Tail(bytes[2]);
    Tail(bytes[3]);
    OctetsOfPieces(First(bytes).value, bytes[0] - 0xF0,
                   bytes[1] - 0x80, bytes[2] - 0x80, bytes[3] - 0x80);
    hide Octets;
  }

  /** What decodes to a character starts with its octets. */
  lemma OctetsOfFirst(bytes: seq<byte>)
    requires bytes != [] && First(bytes).Some?
    ensures Octets(First(bytes).value) <= bytes
    ensures |Octets(First(bytes).value)| == Announced(bytes[0])
  {
    var lead: int := bytes[0];
    if 0xC2 <= lead <= 0xDF {
      TwoOctets(bytes);
    } else if 0xE0 <= lead <= 0xEF {
      ThreeOctets(bytes);
    } else if 0xF0 <= lead <= 0xF4 {
      FourOctets(bytes);
    }
  }

  lemma AccumulateOne(bits: nat, tails: seq<byte>)
    ensures Accumulate(bits, tails, 1)
         == if |tails| >= 1 && IsTail(tails[0]) then Some(bits * 64 + tails[0] % 64) else None
  {
  }

  lemma AccumulateTwo(bits: nat, tails: seq<byte>)
    ensures Accumulate(bits, tails, 2)
         == if |tails| >= 2 && IsTail(tails[0]) && IsTail(tails[1])
            then Some((bits * 64 + tails[0] % 64) * 64 + tails[1] % 64) else None
  {
    if tails != [] && IsTail(tails[0]) { AccumulateOne(bits * 64 + tails[0] % 64, tails[1..]); }
  }

  lemma AccumulateThree(bits: nat, tails: seq<byte>)
    ensures Accumulate(bits, tails, 3)
         == if |tails| >= 3 && IsTail(tails[0]) && IsTail(tails[1]) && IsTail(tails[2])
            then Some(((bits * 64 + tails[0] % 64) * 64 + tails[1] % 64) * 64 + tails[2] % 64)
            else None
  {
    if tails != [] && IsTail(tails[0]) { AccumulateTwo(bits * 64 + tails[0] % 64, tails[1..]); }
  }

  // ---- Whole texts ----

  function EncodeAll(ss: seq<scalar>): seq<byte> {
    if ss == [] then [] else Octets(ss[0]) + EncodeAll(ss[1..])
  }

  function Decoded(bytes: seq<byte>): Option<seq<scalar>> {
    if bytes == [] then Some([])
    else
      var first := First(bytes);
      if first.None? then None
      else
        var rest := Decoded(bytes[Announced(bytes[0])..]);
        if rest.None? then None else Some([first.value] + rest.value)
  }

  /** Decoding is the exact inverse of encoding: both what it accepts and what it returns. */
  lemma {:induction false} DecodedIsExact(bytes: seq<byte>, ss: seq<scalar>)
    ensures Decoded(bytes) == Some(ss) <==> EncodeAll(ss) == bytes
    decreases |bytes|
  {
    hide First, Announced, Octets;
    if bytes != [] && ss != [] {
      var o := Octets(ss[0]);
      if First(bytes).Some? { OctetsOfFirst(bytes); }
      if o <= bytes {
        FirstOfOctets(ss[0], bytes);
        assert bytes == o + bytes[|o|..];
        assert |o| == Announced(bytes[0]);
        DecodedIsExact(bytes[|o|..], ss[1..]);
        assert EncodeAll(ss) == bytes <==> EncodeAll(ss[1..]) == bytes[|o|..];
        assert ss == [ss[0]] + ss[1..];
      } else {
        assert EncodeAll(ss) != bytes;
      }
    }
  }

  /** One character of the grammar of RFC 3629 section 4: UTF8-1, UTF8-2, UTF8-3 or UTF8-4. */
  predicate Utf8Char(b: seq<byte>) {
    || (|b| == 1 && b[0] <= 0x7F)
    || (|b| == 2 && 0xC2 <= b[0] <= 0xDF && IsTail(b[1]))
    || (|b| == 3 && b[0] == 0xE0 && 0xA0 <= b[1] <= 0xBF && IsTail(b[2]))
    || (|b| == 3 && 0xE1 <= b[0] <= 0xEC && IsTail(b[1]) && IsTail(b[2]))
    || (|b| == 3 && b[0] == 0xED && 0x80 <= b[1] <= 0x9F && IsTail(b[2]))
    || (|b| == 3 && 0xEE <= b[0] <= 0xEF && IsTail(b[1]) && IsTail(b[2]))
    || (|b| == 4 && b[0] == 0xF0 && 0x90 <= b[1] <= 0xBF && IsTail(b[2]) && IsTail(b[3]))
    || (|b| == 4 && 0xF1 <= b[0] <= 0xF3 && IsTail(b[1]) && IsTail(b[2]) && IsTail(b[3]))
    || (|b| == 4 && b[0] == 0xF4 && 0x80 <= b[1] <= 0x8F && IsTail(b[2]) && IsTail(b[3]))
  }

  /** UTF8-octets: any concatenation of characters. */
  ghost predicate WellFormed(bytes: seq<byte>)
    decreases |bytes|
  {
    bytes == [] || exists n :: 1 <= n <= |bytes| && Utf8Char(bytes[..n]) && WellFormed(bytes[n..])
  }

  /** The octets of a scalar are one character of the grammar, and there are no others. */
  lemma GrammarChar(bytes: seq<byte>)
    requires bytes != []
    ensures First(bytes).Some? <==>
              Announced(bytes[0]) in {1, 2, 3, 4} && Announced(bytes[0]) <= |bytes|
              && Utf8Char(bytes[..Announced(bytes[0])])
  {
    var lead: int := bytes[0];
    Lead(lead);
    if 0xC2 <= lead <= 0xDF {
      AccumulateOne(lead - 0xC0, bytes[1..]);
    } else if 0xE0 <= lead <= 0xEF {
      AccumulateTwo(lead - 0xE0, bytes[1..]);
      if |bytes| >= 3 { Tail(bytes[1]); Tail(bytes[2]); }
    } else if 0xF0 <= lead <= 0xF4 {
      AccumulateThree(lead - 0xF0, bytes[1..]);
      if |bytes| >= 4 { Tail(bytes[1]); Tail(bytes[2]); Tail(bytes[3]); }
    }
    hide LeadBits, Accumulate;
  }

  lemma CharLength(b: seq<byte>)
    requires Utf8Char(b)
    ensures |b| == Announced(b[0]) && 1 <= |b| <= 4
  {
  }

  /** The decoder accepts exactly the octet sequences of RFC 3629. */
  lemma {:induction false} AcceptsRfc3629(bytes: seq<byte>)
    ensures Decoded(bytes).Some? <==> WellFormed(bytes)
    decreases |bytes|
  {
    hide First, Announced, Utf8Char;
    if bytes != [] {
      GrammarChar(bytes);
      forall n | 1 <= n <= |bytes| && Utf8Char(bytes[..n]) ensures n == Announced(bytes[0]) {
        CharLength(bytes[..n]);
      }
      if First(bytes).Some? { AcceptsRfc3629(bytes[Announced(bytes[0])..]); }
    }
  }

  /** A leading byte order mark is dropped. */
  function DropBom(ss: seq<scalar>): seq<scalar> {
    if ss != [] && ss[0] == 0xFEFF then ss[1..] else ss
  }

  function Encoding(text: seq<unit>): seq<byte> { EncodeAll(ScrubAll(Points(text))) }

  function Decoding(bytes: seq<byte>): Option<seq<unit>> {
    if Decoded(bytes).None? then None else Some(Text(DropBom(Decoded(bytes).value)))
  }

  /** Which strings survive a round trip: those without lone surrogates or a leading U+FEFF. */
  lemma RoundTripExactly(text: seq<unit>)
    ensures Decoding(Encoding(text)).Some?
    ensures Decoding(Encoding(text)) == Some(text) <==>
              (forall i :: 0 <= i < |Points(text)| ==> !IsSurrogate(Points(text)[i]))
              && !(text != [] && text[0] == 0xFEFF)
  {
    var ps := Points(text);
    var ss := ScrubAll(ps);
    DecodedIsExact(Encoding(text), ss);
    TextOfPoints(text);
    ScrubFixes(ps);
    var back := Text(DropBom(ss));
    assert text != [] ==> (text[0] == 0xFEFF <==> ps[0] == 0xFEFF);
    if back == text {
      PointsOfText(DropBom(ss));
      assert ps == DropBom(ss);
    }
  }

  lemma {:induction false} ScrubFixes(ps: seq<point>)
    ensures ScrubAll(ps) == ps <==> forall i :: 0 <= i < |ps| ==> !IsSurrogate(ps[i])
    ensures forall i :: 0 <= i < |ps| ==> ScrubAll(ps)[i] == Scrub(ps[i])
  {
    if ps != [] {
      ScrubFixes(ps[1..]);
      assert ps == [ps[0]] + ps[1..];
    }
  }

  /** The characters that bytes decode to start with U+FEFF exactly if the bytes start with its octets. */
  lemma MarkIsFirst(bytes: seq<byte>, ss: seq<scalar>)
    requires Decoded(bytes) == Some(ss)
    ensures Octets(0xFEFF) <= bytes <==> ss != [] && ss[0] == 0xFEFF
  {
    DecodedIsExact(bytes, ss);
    if Octets(0xFEFF) <= bytes {
      FirstOfOctets(0xFEFF, bytes);
    }
  }

  /** What the decoder returns encodes back to its input exactly if that has no leading byte order mark. */
  lemma ReencodesExactly(bytes: seq<byte>)
    requires Decoding(bytes).Some?
    ensures Encoding(Decoding(bytes).value) == bytes <==> !(Octets(0xFEFF) <= bytes)
    ensures Octets(0xFEFF) <= bytes ==> Encoding(Decoding(bytes).value) == bytes[3..]
  {
    var ss := Decoded(bytes).value;
    DecodedIsExact(bytes, ss);
    MarkIsFirst(bytes, ss);
    PointsOfText(DropBom(ss));
    ScrubFixes(DropBom(ss));
  }

  // ---- The loops ----

  lemma EncodeStep(rest: seq<unit>)
    requires rest != []
    ensures var n := if StartsWithPair(rest) then 2 else 1;
            Encoding(rest) == Octets(Scrub(FirstPoint(rest))) + Encoding(rest[n..])
  {
    hide Octets, Scrub, FirstPoint;
    var n := if StartsWithPair(rest) then 2 else 1;
    var s, tail := Scrub(FirstPoint(rest)), Points(rest[n..]);
    var points := Points(rest);
    assert points == [FirstPoint(rest)] + tail;
    assert points[1..] == tail;
    var scrubbed := ScrubAll(points);
    assert scrubbed == [s] + ScrubAll(tail);
    assert scrubbed[1..] == ScrubAll(tail);
  }

  method Encode(text: seq<unit>) returns (out: seq<byte>)
    ensures out == Encoding(text)
  {
    out := [];
    var i := 0;
    assert text[0..] == text;
    while i < |text|
      invariant 0 <= i <= |text|
      invariant out + Encoding(text[i..]) == Encoding(text)
    {
      hide Octets, Encoding, Scrub, FirstPoint;
      var rest := text[i..];
      EncodeStep(rest);
      var n := if StartsWithPair(rest) then 2 else 1;
      assert rest[n..] == text[i + n..];
      out := out + Octets(Scrub(FirstPoint(rest)));
      i := i + n;
    }
    assert text[i..] == [];
  }

  /** What is left to append once the characters up to `i` have been decoded. */
  function Remaining(bytes: seq<byte>, i: nat): Option<seq<scalar>>
    requires i <= |bytes|
  {
    var rest := Decoded(bytes[i..]);
    if rest.Some? && i == 0 then Some(DropBom(rest.value)) else rest
  }

  lemma RemainingStep(bytes: seq<byte>, i: nat)
    requires i < |bytes|
    ensures First(bytes[i..]).None? ==> Remaining(bytes, i).None?
    ensures First(bytes[i..]).Some? ==>
              var s, n := First(bytes[i..]).value, Announced(bytes[i]);
              && 1 <= n && i + n <= |bytes|
              && (Remaining(bytes, i).None? <==> Remaining(bytes, i + n).None?)
              && (Remaining(bytes, i).Some? ==>
                    Remaining(bytes, i).value
                    == (if i == 0 && s == 0xFEFF then [] else [s]) + Remaining(bytes, i + n).value)
  {
    hide First, Announced;
    if First(bytes[i..]).Some? {
      var n := Announced(bytes[i]);
      assert bytes[i..][0] == bytes[i];
      assert bytes[i..][n..] == bytes[i + n..];
    }
  }

  lemma RemainingAll(bytes: seq<byte>)
    ensures Decoding(bytes)
         == if Remaining(bytes, 0).None? then None else Some(Text(Remaining(bytes, 0).value))
  {
    assert bytes[0..] == bytes;
  }

  lemma Appended(whole: seq<scalar>, out: seq<scalar>, next: seq<scalar>, rest: seq<scalar>)
    requires whole == out + (next + rest)
    ensures whole == (out + next) + rest
  {
  }

  method DecodeFatal(bytes: seq<byte>) returns (r: Option<seq<unit>>)
    ensures r == Decoding(bytes)
  {
    hide Decoded, First, Remaining, Announced, Decoding, Text, DropBom;
    var out: seq<scalar> := [];
    var i := 0;
    ghost var whole := Remaining(bytes, 0);
    RemainingAll(bytes);
    while i < |bytes|
      invariant 0 <= i <= |bytes|
      invariant whole.None? <==> Remaining(bytes, i).None?
      invariant whole.Some? ==> whole.value == out + Remaining(bytes, i).value
    {
      var first := DecodeFirst(bytes, i);
      RemainingStep(bytes, i);
      if first.None? { return None; }
      var n := Announced(bytes[i]);
      var next := if i == 0 && first.value == 0xFEFF then [] else [first.value];
      if whole.Some? { Appended(whole.value, out, next, Remaining(bytes, i + n).value); }
      out := out + next;
      i := i + n;
    }
    RemainingNone(bytes);
    assert out + [] == out;
    r := Some(Text(out));
  }

  lemma RemainingNone(bytes: seq<byte>)
    ensures Remaining(bytes, |bytes|) == Some([])
  {
    assert bytes[|bytes|..] == [];
  }

  /** The inner loop: the lead at `i` and its tails. */
  method DecodeFirst(bytes: seq<byte>, i: nat) returns (s: Option<scalar>)
    requires i < |bytes|
    ensures s == First(bytes[i..])
  {
    var total := Announced(bytes[i]);
    if total == 0 { return None; }
    var point: nat := LeadBits(bytes[i]);
    var j := i + 1;
    var tails := total - 1;
    assert bytes[i..][1..] == bytes[j..];
    while tails > 0
      invariant 0 <= tails && j <= |bytes|
      invariant Accumulate(point, bytes[j..], tails)
             == Accumulate(LeadBits(bytes[i]), bytes[i + 1..], total - 1)
    {
      if j >= |bytes| || !IsTail(bytes[j]) { return None; }
      assert bytes[j..][1..] == bytes[j + 1..];
      point := point * 64 + bytes[j] % 64;
      j := j + 1;
      tails := tails - 1;
    }
    if point < Minimum(total) || !IsScalar(point) { return None; }
    s := Some(point);
  }
}
