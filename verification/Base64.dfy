/**
 The two text codecs for bytes: base64 with padding (RFC 4648 section 4), which the mobile bridge
 uses, and unpadded base64url (RFC 4648 section 5), which invitations use. Both decoders are exact
 partial inverses: they accept a text iff it is the canonical encoding of some bytes
 (RFC 4648 section 3.5), and then return those bytes.
 */
module Base64 {
  import opened Common

  type byte = x: int | 0 <= x < 256
  type sextet = x: int | 0 <= x < 64

  /** Tables 1 and 2 of RFC 4648; `url` selects "-_" in place of "+/". */
  function Symbol(v: sextet, url: bool): (c: char)
    ensures ValueOf(c, url) == v
    ensures c != '='
  {
    if v < 26 then 'A' + v as char
    else if v < 52 then 'a' + (v - 26) as char
    else if v < 62 then '0' + (v - 52) as char
    else if v == 62 then (if url then '-' else '+')
    else (if url then '_' else '/')
  }

  /** The position of a character in the alphabet, or -1. */
  function ValueOf(c: char, url: bool): (v: int)
    ensures -1 <= v < 64
  {
    if 'A' <= c <= 'Z' then (c - 'A') as int
    else if 'a' <= c <= 'z' then (c - 'a') as int + 26
    else if '0' <= c <= '9' then (c - '0') as int + 52
    else if c == (if url then '-' else '+') then 62
    else if c == (if url then '_' else '/') then 63
    else -1
  }

  lemma SymbolOfValue(c: char, url: bool)
    requires ValueOf(c, url) >= 0
    ensures Symbol(ValueOf(c, url), url) == c
  {
  }

  /** The four sextets of three bytes: the same 24 bits, regrouped. */
  function Sextets(a: byte, b: byte, c: byte): (q: (sextet, sextet, sextet, sextet))
    ensures ((q.0 * 64 + q.1) * 64 + q.2) * 64 + q.3 == (a * 256 + b) * 256 + c
  {
    (a / 4, a % 4 * 16 + b / 16, b % 16 * 4 + c / 64, c % 64)
  }

  /** The three bytes of four sextets. */
  function Octets(q: (sextet, sextet, sextet, sextet)): (o: (byte, byte, byte))
    ensures (o.0 * 256 + o.1) * 256 + o.2 == ((q.0 * 64 + q.1) * 64 + q.2) * 64 + q.3
  {
    (q.0 * 4 + q.1 / 16, q.1 % 16 * 16 + q.2 / 4, q.2 % 4 * 64 + q.3)
  }

  lemma OneQuotient64(x: int, y: int, x': int, y': int)
    requires 0 <= y < 64 && 0 <= y' < 64 && 64 * x + y == 64 * x' + y'
    ensures x == x' && y == y'
  {
  }

  lemma OneQuotient256(x: int, y: int, x': int, y': int)
    requires 0 <= y < 256 && 0 <= y' < 256 && 256 * x + y == 256 * x' + y'
    ensures x == x' && y == y'
  {
  }

  lemma OctetsOfSextets(a: byte, b: byte, c: byte)
    ensures Octets(Sextets(a, b, c)) == (a, b, c)
  {
    hide Octets, Sextets;
    var o := Octets(Sextets(a, b, c));
    var hi, hi': int := 256 * o.0 + o.1, 256 * a + b;
    OneQuotient256(hi, o.2, hi', c);
    OneQuotient256(o.0, o.1, a, b);
  }

  lemma SextetsOfOctets(q: (sextet, sextet, sextet, sextet))
    ensures Sextets(Octets(q).0, Octets(q).1, Octets(q).2) == q
  {
    hide Octets, Sextets;
    var r := Sextets(Octets(q).0, Octets(q).1, Octets(q).2);
    var mid, mid': int := 64 * r.0 + r.1, 64 * q.0 + q.1;
    var hi, hi': int := 64 * mid + r.2, 64 * mid' + q.2;
    OneQuotient64(hi, r.3, hi', q.3);
    OneQuotient64(mid, r.2, mid', q.2);
    OneQuotient64(r.0, r.1, q.0, q.1);
  }

  /** One encoded group of one to three bytes: the missing bytes count as zero. */
  function Group(g: seq<byte>, url: bool): (text: string)
    requires 1 <= |g| <= 3
    ensures |text| == if url then |g| + 1 else 4
  {
    var q := Sextets(g[0], if |g| > 1 then g[1] else 0, if |g| > 2 then g[2] else 0);
    [Symbol(q.0, url), Symbol(q.1, url),
     if |g| > 1 then Symbol(q.2, url) else '=',
     if |g| > 2 then Symbol(q.3, url) else '='][..if url then |g| + 1 else 4]
  }

  function Encoded(bytes: seq<byte>, url: bool): string {
    if bytes == [] then ""
    else if |bytes| < 3 then Group(bytes, url)
    else Group(bytes[..3], url) + Encoded(bytes[3..], url)
  }

  lemma {:induction false} EncodedAppend(x: seq<byte>, y: seq<byte>, url: bool)
    requires |x| % 3 == 0
    ensures Encoded(x + y, url) == Encoded(x, url) + Encoded(y, url)
    decreases |x|
  {
    hide Group;
    if x == [] {
      assert x + y == y;
    } else {
      assert (x + y)[..3] == x[..3] && (x + y)[3..] == x[3..] + y;
      EncodedAppend(x[3..], y, url);
    }
  }

  lemma {:induction false} EncodedLength(b: seq<byte>, url: bool)
    ensures !url ==> |Encoded(b, url)| == (|b| + 2) / 3 * 4
    ensures url ==> |Encoded(b, url)| == |b| / 3 * 4 + (if |b| % 3 == 0 then 0 else |b| % 3 + 1)
    decreases |b|
  {
    hide Group;
    if |b| >= 3 {
      EncodedLength(b[3..], url);
      assert |b[3..]| / 3 == |b| / 3 - 1 && |b[3..]| % 3 == |b| % 3;
    }
  }

  /** Behind the first `3 * k` bytes' text stands the text of the remaining bytes. */
  lemma TextBehind(b: seq<byte>, url: bool, k: nat)
    requires 3 * k <= |b|
    ensures 4 * k <= |Encoded(b, url)|
    ensures Encoded(b, url)[..4 * k] == Encoded(b[..3 * k], url)
    ensures Encoded(b, url)[4 * k..] == Encoded(b[3 * k..], url)
  {
    hide Encoded, Group;
    assert b == b[..3 * k] + b[3 * k..];
    EncodedAppend(b[..3 * k], b[3 * k..], url);
    EncodedLength(b[..3 * k], url);
  }

  lemma {:induction false} SameLengthInjective(x: seq<byte>, y: seq<byte>, url: bool)
    requires Encoded(x, url) == Encoded(y, url) && |x| == |y|
    ensures x == y
    decreases |x|
  {
    if |x| > 0 {
      var n := if |x| < 3 then |x| else 3;
      hide Group;
      assert x == x[..n] + x[n..] && y == y[..n] + y[n..];
      assert Encoded(x, url)[..|Group(x[..n], url)|] == Group(x[..n], url);
      assert Encoded(y, url)[..|Group(y[..n], url)|] == Group(y[..n], url);
      GroupRoundTrip(x[..n], url);
      GroupRoundTrip(y[..n], url);
      if n == 3 {
        assert Encoded(x, url)[|Group(x[..n], url)|..] == Encoded(x[3..], url);
        assert Encoded(y, url)[|Group(y[..n], url)|..] == Encoded(y[3..], url);
        SameLengthInjective(x[3..], y[3..], url);
      }
    }
  }

  lemma EncodedOne(g: seq<byte>, url: bool)
    requires 1 <= |g| <= 3
    ensures Encoded(g, url) == Group(g, url)
  {
    hide Group;
    if |g| == 3 { assert g[..3] == g && g[3..] == []; }
  }

  lemma OctetsAre(a: sextet, b: sextet, c: sextet, d: sextet)
    ensures Octets((a, b, c, d)) == (a * 4 + b / 16, b % 16 * 16 + c / 4, c % 4 * 64 + d)
  {
  }

  // ---- One group ----

  /** The sextets of a group's text; a padding character or a missing one counts as zero. */
  function GroupSextets(t: string, url: bool): (q: (int, int, int, int))
    requires 2 <= |t| <= 4
  {
    (ValueOf(t[0], url), ValueOf(t[1], url),
     if |t| < 3 || t[2] == '=' then 0 else ValueOf(t[2], url),
     if |t| < 4 || t[3] == '=' then 0 else ValueOf(t[3], url))
  }

  /** A padded group whose padding starts behind the characters of `n` bytes. */
  predicate PaddedAfter(t: string, n: nat) {
    |t| == 4 && forall i :: 0 <= i < 4 ==> (t[i] == '=' <==> i > n)
  }

  predicate AllSextets(q: (int, int, int, int)) {
    q.0 >= 0 && q.1 >= 0 && q.2 >= 0 && q.3 >= 0 && q.0 < 64 && q.1 < 64 && q.2 < 64 && q.3 < 64
  }

  /** The bytes a group's text stands for, given how many there are. */
  function GroupBytes(q: (sextet, sextet, sextet, sextet), n: nat): (g: seq<byte>)
    requires 1 <= n <= 3
    ensures |g| == n
  {
    var o := Octets(q);
    [o.0, o.1, o.2][..n]
  }

  /** Reading a group back. */
  lemma GroupRoundTrip(g: seq<byte>, url: bool)
    requires 1 <= |g| <= 3
    ensures var q := GroupSextets(Group(g, url), url);
            && AllSextets(q) && GroupBytes(q, |g|) == g
            && (|g| < 2 ==> q.1 % 16 == 0) && (|g| < 3 ==> q.2 % 4 == 0)
    ensures !url ==> PaddedAfter(Group(g, url), |g|)
    ensures forall i :: 0 <= i <= |g| ==> ValueOf(Group(g, url)[i], url) >= 0
  {
    var b, c := if |g| > 1 then g[1] else 0, if |g| > 2 then g[2] else 0;
    OctetsOfSextets(g[0], b, c);
    GroupText(g, b, c, url);
    hide Octets, ValueOf, Symbol, Group;
    var o := [g[0], b, c][..|g|];
    assert o == g;
  }

  lemma GroupText(g: seq<byte>, b: byte, c: byte, url: bool)
    requires 1 <= |g| <= 3
    requires b == (if |g| > 1 then g[1] else 0) && c == (if |g| > 2 then g[2] else 0)
    ensures GroupSextets(Group(g, url), url) == Sextets(g[0], b, c)
    ensures !url ==> PaddedAfter(Group(g, url), |g|)
    ensures forall i :: 0 <= i <= |g| ==> ValueOf(Group(g, url)[i], url) >= 0
  {
    hide Octets, ValueOf, Symbol;
  }

  /** A padded group whose unused bits are zero is the encoding of its bytes. */
  lemma CanonicalGroup(t: string, n: nat)
    requires PaddedAfter(t, n) && 1 <= n <= 3 && AllSextets(GroupSextets(t, false))
    requires n < 2 ==> GroupSextets(t, false).1 % 16 == 0
    requires n < 3 ==> GroupSextets(t, false).2 % 4 == 0
    ensures Group(GroupBytes(GroupSextets(t, false), n), false) == t
  {
    var q := GroupSextets(t, false);
    var o := Octets(q);
    SextetsOfOctets(q);
    assert (n < 3 ==> o.2 == 0) && (n < 2 ==> o.1 == 0) by { OctetsAre(q.0, q.1, q.2, q.3); }
    forall i | 0 <= i <= n ensures Symbol(ValueOf(t[i], false), false) == t[i] {
      assert ValueOf(t[i], false) >= 0;
      SymbolOfValue(t[i], false);
    }
    hide Octets, Sextets, Symbol, ValueOf;
    var g := GroupBytes(q, n);
    assert g[0] == o.0 && (n > 1 ==> g[1] == o.1) && (n > 2 ==> g[2] == o.2);
  }

  // ---- Padded base64 ----

  /** The text of nonempty bytes is that of their first group and of the rest. */
  lemma EncodeStep(bytes: seq<byte>, i: nat, url: bool)
    requires i < |bytes|
    ensures Encoded(bytes[i..], url) == Group(QuadAt(bytes, i), url)
              + (if i + 3 <= |bytes| then Encoded(bytes[i + 3..], url) else "")
  {
    hide Group;
    var rest := bytes[i..];
    if |rest| < 3 {
      assert QuadAt(bytes, i) == rest;
    } else {
      assert rest[..3] == QuadAt(bytes, i) && rest[3..] == bytes[i + 3..];
    }
  }

  /** The up to three bytes at `i`. */
  function QuadAt(bytes: seq<byte>, i: nat): (g: seq<byte>)
    requires i < |bytes|
    ensures 1 <= |g| <= 3
  {
    bytes[i..if i + 3 <= |bytes| then i + 3 else |bytes|]
  }

  method EncodeBase64(bytes: seq<byte>) returns (text: string)
    ensures text == Encoded(bytes, false)
  {
    hide Symbol, Encoded, Sextets;
    text := "";
    var i := 0;
    assert bytes[0..] == bytes;
    while i < |bytes|
      invariant 0 <= i
      invariant text + (if i <= |bytes| then Encoded(bytes[i..], false) else "")
             == Encoded(bytes, false)
    {
      var a := bytes[i];
      var b := if i + 1 < |bytes| then bytes[i + 1] else 0;
      var c := if i + 2 < |bytes| then bytes[i + 2] else 0;
      var bits := Sextets(a, b, c);
      var quad := [
        Symbol(bits.0, false),
        Symbol(bits.1, false),
        if i + 1 < |bytes| then Symbol(bits.2, false) else '=',
        if i + 2 < |bytes| then Symbol(bits.3, false) else '='];
      assert quad == Group(QuadAt(bytes, i), false);
      EncodeStep(bytes, i, false);
      text := text + quad;
      i := i + 3;
    }
    EncodedLength([], false);
    assert i == |bytes| ==> bytes[i..] == [];
  }

  function Padding(text: string): (n: nat)
    ensures n <= 2 && n <= |text|
  {
    var z := |text|;
    if z >= 2 && text[z - 2] == '=' && text[z - 1] == '=' then 2
    else if z >= 1 && text[z - 1] == '=' then 1
    else 0
  }

  /** The text of nonempty bytes starts with the group of the first three (or fewer) of them. */
  lemma FirstQuad(b: seq<byte>)
    requires b != []
    ensures |Encoded(b, false)| >= 4
    ensures Encoded(b, false)[..4] == Group(b[..if |b| < 3 then |b| else 3], false)
    ensures |b| <= 3 ==> |Encoded(b, false)| == 4
  {
    hide Group;
    if |b| < 3 { assert b[..|b|] == b; }
    if |b| == 3 { assert b[3..] == []; }
  }

  /** The bytes a quad stands for in the text of `b`. */
  function QuadBytes(b: seq<byte>, k: nat): (g: seq<byte>)
    requires 3 * k < |b|
    ensures 1 <= |g| <= 3
    ensures |g| == if |b| - 3 * k < 3 then |b| - 3 * k else 3
  {
    b[3 * k..][..if |b| - 3 * k < 3 then |b| - 3 * k else 3]
  }

  /** In the encoding of `b`, the four characters at `4 * k` encode the bytes at `3 * k`. */
  lemma QuadOf(b: seq<byte>, k: nat)
    requires 4 * k < |Encoded(b, false)|
    ensures 3 * k < |b| && 4 * k + 4 <= |Encoded(b, false)|
    ensures Encoded(b, false)[4 * k..4 * k + 4] == Group(QuadBytes(b, k), false)
    ensures |QuadBytes(b, k)| < 3 ==> 4 * k + 4 == |Encoded(b, false)|
  {
    hide Group, Encoded;
    EncodedLength(b, false);
    assert 3 * k < |b|;
    TextBehind(b, false, k);
    FirstQuad(b[3 * k..]);
    assert Encoded(b, false)[4 * k..4 * k + 4] == Encoded(b, false)[4 * k..][..4];
  }

  /** The last quad of an encoding ends in as many padding characters as it lacks bytes. */
  lemma LastQuad(b: seq<byte>, k: nat)
    requires 3 * k < |b| <= 3 * k + 3
    ensures |Encoded(b, false)| == 4 * k + 4 && Padding(Encoded(b, false)) == 3 * k + 3 - |b|
  {
    hide Encoded, Group;
    EncodedLength(b, false);
    var text := Encoded(b, false);
    QuadOf(b, k);
    GroupRoundTrip(QuadBytes(b, k), false);
    assert text[4 * k + 2] == text[4 * k..4 * k + 4][2] && text[4 * k + 3] == text[4 * k..4 * k + 4][3];
  }

  lemma CheckedCharacter(b: seq<byte>, k: nat, i: nat)
    requires i < 4 && 4 * k + i < |Encoded(b, false)| - Padding(Encoded(b, false))
    ensures ValueOf(Encoded(b, false)[4 * k + i], false) >= 0
  {
    hide Encoded, Group, ValueOf;
    QuadOf(b, k);
    var g := QuadBytes(b, k);
    GroupRoundTrip(g, false);
    assert Encoded(b, false)[4 * k + i] == Group(g, false)[i];
    if |g| < 3 { LastQuad(b, k); }
  }

  /** What the decoder's checks rely on, for every canonical text. */
  lemma Shape(b: seq<byte>)
    ensures var text := Encoded(b, false);
            && |text| == (|b| + 2) / 3 * 4
            && |b| == |text| / 4 * 3 - Padding(text)
            && forall j :: 0 <= j < |text| - Padding(text) ==> ValueOf(text[j], false) >= 0
  {
    hide Encoded, Group, ValueOf, Padding;
    var text := Encoded(b, false);
    EncodedLength(b, false);
    if b != [] {
      var k := (|b| - 1) / 3;
      LastQuad(b, k);
      forall j | 0 <= j < |text| - Padding(text) ensures ValueOf(text[j], false) >= 0 {
        CheckedCharacter(b, j / 4, j % 4);
      }
    }
  }

  /** Different bytes never share an encoding. */
  lemma EncodedInjective(x: seq<byte>, y: seq<byte>, url: bool)
    requires Encoded(x, url) == Encoded(y, url)
    ensures x == y
  {
    hide Encoded, ValueOf, Padding;
    if url {
      EncodedLength(x, url);
      EncodedLength(y, url);
      assert |x| == |y|;
    } else {
      Shape(x);
      Shape(y);
    }
    SameLengthInjective(x, y, url);
  }

  /** Accepts exactly the canonical encodings of at most `maximum` bytes. */
  method DecodeBase64(text: string, maximum: nat) returns (r: Option<seq<byte>>)
    ensures forall b: seq<byte> ::
              r == Some(b) <==> Encoded(b, false) == text && |b| <= maximum
  {
    hide Encoded, ValueOf, Padding;
    forall b: seq<byte> | Encoded(b, false) == text
      ensures |text| == (|b| + 2) / 3 * 4 && |b| == |text| / 4 * 3 - Padding(text)
      ensures forall j :: 0 <= j < |text| - Padding(text) ==> ValueOf(text[j], false) >= 0
    {
      Shape(b);
    }
    if |text| % 4 != 0 || |text| > (maximum + 2) / 3 * 4 { return None; }
    var padding := Padding(text);
    var i := 0;
    while i < |text| - padding
      invariant 0 <= i <= |text|
      invariant forall j :: 0 <= j < i && j < |text| - padding ==> ValueOf(text[j], false) >= 0
    {
      if ValueOf(text[i], false) < 0 { return None; }
      i := i + 1;
    }
    var length := |text| / 4 * 3 - padding;
    if length > maximum { return None; }
    var bytes := DecodeQuads(text, length);
    if bytes.Some? {
      forall b: seq<byte> | Encoded(b, false) == text ensures b == bytes.value {
        EncodedInjective(b, bytes.value, false);
      }
    }
    return bytes;
  }

  /** Which characters of the quad at `i` are padding, once the text's characters are checked. */
  lemma QuadPadding(text: string, i: nat, n: nat)
    requires |text| % 4 == 0 && i % 4 == 0 && i < |text|
    requires forall j :: 0 <= j < |text| - Padding(text) ==> ValueOf(text[j], false) >= 0
    requires n == (if i + 4 == |text| then 3 - Padding(text) else 3)
    ensures PaddedAfter(text[i..i + 4], n)
    ensures AllSextets(GroupSextets(text[i..i + 4], false))
  {
    var t := text[i..i + 4];
    forall j | 0 <= j < 4 ensures t[j] == '=' <==> j > n {
      assert t[j] == text[i + j];
    }
  }

  /** A quad of an encoding has no stray bits under its padding. */
  lemma NoStrayBits(x: seq<byte>, k: nat)
    requires 4 * k + 4 <= |Encoded(x, false)|
    ensures var t := Encoded(x, false)[4 * k..4 * k + 4];
            var q := GroupSextets(t, false);
            (t[2] == '=' ==> q.1 % 16 == 0) && (t[3] == '=' ==> q.2 % 4 == 0)
  {
    hide Encoded, Group, ValueOf;
    QuadOf(x, k);
    GroupRoundTrip(QuadBytes(x, k), false);
  }

  lemma StrayBits(text: string, k: nat)
    requires 4 * k + 4 <= |text|
    requires var t := text[4 * k..4 * k + 4];
             var q := GroupSextets(t, false);
             (t[2] == '=' && q.1 % 16 != 0) || (t[3] == '=' && q.2 % 4 != 0)
    ensures forall x: seq<byte> :: Encoded(x, false) != text
  {
    hide Encoded, ValueOf;
    forall x: seq<byte> ensures Encoded(x, false) != text {
      if Encoded(x, false) == text { NoStrayBits(x, k); }
    }
  }

  /** One step of the decoder's main loop: the bytes of a checked quad. */
  lemma DecodedQuad(was: seq<byte>, text: string, i: nat, n: nat, g: seq<byte>)
    requires |text| % 4 == 0 && i % 4 == 0 && i < |text| && |was| % 3 == 0
    requires Encoded(was, false) == text[..i]
    requires forall j :: 0 <= j < |text| - Padding(text) ==> ValueOf(text[j], false) >= 0
    requires n == (if i + 4 == |text| then 3 - Padding(text) else 3)
    requires var q := GroupSextets(text[i..i + 4], false);
             && AllSextets(q) && |g| == n && [Octets(q).0, Octets(q).1, Octets(q).2][..n] == g
             && (text[i + 2] == '=' ==> q.1 % 16 == 0)
             && (text[i + 3] == '=' ==> q.2 % 4 == 0)
    ensures Encoded(was + g, false) == text[..i + 4]
  {
    hide Encoded, ValueOf, Padding, Group, Octets, Sextets;
    QuadPadding(text, i, n);
    CanonicalGroup(text[i..i + 4], n);
    EncodedAppend(was, g, false);
    EncodedOne(g, false);
    assert text[..i + 4] == text[..i] + text[i..i + 4];
  }

  /** Writes three bytes at `offset`, or as many as still fit. */
  method PutOctets(out: array<byte>, offset: nat, o: (byte, byte, byte)) returns (end: nat)
    requires offset < out.Length
    modifies out
    ensures end == if offset + 3 <= out.Length then offset + 3 else out.Length
    ensures out[..end] == old(out[..offset]) + [o.0, o.1, o.2][..end - offset]
  {
    out[offset] := o.0;
    end := offset + 1;
    if end < out.Length { out[end] := o.1; end := end + 1; }
    if end < out.Length { out[end] := o.2; end := end + 1; }
  }

  /** The decoder's main loop, over a text whose characters have been checked. */
  method DecodeQuads(text: string, length: nat) returns (r: Option<seq<byte>>)
    requires |text| % 4 == 0 && length == |text| / 4 * 3 - Padding(text)
    requires forall j :: 0 <= j < |text| - Padding(text) ==> ValueOf(text[j], false) >= 0
    ensures r.Some? ==> Encoded(r.value, false) == text && |r.value| == length
    ensures r.None? ==> forall b: seq<byte> :: Encoded(b, false) != text
  {
    hide Encoded, Octets, ValueOf, Padding;
    var out := new byte[length];
    var offset := 0;
    var i := 0;
    ghost var k := 0;
    EncodedLength([], false);
    assert out[..0] == [];
    while i < |text|
      invariant i == 4 * k <= |text|
      invariant offset == (if i == |text| then length else 3 * k) <= length
      invariant Encoded(out[..offset], false) == text[..i]
    {
      ghost var n := if i + 4 == |text| then 3 - Padding(text) else 3;
      QuadPadding(text, i, n);
      ghost var t := text[i..i + 4];
      assert t[0] == text[i] && t[1] == text[i + 1] && t[2] == text[i + 2] && t[3] == text[i + 3];
      var a := ValueOf(text[i], false);
      var b := ValueOf(text[i + 1], false);
      var c := if text[i + 2] == '=' then 0 else ValueOf(text[i + 2], false);
      var d := if text[i + 3] == '=' then 0 else ValueOf(text[i + 3], false);
      assert GroupSextets(t, false) == (a, b, c, d);
      if (text[i + 2] == '=' && b % 16 != 0) || (text[i + 3] == '=' && c % 4 != 0) {
        StrayBits(text, k);
        return None;
      }
      ghost var was := out[..offset];
      var o := Octets((a, b, c, d));
      offset := PutOctets(out, offset, o);
      DecodedQuad(was, text, i, n, [o.0, o.1, o.2][..n]);
      i, k := i + 4, k + 1;
    }
    assert out[..offset] == out[..];
    return Some(out[..]);
  }

  // ---- Unpadded base64url ----

  predicate IsAscii(s: seq<byte>) {
    forall i :: 0 <= i < |s| ==> s[i] < 128
  }

  method EncodeUrl(ascii: seq<byte>) returns (out: string)
    ensures out == Encoded(ascii, true)
  {
    hide Symbol, Encoded, Sextets;
    out := "";
    var i := 0;
    assert ascii[0..] == ascii;
    while i < |ascii|
      invariant 0 <= i
      invariant out + (if i <= |ascii| then Encoded(ascii[i..], true) else "")
             == Encoded(ascii, true)
    {
      var a := ascii[i];
      var b := if i + 1 < |ascii| then ascii[i + 1] else 0;
      var c := if i + 2 < |ascii| then ascii[i + 2] else 0;
      var bits := Sextets(a, b, c);
      var chunk := [Symbol(bits.0, true), Symbol(bits.1, true)];
      if i + 1 < |ascii| { chunk := chunk + [Symbol(bits.2, true)]; }
      if i + 2 < |ascii| { chunk := chunk + [Symbol(bits.3, true)]; }
      assert chunk == Group(QuadAt(ascii, i), true);
      EncodeStep(ascii, i, true);
      out := out + chunk;
      i := i + 3;
    }
    EncodedLength([], true);
    assert i == |ascii| ==> ascii[i..] == [];
  }

  /** In the unpadded text of `s`, the chunk at `4 * k` encodes the bytes at `3 * k`. */
  lemma ChunkOf(s: seq<byte>, k: nat)
    requires 4 * k < |Encoded(s, true)|
    ensures 3 * k < |s|
    ensures var end := if |Encoded(s, true)| - 4 * k < 4 then |Encoded(s, true)| else 4 * k + 4;
            Encoded(s, true)[4 * k..end] == Group(QuadBytes(s, k), true)
  {
    hide Group, Encoded;
    EncodedLength(s, true);
    assert 3 * k < |s|;
    TextBehind(s, true, k);
    FirstChunk(s[3 * k..]);
    var rest := Encoded(s[3 * k..], true);
    var end := if |Encoded(s, true)| - 4 * k < 4 then |Encoded(s, true)| else 4 * k + 4;
    assert Encoded(s, true)[4 * k..end] == rest[..end - 4 * k];
  }

  lemma FirstChunk(b: seq<byte>)
    requires b != []
    ensures var n := if |b| < 3 then |b| else 3;
            && |Encoded(b, true)| > n && Encoded(b, true)[..n + 1] == Group(b[..n], true)
            && (|b| < 3 ==> |Encoded(b, true)| == n + 1)
  {
    hide Group;
    if |b| < 3 { assert b[..|b|] == b; }
  }

  /** What one chunk must be, if the whole text encodes some bytes. */
  lemma ChunkBytes(s: seq<byte>, k: nat, chunk: string)
    requires 4 * k < |Encoded(s, true)|
    requires chunk == Encoded(s, true)[4 * k..if |Encoded(s, true)| - 4 * k < 4
                                             then |Encoded(s, true)| else 4 * k + 4]
    ensures |chunk| >= 2 && 3 * k + |chunk| - 1 <= |s|
    ensures forall i :: 0 <= i < |chunk| ==> ValueOf(chunk[i], true) >= 0
    ensures var q := GroupSextets(chunk, true);
            AllSextets(q) && GroupBytes(q, |chunk| - 1) == s[3 * k..3 * k + |chunk| - 1]
  {
    hide Encoded, Group, ValueOf, GroupBytes;
    ChunkOf(s, k);
    GroupRoundTrip(QuadBytes(s, k), true);
    assert QuadBytes(s, k) == s[3 * k..3 * k + |chunk| - 1];
  }

  /** ASCII bytes whose encoding is `encoded`, of which `out` are the first. */
  ghost predicate Candidate(s: seq<byte>, encoded: string) {
    Encoded(s, true) == encoded && IsAscii(s)
  }

  /** Decoding the chunk at `4 * k` continues every candidate. */
  lemma CandidateStep(s: seq<byte>, encoded: string, k: nat, chunk: string, out: seq<byte>)
    requires Candidate(s, encoded) && 4 * k < |encoded| && |out| == 3 * k && out <= s
    requires chunk == encoded[4 * k..if |encoded| - 4 * k < 4 then |encoded| else 4 * k + 4]
    ensures |chunk| >= 2 && forall i :: 0 <= i < |chunk| ==> ValueOf(chunk[i], true) >= 0
    ensures AllSextets(GroupSextets(chunk, true))
    ensures var g := GroupBytes(GroupSextets(chunk, true), |chunk| - 1);
            IsAscii(g) && out + g <= s && (|chunk| < 4 || 4 * k + 4 == |encoded| ==> out + g == s)
  {
    hide Encoded, ValueOf, GroupBytes, Group;
    ChunkBytes(s, k, chunk);
    EncodedLength(s, true);
    var g := GroupBytes(GroupSextets(chunk, true), |chunk| - 1);
    assert s[..3 * k] == out;
    assert s[..3 * k + |g|] == s[..3 * k] + s[3 * k..3 * k + |g|];
  }

  /** Accepts exactly the canonical encodings of ASCII text. */
  method DecodeUrl(encoded: string) returns (r: Option<seq<byte>>)
    ensures forall s: seq<byte> :: r == Some(s) <==> Candidate(s, encoded)
  {
    hide ValueOf, GroupBytes, Candidate, AllSextets, GroupSextets;
    if |encoded| % 4 == 1 {
      forall s: seq<byte> ensures !Candidate(s, encoded) { NoLength(s, encoded); }
      return None;
    }
    var out: seq<byte> := [];
    var i := 0;
    ghost var k := 0;
    while i < |encoded|
      invariant i == 4 * k && IsAscii(out) && (i == 0 ==> out == [])
      invariant i < |encoded| ==> forall s: seq<byte> :: Candidate(s, encoded) ==>
                  |out| == 3 * k && out <= s
      invariant 0 < i && |encoded| <= i ==> forall s: seq<byte> :: Candidate(s, encoded) ==> s == out
    {
      var chunk := encoded[i..if |encoded| - i < 4 then |encoded| else i + 4];
      assert |chunk| >= 2;
      var bytes := DecodeChunk(chunk);
      forall s: seq<byte> | Candidate(s, encoded)
        ensures bytes.Some? && out + bytes.value <= s
        ensures |chunk| < 4 || i + 4 == |encoded| ==> out + bytes.value == s
        ensures |bytes.value| == |chunk| - 1
      {
        CandidateStep(s, encoded, k, chunk, out);
      }
      if bytes.None? { return None; }
      out := out + bytes.value;
      i, k := i + 4, k + 1;
    }
    var again := EncodeUrl(out);
    forall s: seq<byte> | Candidate(s, encoded) ensures s == out && again == encoded {
      CandidateText(s, encoded);
      assert encoded == "" ==> out == [];
    }
    if again != encoded { return None; }
    assert Candidate(out, encoded) by { CandidateIs(out, encoded); }
    return Some(out);
  }

  lemma NoLength(s: seq<byte>, encoded: string)
    requires |encoded| % 4 == 1
    ensures !Candidate(s, encoded)
  {
    hide Encoded, Group;
    EncodedLength(s, true);
  }

  lemma CandidateText(s: seq<byte>, encoded: string)
    requires Candidate(s, encoded)
    ensures Encoded(s, true) == encoded
    ensures encoded == "" ==> s == []
  {
    EncodedLength(s, true);
  }

  lemma CandidateIs(s: seq<byte>, encoded: string)
    requires Encoded(s, true) == encoded && IsAscii(s)
    ensures Candidate(s, encoded)
  {
  }

  /** The ASCII bytes of one chunk of two to four characters, all of them of the alphabet. */
  method DecodeChunk(chunk: string) returns (r: Option<seq<byte>>)
    requires 2 <= |chunk| <= 4
    ensures r.Some? ==> IsAscii(r.value) && forall i :: 0 <= i < |chunk| ==> ValueOf(chunk[i], true) >= 0
    ensures (forall i :: 0 <= i < |chunk| ==> ValueOf(chunk[i], true) >= 0) ==>
              && AllSextets(GroupSextets(chunk, true))
              && var g := GroupBytes(GroupSextets(chunk, true), |chunk| - 1);
                 r == if IsAscii(g) then Some(g) else None
  {
    hide Octets, ValueOf;
    if exists i :: 0 <= i < |chunk| && ValueOf(chunk[i], true) < 0 { return None; }
    if exists i :: 0 <= i < |chunk| && chunk[i] == '=' { NoPaddingSymbol(); }
    var bits := (ValueOf(chunk[0], true), ValueOf(chunk[1], true),
                 if |chunk| > 2 then ValueOf(chunk[2], true) else 0,
                 if |chunk| > 3 then ValueOf(chunk[3], true) else 0);
    assert GroupSextets(chunk, true) == bits;
    var octets := Octets(bits);
    var bytes := [octets.0, octets.1, octets.2][..|chunk| - 1];
    if exists i :: 0 <= i < |bytes| && bytes[i] > 127 { return None; }
    return Some(bytes);
  }

  lemma NoPaddingSymbol()
    ensures ValueOf('=', true) < 0
  {
  }
}
