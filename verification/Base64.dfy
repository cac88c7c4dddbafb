/** Standard padded base64 (RFC 4648, section 4): the encoder of the PTY stream and the decoder of its client. */
module Base64 {
  import opened Arithmetic
  import opened Bytes
  import opened Optional
  import opened Sequences

  const PAD: byte := 61

  /** The alphabet: A-Z, a-z, 0-9, '+', '/'. */
  function Letter(v: nat): byte
    requires v < 64
  {
    if v < 26 then (65 + v) as byte
    else if v < 52 then (97 + v - 26) as byte
    else if v < 62 then (48 + v - 52) as byte
    else if v == 62 then 43 else 47
  }

  function Sextet(c: byte): (r: Option<nat>)
    ensures r.Some? ==> r.value < 64
  {
    if 65 <= c <= 90 then Some(c as nat - 65)
    else if 97 <= c <= 122 then Some(c as nat - 97 + 26)
    else if 48 <= c <= 57 then Some(c as nat - 48 + 52)
    else if c == 43 then Some(62)
    else if c == 47 then Some(63)
    else None
  }

  /** The alphabet and the sextets are in one-to-one correspondence. */
  lemma LetterSextet(v: nat, c: byte)
    requires v < 64
    ensures Sextet(Letter(v)) == Some(v) && Letter(v) != PAD
    ensures Sextet(c) == Some(v) ==> c == Letter(v)
  {
  }

  /** The alphabet in table 1 of RFC 4648, and its pad, as characters. */
  lemma AlphabetIsStandard(v: nat)
    requires v < 64
    ensures var c := Letter(v) as char;
      && (v < 26 ==> c == 'A' + v as char) && (26 <= v < 52 ==> c == 'a' + (v - 26) as char)
      && (52 <= v < 62 ==> c == '0' + (v - 52) as char) && (v == 62 ==> c == '+') && (v == 63 ==> c == '/')
    ensures PAD as char == '='
  {
  }

  function Byte(b: seq<byte>, i: nat): nat { if i < |b| then b[i] as nat else 0 }

  /** The four characters of a chunk of one to three bytes: its 24 bits, six at a time, missing bytes as zero bits. */
  function Quad(b: seq<byte>): (q: seq<byte>)
    requires 1 <= |b| <= 3
    ensures |q| == 4
  {
    var x, y, z := Byte(b, 0), Byte(b, 1), Byte(b, 2);
    [Letter(x / 4), Letter(x % 4 * 16 + y / 16),
     if |b| > 1 then Letter(y % 16 * 4 + z / 64) else PAD,
     if |b| > 2 then Letter(z % 64) else PAD]
  }

  function Encoded(data: seq<byte>): (t: seq<byte>)
    ensures 3 * |t| >= 4 * |data| && 3 * |t| <= 4 * |data| + 8
  {
    if data == [] then []
    else if |data| <= 3 then Quad(data)
    else Quad(data[..3]) + Encoded(data[3..])
  }

  /** The vectors of section 10 of RFC 4648: "f", "fo" and "foo" give "Zg==", "Zm8=" and "Zm9v". */
  lemma TestVectors()
    ensures Encoded([]) == [] && Encoded([102]) == [90, 103, 61, 61]
    ensures Encoded([102, 111]) == [90, 109, 56, 61] && Encoded([102, 111, 111]) == [90, 109, 57, 118]
  {
  }

  function Trailing(q: seq<byte>): (p: nat)
    ensures p <= |q| && forall i :: |q| - p <= i < |q| ==> q[i] == PAD
    ensures p < |q| ==> q[|q| - 1 - p] != PAD
  {
    if q == [] || q[|q| - 1] != PAD then 0 else 1 + Trailing(q[..|q| - 1])
  }

  /** A character's six bits, or None when it is not in the alphabet; from position 4 - pad on, zero bits. */
  function Bits(q: seq<byte>, pad: nat, k: nat): (r: Option<nat>)
    requires k < |q|
    ensures r.Some? ==> r.value < 64
  {
    if k + pad >= 4 then Some(0) else Sextet(q[k])
  }

  /** The bytes of one quantum: its 24 bits, eight at a time, less one byte per pad; None if it is not a quantum. */
  function Unquad(q: seq<byte>, last: bool): Option<seq<byte>>
    requires |q| == 4
  {
    var pad := Trailing(q);
    if pad > 2 || (pad > 0 && !last) then None
    else
      var a, b, c, d := Bits(q, pad, 0), Bits(q, pad, 1), Bits(q, pad, 2), Bits(q, pad, 3);
      if a.None? || b.None? || c.None? || d.None? then None
      else Some(Octets(a.value, b.value, c.value, d.value)[..3 - pad])
  }

  function Octets(a: nat, b: nat, c: nat, d: nat): (o: seq<byte>)
    requires a < 64 && b < 64 && c < 64 && d < 64
    ensures |o| == 3
  {
    [(a * 4 + b / 16) as byte, (b % 16 * 16 + c / 4) as byte, (c % 4 * 64 + d) as byte]
  }

  function Decoded(t: seq<byte>): Option<seq<byte>>
    decreases |t|
  {
    if |t| % 4 != 0 then None
    else if t == [] then Some([])
    else
      var head := Unquad(t[..4], |t| == 4);
      var rest := Decoded(t[4..]);
      if head.None? || rest.None? then None else Some(head.value + rest.value)
  }

  lemma {:induction false} TrailingIs(q: seq<byte>, p: nat)
    requires p < |q| && q[|q| - 1 - p] != PAD && forall i :: |q| - p <= i < |q| ==> q[i] == PAD
    ensures Trailing(q) == p
  {
    if p > 0 { TrailingIs(q[..|q| - 1], p - 1); }
  }

  lemma OctetsOfSextets(x: nat, y: nat, z: nat)
    requires x < 256 && y < 256 && z < 256
    ensures Octets(x / 4, x % 4 * 16 + y / 16, y % 16 * 4 + z / 64, z % 64) == [x as byte, y as byte, z as byte]
  {
    DivMod(x % 4 * 16 + y / 16, 16, x % 4, y / 16);
    DivMod(y % 16 * 4 + z / 64, 4, y % 16, z / 64);
  }

  lemma QuadRoundTrip(b: seq<byte>)
    requires 1 <= |b| <= 3
    ensures Unquad(Quad(b), true) == Some(b)
    ensures |b| == 3 ==> Unquad(Quad(b), false) == Some(b)
  {
    var x, y, z := Byte(b, 0), Byte(b, 1), Byte(b, 2);
    OctetsOfSextets(x, y, z);
    QuadSextets(Quad(b), |b|, x / 4, x % 4 * 16 + y / 16, y % 16 * 4 + z / 64, z % 64, [x as byte, y as byte, z as byte]);
    assert [x as byte, y as byte, z as byte][..|b|] == b;
  }

  /** A quantum spelt from four sextets decodes to their octets, less the padding. */
  lemma QuadSextets(q: seq<byte>, len: nat, s: nat, u: nat, v: nat, w: nat, o: seq<byte>)
    requires s < 64 && u < 64 && v < 64 && w < 64 && 1 <= len <= 3 && o == Octets(s, u, v, w)
    requires len < 3 ==> w == 0
    requires len < 2 ==> v == 0
    requires q == [Letter(s), Letter(u), if len > 1 then Letter(v) else PAD, if len > 2 then Letter(w) else PAD]
    ensures Unquad(q, true) == Some(o[..len]) && (len == 3 ==> Unquad(q, false) == Some(o[..len]))
  {
    LetterBits(q, 3 - len, 0, s);
    LetterBits(q, 3 - len, 1, u);
    LetterBits(q, 3 - len, 2, v);
    LetterBits(q, 3 - len, 3, w);
    LetterSextet(u, 0);
    LetterSextet(v, 0);
    LetterSextet(w, 0);
    TrailingIs(q, 3 - len);
    UnquadIs(q, 3 - len, s, u, v, w, true);
    if len == 3 { UnquadIs(q, 0, s, u, v, w, false); }
  }

  lemma LetterBits(q: seq<byte>, pad: nat, k: nat, v: nat)
    requires |q| == 4 && k < 4 && v < 64
    requires if k + pad >= 4 then v == 0 else q[k] == Letter(v)
    ensures Bits(q, pad, k) == Some(v)
  {
    LetterSextet(v, 0);
  }

  lemma UnquadIs(q: seq<byte>, pad: nat, a: nat, b: nat, c: nat, d: nat, last: bool)
    requires |q| == 4 && a < 64 && b < 64 && c < 64 && d < 64
    requires Trailing(q) == pad && pad <= 2 && (pad > 0 ==> last)
    requires Bits(q, pad, 0) == Some(a) && Bits(q, pad, 1) == Some(b) && Bits(q, pad, 2) == Some(c) && Bits(q, pad, 3) == Some(d)
    ensures Unquad(q, last) == Some(Octets(a, b, c, d)[..3 - pad])
  {
  }

  lemma DecodedCons(q: seq<byte>, t: seq<byte>)
    requires |q| == 4 && |t| % 4 == 0
    ensures Decoded(q + t) ==
      if Unquad(q, t == []).None? || Decoded(t).None? then None else Some(Unquad(q, t == []).value + Decoded(t).value)
  {
    var text := q + t;
    assert text[..4] == q && text[4..] == t;
    assert |text| % 4 == 0 && text != [] && (|text| == 4 <==> t == []);
  }

  /** Decoding undoes encoding, for every byte string. */
  lemma {:induction false} RoundTrip(x: seq<byte>)
    ensures Decoded(Encoded(x)) == Some(x)
    decreases |x|
  {
    if x != [] {
      var n := if |x| < 3 then |x| else 3;
      EncodedStep(x, n);
      QuadRoundTrip(x[..n]);
      RoundTrip(x[n..]);
      DecodedCons(Quad(x[..n]), Encoded(x[n..]));
      assert x == x[..n] + x[n..];
    }
  }

  predicate InAlphabet(c: byte) { Sextet(c).Some? }

  /** Alphabet text in quanta of four, with at most two pad characters, at the very end. */
  predicate WellFormed(t: seq<byte>) {
    && |t| % 4 == 0
    && (forall i :: 0 <= i < |t| - 2 ==> InAlphabet(t[i]))
    && (t != [] ==> var c, d := t[|t| - 2], t[|t| - 1];
          (InAlphabet(c) && InAlphabet(d)) || (InAlphabet(c) && d == PAD) || (c == PAD && d == PAD))
  }

  /** How a quantum's padding shows: the last character, then the last two, then the last three. */
  lemma TrailingQuad(q: seq<byte>)
    requires |q| == 4
    ensures Trailing(q) == (if q[3] != PAD then 0 else if q[2] != PAD then 1 else if q[1] != PAD then 2
                            else if q[0] != PAD then 3 else 4)
  {
    if q[3] != PAD { TrailingIs(q, 0); }
    else if q[2] != PAD { TrailingIs(q, 1); }
    else if q[1] != PAD { TrailingIs(q, 2); }
    else if q[0] != PAD { TrailingIs(q, 3); }
  }

  lemma UnquadDefined(q: seq<byte>, last: bool)
    requires |q| == 4
    ensures Unquad(q, last).Some? <==> WellFormed(q) && (last || q[3] != PAD)
  {
    TrailingQuad(q);
    assert (forall i :: 0 <= i < |q| - 2 ==> InAlphabet(q[i])) <==> InAlphabet(q[0]) && InAlphabet(q[1]);
  }

  /** Decoding succeeds exactly on well-formed text. */
  lemma {:induction false} DecodesWellFormed(t: seq<byte>)
    ensures Decoded(t).Some? <==> WellFormed(t)
    decreases |t|
  {
    if |t| % 4 == 0 && t != [] {
      var head, rest := t[..4], t[4..];
      UnquadDefined(head, |t| == 4);
      DecodesWellFormed(rest);
      if |t| > 4 {
        assert forall i :: 0 <= i < |rest| ==> rest[i] == t[i + 4];
        if WellFormed(t) { assert forall i :: 0 <= i < 4 ==> InAlphabet(head[i]); }
        if WellFormed(head) && head[3] != PAD && WellFormed(rest) {
          forall i | 0 <= i < |t| - 2 ensures InAlphabet(t[i]) { if i >= 4 { assert InAlphabet(rest[i - 4]); } }
        }
      }
    }
  }

  /** The bits the last quantum leaves unused are zero (section 3.5 of RFC 4648). */
  predicate Canonical(t: seq<byte>)
    requires WellFormed(t)
  {
    t == [] ||
    (if t[|t| - 1] != PAD then true
     else if t[|t| - 2] != PAD then Sextet(t[|t| - 2]).value % 4 == 0
     else Sextet(t[|t| - 3]).value % 16 == 0)
  }

  /** Encoding the octets of four sextets spells them again, with the bits the padding drops set to zero. */
  lemma QuadOfOctets(a: nat, b: nat, c: nat, d: nat, len: nat)
    requires a < 64 && b < 64 && c < 64 && d < 64 && 1 <= len <= 3
    ensures Quad(Octets(a, b, c, d)[..len]) ==
      if len == 3 then [Letter(a), Letter(b), Letter(c), Letter(d)]
      else if len == 2 then [Letter(a), Letter(b), Letter(c / 4 * 4), PAD]
      else [Letter(a), Letter(b / 16 * 16), PAD, PAD]
  {
    hide Letter;
    var x, y, z := a * 4 + b / 16, b % 16 * 16 + c / 4, c % 4 * 64 + d;
    DivMod(x, 4, a, b / 16);
    DivMod(y, 16, b % 16, c / 4);
    DivMod(z, 64, c % 4, d);
    var o := Octets(a, b, c, d)[..len];
    assert Byte(o, 0) == x && Byte(o, 1) == (if len > 1 then y else 0) && Byte(o, 2) == (if len > 2 then z else 0);
  }

  lemma QuadOfUnquad(q: seq<byte>, last: bool)
    requires |q| == 4 && Unquad(q, last).Some?
    ensures WellFormed(q) && 1 <= |Unquad(q, last).value| <= 3
    ensures Quad(Unquad(q, last).value) == q <==> Canonical(q)
    ensures q[3] != PAD ==> |Unquad(q, last).value| == 3
  {
    hide Quad, Letter;
    UnquadDefined(q, last);
    var pad := Trailing(q);
    var a, b, c, d := Bits(q, pad, 0).value, Bits(q, pad, 1).value, Bits(q, pad, 2).value, Bits(q, pad, 3).value;
    QuadOfOctets(a, b, c, d, 3 - pad);
    LetterSextet(a, q[0]);
    LetterSextet(b, q[1]);
    LetterSextet(b / 16 * 16, q[1]);
    if pad < 2 {
      LetterSextet(c, q[2]);
      LetterSextet(c / 4 * 4, q[2]);
    }
    if pad < 1 { LetterSextet(d, q[3]); }
  }

  /** Re-encoding what was decoded gives the text back exactly when its unused bits are zero. */
  lemma {:induction false} ReencodeIffCanonical(t: seq<byte>)
    requires Decoded(t).Some?
    ensures WellFormed(t) && (Encoded(Decoded(t).value) == t <==> Canonical(t))
    decreases |t|
  {
    DecodesWellFormed(t);
    if t != [] {
      var head, rest := t[..4], t[4..];
      var h, r := Unquad(head, |t| == 4).value, Decoded(rest).value;
      QuadOfUnquad(head, |t| == 4);
      if rest == [] {
        assert h + [] == h && head == t;
      } else {
        ReencodeIffCanonical(rest);
        ReencodeStep(t, head, rest, h, r);
      }
    }
  }

  lemma ReencodeStep(t: seq<byte>, head: seq<byte>, rest: seq<byte>, h: seq<byte>, r: seq<byte>)
    requires |t| > 4 && WellFormed(t) && head == t[..4] && rest == t[4..] && WellFormed(rest)
    requires Unquad(head, false) == Some(h) && Decoded(rest) == Some(r)
    requires Quad(h) == head <==> WellFormed(head) && Canonical(head)
    requires |h| == 3
    requires Encoded(r) == rest <==> Canonical(rest)
    ensures Encoded(h + r) == t <==> Canonical(t)
  {
    UnquadDefined(head, false);
    NonEmpty(rest);
    EncodedSplit(h, r);
    CanonicalTail(t);
    assert t == head + rest;
  }

  lemma EncodedSplit(h: seq<byte>, r: seq<byte>)
    requires |h| == 3 && r != []
    ensures Encoded(h + r) == Quad(h) + Encoded(r)
    ensures forall q, rest: seq<byte> :: |q| == 4 && Quad(h) == q ==> (Encoded(h + r) == q + rest <==> Encoded(r) == rest)
  {
    assert (h + r)[..3] == h && (h + r)[3..] == r;
    forall q, rest: seq<byte> | |q| == 4 && Quad(h) == q && Quad(h) + Encoded(r) == q + rest ensures Encoded(r) == rest {
      assert (Quad(h) + Encoded(r))[4..] == Encoded(r) && (q + rest)[4..] == rest;
    }
  }

  /** Only the last quantum decides; an earlier one has no padding. */
  lemma CanonicalTail(t: seq<byte>)
    requires WellFormed(t) && |t| > 4 && WellFormed(t[..4]) && WellFormed(t[4..])
    ensures Canonical(t) <==> Canonical(t[4..])
    ensures Canonical(t[..4])
  {
    assert InAlphabet(t[3]) by { assert 3 < |t| - 2; }
  }

  lemma NonEmpty(t: seq<byte>)
    requires Decoded(t).Some? && t != []
    ensures Decoded(t).value != []
  {
    QuadOfUnquad(t[..4], |t| == 4);
  }

  // ---- the loops, which work on one 24-bit number per chunk ----

  /** The 24-bit number of a chunk, cut into sextets by shifts and masks, yields the chunk's six-bit fields. */
  method Split24(x: nat, y: nat, z: nat) returns (s: nat, u: nat, v: nat, w: nat)
    requires x < 256 && y < 256 && z < 256
    ensures s == x / 4 && u == x % 4 * 16 + y / 16 && v == y % 16 * 4 + z / 64 && w == z % 64
    ensures s < 64 && u < 64 && v < 64 && w < 64
  {
    var n := x * 65536 + y * 256 + z;
    s := n / 262144;
    assert s == x / 4 by { DivMod(n, 262144, x / 4, x % 4 * 65536 + y * 256 + z); }
    u := n / 4096 % 64;
    assert u == x % 4 * 16 + y / 16 by {
      DivMod(n, 4096, x * 16 + y / 16, y % 16 * 256 + z);
      DivMod(x * 16 + y / 16, 64, x / 4, x % 4 * 16 + y / 16);
    }
    v := n / 64 % 64;
    assert v == y % 16 * 4 + z / 64 by {
      DivMod(n, 64, x * 1024 + y * 4 + z / 64, z % 64);
      DivMod(x * 1024 + y * 4 + z / 64, 64, x * 16 + y / 16, y % 16 * 4 + z / 64);
    }
    w := n % 64;
    assert w == z % 64 by { DivMod(n, 64, x * 1024 + y * 4 + z / 64, z % 64); }
  }

  /** `b64_encode`: chunks of three through a zero-filled buffer. */
  method Encode(data: seq<byte>) returns (out: seq<byte>)
    ensures out == Encoded(data)
  {
    hide Quad;
    out := [];
    var i := 0;
    while i < |data|
      invariant i <= |data|
      invariant out + Encoded(data[i..]) == Encoded(data)
    {
      var len := if |data| - i < 3 then |data| - i else 3;
      var quad := EncodeChunk(data[i..i + len]);
      EncodedStep(data[i..], len);
      assert data[i..][..len] == data[i..i + len] && data[i..][len..] == data[i + len..];
      Associative(out, quad, Encoded(data[i + len..]));
      out := out + quad;
      i := i + len;
    }
    assert data[i..] == [];
  }

  method EncodeChunk(chunk: seq<byte>) returns (quad: seq<byte>)
    requires 1 <= |chunk| <= 3
    ensures quad == Quad(chunk)
  {
    var s, u, v, w := Split24(Byte(chunk, 0), Byte(chunk, 1), Byte(chunk, 2));
    quad := [Letter(s), Letter(u)];
    quad := quad + [if |chunk| > 1 then Letter(v) else PAD];
    quad := quad + [if |chunk| > 2 then Letter(w) else PAD];
  }

  lemma EncodedStep(d: seq<byte>, len: nat)
    requires d != [] && len == if |d| < 3 then |d| else 3
    ensures Encoded(d) == Quad(d[..len]) + Encoded(d[len..])
  {
    hide Quad;
    if |d| <= 3 {
      assert d[..len] == d && d[len..] == [];
      assert Encoded(d) == Quad(d) && Encoded([]) == [];
      assert Quad(d) + [] == Quad(d);
    }
  }

  /** A decoded tail behind what is already out. */
  ghost function Behind(out: seq<byte>, rest: Option<seq<byte>>): Option<seq<byte>> {
    if rest.None? then None else Some(out + rest.value)
  }

  lemma BehindNothing(t: seq<byte>)
    ensures Behind([], Decoded(t)) == Decoded(t)
  {
    if Decoded(t).Some? { assert [] + Decoded(t).value == Decoded(t).value; }
  }

  /** One round of the loop: the quantum at i either fails the whole text or moves behind `out`. */
  lemma DecodedStep(text: seq<byte>, i: nat, out: seq<byte>, left: nat)
    requires |text| == i + 4 + 4 * left
    ensures var head := Unquad(text[i..i + 4], i + 4 == |text|);
      Behind(out, Decoded(text[i..])) == if head.None? then None else Behind(out + head.value, Decoded(text[i + 4..]))
  {
    var q, t := text[i..i + 4], text[i + 4..];
    assert text[i..] == q + t;
    DecodedCons(q, t);
    var head, rest := Unquad(q, t == []), Decoded(t);
    if head.Some? && rest.Some? { Associative(out, head.value, rest.value); }
  }

  /** `decode`: rejects at the first quantum that is not standard padded base64. */
  method Decode(text: seq<byte>) returns (r: Option<seq<byte>>)
    ensures r == Decoded(text)
  {
    if |text| % 4 != 0 { return None; }
    var out: seq<byte> := [];
    var i := 0;
    ghost var left: nat := |text| / 4;
    assert text[0..] == text;
    BehindNothing(text);
    while i < |text|
      invariant |text| == i + 4 * left
      invariant Decoded(text) == Behind(out, Decoded(text[i..]))
    {
      var bytes := DecodeChunk(text[i..i + 4], i + 4 == |text|);
      left := left - 1;
      DecodedStep(text, i, out, left);
      if bytes.None? { return None; }
      out := out + bytes.value;
      i := i + 4;
    }
    assert text[i..] == [] && Decoded([]) == Some([]) && out + [] == out;
    return Some(out);
  }

  method DecodeChunk(chunk: seq<byte>, last: bool) returns (r: Option<seq<byte>>)
    requires |chunk| == 4
    ensures r == Unquad(chunk, last)
  {
    var pad := Trailing(chunk);
    if pad > 2 || (pad > 0 && !last) { return None; }
    var n := 0;
    var position := 0;
    while position < 4
      invariant position <= 4
      invariant forall k :: 0 <= k < position ==> Bits(chunk, pad, k).Some?
      invariant n == Packed(chunk, pad, position)
    {
      var value := Bits(chunk, pad, position);
      if value.None? { return None; }
      n := n * 64 + value.value;
      position := position + 1;
    }
    var x, y, z := Join24(chunk, pad, n);
    var out := [x as byte];
    if pad < 2 { out := out + [y as byte]; }
    if pad < 1 { out := out + [z as byte]; }
    assert out == Unquad(chunk, last).value;
    return Some(out);
  }

  /** The number the first k characters of a quantum spell. */
  function Packed(q: seq<byte>, pad: nat, k: nat): nat
    requires k <= |q| && forall j :: 0 <= j < k ==> Bits(q, pad, j).Some?
  {
    if k == 0 then 0 else Packed(q, pad, k - 1) * 64 + Bits(q, pad, k - 1).value
  }

  /** The low three bytes of the packed number, big-endian, are the quantum's octets. */
  method Join24(q: seq<byte>, pad: nat, n: nat) returns (x: nat, y: nat, z: nat)
    requires |q| == 4 && (forall j :: 0 <= j < 4 ==> Bits(q, pad, j).Some?) && n == Packed(q, pad, 4)
    ensures x < 256 && y < 256 && z < 256
    ensures [x as byte, y as byte, z as byte]
         == Octets(Bits(q, pad, 0).value, Bits(q, pad, 1).value, Bits(q, pad, 2).value, Bits(q, pad, 3).value)
  {
    ghost var a, b, c, d := Bits(q, pad, 0).value, Bits(q, pad, 1).value, Bits(q, pad, 2).value, Bits(q, pad, 3).value;
    assert n == ((a * 64 + b) * 64 + c) * 64 + d by {
      assert Packed(q, pad, 1) == a;
      assert Packed(q, pad, 2) == a * 64 + b;
      assert Packed(q, pad, 3) == (a * 64 + b) * 64 + c;
    }
    x := n / 65536;
    assert x == a * 4 + b / 16 by { DivMod(n, 65536, a * 4 + b / 16, b % 16 * 4096 + c * 64 + d); }
    y := n / 256 % 256;
    assert y == b % 16 * 16 + c / 4 by {
      DivMod(n, 256, a * 1024 + b * 16 + c / 4, c % 4 * 64 + d);
      DivMod(a * 1024 + b * 16 + c / 4, 256, a * 4 + b / 16, b % 16 * 16 + c / 4);
    }
    z := n % 256;
    assert z == c % 4 * 64 + d by { DivMod(n, 256, a * 1024 + b * 16 + c / 4, c % 4 * 64 + d); }
  }
}
