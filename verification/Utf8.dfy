/** The bytes of a string. */
module Utf8 {
  import opened Bytes
  import opened Sequences

  function Encode(c: char): (e: seq<byte>)
    ensures 1 <= |e| <= 4
  {
    var u := c as int;
    if u < 0x80 then [u as byte]
    else if u < 0x800 then [(0xC0 + u / 64) as byte, (0x80 + u % 64) as byte]
    else if u < 0x10000 then [(0xE0 + u / 4096) as byte, (0x80 + u / 64 % 64) as byte, (0x80 + u % 64) as byte]
    else [(0xF0 + u / 262144) as byte, (0x80 + u / 4096 % 64) as byte, (0x80 + u / 64 % 64) as byte, (0x80 + u % 64) as byte]
  }

  function ToBytes(s: string): seq<byte> {
    if s == [] then [] else Encode(s[0]) + ToBytes(s[1..])
  }

  /** A code unit tells how many follow it, so no encoding starts another. */
  lemma EncodeUnique(c: char, d: char, x: seq<byte>, y: seq<byte>)
    requires Encode(c) + x == Encode(d) + y
    ensures c == d && x == y
  {
    var a, b := Encode(c), Encode(d);
    assert a[0] == (a + x)[0] == b[0];
    assert |a| == |b| by { SameLength(c, d); }
    Split(a, b, x, y);
    Decodes(c);
    Decodes(d);
  }

  lemma SameLength(c: char, d: char)
    requires Encode(c)[0] == Encode(d)[0]
    ensures |Encode(c)| == |Encode(d)|
  {
  }

  function Decode(e: seq<byte>): int {
    if |e| == 1 then e[0] as int
    else if |e| == 2 then (e[0] as int - 0xC0) * 64 + (e[1] as int - 0x80)
    else if |e| == 3 then (e[0] as int - 0xE0) * 4096 + (e[1] as int - 0x80) * 64 + (e[2] as int - 0x80)
    else if |e| == 4 then
      (e[0] as int - 0xF0) * 262144 + (e[1] as int - 0x80) * 4096 + (e[2] as int - 0x80) * 64 + (e[3] as int - 0x80)
    else 0
  }

  lemma Decodes(c: char)
    ensures Decode(Encode(c)) == c as int
  {
    var u := c as int;
    assert u == u / 64 * 64 + u % 64;
    assert u / 64 == u / 64 / 64 * 64 + u / 64 % 64 && u / 64 / 64 == u / 4096;
    assert u / 4096 == u / 4096 / 64 * 64 + u / 4096 % 64 && u / 4096 / 64 == u / 262144;
  }

  /** Different strings have different bytes. */
  lemma {:induction false} ToBytesUnique(s: string, t: string)
    requires ToBytes(s) == ToBytes(t)
    ensures s == t
  {
    if s != [] && t != [] {
      EncodeUnique(s[0], t[0], ToBytes(s[1..]), ToBytes(t[1..]));
      ToBytesUnique(s[1..], t[1..]);
      assert s == [s[0]] + s[1..] && t == [t[0]] + t[1..];
    } else {
      assert s != [] ==> ToBytes(s) != [];
      assert t != [] ==> ToBytes(t) != [];
    }
  }
}
