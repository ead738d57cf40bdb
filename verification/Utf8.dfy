/** Text as the bytes that carry it. */
module Utf8 {
  import opened Types

  function Encode(c: char): seq<byte> {
    var n := c as int;
    if n < 0x80 then [n as byte]
    else if n < 0x800 then [(0xC0 + n / 64) as byte, (0x80 + n % 64) as byte]
    else if n < 0x10000 then [(0xE0 + n / 4096) as byte, (0x80 + n / 64 % 64) as byte, (0x80 + n % 64) as byte]
    else [(0xF0 + n / 262144) as byte, (0x80 + n / 4096 % 64) as byte, (0x80 + n / 64 % 64) as byte, (0x80 + n % 64) as byte]
  }

  function Bytes(s: string): seq<byte> {
    if s == "" then [] else Encode(s[0]) + Bytes(s[1..])
  }

  /** How many bytes a character's first byte announces. */
  function Width(first: byte): nat {
    if first < 0x80 then 1 else if first < 0xE0 then 2 else if first < 0xF0 then 3 else 4
  }

  function CodeOf(bs: seq<byte>): int
    requires bs != [] && |bs| >= Width(bs[0])
  {
    var b := bs[0] as int;
    if b < 0x80 then b
    else if b < 0xE0 then (b - 0xC0) * 64 + (bs[1] as int - 0x80)
    else if b < 0xF0 then (b - 0xE0) * 4096 + (bs[1] as int - 0x80) * 64 + (bs[2] as int - 0x80)
    else (b - 0xF0) * 262144 + (bs[1] as int - 0x80) * 4096 + (bs[2] as int - 0x80) * 64 + (bs[3] as int - 0x80)
  }

  lemma Digits64(n: nat)
    ensures n == n / 64 * 64 + n % 64
    ensures n / 64 == n / 4096 * 64 + n / 64 % 64
    ensures n / 4096 == n / 262144 * 64 + n / 4096 % 64
  {
  }

  lemma CodeReads(c: char, rest: seq<byte>)
    ensures Encode(c) != [] && |Encode(c)| == Width(Encode(c)[0])
    ensures CodeOf(Encode(c) + rest) == c as int
  {
    Digits64(c as nat);
  }

  /** No two texts are the same bytes. */
  lemma {:induction false} BytesInjective(s: string, t: string)
    requires Bytes(s) == Bytes(t)
    ensures s == t
  {
    if s != "" { CodeReads(s[0], Bytes(s[1..])); }
    if t != "" { CodeReads(t[0], Bytes(t[1..])); }
    if s != "" && t != "" {
      assert Bytes(s)[|Encode(s[0])|..] == Bytes(s[1..]);
      assert Bytes(t)[|Encode(t[0])|..] == Bytes(t[1..]);
      assert s[0] == t[0];
      BytesInjective(s[1..], t[1..]);
      assert s == [s[0]] + s[1..] && t == [t[0]] + t[1..];
    }
  }
}
