/**
  The text encodings the session state passes through: hex, base64, decimal numbers, and the
  dictionary key f"{peer_dh_b64}_{seq}" of a skipped message key.
 */
module Codec {
  import opened Wrappers

  type Byte = b: int | 0 <= b < 256

  type Bytes = seq<Byte>

  // ---------------------------------------------------------------- hex

  function HexDigit(n: nat): char
    requires n < 16
  {
    if n < 10 then '0' + n as char else 'a' + (n - 10) as char
  }

  function HexValue(c: char): Option<nat> {
    if '0' <= c <= '9' then Some(c as int - '0' as int)
    else if 'a' <= c <= 'f' then Some(10 + c as int - 'a' as int)
    else None
  }

  function ToHex(bytes: Bytes): string {
    if bytes == [] then "" else [HexDigit(bytes[0] / 16), HexDigit(bytes[0] % 16)] + ToHex(bytes[1..])
  }

  function FromHex(hex: string): Option<Bytes> {
    if hex == "" then Some([])
    else if |hex| < 2 then None
    else
      var high, low, rest := HexValue(hex[0]), HexValue(hex[1]), FromHex(hex[2..]);
      if high.Some? && low.Some? && rest.Some? && high.value < 16 && low.value < 16
      then Some([16 * high.value + low.value] + rest.value)
      else None
  }

  lemma {:induction false} HexRoundTrip(bytes: Bytes)
    ensures FromHex(ToHex(bytes)) == Some(bytes)
    ensures |ToHex(bytes)| == 2 * |bytes|
  {
    if bytes != [] {
      HexRoundTrip(bytes[1..]);
      assert ToHex(bytes)[2..] == ToHex(bytes[1..]);
      assert bytes == [bytes[0]] + bytes[1..];
    }
  }

  lemma {:induction false} HexAt(bytes: Bytes, i: nat)
    requires i < |bytes|
    ensures |ToHex(bytes)| == 2 * |bytes|
    ensures ToHex(bytes)[2 * i] == HexDigit(bytes[i] / 16) && ToHex(bytes)[2 * i + 1] == HexDigit(bytes[i] % 16)
  {
    HexRoundTrip(bytes);
    if i > 0 {
      HexAt(bytes[1..], i - 1);
      assert ToHex(bytes)[2..] == ToHex(bytes[1..]);
    }
  }

  /** The web client's fromHex: it fills an array two digits at a time. */
  method FillFromHex(hex: string, ghost bytes: Bytes) returns (a: array<Byte>)
    requires hex == ToHex(bytes)
    ensures a[..] == bytes
  {
    HexRoundTrip(bytes);
    a := new Byte[|hex| / 2](_ => 0);
    var i := 0;
    while i < a.Length
      invariant 0 <= i <= a.Length == |bytes|
      invariant a[..i] == bytes[..i]
    {
      HexAt(bytes, i);
      a[i] := 16 * HexValue(hex[2 * i]).value + HexValue(hex[2 * i + 1]).value;
      assert a[..i + 1] == bytes[..i] + [bytes[i]];
      i := i + 1;
    }
  }

  // ---------------------------------------------------------------- base64

  function SextetChar(n: nat): char
    requires n < 64
  {
    if n < 26 then 'A' + n as char
    else if n < 52 then 'a' + (n - 26) as char
    else if n < 62 then '0' + (n - 52) as char
    else if n == 62 then '+'
    else '/'
  }

  function SextetValue(c: char): Option<nat> {
    if 'A' <= c <= 'Z' then Some(c as int - 'A' as int)
    else if 'a' <= c <= 'z' then Some(26 + c as int - 'a' as int)
    else if '0' <= c <= '9' then Some(52 + c as int - '0' as int)
    else if c == '+' then Some(62)
    else if c == '/' then Some(63)
    else None
  }

  lemma SextetRoundTrip(n: nat)
    requires n < 64
    ensures SextetValue(SextetChar(n)) == Some(n) && SextetChar(n) != '=' && SextetChar(n) != '_'
  {
  }

  /** Four characters for three bytes. */
  function Group(x: Byte, y: Byte, z: Byte): (g: string)
    ensures |g| == 4
  {
    [SextetChar(x / 4), SextetChar(x % 4 * 16 + y / 16), SextetChar(y % 16 * 4 + z / 64), SextetChar(z % 64)]
  }

  function ToBase64(bytes: Bytes): string {
    if |bytes| == 0 then ""
    else if |bytes| == 1 then Group(bytes[0], 0, 0)[..2] + "=="
    else if |bytes| == 2 then Group(bytes[0], bytes[1], 0)[..3] + "="
    else Group(bytes[0], bytes[1], bytes[2]) + ToBase64(bytes[3..])
  }

  function Sextet(c: char): (n: nat)
    ensures n < 64
  {
    var v := SextetValue(c);
    if v.Some? && v.value < 64 then v.value else 0
  }

  function First(a: char, b: char): Byte { Sextet(a) * 4 + Sextet(b) / 16 }

  function Second(b: char, c: char): Byte { Sextet(b) % 16 * 16 + Sextet(c) / 4 }

  function Third(c: char, d: char): Byte { Sextet(c) % 4 * 64 + Sextet(d) }

  /** Reads back groups of four; what follows padding is not base64. */
  function FromBase64(text: string): Option<Bytes> {
    if text == "" then Some([])
    else if |text| < 4 then None
    else if text[2] == '=' then Some([First(text[0], text[1])])
    else if text[3] == '=' then Some([First(text[0], text[1]), Second(text[1], text[2])])
    else
      var rest := FromBase64(text[4..]);
      if rest.Some? then Some([First(text[0], text[1]), Second(text[1], text[2]), Third(text[2], text[3])] + rest.value)
      else None
  }

  lemma {:induction false} Base64RoundTrip(bytes: Bytes)
    ensures FromBase64(ToBase64(bytes)) == Some(bytes)
  {
    hide Group, First, Second, Third;
    if |bytes| == 1 {
      GroupRoundTrip(bytes[0], 0, 0);
      assert bytes == [bytes[0]];
    } else if |bytes| == 2 {
      GroupRoundTrip(bytes[0], bytes[1], 0);
      assert bytes == [bytes[0], bytes[1]];
    } else if |bytes| >= 3 {
      GroupRoundTrip(bytes[0], bytes[1], bytes[2]);
      Base64RoundTrip(bytes[3..]);
      assert ToBase64(bytes)[4..] == ToBase64(bytes[3..]);
      assert bytes == [bytes[0], bytes[1], bytes[2]] + bytes[3..];
    }
  }

  lemma GroupRoundTrip(x: Byte, y: Byte, z: Byte)
    ensures var g := Group(x, y, z);
      && g[2] != '=' && g[3] != '=' && '_' !in g
      && First(g[0], g[1]) == x && Second(g[1], g[2]) == y && Third(g[2], g[3]) == z
  {
    SextetRoundTrip(x / 4);
    SextetRoundTrip(x % 4 * 16 + y / 16);
    SextetRoundTrip(y % 16 * 4 + z / 64);
    SextetRoundTrip(z % 64);
  }

  lemma {:induction false} Base64NoUnderscore(bytes: Bytes)
    ensures '_' !in ToBase64(bytes)
  {
    hide Group;
    if |bytes| == 1 {
      GroupRoundTrip(bytes[0], 0, 0);
    } else if |bytes| == 2 {
      GroupRoundTrip(bytes[0], bytes[1], 0);
    } else if |bytes| >= 3 {
      GroupRoundTrip(bytes[0], bytes[1], bytes[2]);
      Base64NoUnderscore(bytes[3..]);
    }
  }

  // ---------------------------------------------------------------- decimal numbers

  function DecimalNat(n: nat): string {
    if n < 10 then ['0' + n as char] else DecimalNat(n / 10) + ['0' + (n % 10) as char]
  }

  function Decimal(n: int): string {
    if n < 0 then "-" + DecimalNat(-n) else DecimalNat(n)
  }

  function ParseNat(text: string): nat {
    if text == "" then 0
    else
      var last := text[|text| - 1];
      10 * ParseNat(text[..|text| - 1]) + (if '0' <= last <= '9' then last as int - '0' as int else 0)
  }

  function ParseInt(text: string): int {
    if text != "" && text[0] == '-' then 0 - ParseNat(text[1..]) else ParseNat(text)
  }

  lemma {:induction false} NatRoundTrip(n: nat)
    ensures ParseNat(DecimalNat(n)) == n
    ensures DecimalNat(n) != "" && DecimalNat(n)[0] != '-'
  {
    if n >= 10 {
      NatRoundTrip(n / 10);
      assert DecimalNat(n)[..|DecimalNat(n)| - 1] == DecimalNat(n / 10);
    } else {
      assert DecimalNat(n)[..0] == "";
    }
  }

  lemma DecimalRoundTrip(n: int)
    ensures ParseInt(Decimal(n)) == n
  {
    if n < 0 {
      NatRoundTrip(-n);
      assert Decimal(n)[1..] == DecimalNat(-n);
    } else {
      NatRoundTrip(n);
    }
  }

  // ---------------------------------------------------------------- skip keys

  function SkipKey(pub: Bytes, index: int): string {
    ToBase64(pub) + "_" + Decimal(index)
  }

  function Until(text: string, c: char): (n: nat)
    ensures n <= |text|
    ensures c !in text[..n]
    ensures n < |text| ==> text[n] == c
  {
    if text == "" || text[0] == c then 0 else 1 + Until(text[1..], c)
  }

  function ParseSkipKey(key: string): Option<(Bytes, int)> {
    var n := Until(key, '_');
    var pub := FromBase64(key[..n]);
    if n < |key| && pub.Some? then Some((pub.value, ParseInt(key[n + 1..]))) else None
  }

  /** A skip key determines the public key and the number it was made from. */
  lemma SkipKeyRoundTrip(pub: Bytes, index: int)
    ensures ParseSkipKey(SkipKey(pub, index)) == Some((pub, index))
  {
    var key := SkipKey(pub, index);
    var n := Until(key, '_');
    Base64NoUnderscore(pub);
    assert key[|ToBase64(pub)|] == '_';
    assert key[..n] == ToBase64(pub) && key[n + 1..] == Decimal(index);
    Base64RoundTrip(pub);
    DecimalRoundTrip(index);
  }
}
