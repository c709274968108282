/** Authenticated encryption, idealised: a blob opens under exactly the key and the associated data it was sealed with. */
module Aead {
  import opened Options

  newtype Byte = x: int | 0 <= x < 256
  type Bytes = seq<Byte>

  /** A sealed blob, or bytes that no key ever sealed. */
  datatype Blob =
    | Sealed(key: Bytes, nonce: Bytes, aad: Bytes, plaintext: Bytes)
    | Foreign(raw: Bytes)

  function Seal(key: Bytes, nonce: Bytes, plaintext: Bytes, aad: Bytes): Blob {
    Sealed(key, nonce, aad, plaintext)
  }

  /** None where the implementation raises because the tag does not verify. */
  function Open(key: Bytes, blob: Blob, aad: Bytes): Option<Bytes> {
    match blob
    case Sealed(k, _, a, plaintext) => if k == key && a == aad then Some(plaintext) else None
    case Foreign(_) => None
  }

  /** The UTF-8 bytes of a string. */
  function Encode(s: string): Bytes {
    if s == "" then [] else EncodeChar(s[0] as int) + Encode(s[1..])
  }

  function EncodeChar(c: nat): Bytes
    requires c < 0x110000
  {
    if c < 0x80 then [c as Byte]
    else if c < 0x800 then [(0xC0 + c / 0x40) as Byte, (0x80 + c % 0x40) as Byte]
    else if c < 0x10000 then
      [(0xE0 + c / 0x1000) as Byte, (0x80 + c / 0x40 % 0x40) as Byte, (0x80 + c % 0x40) as Byte]
    else
      [(0xF0 + c / 0x40000) as Byte, (0x80 + c / 0x1000 % 0x40) as Byte,
       (0x80 + c / 0x40 % 0x40) as Byte, (0x80 + c % 0x40) as Byte]
  }

  /** What a first byte says about how many bytes its character takes. */
  function Width(first: Byte): nat {
    if first < 0x80 then 1 else if first < 0xE0 then 2 else if first < 0xF0 then 3 else 4
  }

  lemma EncodedWidth(c: nat)
    requires c < 0x110000
    ensures EncodeChar(c) != [] && Width(EncodeChar(c)[0]) == |EncodeChar(c)|
  {
  }

  lemma FewBytes(c: nat)
    requires c < 0x800
    ensures var b := EncodeChar(c);
      && (|b| == 1 ==> c == b[0] as int)
      && (|b| == 2 ==> c == (b[0] as int - 0xC0) * 0x40 + (b[1] as int - 0x80))
      && |b| <= 2
  {
  }

  lemma ThreeBytes(c: nat)
    requires 0x800 <= c < 0x10000
    ensures var b := EncodeChar(c);
      |b| == 3 && c == ((b[0] as int - 0xE0) * 0x40 + (b[1] as int - 0x80)) * 0x40 + (b[2] as int - 0x80)
  {
    assert c / 0x40 / 0x40 == c / 0x1000;
  }

  lemma FourBytes(c: nat)
    requires 0x10000 <= c < 0x110000
    ensures var b := EncodeChar(c);
      |b| == 4
      && c == (((b[0] as int - 0xF0) * 0x40 + (b[1] as int - 0x80)) * 0x40 + (b[2] as int - 0x80)) * 0x40 + (b[3] as int - 0x80)
  {
    var d := c / 0x40;
    assert c == d * 0x40 + c % 0x40;
    assert d == c / 0x1000 * 0x40 + d % 0x40;
    assert c / 0x1000 == c / 0x40000 * 0x40 + c / 0x1000 % 0x40;
  }

  lemma CharBytes(c: nat)
    requires c < 0x110000
    ensures var b := EncodeChar(c);
      && (|b| == 1 ==> c == b[0] as int)
      && (|b| == 2 ==> c == (b[0] as int - 0xC0) * 0x40 + (b[1] as int - 0x80))
      && (|b| == 3 ==> c == ((b[0] as int - 0xE0) * 0x40 + (b[1] as int - 0x80)) * 0x40 + (b[2] as int - 0x80))
      && (|b| == 4 ==>
            c == (((b[0] as int - 0xF0) * 0x40 + (b[1] as int - 0x80)) * 0x40 + (b[2] as int - 0x80)) * 0x40 + (b[3] as int - 0x80))
      && 1 <= |b| <= 4
  {
    hide *;
    if c < 0x800 {
      FewBytes(c);
    } else if c < 0x10000 {
      ThreeBytes(c);
    } else {
      FourBytes(c);
    }
    EncodedWidth(c);
  }

  lemma CharDetermined(c: nat, d: nat)
    requires c < 0x110000 && d < 0x110000 && EncodeChar(c) == EncodeChar(d)
    ensures c == d
  {
    hide *;
    CharBytes(c);
    CharBytes(d);
  }

  /** No two strings have the same bytes. */
  lemma {:induction false} EncodeInjective(s: string, t: string)
    requires Encode(s) == Encode(t)
    ensures s == t
  {
    if s != "" { EncodedWidth(s[0] as int); }
    if t != "" { EncodedWidth(t[0] as int); }
    if s != "" && t != "" {
      hide EncodeChar;
      var a, b := EncodeChar(s[0] as int), EncodeChar(t[0] as int);
      assert Encode(s)[0] == a[0] && Encode(t)[0] == b[0];
      assert Encode(s)[..|a|] == a && Encode(t)[..|b|] == b;
      assert Encode(s)[|a|..] == Encode(s[1..]) && Encode(t)[|b|..] == Encode(t[1..]);
      CharDetermined(s[0] as int, t[0] as int);
      EncodeInjective(s[1..], t[1..]);
      assert s == [s[0]] + s[1..] && t == [t[0]] + t[1..];
    }
  }
}
