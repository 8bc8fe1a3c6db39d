/** Base64 as defined in section 4 of RFC 4648 (the standard alphabet, `=` padding), and the
    player's conversion of a picture's bytes to Base64 through a "binary string" whose
    characters carry the bytes as their codes, which is what `window.btoa` encodes. */
module Base64 {
  import opened Common

  // ---------------------------------------------------------------- the alphabet

  /** Table 1 of RFC 4648: values 0-25 are `A`-`Z`, 26-51 `a`-`z`, 52-61 `0`-`9`, then `+`
      and `/`. */
  function Symbol(v: nat): (c: char)
    requires v < 64
    ensures c != '='
  {
    if v < 26 then (('A' as int) + v) as char
    else if v < 52 then (('a' as int) + (v - 26)) as char
    else if v < 62 then (('0' as int) + (v - 52)) as char
    else if v == 62 then '+'
    else '/'
  }

  predicate IsSymbol(c: char)
  {
    || 'A' <= c <= 'Z' || 'a' <= c <= 'z' || '0' <= c <= '9' || c == '+' || c == '/'
  }

  /** The value a symbol of the alphabet encodes. */
  function ValueOf(c: char): (v: nat)
    requires IsSymbol(c)
    ensures v < 64 && Symbol(v) == c
  {
    if 'A' <= c <= 'Z' then (c as int) - ('A' as int)
    else if 'a' <= c <= 'z' then (c as int) - ('a' as int) + 26
    else if '0' <= c <= '9' then (c as int) - ('0' as int) + 52
    else if c == '+' then 62
    else 63
  }

  lemma SymbolIsSymbol(v: nat)
    requires v < 64
    ensures IsSymbol(Symbol(v)) && ValueOf(Symbol(v)) == v
  {
  }

  // ---------------------------------------------------------------- encoding

  /** Three bytes, a 24-bit group, as four symbols of six bits each, most significant first:
      the top six bits of `a`; its low two bits and the top four of `b`; the low four bits of
      `b` and the top two of `c`; the low six bits of `c`. */
  function EncodeGroup(a: u8, b: u8, c: u8): (s: string)
    ensures |s| == 4
  {
    [Symbol(a / 4), Symbol(a % 4 * 16 + b / 16), Symbol(b % 16 * 4 + c / 64), Symbol(c % 64)]
  }

  /** A final group of two bytes: sixteen bits padded with two zero bits, three symbols and
      one `=`. */
  function EncodeTwo(a: u8, b: u8): (s: string)
    ensures |s| == 4
  {
    [Symbol(a / 4), Symbol(a % 4 * 16 + b / 16), Symbol(b % 16 * 4), '=']
  }

  /** A final group of one byte: eight bits padded with four zero bits, two symbols and `==`. */
  function EncodeOne(a: u8): (s: string)
    ensures |s| == 4
  {
    [Symbol(a / 4), Symbol(a % 4 * 16), '=', '=']
  }

  /** The Base64 encoding of `bytes`. */
  function Encode(bytes: seq<u8>): (s: string)
    decreases |bytes|
  {
    if |bytes| == 0 then ""
    else if |bytes| == 1 then EncodeOne(bytes[0])
    else if |bytes| == 2 then EncodeTwo(bytes[0], bytes[1])
    else EncodeGroup(bytes[0], bytes[1], bytes[2]) + Encode(bytes[3..])
  }

  /** Every three bytes, or fewer at the end, become four characters. */
  lemma {:induction false} EncodeLength(bytes: seq<u8>)
    ensures |Encode(bytes)| == 4 * ((|bytes| + 2) / 3)
    decreases |bytes|
  {
    if |bytes| >= 3 {
      EncodeLength(bytes[3..]);
      assert Encode(bytes) == EncodeGroup(bytes[0], bytes[1], bytes[2]) + Encode(bytes[3..]);
      assert (|bytes| + 2) / 3 == (|bytes[3..]| + 2) / 3 + 1;
    }
  }

  // ---------------------------------------------------------------- decoding

  /** One group of four characters back to its bytes; the padding bits must be zero. */
  function DecodeGroup(s: string): Option<seq<u8>>
    requires |s| == 4
  {
    if !(IsSymbol(s[0]) && IsSymbol(s[1])) then None
    else
      var v0, v1 := ValueOf(s[0]), ValueOf(s[1]);
      var a := v0 * 4 + v1 / 16;
      if s[2] == '=' && s[3] == '=' then
        if v1 % 16 != 0 then None else Some([a])
      else if !IsSymbol(s[2]) then None
      else
        var v2 := ValueOf(s[2]);
        var b := v1 % 16 * 16 + v2 / 4;
        if s[3] == '=' then
          if v2 % 4 != 0 then None else Some([a, b])
        else if !IsSymbol(s[3]) then None
        else Some([a, b, v2 % 4 * 64 + ValueOf(s[3])])
  }

  /** Base64 decoding: `None` for anything that is not a canonical encoding (a length that is
      not a multiple of four, a foreign character, padding before the last group, or non-zero
      padding bits). */
  function Decode(s: string): Option<seq<u8>>
    decreases |s|
  {
    if |s| == 0 then Some([])
    else if |s| < 4 then None
    else
      match DecodeGroup(s[..4])
      case None => None
      case Some(group) =>
        if |group| < 3 && |s| > 4 then None
        else
          match Decode(s[4..])
          case None => None
          case Some(rest) => Some(group + rest)
  }

  /** Two bits in front of four split back into the two parts. */
  lemma Unsplit16(high: nat, low: nat)
    requires high < 4 && low < 16
    ensures (high * 16 + low) / 16 == high && (high * 16 + low) % 16 == low
  {
  }

  /** Four bits in front of two split back into the two parts. */
  lemma Unsplit4(high: nat, low: nat)
    requires high < 16 && low < 4
    ensures (high * 4 + low) / 4 == high && (high * 4 + low) % 4 == low
  {
  }

  /** The character pairs of an encoding carry the bits of the bytes they straddle. */
  lemma BitsAcross(a: u8, b: u8, c: u8)
    ensures a / 4 * 4 + (a % 4 * 16 + b / 16) / 16 == a
    ensures (a % 4 * 16 + b / 16) % 16 * 16 + (b % 16 * 4 + c / 64) / 4 == b
    ensures (b % 16 * 4 + c / 64) % 4 * 64 + c % 64 == c
  {
    Unsplit16(a % 4, b / 16);
    Unsplit4(b % 16, c / 64);
  }

  lemma DecodeEncodeGroup(a: u8, b: u8, c: u8)
    ensures DecodeGroup(EncodeGroup(a, b, c)) == Some([a, b, c])
  {
    var v0, v1, v2, v3 := a / 4, a % 4 * 16 + b / 16, b % 16 * 4 + c / 64, c % 64;
    SymbolIsSymbol(v0);
    SymbolIsSymbol(v1);
    SymbolIsSymbol(v2);
    SymbolIsSymbol(v3);
    BitsAcross(a, b, c);
    var s := EncodeGroup(a, b, c);
    assert ValueOf(s[0]) == v0 && ValueOf(s[1]) == v1 && ValueOf(s[2]) == v2 && ValueOf(s[3]) == v3;
  }

  lemma DecodeEncodeTwo(a: u8, b: u8)
    ensures DecodeGroup(EncodeTwo(a, b)) == Some([a, b])
  {
    var v0, v1, v2 := a / 4, a % 4 * 16 + b / 16, b % 16 * 4;
    SymbolIsSymbol(v0);
    SymbolIsSymbol(v1);
    SymbolIsSymbol(v2);
    BitsAcross(a, b, 0);
    var s := EncodeTwo(a, b);
    assert ValueOf(s[0]) == v0 && ValueOf(s[1]) == v1 && ValueOf(s[2]) == v2;
  }

  lemma DecodeEncodeOne(a: u8)
    ensures DecodeGroup(EncodeOne(a)) == Some([a])
  {
    SymbolIsSymbol(a / 4);
    SymbolIsSymbol(a % 4 * 16);
    BitsAcross(a, 0, 0);
  }

  /** A group followed by the decoding of the rest decodes to their concatenation. */
  lemma DecodeStep(s: string, group: seq<u8>, rest: seq<u8>)
    requires |s| >= 4 && DecodeGroup(s[..4]) == Some(group)
    requires |group| == 3 || |s| == 4
    requires Decode(s[4..]) == Some(rest)
    ensures Decode(s) == Some(group + rest)
  {
  }

  lemma DecodeEncodeLastOne(bytes: seq<u8>)
    requires |bytes| == 1
    ensures Decode(Encode(bytes)) == Some(bytes)
  {
    var s := EncodeOne(bytes[0]);
    assert Encode(bytes) == s;
    DecodeEncodeOne(bytes[0]);
    assert s[..4] == s && s[4..] == [];
    DecodeStep(s, [bytes[0]], []);
    assert [bytes[0]] + [] == bytes;
  }

  lemma DecodeEncodeLastTwo(bytes: seq<u8>)
    requires |bytes| == 2
    ensures Decode(Encode(bytes)) == Some(bytes)
  {
    var s := EncodeTwo(bytes[0], bytes[1]);
    assert Encode(bytes) == s;
    DecodeEncodeTwo(bytes[0], bytes[1]);
    assert s[..4] == s && s[4..] == [];
    DecodeStep(s, [bytes[0], bytes[1]], []);
    assert [bytes[0], bytes[1]] + [] == bytes;
  }

  /** A byte string is its first three bytes followed by the rest. */
  lemma SplitThree(bytes: seq<u8>)
    requires |bytes| >= 3
    ensures [bytes[0], bytes[1], bytes[2]] + bytes[3..] == bytes
  {
  }

  lemma DecodeEncodeCons(bytes: seq<u8>)
    requires |bytes| >= 3
    requires Decode(Encode(bytes[3..])) == Some(bytes[3..])
    ensures Decode(Encode(bytes)) == Some(bytes)
  {
    var head := EncodeGroup(bytes[0], bytes[1], bytes[2]);
    var s := head + Encode(bytes[3..]);
    assert Encode(bytes) == s;
    DecodeEncodeGroup(bytes[0], bytes[1], bytes[2]);
    assert s[..4] == head && s[4..] == Encode(bytes[3..]);
    SplitThree(bytes);
    DecodeStep(s, [bytes[0], bytes[1], bytes[2]], bytes[3..]);
  }

  /** Decoding undoes encoding. */
  lemma {:induction false} DecodeEncode(bytes: seq<u8>)
    ensures Decode(Encode(bytes)) == Some(bytes)
    decreases |bytes|
  {
    if |bytes| == 1 {
      DecodeEncodeLastOne(bytes);
    } else if |bytes| == 2 {
      DecodeEncodeLastTwo(bytes);
    } else if |bytes| >= 3 {
      DecodeEncode(bytes[3..]);
      DecodeEncodeCons(bytes);
    }
  }

  /** Different byte strings have different encodings. */
  lemma EncodeInjective(x: seq<u8>, y: seq<u8>)
    requires Encode(x) == Encode(y)
    ensures x == y
  {
    DecodeEncode(x);
    DecodeEncode(y);
  }

  // ---------------------------------------------------------------- the binary string and btoa

  /** A string whose characters all have codes below 256, as `btoa` accepts. */
  predicate IsBinaryString(s: string)
  {
    forall i :: 0 <= i < |s| ==> (s[i] as int) < 0x100
  }

  function BinaryStringBytes(s: string): (bytes: seq<u8>)
    requires IsBinaryString(s)
    ensures |bytes| == |s| && forall i :: 0 <= i < |s| ==> bytes[i] == s[i] as int
  {
    seq(|s|, i requires 0 <= i < |s| => s[i] as int)
  }

  /** `window.btoa`: the Base64 encoding of the bytes the characters stand for; a character
      above 255 raises `InvalidCharacterError`, here `None`. */
  function Btoa(s: string): (r: Option<string>)
    ensures r.Some? <==> IsBinaryString(s)
  {
    if IsBinaryString(s) then Some(Encode(BinaryStringBytes(s))) else None
  }

  /** The loop of `uint8ArrayToBase64` that appends `String.fromCharCode(bytes[i])` for each
      byte: one character per byte, whose code is the byte. */
  method BinaryString(bytes: seq<u8>) returns (binary: string)
    ensures |binary| == |bytes|
    ensures forall i :: 0 <= i < |bytes| ==> binary[i] as int == bytes[i]
  {
    binary := "";
    for i := 0 to |bytes|
      invariant |binary| == i
      invariant forall j :: 0 <= j < i ==> binary[j] as int == bytes[j]
    {
      binary := binary + [bytes[i] as char];
    }
  }

  /** `uint8ArrayToBase64`: the Base64 encoding of the bytes, four characters for every
      three bytes or fewer. */
  method Uint8ArrayToBase64(bytes: seq<u8>) returns (r: string)
    ensures r == Encode(bytes)
    ensures |r| == 4 * ((|bytes| + 2) / 3)
    ensures Decode(r) == Some(bytes)
  {
    var binary := BinaryString(bytes);
    var encoded := Btoa(binary);
    assert BinaryStringBytes(binary) == bytes;
    r := encoded.value;
    EncodeLength(bytes);
    DecodeEncode(bytes);
  }
}
