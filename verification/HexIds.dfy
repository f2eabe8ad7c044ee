/**
Trace and span ids: written as hexadecimal text by the logger, decoded by the exporter, and
carried in the exported record either natively or as an attribute.
*/
module HexIds {
  import opened Wrappers
  import opened JsonText

  // ---------------------------------------------------------------- encoding

  function HexCode(n: nat): (b: byte)
    requires n < 16
  {
    if n < 10 then 48 + n else 87 + n
  }

  /** Two lower-case digits for each byte, as the bytes of the text. */
  function Hex(bytes: seq<byte>): (text: seq<byte>)
    ensures |text| == 2 * |bytes|
  {
    if bytes == [] then []
    else Hex(bytes[..|bytes| - 1]) + [HexCode(bytes[|bytes| - 1] / 16), HexCode(bytes[|bytes| - 1] % 16)]
  }

  /** The table look-ups, into a buffer of fixed size. */
  method HexEncode(bytes: seq<byte>) returns (out: array<byte>)
    ensures fresh(out) && out[..] == Hex(bytes)
  {
    out := new byte[2 * |bytes|](_ => 0);
    for i := 0 to |bytes|
      invariant out[..2 * i] == Hex(bytes[..i])
    {
      assert bytes[..i + 1][..i] == bytes[..i];
      out[i * 2] := HexCode(bytes[i] / 16);
      out[i * 2 + 1] := HexCode(bytes[i] % 16);
      assert out[..2 * (i + 1)] == out[..2 * i] + [out[2 * i], out[2 * i + 1]];
    }
    assert bytes[..|bytes|] == bytes;
    assert out[..2 * |bytes|] == out[..];
  }

  // ---------------------------------------------------------------- decoding

  function Nibble(b: byte): (r: Option<nat>)
    ensures r.Some? ==> r.value < 16
  {
    if 48 <= b <= 57 then Some(b - 48)
    else if 97 <= b <= 102 then Some(b - 97 + 10)
    else if 65 <= b <= 70 then Some(b - 65 + 10)
    else None
  }

  /** The byte that two digits stand for. */
  function Pair(high: byte, low: byte): Option<byte> {
    match (Nibble(high), Nibble(low))
    case (Some(h), Some(l)) => Some(h * 16 + l)
    case _ => None
  }

  /** Reads pairs of digits, upper or lower case. */
  function Pairs(text: seq<byte>): (r: Option<seq<byte>>)
    ensures r.Some? ==> |r.value| * 2 == |text|
  {
    if text == [] then Some([])
    else if |text| == 1 then None
    else Append(Pairs(text[..|text| - 2]), Pair(text[|text| - 2], text[|text| - 1]))
  }

  function Append(init: Option<seq<byte>>, last: Option<byte>): (r: Option<seq<byte>>)
    ensures r.Some? <==> init.Some? && last.Some?
    ensures r.Some? ==> |r.value| == |init.value| + 1
  {
    if init.Some? && last.Some? then Some(init.value + [last.value]) else None
  }

  lemma PairsAppend(text: seq<byte>, high: byte, low: byte)
    ensures Pairs(text + [high, low]) == Append(Pairs(text), Pair(high, low))
  {
    assert (text + [high, low])[..|text|] == text;
  }

  predicate AllZero(bytes: seq<byte>) {
    forall i :: 0 <= i < |bytes| ==> bytes[i] == 0
  }

  /** An id of `n` bytes: text of the right length, digits throughout, and not all zero. */
  function DecodedText(n: nat, text: seq<byte>): Option<seq<byte>> {
    if |text| != 2 * n then None
    else
      match Pairs(text)
      case None => None
      case Some(bytes) => if AllZero(bytes) then None else Some(bytes)
  }

  function Decoded(n: nat, value: Option<string>): Option<seq<byte>> {
    match value
    case None => None
    case Some(s) => DecodedText(n, AsBytes(s))
  }

  lemma {:induction false} PairsStop(text: seq<byte>, i: nat)
    requires 2 * i <= |text| && Pairs(text[..2 * i]).None?
    ensures Pairs(text).None?
    decreases |text|
  {
    if 2 * i + 1 < |text| {
      assert text[..|text| - 2][..2 * i] == text[..2 * i];
      PairsStop(text[..|text| - 2], i);
    } else if 2 * i == |text| {
      assert text[..2 * i] == text;
    }
  }

  lemma PairsOneMore(text: seq<byte>, i: nat)
    requires 2 * i + 2 <= |text|
    ensures Pairs(text[..2 * (i + 1)]) == Append(Pairs(text[..2 * i]), Pair(text[2 * i], text[2 * i + 1]))
  {
    PairsAppend(text[..2 * i], text[2 * i], text[2 * i + 1]);
    assert text[..2 * (i + 1)] == text[..2 * i] + [text[2 * i], text[2 * i + 1]];
  }

  /** The decoding loop, into a buffer of fixed size; it stops at the first pair that is none. */
  method DecodePairs(n: nat, text: seq<byte>) returns (output: array<byte>, valid: bool)
    requires |text| == 2 * n
    ensures fresh(output) && output.Length == n
    ensures Pairs(text) == if valid then Some(output[..]) else None
  {
    output := new byte[n](_ => 0);
    for i := 0 to n
      invariant Pairs(text[..2 * i]) == Some(output[..i])
    {
      var pair := Pair(text[2 * i], text[2 * i + 1]);
      PairsOneMore(text, i);
      if pair.None? {
        PairsStop(text, i + 1);
        return output, false;
      }
      output[i] := pair.value;
      assert output[..i + 1] == output[..i] + [pair.value];
    }
    assert text[..2 * n] == text && output[..n] == output[..];
    valid := true;
  }

  method DecodeHexId(n: nat, value: Option<string>) returns (id: Option<seq<byte>>)
    ensures id == Decoded(n, value)
  {
    if value.None? {
      return None;
    }
    var text := AsBytes(value.value);
    if |text| != n * 2 {
      return None;
    }
    var output, valid := DecodePairs(n, text);
    if !valid || AllZero(output[..]) {
      return None;
    }
    id := Some(output[..]);
  }

  // ---------------------------------------------------------------- round trip

  lemma PairReads(b: byte)
    ensures Pair(HexCode(b / 16), HexCode(b % 16)) == Some(b)
  {
    assert b == b / 16 * 16 + b % 16;
  }

  function Lower(b: byte): byte {
    if 65 <= b <= 70 then b + 32 else b
  }

  lemma PairIsLower(high: byte, low: byte)
    requires Pair(high, low).Some?
    ensures var b := Pair(high, low).value; HexCode(b / 16) == Lower(high) && HexCode(b % 16) == Lower(low)
  {
  }

  lemma HexAppend(bytes: seq<byte>, b: byte)
    ensures Hex(bytes + [b]) == Hex(bytes) + [HexCode(b / 16), HexCode(b % 16)]
  {
    assert (bytes + [b])[..|bytes|] == bytes;
  }

  lemma PairsGrow(text: seq<byte>, high: byte, low: byte, bytes: seq<byte>, b: byte)
    requires Pairs(text) == Some(bytes) && Pair(high, low) == Some(b)
    ensures Pairs(text + [high, low]) == Some(bytes + [b])
  {
    PairsAppend(text, high, low);
  }

  lemma OneMoreReads(init: seq<byte>, last: byte)
    requires Pairs(Hex(init)) == Some(init)
    ensures Pairs(Hex(init + [last])) == Some(init + [last])
  {
    assert Hex(init + [last]) == Hex(init) + [HexCode(last / 16), HexCode(last % 16)] by {
      HexAppend(init, last);
    }
    assert Pairs(Hex(init) + [HexCode(last / 16), HexCode(last % 16)]) == Some(init + [last]) by {
      PairReads(last);
      PairsGrow(Hex(init), HexCode(last / 16), HexCode(last % 16), init, last);
    }
  }

  lemma {:induction false} PairsReadHex(bytes: seq<byte>)
    ensures Pairs(Hex(bytes)) == Some(bytes)
  {
    if bytes != [] {
      var init, last := bytes[..|bytes| - 1], bytes[|bytes| - 1];
      PairsReadHex(init);
      OneMoreReads(init, last);
      assert bytes == init + [last];
    }
  }

  lemma {:induction false} HexIsAscii(bytes: seq<byte>)
    ensures forall i :: 0 <= i < |Hex(bytes)| ==> Hex(bytes)[i] < 128
  {
    if bytes != [] {
      HexIsAscii(bytes[..|bytes| - 1]);
    }
  }

  /** ASCII bytes survive the passage through a string. */
  lemma {:induction false} AsciiTextBytes(text: seq<byte>)
    requires forall i :: 0 <= i < |text| ==> text[i] < 128
    ensures AsBytes(Latin1(text)) == text
  {
    if text != [] {
      AsciiTextBytes(text[1..]);
      assert Latin1(text)[1..] == Latin1(text[1..]);
      assert text == [text[0]] + text[1..];
    }
  }

  /** The id as the logger's field holds it. */
  function HexString(bytes: seq<byte>): string {
    Latin1(Hex(bytes))
  }

  /** Decoding what was encoded gives the id back, except that the all-zero id is no id. */
  lemma DecodeOfEncode(bytes: seq<byte>)
    ensures Decoded(|bytes|, Some(HexString(bytes))) == if AllZero(bytes) then None else Some(bytes)
  {
    HexIsAscii(bytes);
    AsciiTextBytes(Hex(bytes));
    PairsReadHex(bytes);
  }

  function LowerAll(text: seq<byte>): (r: seq<byte>)
    ensures |r| == |text|
  {
    seq(|text|, i requires 0 <= i < |text| => Lower(text[i]))
  }

  lemma {:induction false} HexOfPairs(text: seq<byte>)
    requires Pairs(text).Some?
    ensures Hex(Pairs(text).value) == LowerAll(text)
  {
    if text != [] {
      var init, high, low := text[..|text| - 2], text[|text| - 2], text[|text| - 1];
      HexOfPairs(init);
      PairIsLower(high, low);
      HexAppend(Pairs(init).value, Pair(high, low).value);
      assert LowerAll(text) == LowerAll(init) + [Lower(high), Lower(low)];
    }
  }

  lemma DecodedIsPairs(n: nat, text: seq<byte>)
    requires DecodedText(n, text).Some?
    ensures Pairs(text) == DecodedText(n, text)
  {
  }

  /** What is decoded at all stands for the same text, in lower case. */
  lemma EncodeOfDecode(n: nat, s: string, id: seq<byte>)
    requires Decoded(n, Some(s)) == Some(id)
    ensures Hex(id) == LowerAll(AsBytes(s))
  {
    DecodedIsPairs(n, AsBytes(s));
    HexOfPairs(AsBytes(s));
  }

  // ---------------------------------------------------------------- what is accepted

  predicate IsHexDigit(c: char) {
    '0' <= c <= '9' || 'a' <= c <= 'f' || 'A' <= c <= 'F'
  }

  lemma NibbleIffHexDigit(b: byte)
    ensures Nibble(b).Some? <==> IsHexDigit(b as char)
    ensures Nibble(b) == Some(0) <==> b as char == '0'
  {
  }

  lemma {:induction false} PairsIffDigits(text: seq<byte>)
    ensures Pairs(text).Some? <==> |text| % 2 == 0 && forall i :: 0 <= i < |text| ==> IsHexDigit(text[i] as char)
  {
    if |text| >= 2 {
      var init, high, low := text[..|text| - 2], text[|text| - 2], text[|text| - 1];
      PairsIffDigits(init);
      NibbleIffHexDigit(high);
      NibbleIffHexDigit(low);
      assert text == init + [high, low];
    }
  }

  lemma {:induction false} ZeroIffZeros(text: seq<byte>)
    requires Pairs(text).Some?
    ensures AllZero(Pairs(text).value) <==> forall i :: 0 <= i < |text| ==> text[i] as char == '0'
  {
    if text != [] {
      var init, high, low := text[..|text| - 2], text[|text| - 2], text[|text| - 1];
      ZeroIffZeros(init);
      NibbleIffHexDigit(high);
      NibbleIffHexDigit(low);
      var bytes, last := Pairs(init).value, Pair(high, low).value;
      assert last == 0 <==> high as char == '0' && low as char == '0';
      assert AllZero(bytes + [last]) <==> AllZero(bytes) && last == 0 by {
        assert forall i :: 0 <= i < |bytes| ==> (bytes + [last])[i] == bytes[i];
        assert (bytes + [last])[|bytes|] == last;
      }
      assert text == init + [high, low];
    }
  }

  /** Each byte of the encoding of an ASCII text is its character; others bring bytes that are no digit. */
  lemma DigitsAreAscii(s: string)
    requires forall i :: 0 <= i < |AsBytes(s)| ==> IsHexDigit(AsBytes(s)[i] as char)
    ensures Ascii(s)
  {
    if !Ascii(s) {
      HighByte(s);
    }
  }

  lemma {:induction false} HighByte(s: string)
    requires !Ascii(s)
    ensures exists i :: 0 <= i < |AsBytes(s)| && AsBytes(s)[i] >= 128
  {
    AsciiHead(s);
    if s[0] as int >= 128 {
      assert AsBytes(s)[0] == Utf8(s[0])[0] && Utf8(s[0])[0] in Utf8(s[0]);
    } else {
      HighByte(s[1..]);
      var i :| 0 <= i < |AsBytes(s[1..])| && AsBytes(s[1..])[i] >= 128;
      assert AsBytes(s)[|Utf8(s[0])| + i] == AsBytes(s[1..])[i];
    }
  }

  lemma AsciiDigits(s: string)
    requires Ascii(s)
    ensures (forall i :: 0 <= i < |AsBytes(s)| ==> IsHexDigit(AsBytes(s)[i] as char))
        <==> forall c <- s :: IsHexDigit(c)
    ensures (forall i :: 0 <= i < |AsBytes(s)| ==> AsBytes(s)[i] as char == '0') <==> !exists c <- s :: c != '0'
  {
    AsciiBytes(s);
    assert forall i :: 0 <= i < |s| ==> s[i] in s && AsBytes(s)[i] as char == Latin1(AsBytes(s))[i] == s[i];
  }

  lemma OthersAreNoDigits(s: string)
    requires !Ascii(s)
    ensures !forall c <- s :: IsHexDigit(c)
  {
    var c :| c in s && c as int >= 128;
    assert !IsHexDigit(c);
  }

  /** Exactly the texts of the right length are accepted that consist of hexadecimal digits, upper
      or lower case, not all of them zero. */
  lemma DecodesIff(n: nat, s: string)
    ensures Decoded(n, Some(s)).Some? <==>
      |s| == 2 * n && (forall c <- s :: IsHexDigit(c)) && (exists c <- s :: c != '0')
  {
    var text := AsBytes(s);
    AsciiBytes(s);
    PairsIffDigits(text);
    if Ascii(s) {
      AsciiDigits(s);
      if Pairs(text).Some? {
        ZeroIffZeros(text);
      }
    } else {
      OthersAreNoDigits(s);
      if Pairs(text).Some? {
        DigitsAreAscii(s);
      }
    }
  }
}
