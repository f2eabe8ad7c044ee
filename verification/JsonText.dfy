/**
JSON string escaping as the log writer does it, byte by byte over UTF-8, and the string
grammar of section 7 of RFC 8259 that reads it back.
*/
module JsonText {
  import opened Wrappers

  // ---------------------------------------------------------------- UTF-8

  /** The UTF-8 encoding of one character. */
  function Utf8(c: char): (r: seq<byte>)
    ensures c as int < 128 ==> r == [c as int]
    ensures c as int >= 128 ==> |r| >= 2 && forall b <- r :: b >= 128
  {
    var n := c as int;
    if n < 0x80 then [n]
    else if n < 0x800 then [0xC0 + n / 0x40, 0x80 + n % 0x40]
    else if n < 0x10000 then [0xE0 + n / 0x1000, 0x80 + n / 0x40 % 0x40, 0x80 + n % 0x40]
    else [0xF0 + n / 0x40000, 0x80 + n / 0x1000 % 0x40, 0x80 + n / 0x40 % 0x40, 0x80 + n % 0x40]
  }

  /** The low bits of a byte with this marker in its high bits. */
  function Low(b: byte, marker: int): int {
    b as int - marker
  }

  /** The encoding of section 3 of RFC 3629: one to four bytes by the size of the character, whose
      low bits give it back. */
  lemma Utf8IsInvertible(c: char)
    ensures var (n, u) := (c as int, Utf8(c));
      && |u| == (if n < 0x80 then 1 else if n < 0x800 then 2 else if n < 0x10000 then 3 else 4)
      && (forall i :: 0 < i < |u| ==> 0x80 <= u[i] < 0xC0)
      && (|u| == 1 ==> u[0] == n)
      && (|u| == 2 ==> 0xC0 <= u[0] < 0xE0 && n == Low(u[0], 0xC0) * 64 + Low(u[1], 0x80))
      && (|u| == 3 ==> 0xE0 <= u[0] < 0xF0
                       && n == (Low(u[0], 0xE0) * 64 + Low(u[1], 0x80)) * 64 + Low(u[2], 0x80))
      && (|u| == 4 ==> 0xF0 <= u[0] < 0xF8
                       && n == ((Low(u[0], 0xF0) * 64 + Low(u[1], 0x80)) * 64 + Low(u[2], 0x80)) * 64 + Low(u[3], 0x80))
  {
    var n := c as int;
    assert n / 0x40 / 0x40 == n / 0x1000 && n / 0x1000 / 0x40 == n / 0x40000;
  }

  function AsBytes(s: string): seq<byte> {
    if s == "" then [] else Utf8(s[0]) + AsBytes(s[1..])
  }

  /** Every byte taken for a character of its own. */
  function Latin1(bytes: seq<byte>): (s: string)
    ensures |s| == |bytes|
  {
    seq(|bytes|, i requires 0 <= i < |bytes| => bytes[i] as char)
  }

  predicate Ascii(s: string) {
    forall c <- s :: c as int < 128
  }

  // ---------------------------------------------------------------- escaping

  /** The bytes that the escape table marks. */
  predicate Special(b: byte) {
    b < 32 || b == 34 || b == 92
  }

  predicate NeedsEscape(bytes: seq<byte>) {
    exists b <- bytes :: Special(b)
  }

  /** What JSON asks to be escaped, section 7 of RFC 8259, said of characters. */
  predicate MustEscape(c: char) {
    c as int < 32 || c == '\"' || c == '\\'
  }

  predicate Plain(s: string) {
    forall c <- s :: !MustEscape(c)
  }

  function HexDigit(n: nat): char
    requires n < 16
  {
    "0123456789abcdef"[n]
  }

  function EscapeByte(b: byte): string {
    if b == 34 then "\\\""
    else if b == 92 then "\\\\"
    else if b == 10 then "\\n"
    else if b == 13 then "\\r"
    else if b == 9 then "\\t"
    else if b < 32 then ['\\', 'u', '0', '0', HexDigit(b / 16), HexDigit(b % 16)]
    else [b as char]
  }

  function EscapeBytes(bytes: seq<byte>): string {
    if bytes == [] then "" else EscapeByte(bytes[0]) + EscapeBytes(bytes[1..])
  }

  /** What the writer appends for `s`: `s` itself, or its bytes one by one. */
  function Escaped(s: string): string {
    if NeedsEscape(AsBytes(s)) then EscapeBytes(AsBytes(s)) else s
  }

  /** What a reader gets back. */
  function Carried(s: string): string {
    if NeedsEscape(AsBytes(s)) then Latin1(AsBytes(s)) else s
  }

  /** The test on the bytes is the test on the characters: no byte of a longer encoding is special. */
  lemma {:induction false} NeedsEscapeIffNotPlain(s: string)
    ensures NeedsEscape(AsBytes(s)) <==> exists c <- s :: c as int < 32 || c == '\"' || c == '\\'
    ensures NeedsEscape(AsBytes(s)) <==> !Plain(s)
  {
    if s != "" {
      NeedsEscapeIffNotPlain(s[1..]);
      NeedsConcat(Utf8(s[0]), AsBytes(s[1..]));
      OneCharacter(s[0]);
      assert s == [s[0]] + s[1..];
      assert forall c :: c in s <==> c == s[0] || c in s[1..];
    }
  }

  lemma OneCharacter(c: char)
    ensures NeedsEscape(Utf8(c)) <==> MustEscape(c)
  {
    assert '\"' as int == 34 && '\\' as int == 92;
    assert c as int == 34 ==> c == 34 as char;
    assert c as int == 92 ==> c == 92 as char;
    if c as int < 128 {
      assert Utf8(c) == [c as int];
      assert c as int in Utf8(c);
      assert NeedsEscape(Utf8(c)) <==> Special(c as int);
    } else {
      assert forall b <- Utf8(c) :: !Special(b);
    }
  }

  // ---------------------------------------------------------------- the string grammar

  function HexValue(c: char): (r: Option<nat>)
    ensures r.Some? ==> r.value < 16
  {
    if '0' <= c <= '9' then Some(c as int - '0' as int)
    else if 'a' <= c <= 'f' then Some(c as int - 'a' as int + 10)
    else if 'A' <= c <= 'F' then Some(c as int - 'A' as int + 10)
    else None
  }

  /** Four hexadecimal digits; surrogates are not read. */
  function Unicode(s: string): (r: Option<char>)
    requires |s| >= 4
  {
    match (HexValue(s[0]), HexValue(s[1]), HexValue(s[2]), HexValue(s[3]))
    case (Some(a), Some(b), Some(c), Some(d)) =>
      var n := ((a * 16 + b) * 16 + c) * 16 + d;
      if n < 0xD800 || n >= 0xE000 then Some(n as char) else None
    case _ => None
  }

  /** The character that a one-letter escape stands for. */
  function Simple(c: char): Option<char> {
    if c == '\"' || c == '\\' || c == '/' then Some(c)
    else if c == 'b' then Some(8 as char)
    else if c == 'f' then Some(12 as char)
    else if c == 'n' then Some('\n')
    else if c == 'r' then Some('\r')
    else if c == 't' then Some('\t')
    else None
  }

  /** The rest of a string after its opening quote: its characters, and what follows the closing quote. */
  function ParseString(s: string): (r: Option<(string, string)>)
    ensures r.Some? ==> |r.value.1| < |s|
    decreases |s|
  {
    if s == "" then None
    else if s[0] == '\"' then Some(("", s[1..]))
    else if s[0] == '\\' then
      if |s| < 2 then None
      else if s[1] == 'u' then
        if |s| < 6 then None
        else Then(Unicode(s[2..6]), ParseString(s[6..]))
      else Then(Simple(s[1]), ParseString(s[2..]))
    else if s[0] as int < 32 then None
    else Then(Some(s[0]), ParseString(s[1..]))
  }

  function Then(c: Option<char>, rest: Option<(string, string)>): (r: Option<(string, string)>)
    ensures r.Some? ==> c.Some? && rest.Some? && r.value == ([c.value] + rest.value.0, rest.value.1)
  {
    match (c, rest)
    case (Some(head), Some((tail, after))) => Some(([head] + tail, after))
    case _ => None
  }

  // ---------------------------------------------------------------- reading back

  lemma ReadsByte(b: byte, after: string)
    ensures ParseString(EscapeByte(b) + after) == Then(Some(b as char), ParseString(after))
  {
    var s := EscapeByte(b) + after;
    if b == 34 || b == 92 || b == 10 || b == 13 || b == 9 {
      assert s[2..] == after;
    } else if b < 32 {
      assert s[6..] == after;
      assert s[2..6] == ['0', '0', HexDigit(b / 16), HexDigit(b % 16)];
      HexDigitReads(b / 16);
      HexDigitReads(b % 16);
    } else {
      assert s[1..] == after;
    }
  }

  lemma HexDigitReads(n: nat)
    requires n < 16
    ensures HexValue(HexDigit(n)) == Some(n)
  {
  }

  /** Characters in front of a string that reads on. */
  function Prepend(text: string, rest: Option<(string, string)>): Option<(string, string)> {
    match rest
    case None => None
    case Some((tail, after)) => Some((text + tail, after))
  }

  lemma {:induction false} ReadsBytes(bytes: seq<byte>, rest: string)
    ensures ParseString(EscapeBytes(bytes) + rest) == Prepend(Latin1(bytes), ParseString(rest))
  {
    if bytes == [] {
      assert EscapeBytes(bytes) + rest == rest;
      NothingPrepended(ParseString(rest));
    } else {
      ReadsBytes(bytes[1..], rest);
      ReadsByte(bytes[0], EscapeBytes(bytes[1..]) + rest);
      assert EscapeBytes(bytes) + rest == EscapeByte(bytes[0]) + (EscapeBytes(bytes[1..]) + rest);
      PrependedTwice(bytes[0] as char, Latin1(bytes[1..]), ParseString(rest));
      assert Latin1(bytes) == [bytes[0] as char] + Latin1(bytes[1..]);
    }
  }

  lemma NothingPrepended(rest: Option<(string, string)>)
    ensures Prepend("", rest) == rest
  {
    match rest
    case None =>
    case Some((tail, after)) => assert "" + tail == tail;
  }

  lemma PrependedTwice(c: char, text: string, rest: Option<(string, string)>)
    ensures Then(Some(c), Prepend(text, rest)) == Prepend([c] + text, rest)
  {
    match rest
    case None =>
    case Some((tail, after)) => assert [c] + (text + tail) == [c] + text + tail;
  }

  lemma {:induction false} ReadsPlain(s: string, rest: string)
    requires !NeedsEscape(AsBytes(s))
    ensures ParseString(s + rest) == Prepend(s, ParseString(rest))
  {
    if s == "" {
      assert s + rest == rest;
      NothingPrepended(ParseString(rest));
    } else {
      assert AsBytes(s) == Utf8(s[0]) + AsBytes(s[1..]);
      assert Utf8(s[0])[0] in AsBytes(s);
      assert forall b <- AsBytes(s[1..]) :: b in AsBytes(s);
      ReadsPlain(s[1..], rest);
      assert (s + rest)[1..] == s[1..] + rest;
      PrependedTwice(s[0], s[1..], ParseString(rest));
      assert [s[0]] + s[1..] == s;
    }
  }

  /** Whatever was written for `s` reads as `Carried(s)`, in front of whatever follows. */
  lemma EscapedReadsBack(s: string, rest: string)
    ensures ParseString(Escaped(s) + rest) == Prepend(Carried(s), ParseString(rest))
  {
    if NeedsEscape(AsBytes(s)) {
      ReadsBytes(AsBytes(s), rest);
    } else {
      ReadsPlain(s, rest);
    }
  }

  lemma StringReadsBack(s: string, after: string)
    ensures ParseString(Escaped(s) + ("\"" + after)) == Some((Carried(s), after))
  {
    EscapedReadsBack(s, "\"" + after);
    assert ("\"" + after)[1..] == after;
    assert Carried(s) + "" == Carried(s);
  }

  lemma AsciiHead(s: string)
    requires s != ""
    ensures Ascii(s) <==> s[0] as int < 128 && Ascii(s[1..])
  {
    assert s[0] in s;
    assert forall c <- s[1..] :: c in s;
    if s[0] as int < 128 && Ascii(s[1..]) {
      forall c | c in s
        ensures c as int < 128
      {
        assert c == s[0] || c in s[1..];
      }
    }
  }

  lemma {:induction false} AsciiBytes(s: string)
    ensures |AsBytes(s)| >= |s|
    ensures Ascii(s) <==> |AsBytes(s)| == |s|
    ensures Ascii(s) ==> Latin1(AsBytes(s)) == s
  {
    if s != "" {
      AsciiBytes(s[1..]);
      AsciiHead(s);
    }
  }

  /** The exact law of the escape round trip: the text comes back unchanged if and only if
      it is ASCII or contains no control character, quote or backslash. Otherwise each of its
      bytes comes back as a character of its own. */
  lemma RoundTripIffAscii(s: string, after: string)
    ensures ParseString(Escaped(s) + ("\"" + after)) == Some((s, after)) <==>
      Ascii(s) || forall c <- s :: c as int >= 32 && c != '\"' && c != '\\'
  {
    NeedsEscapeIffNotPlain(s);
    StringReadsBack(s, after);
    AsciiBytes(s);
  }

  /** A shortest witness: a quote after a non-ASCII letter comes back as two letters and a quote. */
  lemma NonAsciiIsWidened()
    ensures Carried(['\U{E9}', '\"']) == ['\U{C3}', '\U{A9}', '\"']
  {
    assert AsBytes(['\"']) == [34] + AsBytes([]);
    assert AsBytes(['\U{E9}', '\"']) == [0xC3, 0xA9, 34];
    assert Special(34);
    assert 34 in AsBytes(['\U{E9}', '\"']);
  }

  // ---------------------------------------------------------------- chunks

  lemma {:induction false} BytesConcat(a: string, b: string)
    ensures AsBytes(a + b) == AsBytes(a) + AsBytes(b)
  {
    if a == "" {
      assert a + b == b;
    } else {
      assert (a + b)[1..] == a[1..] + b;
      BytesConcat(a[1..], b);
    }
  }

  lemma {:induction false} EscapeConcat(a: seq<byte>, b: seq<byte>)
    ensures EscapeBytes(a + b) == EscapeBytes(a) + EscapeBytes(b)
  {
    if a == [] {
      assert a + b == b;
    } else {
      assert (a + b)[1..] == a[1..] + b;
      EscapeConcat(a[1..], b);
    }
  }

  /** The slow path leaves a text without special bytes alone exactly when it is ASCII. */
  lemma {:induction false} SlowPathOnPlain(s: string)
    requires !NeedsEscape(AsBytes(s))
    ensures |EscapeBytes(AsBytes(s))| == |AsBytes(s)|
    ensures EscapeBytes(AsBytes(s)) == s <==> Ascii(s)
  {
    PlainBytesStay(AsBytes(s));
    AsciiBytes(s);
  }

  lemma {:induction false} PlainBytesStay(bytes: seq<byte>)
    requires !NeedsEscape(bytes)
    ensures EscapeBytes(bytes) == Latin1(bytes)
  {
    if bytes != [] {
      assert bytes[0] in bytes && !Special(bytes[0]);
      assert forall b <- bytes[1..] :: b in bytes;
      PlainBytesStay(bytes[1..]);
      assert Latin1(bytes) == [bytes[0] as char] + Latin1(bytes[1..]);
    }
  }

  /** Escaping piece by piece gives what escaping the whole gives, exactly when no piece is
      ASCII-unsafe beside one that needs escaping. In particular always for ASCII text. */
  lemma EscapeDistributes(a: string, b: string)
    ensures Escaped(a + b) == Escaped(a) + Escaped(b) <==>
      && (!Plain(a) && Plain(b) ==> Ascii(b))
      && (!Plain(b) && Plain(a) ==> Ascii(a))
  {
    NeedsEscapeIffNotPlain(a);
    NeedsEscapeIffNotPlain(b);
    BytesConcat(a, b);
    EscapeConcat(AsBytes(a), AsBytes(b));
    var na, nb := NeedsEscape(AsBytes(a)), NeedsEscape(AsBytes(b));
    NeedsConcat(AsBytes(a), AsBytes(b));
    if na && !nb {
      SlowPathOnPlain(b);
      SamePrefix(EscapeBytes(AsBytes(a)), EscapeBytes(AsBytes(b)), b);
    } else if nb && !na {
      SlowPathOnPlain(a);
      SameSuffix(EscapeBytes(AsBytes(a)), a, EscapeBytes(AsBytes(b)));
    }
  }

  lemma NeedsConcat(a: seq<byte>, b: seq<byte>)
    ensures NeedsEscape(a + b) <==> NeedsEscape(a) || NeedsEscape(b)
  {
    assert forall x :: x in a + b <==> x in a || x in b;
  }

  lemma SamePrefix(p: string, x: string, y: string)
    ensures p + x == p + y <==> x == y
  {
    assert (p + x)[|p|..] == x && (p + y)[|p|..] == y;
  }

  lemma SameSuffix(x: string, y: string, p: string)
    ensures x + p == y + p <==> x == y
  {
    if x + p == y + p {
      assert |x| == |y|;
      assert (x + p)[..|x|] == x && (y + p)[..|y|] == y;
    }
  }

  // ---------------------------------------------------------------- one line

  /** No control character, so no line break. */
  predicate Printable(s: string) {
    forall c <- s :: c as int >= 32
  }

  lemma PrintableConcat(a: string, b: string)
    ensures Printable(a + b) <==> Printable(a) && Printable(b)
  {
    assert forall c :: c in a + b <==> c in a || c in b;
  }

  /** Whatever the text contains, what is written for it breaks no line. */
  lemma EscapedIsPrintable(s: string)
    ensures Printable(Escaped(s))
  {
    if NeedsEscape(AsBytes(s)) {
      BytesArePrintable(AsBytes(s));
    } else {
      NeedsEscapeIffNotPlain(s);
    }
  }

  lemma {:induction false} BytesArePrintable(bytes: seq<byte>)
    ensures Printable(EscapeBytes(bytes))
  {
    if bytes != [] {
      BytesArePrintable(bytes[1..]);
      PrintableConcat(EscapeByte(bytes[0]), EscapeBytes(bytes[1..]));
    }
  }

  /** Exactly the special bytes are escaped: as shortly as JSON allows, and in lower case. */
  lemma EscapesAreShort(b: byte)
    ensures |EscapeByte(b)| > 1 <==> Special(b)
    ensures |EscapeByte(b)| == 2 <==> b == 34 || b == 92 || b == 10 || b == 13 || b == 9
    ensures Special(b) ==> EscapeByte(b)[0] == '\\' && forall c <- EscapeByte(b) :: !('A' <= c <= 'Z')
  {
  }
}
