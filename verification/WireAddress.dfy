// The text in which two hosts exchange their queue-pair addresses before they
// are connected: hexadecimal fields printed with sprintf and read with sscanf.
module WireAddress {
  import opened Messages
  import opened Codec

  // ----- hexadecimal numbers -----------------------------------------------------------

  function HexDigit(d: nat): char
    requires d < 16
  {
    "0123456789abcdef"[d]
  }

  function DigitValue(c: char): (v: Option<nat>)
    ensures v.Some? ==> v.value < 16
  {
    if '0' <= c <= '9' then Some((c - '0') as nat)
    else if 'a' <= c <= 'f' then Some((c - 'a') as nat + 10)
    else if 'A' <= c <= 'F' then Some((c - 'A') as nat + 10)
    else None
  }

  lemma DigitBack(d: nat)
    requires d < 16
    ensures DigitValue(HexDigit(d)) == Some(d)
  {
  }

  // The digits that %x prints.
  function Hex(v: nat): (s: string)
    ensures |s| >= 1
  {
    if v < 16 then [HexDigit(v)] else Hex(v / 16) + [HexDigit(v % 16)]
  }

  // %0wx: padded with zeros to the width, but never cut.
  function Printed(v: nat, width: nat): string {
    (if |Hex(v)| < width then seq(width - |Hex(v)|, _ => '0') else []) + Hex(v)
  }

  function Pow16(n: nat): (p: nat)
    ensures p >= 1
  {
    if n == 0 then 1 else 16 * Pow16(n - 1)
  }

  predicate AllHex(s: string) {
    forall i | 0 <= i < |s| :: DigitValue(s[i]).Some?
  }

  function HexValue(s: string): nat
    requires AllHex(s)
  {
    if s == [] then 0 else 16 * HexValue(s[..|s| - 1]) + DigitValue(s[|s| - 1]).value
  }

  lemma {:induction false} HexLength(v: nat, width: nat)
    requires width >= 1
    ensures |Hex(v)| <= width <==> v < Pow16(width)
  {
    if v >= 16 && width > 1 {
      HexLength(v / 16, width - 1);
    } else if width > 1 {
      Pow16Grows(width - 1);
    }
  }

  lemma Pow16Grows(n: nat)
    ensures Pow16(n) >= 1
  {
  }

  // A padded number is as wide as asked for exactly when it is small enough.
  lemma PrintedWidth(v: nat, width: nat)
    requires width >= 1
    ensures |Printed(v, width)| >= width
    ensures |Printed(v, width)| == width <==> v < Pow16(width)
  {
    HexLength(v, width);
  }

  // Appending a digit multiplies by sixteen, in a wider field.
  lemma PrintedStep(v: nat, d: nat, width: nat)
    requires d < 16 && width >= 1
    ensures Printed(16 * v + d, width + 1) == Printed(v, width) + [HexDigit(d)]
  {
    var w := 16 * v + d;
    assert w / 16 == v && w % 16 == d;
    if v == 0 {
      assert Hex(v) == ['0'] && Hex(w) == [HexDigit(d)];
    } else {
      assert Hex(w) == Hex(v) + [HexDigit(d)];
    }
  }

  lemma {:induction false} HexBack(v: nat)
    ensures AllHex(Hex(v)) && HexValue(Hex(v)) == v
  {
    DigitBack(v % 16);
    if v >= 16 {
      HexBack(v / 16);
      HexSnoc(Hex(v / 16), HexDigit(v % 16));
      hide HexValue, AllHex, HexDigit, DigitValue;
    } else {
      assert Hex(v)[..0] == [];
    }
  }

  lemma HexSnoc(s: string, c: char)
    requires AllHex(s) && DigitValue(c).Some?
    ensures AllHex(s + [c]) && HexValue(s + [c]) == 16 * HexValue(s) + DigitValue(c).value
  {
    assert (s + [c])[..|s|] == s;
  }

  lemma {:induction false} ZerosDoNotCount(n: nat, s: string)
    requires AllHex(s)
    ensures AllHex(seq(n, _ => '0') + s) && HexValue(seq(n, _ => '0') + s) == HexValue(s)
    decreases |s|, n
  {
    var t := seq(n, _ => '0') + s;
    if s != [] {
      ZerosDoNotCount(n, s[..|s| - 1]);
      assert t[..|t| - 1] == seq(n, _ => '0') + s[..|s| - 1];
    } else if n > 0 {
      ZerosDoNotCount(n - 1, s);
      assert t[..|t| - 1] == seq(n - 1, _ => '0') + s;
    }
  }

  lemma PrintedBack(v: nat, width: nat)
    ensures AllHex(Printed(v, width)) && HexValue(Printed(v, width)) == v
  {
    HexBack(v);
    if |Hex(v)| < width {
      ZerosDoNotCount(width - |Hex(v)|, Hex(v));
    } else {
      assert Printed(v, width) == Hex(v);
    }
  }

  // The digits of a padded number, counted from the right, are those of its value.
  lemma {:induction false} PrintedDigit(v: nat, width: nat, i: nat)
    requires i < |Printed(v, width)|
    ensures Printed(v, width)[|Printed(v, width)| - 1 - i] == "0123456789abcdef"[v / Pow16(i) % 16]
    decreases i
  {
    hide Hex, Printed, HexDigit;
    if i == 0 {
      LastDigit(v, width);
    } else {
      var w := if width >= 2 then width - 1 else 1;
      MoreDigits(v, width);
      PrintedFront(v, width, w);
      PrintedDigit(v / 16, w, i - 1);
      DivTwice(v, 16, Pow16(i - 1));
    }
  }

  lemma LastDigit(v: nat, width: nat)
    ensures |Printed(v, width)| >= 1 && Printed(v, width)[|Printed(v, width)| - 1] == "0123456789abcdef"[v % 16]
  {
    assert Hex(v)[|Hex(v)| - 1] == HexDigit(v % 16);
  }

  lemma MoreDigits(v: nat, width: nat)
    requires |Printed(v, width)| >= 2
    ensures width >= 2 || v >= 16
  {
  }

  // Without its last digit a number is a sixteenth of it.
  lemma PrintedFront(v: nat, width: nat, w: nat)
    requires (width >= 2 && w == width - 1) || (width < 2 && w == 1 && v >= 16)
    ensures Printed(v, width) == Printed(v / 16, w) + [HexDigit(v % 16)]
  {
    if width >= 2 {
      PrintedStep(v / 16, v % 16, w);
    }
  }

  // Digits of either case are read, and nothing else.
  lemma DigitsRead(c: char, d: nat)
    requires d < 16
    ensures DigitValue("0123456789abcdef"[d]) == DigitValue("0123456789ABCDEF"[d]) == Some(d)
    ensures DigitValue(c).Some? ==> c in "0123456789abcdefABCDEF"
  {
    if '0' <= c <= '9' {
      assert "0123456789abcdefABCDEF"[(c - '0') as nat] == c;
    } else if 'a' <= c <= 'f' {
      assert "0123456789abcdefABCDEF"[(c - 'a') as nat + 10] == c;
    } else if 'A' <= c <= 'F' {
      assert "0123456789abcdefABCDEF"[(c - 'A') as nat + 16] == c;
    }
  }

  // ----- reading them back ----------------------------------------------------------------

  // The number of hexadecimal digits in front.
  function HexRun(text: string): (n: nat)
    ensures n <= |text| && AllHex(text[..n])
    ensures n < |text| ==> DigitValue(text[n]).None?
  {
    if text == [] || DigitValue(text[0]).None? then 0
    else
      var n := HexRun(text[1..]);
      assert forall i | 0 < i <= n :: text[i] == text[1..][..n][i - 1];
      n + 1
  }

  type Word32 = x: nat | x < TWO_TO_32
  type Word64 = x: nat | x < TWO_TO_64

  const WHITE_SPACE := " \t\n\U{00000B}\U{00000C}\r"

  function SkipWhite(text: string): string {
    if text != [] && text[0] in WHITE_SPACE then SkipWhite(text[1..]) else text
  }

  // An optional sign, and whether it is a minus.
  function ScanSign(text: string): (bool, string) {
    if text != [] && (text[0] == '-' || text[0] == '+') then (text[0] == '-', text[1..]) else (false, text)
  }

  // An optional 0x. As section 7.21.6.2 of ISO/IEC 9899:2011 has it, one without
  // a digit behind it is no number.
  function SkipPrefix(text: string): string {
    if |text| >= 2 && text[0] == '0' && (text[1] == 'x' || text[1] == 'X') then text[2..] else text
  }

  function ScanDigits(text: string): Option<(nat, string)> {
    var n := HexRun(text);
    if n == 0 then None else Some((HexValue(text[..n]), text[n..]))
  }

  // %x stores 32 bits, %lx 64.
  function Limit(long: bool): nat {
    if long then TWO_TO_64 else TWO_TO_32
  }

  // strtoul: 64 bits, saturating, a minus negates; then cut to the variable.
  function Converted(negative: bool, magnitude: nat, long: bool): (v: nat)
    ensures v < Limit(long)
  {
    var x := if magnitude >= TWO_TO_64 then TWO_TO_64 - 1
             else if negative && magnitude > 0 then TWO_TO_64 - magnitude
             else magnitude;
    if long then x else x % TWO_TO_32
  }

  // %x or %lx: the number, and the rest of the text; without a digit nothing is
  // stored.
  function ScanHex(text: string, long: bool): (read: Option<(nat, string)>)
    ensures read.Some? ==> read.value.0 < Limit(long)
  {
    var (negative, number) := ScanSign(SkipWhite(text));
    match ScanDigits(SkipPrefix(number))
    case None => None
    case Some((magnitude, rest)) => Some((Converted(negative, magnitude, long), rest))
  }

  // Such a number followed by a literal colon.
  function ScanField(text: string, long: bool): (read: Option<(nat, string)>)
    ensures read.Some? ==> read.value.0 < Limit(long)
  {
    match ScanHex(text, long)
    case None => None
    case Some((v, rest)) => if rest != [] && rest[0] == ':' then Some((v, rest[1..])) else None
  }

  lemma {:induction false} RunStops(s: string, rest: string)
    requires AllHex(s) && (rest == [] || DigitValue(rest[0]).None?)
    ensures HexRun(s + rest) == |s|
  {
    if s == [] {
      assert s + rest == rest;
    } else {
      RunStops(s[1..], rest);
      assert (s + rest)[1..] == s[1..] + rest;
      assert (s + rest)[0] == s[0];
    }
  }

  // A text of digits has no white space, sign or prefix in front.
  lemma NothingSkipped(s: string, rest: string)
    requires AllHex(s) && s != [] && (rest == [] || rest[0] == ':')
    ensures SkipWhite(s + rest) == s + rest && ScanSign(s + rest) == (false, s + rest)
    ensures SkipPrefix(s + rest) == s + rest
  {
    var text := s + rest;
    assert DigitValue(text[0]).Some?;
    if |text| >= 2 {
      assert text[1] == ':' || DigitValue(text[1]).Some?;
    }
  }

  lemma DigitsScanned(s: string, rest: string)
    requires AllHex(s) && s != [] && (rest == [] || rest[0] == ':')
    ensures ScanDigits(s + rest) == Some((HexValue(s), rest))
  {
    RunStops(s, rest);
    assert (s + rest)[..|s|] == s && (s + rest)[|s|..] == rest;
  }

  // What was printed is read back, up to the end or a colon.
  lemma ScanPrinted(v: nat, width: nat, rest: string, long: bool)
    requires v < Limit(long) && (rest == [] || rest[0] == ':')
    ensures ScanHex(Printed(v, width) + rest, long) == Some((v, rest))
  {
    var s := Printed(v, width);
    assert s != [];
    PrintedBack(v, width);
    hide Printed, HexValue, ScanDigits, SkipWhite, ScanSign, SkipPrefix, Converted;
    NothingSkipped(s, rest);
    DigitsScanned(s, rest);
    ConvertedBack(v, long);
  }

  lemma ConvertedBack(v: nat, long: bool)
    requires v < Limit(long)
    ensures Converted(false, v, long) == v
  {
  }

  lemma {:induction false} WhiteSkipped(white: string, text: string)
    requires forall c | c in white :: c in WHITE_SPACE
    requires text == [] || text[0] !in WHITE_SPACE
    ensures SkipWhite(white + text) == text
  {
    if white == [] {
      assert white + text == text;
    } else {
      assert (white + text)[1..] == white[1..] + text;
      assert white[0] in white;
      assert forall c | c in white[1..] :: c in white;
      WhiteSkipped(white[1..], text);
    }
  }

  lemma SignScanned(sign: string, text: string)
    requires sign == "" || sign == "+" || sign == "-"
    requires text != [] && text[0] != '+' && text[0] != '-'
    ensures ScanSign(sign + text) == (sign == "-", text)
  {
    if sign == "" {
      assert sign + text == text;
    } else {
      assert (sign + text)[1..] == text;
    }
  }

  // All that %x reads: white space, a sign, 0x, digits of either case, up to
  // the first character that is none.
  lemma ScanLaw(white: string, sign: string, prefix: string, digits: string, rest: string, long: bool)
    requires forall c | c in white :: c in " \t\n\U{00000B}\U{00000C}\r"
    requires (sign == "" || sign == "+" || sign == "-") && (prefix == "" || prefix == "0x" || prefix == "0X")
    requires AllHex(digits) && digits != [] && (rest == [] || DigitValue(rest[0]).None?)
    requires prefix == "" && digits == "0" && rest != [] ==> rest[0] != 'x' && rest[0] != 'X'
    ensures ScanHex(white + (sign + (prefix + (digits + rest))), long)
         == Some((Converted(sign == "-", HexValue(digits), long), rest))
  {
    hide HexValue, Converted, HexRun;
    var body := prefix + (digits + rest);
    var number := digits + rest;
    assert number[0] == digits[0];
    if |number| >= 2 && |digits| >= 2 {
      assert number[1] == digits[1];
    }
    assert SkipPrefix(body) == number;
    WhiteSkipped(white, sign + body);
    assert DigitValue(body[0]).Some?;
    SignScanned(sign, body);
    RunStops(digits, rest);
    assert number[..|digits|] == digits && number[|digits|..] == rest;
  }

  // Text without a digit where one is due stores nothing.
  lemma ScanNothing(white: string, rest: string, long: bool)
    requires forall c | c in white :: c in " \t\n\U{00000B}\U{00000C}\r"
    requires rest == [] || (DigitValue(rest[0]).None? && rest[0] !in " \t\n\U{00000B}\U{00000C}\r+-")
    ensures ScanHex(white + rest, long) == None
    ensures ScanHex(white + ("-" + rest), long) == ScanHex(white + ("+" + rest), long) == None
  {
    WhiteSkipped(white, rest);
    WhiteSkipped(white, "-" + rest);
    WhiteSkipped(white, "+" + rest);
    assert ("-" + rest)[1..] == rest && ("+" + rest)[1..] == rest;
  }

  // What is stored of a number, too: as it is if it fits; its complement behind
  // a minus; all ones for what does not fit 64 bits.
  lemma ConvertedLaws(m: nat)
    ensures m < TWO_TO_32 ==> Converted(false, m, false) == Converted(false, m, true) == m
    ensures 0 < m < TWO_TO_32 ==> Converted(true, m, false) == TWO_TO_32 - m
    ensures 0 < m < TWO_TO_64 ==> Converted(true, m, true) == TWO_TO_64 - m
    ensures m < TWO_TO_64 ==> Converted(false, m, true) == m && Converted(false, m, false) == m % 0x1_0000_0000
    ensures m >= TWO_TO_64 ==> forall negative ::
              Converted(negative, m, true) == TWO_TO_64 - 1 && Converted(negative, m, false) == TWO_TO_32 - 1
  {
  }

  lemma ScanPrintedField(v: nat, width: nat, rest: string, long: bool)
    requires v < Limit(long)
    ensures ScanField(Printed(v, width) + ":" + rest, long) == Some((v, rest))
  {
    hide Printed, ScanHex;
    ScanPrinted(v, width, ":" + rest, long);
    assert Printed(v, width) + ":" + rest == Printed(v, width) + (":" + rest);
    assert (":" + rest)[1..] == rest;
  }

  // ----- the global identifier ---------------------------------------------------------------

  type Gid = g: seq<byte> | |g| == 16 witness seq(16, _ => 0)

  // htonl of the word that a little-endian machine loads from the k-th four bytes.
  function Word(gid: Gid, k: nat): (w: nat)
    requires k < 4
    ensures w < Pow256(4)
  {
    Swapped(4, Loaded(gid[4 * k..4 * k + 4]))
  }

  function GidText(gid: Gid, words: nat): string
    requires words <= 4
  {
    if words == 0 then [] else GidText(gid, words - 1) + Printed(Word(gid, words - 1), 8)
  }

  // The bytes in order, two digits each.
  function BytesText(bytes: seq<byte>): string {
    if bytes == [] then []
    else
      var b := bytes[|bytes| - 1];
      BytesText(bytes[..|bytes| - 1]) + [HexDigit(b / 16), HexDigit(b % 16)]
  }

  lemma LoadedCons(b: byte, r: seq<byte>)
    ensures Loaded([b] + r) == b + 256 * Loaded(r)
  {
    assert ([b] + r)[1..] == r;
  }

  lemma ReversedLast(bytes: seq<byte>, b: byte)
    ensures Reversed(bytes + [b]) == [b] + Reversed(bytes)
  {
    hide Reversed;
    var r, s := Reversed(bytes + [b]), [b] + Reversed(bytes);
    assert |r| == |s| && forall i | 0 <= i < |r| :: r[i] == s[i];
  }

  // The last byte in memory is the lowest of the swapped word.
  lemma LastIsLowest(bytes: seq<byte>, b: byte)
    ensures Loaded(Reversed(bytes + [b])) == b + 256 * Loaded(Reversed(bytes))
  {
    hide Reversed, Loaded;
    ReversedLast(bytes, b);
    LoadedCons(b, Reversed(bytes));
  }

  lemma PrintedTwice(v: nat, high: nat, low: nat, width: nat)
    requires width >= 1 && high < 16 && low < 16
    ensures Printed(16 * high + low + 256 * v, width + 2) == Printed(v, width) + [HexDigit(high), HexDigit(low)]
  {
    hide Printed, HexDigit;
    PrintedStep(v, high, width);
    PrintedStep(16 * v + high, low, width + 1);
    assert 16 * (16 * v + high) + low == 16 * high + low + 256 * v;
    assert [HexDigit(high)] + [HexDigit(low)] == [HexDigit(high), HexDigit(low)];
  }

  lemma ByteStep(v: nat, b: byte, width: nat)
    requires width >= 1
    ensures Printed(b + 256 * v, width + 2) == Printed(v, width) + [HexDigit(b / 16), HexDigit(b % 16)]
  {
    hide Printed, HexDigit;
    PrintedTwice(v, b / 16, b % 16, width);
    assert 16 * (b / 16) + b % 16 == b;
  }

  lemma OneByte(b: byte)
    ensures Printed(b, 2) == [HexDigit(b / 16), HexDigit(b % 16)]
  {
    PrintedStep(b / 16, b % 16, 1);
    assert 16 * (b / 16) + b % 16 == b;
    assert Printed(b / 16, 1) == [HexDigit(b / 16)];
  }

  // Printing the swapped word as one number prints its bytes in memory order.
  lemma {:induction false} SwappedPrints(bytes: seq<byte>)
    requires bytes != []
    ensures Printed(Loaded(Reversed(bytes)), 2 * |bytes|) == BytesText(bytes)
  {
    hide Printed, HexDigit;
    var n := |bytes| - 1;
    assert bytes == bytes[..n] + [bytes[n]];
    LastIsLowest(bytes[..n], bytes[n]);
    if n == 0 {
      assert bytes[..n] == [];
      OneByte(bytes[n]);
    } else {
      hide Loaded, Reversed;
      SwappedPrints(bytes[..n]);
      ByteStep(Loaded(Reversed(bytes[..n])), bytes[n], 2 * n);
    }
  }

  lemma {:induction false} BytesTextAt(bytes: seq<byte>, i: nat)
    requires i < |bytes|
    ensures |BytesText(bytes)| == 2 * |bytes|
    ensures BytesText(bytes)[2 * i] == "0123456789abcdef"[bytes[i] / 16]
    ensures BytesText(bytes)[2 * i + 1] == "0123456789abcdef"[bytes[i] % 16]
  {
    BytesTextLength(bytes);
    BytesTextLength(bytes[..|bytes| - 1]);
    if i < |bytes| - 1 {
      BytesTextAt(bytes[..|bytes| - 1], i);
    }
  }

  lemma {:induction false} BytesTextConcat(a: seq<byte>, b: seq<byte>)
    ensures BytesText(a + b) == BytesText(a) + BytesText(b)
    decreases |b|
  {
    if b == [] {
      assert a + b == a;
    } else {
      BytesTextConcat(a, b[..|b| - 1]);
      assert (a + b)[..|a + b| - 1] == a + b[..|b| - 1];
    }
  }

  lemma {:induction false} BytesTextLength(bytes: seq<byte>)
    ensures |BytesText(bytes)| == 2 * |bytes|
  {
    if bytes != [] {
      BytesTextLength(bytes[..|bytes| - 1]);
    }
  }

  lemma WordPrints(gid: Gid, k: nat)
    requires k < 4
    ensures Printed(Word(gid, k), 8) == BytesText(gid[4 * k..4 * k + 4])
  {
    hide Printed, BytesText, Loaded, Reversed, Stored;
    StoreLoaded(gid[4 * k..4 * k + 4]);
    SwappedPrints(gid[4 * k..4 * k + 4]);
  }

  lemma {:induction false} GidInOrder(gid: Gid, words: nat)
    requires words <= 4
    ensures GidText(gid, words) == BytesText(gid[..4 * words]) && |GidText(gid, words)| == 8 * words
  {
    hide Printed, Word;
    BytesTextLength(gid[..4 * words]);
    if words > 0 {
      var k := words - 1;
      GidInOrder(gid, k);
      WordPrints(gid, k);
      assert gid[..4 * k] + gid[4 * k..4 * k + 4] == gid[..4 * words];
      BytesTextConcat(gid[..4 * k], gid[4 * k..4 * k + 4]);
      hide BytesText;
    }
  }

  // Eight characters at a time: read a number and store it in network order, if
  // there is one in each.
  function ParsedGid(text: string, words: nat): (bytes: Option<seq<byte>>)
    requires 8 * words <= |text|
    ensures bytes.Some? ==> |bytes.value| == 4 * words
  {
    if words == 0 then Some([])
    else
      match ParsedGid(text, words - 1)
      case None => None
      case Some(front) =>
        match ScanHex(text[8 * (words - 1)..8 * words], false)
        case None => None
        case Some((v, _)) => Some(front + Stored(4, Swapped(4, v)))
  }

  lemma {:induction false} GidRoundTrip(gid: Gid, text: string, words: nat)
    requires words <= 4 && |text| >= 32 && text[..8 * words] == GidText(gid, words)
    ensures ParsedGid(text, words) == Some(gid[..4 * words])
  {
    hide Printed, Word, BytesText, Stored, Swapped, ScanHex;
    if words > 0 {
      var k := words - 1;
      var printed := Printed(Word(gid, k), 8);
      GidInOrder(gid, k);
      GidInOrder(gid, words);
      assert text[..8 * words][..8 * k] == text[..8 * k] == GidText(gid, k);
      GidRoundTrip(gid, text, k);
      assert text[8 * k..8 * words] == text[..8 * words][8 * k..] == printed;
      WordSizes();
      ScanPrinted(Word(gid, k), 8, [], false);
      assert printed + [] == printed;
      WordBack(gid, k);
      assert gid[..4 * k] + gid[4 * k..4 * k + 4] == gid[..4 * words];
    }
  }

  lemma WordBack(gid: Gid, k: nat)
    requires k < 4
    ensures Stored(4, Swapped(4, Word(gid, k))) == gid[4 * k..4 * k + 4]
  {
    hide Stored, Swapped, Loaded;
    SwapTwice(4, Loaded(gid[4 * k..4 * k + 4]));
    StoreLoaded(gid[4 * k..4 * k + 4]);
  }

  // The word in hand after reading so many: a number without digits leaves the
  // word as it was, at first whatever the stack held.
  function WordRead(text: string, words: nat, stack: Word32): Word32
    requires 8 * words <= |text|
  {
    if words == 0 then stack
    else
      match ScanHex(text[8 * (words - 1)..8 * words], false)
      case None => WordRead(text, words - 1, stack)
      case Some((v, _)) => v
  }

  function GidRead(text: string, words: nat, stack: Word32): (bytes: seq<byte>)
    requires 8 * words <= |text|
    ensures |bytes| == 4 * words
  {
    if words == 0 then []
    else GidRead(text, words - 1, stack) + Stored(4, Swapped(4, WordRead(text, words, stack)))
  }

  lemma GidReadNone(text: string, stack: Word32)
    ensures WordRead(text, 0, stack) == stack && GidRead(text, 0, stack) == []
  {
  }

  lemma GidReadNext(text: string, i: nat, stack: Word32)
    requires 8 * i + 8 <= |text|
    ensures var read := ScanHex(text[8 * i..8 * i + 8], false);
            WordRead(text, i + 1, stack) == if read.Some? then read.value.0 else WordRead(text, i, stack)
    ensures GidRead(text, i + 1, stack)
         == GidRead(text, i, stack) + Stored(4, Swapped(4, WordRead(text, i + 1, stack)))
  {
    hide ScanHex, Stored, Swapped;
    assert 8 * (i + 1) == 8 * i + 8;
  }

  // The number read from each eight characters lies in memory most significant
  // byte first.
  lemma {:induction false} GidReadAt(text: string, words: nat, stack: Word32, k: nat, i: nat)
    requires 8 * words <= |text| && k < words && i < 4
    ensures GidRead(text, words, stack)[4 * k + i] == WordRead(text, k + 1, stack) / Pow256(3 - i) % 256
  {
    hide Stored, Swapped, ScanHex, WordRead;
    if k < words - 1 {
      GidReadAt(text, words - 1, stack, k, i);
    } else {
      SwappedAt(4, WordRead(text, words, stack), i);
    }
  }

  // Where every word has digits, what is read is what the text says, whatever
  // the stack held.
  lemma {:induction false} ReadIsParsed(text: string, words: nat, stack: Word32)
    requires 8 * words <= |text| && ParsedGid(text, words).Some?
    ensures ParsedGid(text, words) == Some(GidRead(text, words, stack))
  {
    hide ScanHex, Stored, Swapped;
    if words > 0 {
      ReadIsParsed(text, words - 1, stack);
    }
  }

  // ----- the whole message ------------------------------------------------------------------

  // lid, qpn and psn are C ints, printed and read as unsigned.
  datatype Dest = Dest(lid: Word32, qpn: Word32, psn: Word32, gid: Gid)

  // The bandwidth test also sends where it can be written to.
  datatype ExtendedDest = ExtendedDest(lid: Word32, qpn: Word32, psn: Word32, va: Word64, rkey: Word32, gid: Gid)

  function Front(lid: nat, qpn: nat, psn: nat, rest: string): string {
    Printed(lid, 4) + ":" + (Printed(qpn, 6) + ":" + (Printed(psn, 6) + ":" + rest))
  }

  function AddressText(d: Dest): string {
    Front(d.lid, d.qpn, d.psn, GidText(d.gid, 4))
  }

  function ExtendedText(d: ExtendedDest): string {
    Front(d.lid, d.qpn, d.psn, Printed(d.va, 16) + ":" + (Printed(d.rkey, 8) + ":" + GidText(d.gid, 4)))
  }

  // %s: everything up to the terminator or white space, behind white space.
  function ScanWord(text: string): string {
    if text == [] || text[0] == '\0' || text[0] in WHITE_SPACE then [] else [text[0]] + ScanWord(text[1..])
  }

  function ParseGid(text: string): Option<Gid> {
    var word := ScanWord(SkipWhite(text));
    if |word| < 32 then None
    else
      match ParsedGid(word, 4)
      case None => None
      case Some(gid) => Some(gid)
  }

  function ParseFront(text: string): Option<(Word32, Word32, Word32, string)> {
    match ScanField(text, false)
    case None => None
    case Some((lid, t)) =>
      match ScanField(t, false)
      case None => None
      case Some((qpn, u)) =>
        match ScanField(u, false)
        case None => None
        case Some((psn, rest)) => Some((lid, qpn, psn, rest))
  }

  function ParseAddress(text: string): Option<Dest> {
    match ParseFront(text)
    case None => None
    case Some((lid, qpn, psn, rest)) =>
      match ParseGid(rest)
      case None => None
      case Some(gid) => Some(Dest(lid, qpn, psn, gid))
  }

  function ParseExtended(text: string): Option<ExtendedDest> {
    match ParseFront(text)
    case None => None
    case Some((lid, qpn, psn, t)) =>
      match ScanField(t, true)
      case None => None
      case Some((va, u)) =>
        match ScanField(u, false)
        case None => None
        case Some((rkey, rest)) =>
          match ParseGid(rest)
          case None => None
          case Some(gid) => Some(ExtendedDest(lid, qpn, psn, va, rkey, gid))
  }

  lemma FrontBack(lid: Word32, qpn: Word32, psn: Word32, rest: string)
    ensures ParseFront(Front(lid, qpn, psn, rest)) == Some((lid, qpn, psn, rest))
  {
    ScanPrintedField(psn, 6, rest, false);
    ScanPrintedField(qpn, 6, Printed(psn, 6) + ":" + rest, false);
    ScanPrintedField(lid, 4, Printed(qpn, 6) + ":" + (Printed(psn, 6) + ":" + rest), false);
  }

  lemma {:induction false} WordOfHex(s: string)
    requires AllHex(s)
    ensures ScanWord(s + ['\0']) == s
  {
    if s != [] {
      WordOfHex(s[1..]);
      assert (s + ['\0'])[1..] == s[1..] + ['\0'];
      assert DigitValue(s[0]).Some?;
    }
  }

  // What %s reads, behind white space and up to white space or the terminator.
  lemma {:induction false} WordLaw(white: string, word: string, rest: string)
    requires forall c | c in white :: c in " \t\n\U{00000B}\U{00000C}\r"
    requires word != [] && forall c | c in word :: c !in " \t\n\U{00000B}\U{00000C}\r" && c != '\0'
    requires rest == [] || rest[0] in " \t\n\U{00000B}\U{00000C}\r" || rest[0] == '\0'
    ensures ScanWord(SkipWhite(white + (word + rest))) == word
  {
    assert word[0] in word;
    WhiteSkipped(white, word + rest);
    WordTaken(word, rest);
  }

  lemma {:induction false} WordTaken(word: string, rest: string)
    requires forall c | c in word :: c !in WHITE_SPACE && c != '\0'
    requires rest == [] || rest[0] in WHITE_SPACE || rest[0] == '\0'
    ensures ScanWord(word + rest) == word
  {
    if word == [] {
      assert word + rest == rest;
    } else {
      assert word[0] in word;
      assert forall c | c in word[1..] :: c in word;
      WordTaken(word[1..], rest);
      assert (word + rest)[1..] == word[1..] + rest;
    }
  }

  lemma {:induction false} GidTextHex(gid: Gid, words: nat)
    requires words <= 4
    ensures AllHex(GidText(gid, words))
  {
    if words > 0 {
      GidTextHex(gid, words - 1);
      PrintedBack(Word(gid, words - 1), 8);
    }
  }

  lemma GidBack(gid: Gid)
    ensures ParseGid(GidText(gid, 4) + ['\0']) == Some(gid)
  {
    var s := GidText(gid, 4);
    GidTextHex(gid, 4);
    GidInOrder(gid, 4);
    WordOfHex(s);
    assert DigitValue((s + ['\0'])[0]).Some?;
    assert s[..32] == s;
    GidRoundTrip(gid, s, 4);
    assert gid[..16] == gid;
  }

  // The field values that the hardware uses: 16, 24 and 24 bits.
  predicate InRange(lid: nat, qpn: nat, psn: nat) {
    lid < 0x1_0000 && qpn < 0x100_0000 && psn < 0x100_0000
  }

  lemma Widths()
    ensures Pow16(4) == 0x1_0000 && Pow16(6) == 0x100_0000 && Pow16(8) == TWO_TO_32 && Pow16(16) == TWO_TO_64
  {
    assert Pow16(10) == 0x100 * Pow16(8);
    assert Pow16(12) == 0x100 * Pow16(10);
    assert Pow16(14) == 0x100 * Pow16(12);
  }

  // Where the three numbers and their colons are.
  lemma FrontLayout(lid: nat, qpn: nat, psn: nat, rest: string, text: string)
    requires InRange(lid, qpn, psn) && text == Front(lid, qpn, psn, rest)
    ensures |text| == 19 + |rest| && text[19..] == rest
    ensures AllHex(text[..4]) && HexValue(text[..4]) == lid && text[4] == ':'
    ensures AllHex(text[5..11]) && HexValue(text[5..11]) == qpn && text[11] == ':'
    ensures AllHex(text[12..18]) && HexValue(text[12..18]) == psn && text[18] == ':'
  {
    Widths();
    PrintedWidth(lid, 4);
    PrintedWidth(qpn, 6);
    PrintedWidth(psn, 6);
    PrintedBack(lid, 4);
    PrintedBack(qpn, 6);
    PrintedBack(psn, 6);
    hide Printed, HexValue, AllHex, Pow16;
    FrontSlices(Printed(lid, 4), Printed(qpn, 6), Printed(psn, 6), rest, text);
  }

  lemma FrontSlices(a: string, b: string, c: string, rest: string, text: string)
    requires |a| == 4 && |b| == |c| == 6 && text == a + ":" + (b + ":" + (c + ":" + rest))
    ensures |text| == 19 + |rest| && text[19..] == rest && text[4] == text[11] == text[18] == ':'
    ensures text[..4] == a && text[5..11] == b && text[12..18] == c
  {
  }

  lemma BackSlices(a: string, b: string, c: string, text: string)
    requires |a| == 16 && |b| == 8 && text == a + ":" + (b + ":" + c)
    ensures |text| == 26 + |c| && text[26..] == c && text[16] == text[25] == ':'
    ensures text[..16] == a && text[17..25] == b
  {
  }

  lemma AddressLayout(d: Dest, text: string)
    requires InRange(d.lid, d.qpn, d.psn) && text == AddressText(d)
    ensures |text| == 51 && text[19..51] == BytesText(d.gid)
    ensures AllHex(text[..4]) && HexValue(text[..4]) == d.lid && text[4] == ':'
    ensures AllHex(text[5..11]) && HexValue(text[5..11]) == d.qpn && text[11] == ':'
    ensures AllHex(text[12..18]) && HexValue(text[12..18]) == d.psn && text[18] == ':'
  {
    hide Printed, HexValue, AllHex, Front, BytesText;
    GidInOrder(d.gid, 4);
    assert d.gid[..16] == d.gid;
    FrontLayout(d.lid, d.qpn, d.psn, GidText(d.gid, 4), text);
  }

  lemma ExtendedLayout(d: ExtendedDest, text: string)
    requires InRange(d.lid, d.qpn, d.psn) && text == ExtendedText(d)
    ensures |text| == 77 && text[45..77] == BytesText(d.gid)
    ensures AllHex(text[..4]) && HexValue(text[..4]) == d.lid && text[4] == ':'
    ensures AllHex(text[5..11]) && HexValue(text[5..11]) == d.qpn && text[11] == ':'
    ensures AllHex(text[12..18]) && HexValue(text[12..18]) == d.psn && text[18] == ':'
    ensures AllHex(text[19..35]) && HexValue(text[19..35]) == d.va && text[35] == ':'
    ensures AllHex(text[36..44]) && HexValue(text[36..44]) == d.rkey && text[44] == ':'
  {
    hide Printed, HexValue, AllHex, Front, BytesText, GidText;
    GidInOrder(d.gid, 4);
    assert d.gid[..16] == d.gid;
    var rest := Printed(d.va, 16) + ":" + (Printed(d.rkey, 8) + ":" + GidText(d.gid, 4));
    FrontLayout(d.lid, d.qpn, d.psn, rest, text);
    BackLayout(d.va, d.rkey, GidText(d.gid, 4), rest);
    assert text[19..35] == rest[..16] && text[36..44] == rest[17..25] && text[45..77] == rest[26..58];
  }

  // The two numbers that only the longer form has.
  lemma BackLayout(va: Word64, rkey: Word32, gid: string, rest: string)
    requires |gid| == 32 && rest == Printed(va, 16) + ":" + (Printed(rkey, 8) + ":" + gid)
    ensures |rest| == 58 && rest[26..58] == gid
    ensures AllHex(rest[..16]) && HexValue(rest[..16]) == va && rest[16] == ':'
    ensures AllHex(rest[17..25]) && HexValue(rest[17..25]) == rkey && rest[25] == ':'
  {
    Widths();
    PrintedWidth(va, 16);
    PrintedWidth(rkey, 8);
    PrintedBack(va, 16);
    PrintedBack(rkey, 8);
    hide Printed, HexValue, AllHex, Pow16;
    BackSlices(Printed(va, 16), Printed(rkey, 8), gid, rest);
  }

  // The message is read back as it was, and it fills the buffer of 51
  // characters and a terminator exactly when the fields are in range.
  lemma AddressRoundTrip(d: Dest)
    ensures ParseAddress(AddressText(d) + ['\0']) == Some(d)
    ensures |AddressText(d)| >= 51
    ensures |AddressText(d)| == 51 <==> d.lid < 0x1_0000 && d.qpn < 0x100_0000 && d.psn < 0x100_0000
  {
    Widths();
    hide Printed, ParseFront, ParseGid, GidText;
    var gid := GidText(d.gid, 4);
    GidInOrder(d.gid, 4);
    GidBack(d.gid);
    FrontBack(d.lid, d.qpn, d.psn, gid + ['\0']);
    assert AddressText(d) + ['\0'] == Front(d.lid, d.qpn, d.psn, gid + ['\0']);
    PrintedWidth(d.lid, 4);
    PrintedWidth(d.qpn, 6);
    PrintedWidth(d.psn, 6);
  }

  // The same for the longer form, 77 characters and a terminator.
  lemma ExtendedRoundTrip(d: ExtendedDest)
    ensures ParseExtended(ExtendedText(d) + ['\0']) == Some(d)
    ensures |ExtendedText(d)| >= 77
    ensures |ExtendedText(d)| == 77 <==> d.lid < 0x1_0000 && d.qpn < 0x100_0000 && d.psn < 0x100_0000
  {
    Widths();
    hide Printed, ParseFront, ParseGid, GidText, ScanField, Pow16;
    var gid := GidText(d.gid, 4);
    GidInOrder(d.gid, 4);
    GidBack(d.gid);
    ScanPrintedField(d.rkey, 8, gid + ['\0'], false);
    ScanPrintedField(d.va, 16, Printed(d.rkey, 8) + ":" + (gid + ['\0']), true);
    var rest := Printed(d.va, 16) + ":" + (Printed(d.rkey, 8) + ":" + (gid + ['\0']));
    FrontBack(d.lid, d.qpn, d.psn, rest);
    assert ExtendedText(d) + ['\0'] == Front(d.lid, d.qpn, d.psn, rest);
    PrintedWidth(d.lid, 4);
    PrintedWidth(d.qpn, 6);
    PrintedWidth(d.psn, 6);
    PrintedWidth(d.va, 16);
    PrintedWidth(d.rkey, 8);
  }

  // ----- the buffers ----------------------------------------------------------------------------

  // sprintf: the text and a terminator, from a place in the buffer on.
  method Sprintf(buf: array<char>, at: nat, text: string)
    requires at + |text| < buf.Length
    modifies buf
    ensures buf[..at] == old(buf[..at])
    ensures buf[at..at + |text|] == text && buf[at + |text|] == '\0'
    ensures buf[at + |text| + 1..] == old(buf[at + |text| + 1..])
  {
    for i := 0 to |text|
      invariant buf[..at] == old(buf[..at]) && buf[at..at + i] == text[..i]
      invariant buf[at + i..] == old(buf[at + i..])
    {
      buf[at + i] := text[i];
      assert buf[at..at + i + 1] == buf[at..at + i] + [text[i]];
    }
    buf[at + |text|] := '\0';
  }

  method GidToWireGid(gid: array<byte>, wgid: array<char>)
    requires gid.Length == 16 && wgid.Length == 33
    modifies wgid
    ensures wgid[..32] == GidText(gid[..], 4) == BytesText(gid[..]) && wgid[32] == '\0'
    ensures forall i | 0 <= i < 16 :: wgid[2 * i] == "0123456789abcdef"[gid[i] / 16]
                                      && wgid[2 * i + 1] == "0123456789abcdef"[gid[i] % 16]
  {
    hide Printed, Swapped, Loaded, BytesText, Stored;
    ghost var g: Gid := gid[..];
    for i := 0 to 4
      invariant wgid[..8 * i] == GidText(g, i) && (i > 0 ==> wgid[8 * i] == '\0')
    {
      var word := Swapped(4, Loaded(gid[4 * i..4 * i + 4]));
      assert word == Word(g, i) by {
        assert gid[4 * i..4 * i + 4] == g[4 * i..4 * i + 4];
      }
      WordWidth(g, i);
      Sprintf(wgid, 8 * i, Printed(word, 8));
      assert wgid[..8 * (i + 1)] == wgid[..8 * i] + wgid[8 * i..8 * i + 8];
    }
    GidInOrder(g, 4);
    assert g[..16] == g;
    forall i | 0 <= i < 16
      ensures wgid[2 * i] == "0123456789abcdef"[g[i] / 16] && wgid[2 * i + 1] == "0123456789abcdef"[g[i] % 16]
    {
      BytesTextAt(g, i);
      assert wgid[..32][2 * i] == wgid[2 * i] && wgid[..32][2 * i + 1] == wgid[2 * i + 1];
    }
  }

  lemma WordWidth(gid: Gid, k: nat)
    requires k < 4
    ensures |Printed(Word(gid, k), 8)| == 8
  {
    PrintedWidth(Word(gid, k), 8);
    assert Pow256(4) == Pow16(8) by {
      assert Pow256(2) == 0x1_0000;
      assert Pow16(4) == 0x1_0000;
      assert Pow16(6) == 0x100_0000;
    }
  }

  // `stack` is what the uninitialised word holds.
  method WireGidToGid(wgid: array<char>, gid: array<byte>, stack: Word32)
    requires wgid.Length >= 32 && gid.Length == 16
    modifies gid
    ensures gid[..] == GidRead(wgid[..32], 4, stack)
    ensures ParsedGid(wgid[..32], 4).Some? ==> ParsedGid(wgid[..32], 4) == Some(gid[..])
  {
    hide *;
    ghost var text := wgid[..32];
    var v32 := stack;
    GidReadNone(text, stack);
    for i := 0 to 4
      invariant wgid[..32] == text && v32 == WordRead(text, i, stack)
      invariant gid[..4 * i] == GidRead(text, i, stack)
    {
      var tmp := wgid[..32][8 * i..8 * i + 8];
      var read := ScanHex(tmp, false);
      if read.Some? {
        v32 := read.value.0;
      }
      GidReadNext(text, i, stack);
      StoreWord(gid, 4 * i, v32);
      assert gid[..4 * (i + 1)] == gid[..4 * i] + gid[4 * i..4 * i + 4];
    }
    assert gid[..16] == gid[..];
    if ParsedGid(text, 4).Some? {
      ReadIsParsed(text, 4, stack);
    }
  }

  // Storing ntohl of a word through a pointer.
  method StoreWord(gid: array<byte>, at: nat, v32: nat)
    requires at + 4 <= gid.Length
    modifies gid
    ensures gid[..at] == old(gid[..at]) && gid[at + 4..] == old(gid[at + 4..])
    ensures gid[at..at + 4] == Stored(4, Swapped(4, v32))
  {
    var bytes := Stored(4, Swapped(4, v32));
    for j := 0 to 4
      invariant gid[..at] == old(gid[..at]) && gid[at..at + j] == bytes[..j] && gid[at + 4..] == old(gid[at + 4..])
    {
      gid[at + j] := bytes[j];
      assert gid[at..at + j + 1] == gid[at..at + j] + [bytes[j]];
    }
  }

  // What the client sends and the server reads: after the exchange of the
  // buffer the other side holds the same address.
  method PrintAddress(d: Dest, msg: array<char>)
    requires InRange(d.lid, d.qpn, d.psn) && msg.Length == 52
    modifies msg
    ensures AllHex(msg[..4]) && HexValue(msg[..4]) == d.lid && msg[4] == ':'
    ensures AllHex(msg[5..11]) && HexValue(msg[5..11]) == d.qpn && msg[11] == ':'
    ensures AllHex(msg[12..18]) && HexValue(msg[12..18]) == d.psn && msg[18] == ':'
    ensures msg[19..51] == BytesText(d.gid) && msg[51] == '\0'
    ensures msg[..] == AddressText(d) + ['\0'] && ParseAddress(msg[..]) == Some(d)
  {
    hide ParseAddress, AddressText, HexValue, AllHex, BytesText;
    ghost var text := AddressText(d);
    AddressRoundTrip(d);
    AddressLayout(d, text);
    Sprintf(msg, 0, AddressText(d));
    assert msg[..] == msg[..51] + [msg[51]];
    assert msg[..51] == text;
    assert msg[..4] == text[..4] && msg[5..11] == text[5..11] && msg[12..18] == text[12..18];
    assert msg[19..51] == text[19..51];
  }

  method PrintExtended(d: ExtendedDest, msg: array<char>)
    requires InRange(d.lid, d.qpn, d.psn) && msg.Length == 78
    modifies msg
    ensures AllHex(msg[..4]) && HexValue(msg[..4]) == d.lid && msg[4] == ':'
    ensures AllHex(msg[5..11]) && HexValue(msg[5..11]) == d.qpn && msg[11] == ':'
    ensures AllHex(msg[12..18]) && HexValue(msg[12..18]) == d.psn && msg[18] == ':'
    ensures AllHex(msg[19..35]) && HexValue(msg[19..35]) == d.va && msg[35] == ':'
    ensures AllHex(msg[36..44]) && HexValue(msg[36..44]) == d.rkey && msg[44] == ':'
    ensures msg[45..77] == BytesText(d.gid) && msg[77] == '\0'
    ensures msg[..] == ExtendedText(d) + ['\0'] && ParseExtended(msg[..]) == Some(d)
  {
    hide ParseExtended, ExtendedText, HexValue, AllHex, BytesText;
    ghost var text := ExtendedText(d);
    ExtendedRoundTrip(d);
    ExtendedLayout(d, text);
    Sprintf(msg, 0, ExtendedText(d));
    assert msg[..] == msg[..77] + [msg[77]];
    assert msg[..77] == text;
    assert msg[..4] == text[..4] && msg[5..11] == text[5..11] && msg[12..18] == text[12..18];
    assert msg[19..35] == text[19..35] && msg[36..44] == text[36..44] && msg[45..77] == text[45..77];
  }
}
