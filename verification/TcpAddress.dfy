/** HexToIP, and the kernel's way of printing an IPv4 address in /proc/net/tcp, which it
    undoes. */
module TcpAddress {
  import opened Strings
  import opened Wrappers

  // std::stoul's exception when there is no number to convert.
  datatype ParseError = InvalidArgument

  type Byte = b: nat | b < 256 witness 0

  const HEX := "0123456789ABCDEF"
  const HEX_LENGTH := 8
  const NO_ADDRESS := "0.0.0.0"

  function HexValue(c: char): (v: Option<nat>)
    ensures v.Some? ==> v.value < 16
  {
    if '0' <= c <= '9' then Some(c as nat - '0' as nat)
    else if 'A' <= c <= 'F' then Some(c as nat - 'A' as nat + 10)
    else if 'a' <= c <= 'f' then Some(c as nat - 'a' as nat + 10)
    else None
  }

  function HexChar(v: nat): char
    requires v < 16
  {
    HEX[v]
  }

  predicate IsSpace(c: char) {
    c == ' ' || '\t' <= c <= '\r'
  }

  // stoul of two characters to base 16, cut to a byte: white space or a sign may come first,
  // and conversion stops at the first character that is no digit (as after the 0 of "0x").
  function ByteOf(c: char, d: char): Result<Byte, ParseError> {
    match (HexValue(c), HexValue(d))
    case (Some(hi), Some(lo)) => Ok(hi * 16 + lo)
    case (Some(hi), None) => Ok(hi)
    case (None, Some(lo)) =>
      if c == '+' || IsSpace(c) then Ok(lo)
      else if c == '-' then Ok((0x1_0000_0000_0000_0000 - lo) % 256)
      else Err(InvalidArgument)
    case (None, None) => Err(InvalidArgument)
  }

  // The digits count in either case.
  lemma HexValueExactly(c: char, v: nat)
    requires v < 16
    ensures HexValue(c) == Some(v) <==> c == "0123456789ABCDEF"[v] || c == "0123456789abcdef"[v]
  {
  }

  function SkipSpaces(s: string): (t: string)
    ensures |t| <= |s| && (t != "" ==> !IsSpace(t[0]))
  {
    if s != "" && IsSpace(s[0]) then SkipSpaces(s[1..]) else s
  }

  // The value of the digits a text begins with, after one already read.
  function LeadingValue(s: string, read: nat): nat {
    if s == "" || HexValue(s[0]).None? then read else LeadingValue(s[1..], 16 * read + HexValue(s[0]).value)
  }

  function AfterSign(s: string): string {
    if s != "" && (s[0] == '+' || s[0] == '-') then s[1..] else s
  }

  function AfterPrefix(s: string): string {
    if |s| > 2 && s[0] == '0' && (s[1] == 'x' || s[1] == 'X') && HexValue(s[2]).Some? then s[2..] else s
  }

  // strtoul to base 16 (section 7.22.1.4 of ISO/IEC 9899:2011), of a text whose value fits.
  function Strtoul(s: string): Result<nat, ParseError> {
    var t := SkipSpaces(s);
    var digits := AfterPrefix(AfterSign(t));
    if digits == "" || HexValue(digits[0]).None? then Err(InvalidArgument)
    else
      var v := LeadingValue(digits, 0);
      Ok(if t[0] == '-' && v > 0 then 0x1_0000_0000_0000_0000 - v % 0x1_0000_0000_0000_0000 else v)
  }

  lemma TwoSkipped(c: char, d: char)
    ensures SkipSpaces([c, d]) == if !IsSpace(c) then [c, d] else if !IsSpace(d) then [d] else ""
  {
    assert [c, d][1..] == [d] && [d][1..] == "";
  }

  lemma OneValue(d: char, read: nat)
    ensures LeadingValue([d], read) == match HexValue(d) case Some(lo) => read * 16 + lo case None => read
  {
    assert [d][1..] == "";
    assert forall v :: LeadingValue("", v) == v;
  }

  lemma TwoValue(c: char, d: char)
    ensures LeadingValue([c, d], 0)
            == match (HexValue(c), HexValue(d))
               case (Some(hi), Some(lo)) => hi * 16 + lo
               case (Some(hi), None) => hi
               case (None, _) => 0
  {
    assert [c, d][1..] == [d];
    if HexValue(c).Some? { OneValue(d, 0 * 16 + HexValue(c).value); }
  }

  /** A byte of the text is strtoul's value of its two characters, cut to 8 bits. */
  lemma ByteIsStrtoul(c: char, d: char)
    ensures ByteOf(c, d) == match Strtoul([c, d]) case Ok(v) => Ok(v % 256) case Err(e) => Err(e)
  {
    TwoSkipped(c, d);
    TwoValue(c, d);
    OneValue(d, 0);
    assert [c, d][1..] == [d] && [d][1..] == "";
    hide SkipSpaces, LeadingValue;
  }

  function Decimal(n: nat): string {
    if n < 10 then [HexChar(n)] else Decimal(n / 10) + [HexChar(n % 10)]
  }

  // An IPv4 address in network order.
  datatype Address = Address(a: Byte, b: Byte, c: Byte, d: Byte)

  // inet_ntop's text.
  function Dotted(x: Address): string {
    Decimal(x.a) + "." + Decimal(x.b) + "." + Decimal(x.c) + "." + Decimal(x.d)
  }

  // The address behind a hex text; anything but 8 characters stands for no address.
  function IpOf(hex: string): Result<string, ParseError> {
    if |hex| != HEX_LENGTH then Ok(NO_ADDRESS)
    else
      match (ByteOf(hex[0], hex[1]), ByteOf(hex[2], hex[3]), ByteOf(hex[4], hex[5]), ByteOf(hex[6], hex[7]))
      case (Ok(d), Ok(c), Ok(b), Ok(a)) => Ok(Dotted(Address(a, b, c, d)))
      case (_, _, _, _) => Err(InvalidArgument)
  }

  /** HexToIP, with its two byte arrays. */
  method HexToIP(hex: string) returns (r: Result<string, ParseError>)
    ensures r == IpOf(hex)
  {
    hide Dotted;
    if |hex| != HEX_LENGTH {
      return Ok(NO_ADDRESS);
    }
    var bytes := new Byte[4](_ => 0);
    for idx := 0 to 4
      invariant forall k :: 0 <= k < idx ==> ByteOf(hex[k * 2], hex[k * 2 + 1]) == Ok(bytes[k])
    {
      var byteStr := hex[idx * 2..idx * 2 + 2];
      match ByteOf(byteStr[0], byteStr[1])
      case Ok(value) => bytes[idx] := value;
      case Err(e) =>
        BadByte(hex, idx);
        return Err(e);
    }
    assert ByteOf(hex[0 * 2], hex[0 * 2 + 1]) == Ok(bytes[0]) && ByteOf(hex[1 * 2], hex[1 * 2 + 1]) == Ok(bytes[1]);
    assert ByteOf(hex[2 * 2], hex[2 * 2 + 1]) == Ok(bytes[2]) && ByteOf(hex[3 * 2], hex[3 * 2 + 1]) == Ok(bytes[3]);
    var reversed := new Byte[4];
    reversed[0], reversed[1], reversed[2], reversed[3] := bytes[3], bytes[2], bytes[1], bytes[0];
    r := Ok(Dotted(Address(reversed[0], reversed[1], reversed[2], reversed[3])));
  }

  lemma BadByte(hex: string, idx: nat)
    requires |hex| == HEX_LENGTH && idx < 4 && ByteOf(hex[idx * 2], hex[idx * 2 + 1]).Err?
    ensures IpOf(hex) == Err(InvalidArgument)
  {
    assert idx == 0 || idx == 1 || idx == 2 || idx == 3;
  }

  // ---------- Printing and reading back ----------

  // printf's %0nX.
  function PrintHex(v: nat, digits: nat): (s: string)
    ensures |s| == digits
  {
    if digits == 0 then "" else PrintHex(v / 16, digits - 1) + [HexChar(v % 16)]
  }

  // The address as the kernel reads it from memory on a little-endian machine.
  function LittleEndian(x: Address): nat {
    x.a + 256 * (x.b + 256 * (x.c + 256 * x.d))
  }

  lemma HexDigit(v: nat)
    requires v < 16
    ensures HexValue(HexChar(v)) == Some(v)
  {
  }

  lemma PrintByte(q: nat, r: Byte, digits: nat)
    ensures PrintHex(256 * q + r, digits + 2) == PrintHex(q, digits) + [HexChar(r / 16), HexChar(r % 16)]
  {
    var v := 256 * q + r;
    assert v / 16 == 16 * q + r / 16 && v % 16 == r % 16;
    assert v / 16 / 16 == q && v / 16 % 16 == r / 16;
    assert PrintHex(v, digits + 2) == PrintHex(v / 16, digits + 1) + [HexChar(v % 16)];
    assert PrintHex(v / 16, digits + 1) == PrintHex(q, digits) + [HexChar(r / 16)];
  }

  lemma ByteReadBack(r: Byte)
    ensures ByteOf(HexChar(r / 16), HexChar(r % 16)) == Ok(r)
  {
    HexDigit(r / 16);
    HexDigit(r % 16);
  }

  // The two digits of a byte.
  function Digits(r: Byte): string {
    [HexChar(r / 16), HexChar(r % 16)]
  }

  lemma PrintTwo(q: nat, r: Byte, t: Byte, digits: nat)
    ensures PrintHex(256 * (256 * q + t) + r, digits + 4) == PrintHex(q, digits) + (Digits(t) + Digits(r))
  {
    hide PrintHex;
    PrintByte(256 * q + t, r, digits + 2);
    PrintByte(q, t, digits);
  }

  lemma PrintNothing()
    ensures PrintHex(0, 0) == ""
  {
  }

  // The 8 digits are those of the four bytes, the last byte of the address first.
  lemma PrintAddress(x: Address)
    ensures PrintHex(LittleEndian(x), HEX_LENGTH) == Digits(x.d) + Digits(x.c) + (Digits(x.b) + Digits(x.a))
  {
    hide PrintHex, Digits;
    PrintTwo(x.c + 256 * x.d, x.a, x.b, 4);
    PrintTwo(0, x.c, x.d, 0);
    PrintNothing();
    assert "" + (Digits(x.d) + Digits(x.c)) == Digits(x.d) + Digits(x.c);
  }

  // ---------- Reading a dotted text ----------

  function DecimalValue(s: string): nat {
    if s == "" then 0
    else
      var c := s[|s| - 1];
      10 * DecimalValue(s[..|s| - 1]) + if '0' <= c <= '9' then c as nat - '0' as nat else 0
  }

  lemma {:induction false} DecimalReadBack(n: nat)
    ensures DecimalValue(Decimal(n)) == n && '.' !in Decimal(n)
  {
    var last := HexChar(n % 10);
    assert '0' <= last <= '9' && last as nat - '0' as nat == n % 10;
    if n < 10 {
      assert Decimal(n) == [] + [last] && DecimalValue([]) == 0;
    } else {
      DecimalReadBack(n / 10);
      assert Decimal(n)[..|Decimal(n)| - 1] == Decimal(n / 10);
    }
  }

  // One part of a dotted text: the number in decimal, without a leading zero.
  predicate IsPart(s: string, v: Byte) {
    && 1 <= |s| <= 3 && (forall i :: 0 <= i < |s| ==> '0' <= s[i] <= '9') && (|s| > 1 ==> s[0] != '0')
    && DecimalValue(s) == v
  }

  // The part up to the first dot, and what follows that.
  function FirstPart(s: string): string {
    s[..Find(s, '.')]
  }

  function AfterPart(s: string): string {
    if Find(s, '.') == |s| then "" else s[Find(s, '.') + 1..]
  }

  // The text is a.b.c.d: four parts, the first byte of the address first.
  predicate IsTextOf(s: string, x: Address) {
    var (s1, s2) := (AfterPart(s), AfterPart(AfterPart(s)));
    && '.' in s && IsPart(FirstPart(s), x.a) && '.' in s1 && IsPart(FirstPart(s1), x.b)
    && '.' in s2 && IsPart(FirstPart(s2), x.c) && IsPart(AfterPart(s2), x.d)
  }

  lemma {:induction false} DecimalDigits(n: nat)
    ensures Decimal(n) != "" && forall i :: 0 <= i < |Decimal(n)| ==> '0' <= Decimal(n)[i] <= '9'
    ensures n > 0 ==> Decimal(n)[0] != '0'
  {
    if n >= 10 {
      DecimalDigits(n / 10);
    }
  }

  lemma DecimalLength(n: Byte)
    ensures |Decimal(n)| <= 3
  {
    if n >= 10 {
      var tens := n / 10;
      assert |Decimal(n)| == |Decimal(tens)| + 1;
      if tens >= 10 {
        assert |Decimal(tens)| == |Decimal(tens / 10)| + 1 && tens / 10 < 10;
      }
    }
  }

  lemma DigitChar(c: char)
    requires '0' <= c <= '9'
    ensures HexChar(c as nat - '0' as nat) == c
  {
  }

  // Digits without a leading zero are the decimal form of their value.
  lemma {:induction false} OneDecimal(s: string)
    requires s != "" && (forall i :: 0 <= i < |s| ==> '0' <= s[i] <= '9') && (|s| > 1 ==> s[0] != '0')
    ensures s == Decimal(DecimalValue(s)) && (s[0] != '0' ==> DecimalValue(s) > 0)
  {
    var init, c := s[..|s| - 1], s[|s| - 1];
    var digit := c as nat - '0' as nat;
    assert s == init + [c];
    DigitChar(c);
    if init == "" {
      assert DecimalValue(s) == digit;
    } else {
      OneDecimal(init);
      var n := DecimalValue(s);
      assert n == 10 * DecimalValue(init) + digit && n / 10 == DecimalValue(init) && n % 10 == digit;
    }
  }

  lemma PartIsDecimal(s: string, v: Byte)
    requires IsPart(s, v)
    ensures s == Decimal(v)
  {
    OneDecimal(s);
  }

  // The decimal form of a byte is its one part.
  lemma DecimalIsPart(n: Byte)
    ensures IsPart(Decimal(n), n) && '.' !in Decimal(n)
  {
    hide Decimal, DecimalValue;
    DecimalDigits(n);
    DecimalLength(n);
    DecimalReadBack(n);
    if n == 0 { DecimalOfZero(); }
  }

  lemma DecimalOfZero()
    ensures |Decimal(0)| == 1
  {
  }

  lemma PartSplit(s: string, rest: string)
    requires '.' !in s
    ensures '.' in s + "." + rest && FirstPart(s + "." + rest) == s && AfterPart(s + "." + rest) == rest
  {
    var whole := s + "." + rest;
    assert whole[|s|] == '.';
    FindIs(whole, '.', |s|);
    assert whole[..|s|] == s && whole[|s| + 1..] == rest;
  }

  lemma PartJoin(s: string)
    requires '.' in s
    ensures s == FirstPart(s) + "." + AfterPart(s)
  {
    var k := Find(s, '.');
    assert s == s[..k] + [s[k]] + s[k + 1..];
  }

  lemma TextIsDotted(s: string, x: Address)
    requires IsTextOf(s, x)
    ensures s == Dotted(x)
  {
    hide Decimal, FirstPart, AfterPart, IsPart;
    var (s1, s2) := (AfterPart(s), AfterPart(AfterPart(s)));
    PartJoin(s);
    PartJoin(s1);
    PartJoin(s2);
    PartIsDecimal(FirstPart(s), x.a);
    PartIsDecimal(FirstPart(s1), x.b);
    PartIsDecimal(FirstPart(s2), x.c);
    PartIsDecimal(AfterPart(s2), x.d);
    assert s == Decimal(x.a) + "." + (Decimal(x.b) + "." + (Decimal(x.c) + "." + Decimal(x.d)));
  }

  lemma DottedIsText(x: Address)
    ensures IsTextOf(Dotted(x), x)
  {
    hide Decimal, FirstPart, AfterPart, IsPart;
    var x3 := Decimal(x.c) + "." + Decimal(x.d);
    var x2 := Decimal(x.b) + "." + x3;
    assert Dotted(x) == Decimal(x.a) + "." + x2;
    DecimalIsPart(x.a);
    DecimalIsPart(x.b);
    DecimalIsPart(x.c);
    DecimalIsPart(x.d);
    PartSplit(Decimal(x.a), x2);
    PartSplit(Decimal(x.b), x3);
    PartSplit(Decimal(x.c), Decimal(x.d));
  }

  // ---------- The address back ----------

  /** HexToIP reads back the address from its 8-digit form, for every address: its text is the
      four bytes in decimal, in network order, and no other text is. */
  lemma AddressRoundTrip(x: Address)
    ensures IpOf(PrintHex(LittleEndian(x), 8)) == Ok(Dotted(x))
    ensures forall s :: IsTextOf(s, x) <==> s == Dotted(x)
  {
    DottedIsText(x);
    forall s | IsTextOf(s, x) ensures s == Dotted(x) { TextIsDotted(s, x); }
    hide PrintHex, ByteOf, Dotted, LittleEndian, IsTextOf;
    PrintAddress(x);
    ByteReadBack(x.a);
    ByteReadBack(x.b);
    ByteReadBack(x.c);
    ByteReadBack(x.d);
  }

  lemma SomeDigits()
    ensures Digits(0) == "00" && Digits(1) == "01" && Digits(127) == "7F"
  {
  }

  lemma SomeDecimals()
    ensures Decimal(0) == "0" && Decimal(1) == "1" && Decimal(127) == "127"
  {
    assert Decimal(12) == Decimal(1) + ['2'] && Decimal(127) == Decimal(12) + ['7'];
  }

  /** For example, the kernel's text for the loopback address is read as such. */
  lemma Loopback()
    ensures IpOf("0100007F") == Ok("127.0.0.1")
  {
    var x := Address(127, 0, 0, 1);
    hide Digits, PrintHex, IpOf, Decimal, LittleEndian, IsTextOf;
    PrintAddress(x);
    SomeDigits();
    assert "01" + "00" + ("00" + "7F") == "0100007F";
    AddressRoundTrip(x);
    SomeDecimals();
    assert "127" + "." + "0" + "." + "0" + "." + "1" == "127.0.0.1";
  }

  // ---------- Different addresses, different texts ----------

  // A text is split at its first dot in one way only.
  lemma SplitOnce(m: nat, s: string, n: nat, t: string)
    requires Decimal(m) + "." + s == Decimal(n) + "." + t
    ensures m == n && s == t
  {
    hide Decimal, DecimalValue;
    var u := Decimal(m) + "." + s;
    DecimalReadBack(m);
    DecimalReadBack(n);
    FindIs(u, '.', |Decimal(m)|);
    assert u == Decimal(n) + "." + t;
    FindIs(u, '.', |Decimal(n)|);
    assert u[..|Decimal(m)|] == Decimal(m) && u[..|Decimal(n)|] == Decimal(n);
    assert u[|Decimal(m)| + 1..] == s && u[|Decimal(n)| + 1..] == t;
  }

  /** Two addresses have the same text only if they are the same, so counting by text counts by
      address. */
  lemma DottedInjective(x: Address, y: Address)
    requires Dotted(x) == Dotted(y)
    ensures x == y
  {
    hide Decimal;
    var x3, y3 := Decimal(x.c) + "." + Decimal(x.d), Decimal(y.c) + "." + Decimal(y.d);
    var x2, y2 := Decimal(x.b) + "." + x3, Decimal(y.b) + "." + y3;
    assert Dotted(x) == Decimal(x.a) + "." + x2 && Dotted(y) == Decimal(y.a) + "." + y2;
    SplitOnce(x.a, x2, y.a, y2);
    SplitOnce(x.b, x3, y.b, y3);
    SplitOnce(x.c, Decimal(x.d), y.c, Decimal(y.d));
    DecimalReadBack(x.d);
    DecimalReadBack(y.d);
  }

  // ---------- Which printed addresses are told apart ----------

  predicate IsHexDigit(c: char) {
    '0' <= c <= '9' || 'A' <= c <= 'F'
  }

  // An address as the kernel prints it, in so many digits.
  predicate IsHexText(s: string, digits: nat) {
    |s| == digits && forall i :: 0 <= i < digits ==> IsHexDigit(s[i])
  }

  lemma {:induction false} PrintIsHexText(v: nat, digits: nat)
    ensures IsHexText(PrintHex(v, digits), digits)
  {
    if digits == 0 {
    } else {
      PrintIsHexText(v / 16, digits - 1);
      assert IsHexDigit(HexChar(v % 16)) by { HexDigit(v % 16); }
    }
  }

  lemma SameByte(c: char, d: char, e: char, f: char)
    requires IsHexDigit(c) && IsHexDigit(d) && IsHexDigit(e) && IsHexDigit(f)
    requires ByteOf(c, d) == ByteOf(e, f)
    ensures c == e && d == f
  {
  }

  lemma ReadableByte(c: char, d: char)
    requires IsHexDigit(c) && IsHexDigit(d)
    ensures ByteOf(c, d).Ok?
  {
  }

  // The address behind 8 digits.
  function AddressOf(s: string): Address
    requires IsHexText(s, HEX_LENGTH)
  {
    ReadableByte(s[0], s[1]);
    ReadableByte(s[2], s[3]);
    ReadableByte(s[4], s[5]);
    ReadableByte(s[6], s[7]);
    Address(ByteOf(s[6], s[7]).value, ByteOf(s[4], s[5]).value, ByteOf(s[2], s[3]).value, ByteOf(s[0], s[1]).value)
  }

  lemma IpOfAddress(s: string)
    requires IsHexText(s, HEX_LENGTH)
    ensures IpOf(s) == Ok(Dotted(AddressOf(s)))
  {
    hide ByteOf, Dotted;
    ReadableByte(s[0], s[1]);
    ReadableByte(s[2], s[3]);
    ReadableByte(s[4], s[5]);
    ReadableByte(s[6], s[7]);
  }

  lemma SamePair(s: string, t: string, k: nat)
    requires IsHexText(s, HEX_LENGTH) && IsHexText(t, HEX_LENGTH) && k + 1 < HEX_LENGTH
    requires ByteOf(s[k], s[k + 1]) == ByteOf(t[k], t[k + 1])
    ensures s[k..k + 2] == t[k..k + 2]
  {
    SameByte(s[k], s[k + 1], t[k], t[k + 1]);
  }

  lemma SameBytes(s: string, t: string)
    requires IsHexText(s, HEX_LENGTH) && IsHexText(t, HEX_LENGTH) && AddressOf(s) == AddressOf(t)
    ensures s == t
  {
    hide ByteOf;
    ReadableByte(s[0], s[1]);
    ReadableByte(t[0], t[1]);
    SamePair(s, t, 0);
    ReadableByte(s[2], s[3]);
    ReadableByte(t[2], t[3]);
    SamePair(s, t, 2);
    ReadableByte(s[4], s[5]);
    ReadableByte(t[4], t[5]);
    SamePair(s, t, 4);
    ReadableByte(s[6], s[7]);
    ReadableByte(t[6], t[7]);
    SamePair(s, t, 6);
    assert s == s[0..2] + s[2..4] + s[4..6] + s[6..8] && t == t[0..2] + t[2..4] + t[4..6] + t[6..8];
  }

  lemma EightDigits(s: string, t: string)
    requires IsHexText(s, HEX_LENGTH) && IsHexText(t, HEX_LENGTH) && IpOf(s) == IpOf(t)
    ensures s == t
  {
    hide Dotted, IpOf, AddressOf;
    IpOfAddress(s);
    IpOfAddress(t);
    DottedInjective(AddressOf(s), AddressOf(t));
    SameBytes(s, t);
  }

  // Values printed in so many digits have different texts for their addresses, if they print
  // differently at all.
  ghost predicate ToldApart(digits: nat) {
    forall v: nat, w: nat :: PrintHex(v, digits) != PrintHex(w, digits) ==>
      IpOf(PrintHex(v, digits)) != IpOf(PrintHex(w, digits))
  }

  lemma LastDigitPrinted(v: nat, digits: nat)
    requires digits > 0
    ensures PrintHex(v, digits)[digits - 1] == HexChar(v % 16)
  {
  }

  // In any other number of digits 0 and 1 print differently, and both stand for no address.
  lemma OtherLengths(digits: nat)
    requires digits != 0 && digits != HEX_LENGTH
    ensures !ToldApart(digits)
  {
    hide PrintHex;
    LastDigitPrinted(0, digits);
    LastDigitPrinted(1, digits);
    assert PrintHex(0, digits) != PrintHex(1, digits);
    assert IpOf(PrintHex(0, digits)) == IpOf(PrintHex(1, digits));
  }

  /** Exactly when counting by text counts by address: addresses printed in so many digits have
      different texts, whenever they print differently, if and only if there are 8 digits (or
      none). */
  lemma ToldApartExactly(digits: nat)
    ensures ToldApart(digits) <==> digits == 0 || digits == 8
  {
    if digits == HEX_LENGTH {
      forall v: nat, w: nat | IpOf(PrintHex(v, digits)) == IpOf(PrintHex(w, digits))
        ensures PrintHex(v, digits) == PrintHex(w, digits)
      {
        hide PrintHex, IpOf, IsHexText;
        PrintIsHexText(v, digits);
        PrintIsHexText(w, digits);
        EightDigits(PrintHex(v, digits), PrintHex(w, digits));
      }
    } else if digits != 0 {
      OtherLengths(digits);
    }
  }
}
