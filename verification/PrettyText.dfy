/** Text from outside, made fit for a terminal. */
module PrettyText {
  import opened Basics

  // Single strings

  /** C0 controls and DEL, C1 controls, and the characters that change the direction of text. */
  predicate NeedsEscape(c: char) {
    var code := c as int;
    || code < 0x20
    || code == 0x7F
    || 0x80 <= code <= 0x9F
    || code in {0x061C, 0x200E, 0x200F}
    || 0x202A <= code <= 0x202E
    || 0x2066 <= code <= 0x2069
  }

  predicate ForcesQuote(c: char) {
    c == ' ' || c == '"' || c == '=' || NeedsEscape(c)
  }

  predicate NeedsQuote(s: string) {
    s == "" || exists k | 0 <= k < |s| :: ForcesQuote(s[k])
  }

  function HexDigit(d: nat): char
    requires d < 16
  {
    "0123456789abcdef"[d]
  }

  function DigitValue(c: char): Option<nat> {
    if '0' <= c <= '9' then Some(c as int - '0' as int)
    else if 'a' <= c <= 'f' then Some(c as int - 'a' as int + 10)
    else None
  }

  function Hex4(n: nat): string
    requires n < 0x10000
  {
    [HexDigit(n / 16 / 16 / 16), HexDigit(n / 16 / 16 % 16), HexDigit(n / 16 % 16), HexDigit(n % 16)]
  }

  function Escaped(c: char): string {
    match c
    case '\\' => "\\\\"
    case '"' => "\\\""
    case '\n' => "\\n"
    case '\r' => "\\r"
    case '\t' => "\\t"
    case _ => if NeedsEscape(c) then "\\u{" + Hex4(c as int) + "}" else [c]
  }

  function Body(s: string): string {
    if s == "" then "" else Escaped(s[0]) + Body(s[1..])
  }

  function Quoted(s: string): string {
    if NeedsQuote(s) then "\"" + Body(s) + "\"" else s
  }

  lemma {:induction false} BodyMore(s: string, c: char)
    ensures Body(s + [c]) == Body(s) + Escaped(c)
  {
    hide Escaped;
    if s == "" {
      assert Body([c]) == Escaped(c) + Body([c][1..]);
    } else {
      BodyMore(s[1..], c);
      assert (s + [c])[1..] == s[1..] + [c];
    }
  }

  method QuoteForPretty(s: string) returns (buf: string)
    ensures buf == Quoted(s)
  {
    hide Escaped, ForcesQuote;
    var needsQuote := s == "";
    for i := 0 to |s|
      invariant needsQuote <==> s == "" || exists k | 0 <= k < i :: ForcesQuote(s[k])
    {
      if ForcesQuote(s[i]) {
        needsQuote := true;
      }
    }
    assert s[..|s|] == s;
    if !needsQuote {
      return s;
    }
    buf := "\"";
    for i := 0 to |s|
      invariant buf == "\"" + Body(s[..i])
    {
      BodyMore(s[..i], s[i]);
      assert s[..i + 1] == s[..i] + [s[i]];
      buf := buf + Escaped(s[i]);
    }
    buf := buf + "\"";
  }

  // Reading it back

  function HexValue(digits: string): Option<nat> {
    if |digits| != 4 then None
    else
      var a, b, c, d := DigitValue(digits[0]), DigitValue(digits[1]), DigitValue(digits[2]), DigitValue(digits[3]);
      if a.None? || b.None? || c.None? || d.None? then None
      else Some(((a.value * 16 + b.value) * 16 + c.value) * 16 + d.value)
  }

  function Prepend(c: char, rest: Option<string>): Option<string> {
    if rest.None? then None else Some([c] + rest.value)
  }

  /** What follows an opening quote, up to the closing one at the end. */
  function Unescaped(t: string): Option<string>
    decreases |t|
  {
    if t == "" then None
    else if t[0] == '"' then if |t| == 1 then Some("") else None
    else if t[0] != '\\' then Prepend(t[0], Unescaped(t[1..]))
    else if |t| < 2 then None
    else
      match t[1]
      case '\\' => Prepend('\\', Unescaped(t[2..]))
      case '"' => Prepend('"', Unescaped(t[2..]))
      case 'n' => Prepend('\n', Unescaped(t[2..]))
      case 'r' => Prepend('\r', Unescaped(t[2..]))
      case 't' => Prepend('\t', Unescaped(t[2..]))
      case 'u' =>
        if |t| < 8 || t[2] != '{' || t[7] != '}' then None
        else
          var code := HexValue(t[3..7]);
          if code.None? || code.value >= 0xD800 then None else Prepend(code.value as char, Unescaped(t[8..]))
      case _ => None
  }

  function Unquoted(t: string): Option<string> {
    if t != "" && t[0] == '"' then Unescaped(t[1..]) else Some(t)
  }

  lemma {:induction false} HexDigitBack(d: nat)
    requires d < 16
    ensures DigitValue(HexDigit(d)) == Some(d)
  {
    assert HexDigit(d) == if d < 10 then ('0' as int + d) as char else ('a' as int + d - 10) as char;
  }

  lemma {:induction false} HexSum(n: nat)
    ensures ((n / 16 / 16 / 16 * 16 + n / 16 / 16 % 16) * 16 + n / 16 % 16) * 16 + n % 16 == n
  {
    var c, d := n / 16, n % 16;
    var b := c / 16;
    assert n == c * 16 + d && c == b * 16 + c % 16 && b == b / 16 * 16 + b % 16;
  }

  lemma {:induction false} HexBack(n: nat)
    requires n < 0x10000
    ensures HexValue(Hex4(n)) == Some(n) && |Hex4(n)| == 4
  {
    HexSum(n);
    HexDigitBack(n / 16 / 16 / 16);
    HexDigitBack(n / 16 / 16 % 16);
    HexDigitBack(n / 16 % 16);
    HexDigitBack(n % 16);
    hide HexDigit, DigitValue;
  }

  lemma {:induction false} EscapeForm(digits: string, rest: string)
    requires |digits| == 4
    ensures var t := "\\u{" + digits + "}" + rest;
            && |t| >= 8 && t[0] == '\\' && t[1] == 'u' && t[2] == '{' && t[7] == '}'
            && t[3..7] == digits && t[8..] == rest
  {
  }

  lemma {:induction false} EscapedBack(c: char, rest: string)
    ensures Unescaped(Escaped(c) + rest) == Prepend(c, Unescaped(rest))
  {
    hide Hex4, HexValue;
    if c == '\\' || c == '"' || c == '\n' || c == '\r' || c == '\t' {
      ShortEscapeBack(c, rest);
    } else if NeedsEscape(c) {
      HexBack(c as int);
      HexEscapeBack(c, Hex4(c as int), rest);
    } else {
      PlainBack(c, rest);
    }
  }

  lemma {:induction false} ShortEscapeBack(c: char, rest: string)
    requires c == '\\' || c == '"' || c == '\n' || c == '\r' || c == '\t'
    ensures Unescaped(Escaped(c) + rest) == Prepend(c, Unescaped(rest))
  {
    hide NeedsEscape, HexValue, Hex4;
    assert (Escaped(c) + rest)[2..] == rest;
  }

  lemma {:induction false} HexEscapeBack(c: char, digits: string, rest: string)
    requires |digits| == 4 && HexValue(digits) == Some(c as int) && c as int < 0xD800
    ensures Unescaped("\\u{" + digits + "}" + rest) == Prepend(c, Unescaped(rest))
  {
    hide HexValue;
    EscapeForm(digits, rest);
  }

  lemma {:induction false} PlainBack(c: char, rest: string)
    requires c != '\\' && c != '"'
    ensures Unescaped([c] + rest) == Prepend(c, Unescaped(rest))
  {
    hide HexValue;
    assert ([c] + rest)[1..] == rest;
  }

  lemma {:induction false} BodyBack(s: string)
    ensures Unescaped(Body(s) + "\"") == Some(s)
  {
    if s != "" {
      BodyBack(s[1..]);
      EscapedBack(s[0], Body(s[1..]) + "\"");
      assert Body(s) + "\"" == Escaped(s[0]) + (Body(s[1..]) + "\"");
      assert s == [s[0]] + s[1..];
    }
  }

  /** Quoting can be undone, for every string. */
  lemma {:induction false} QuotedBack(s: string)
    ensures Unquoted(Quoted(s)) == Some(s)
  {
    hide Body, Unescaped, NeedsEscape;
    if NeedsQuote(s) {
      BodyBack(s);
      assert Quoted(s) == "\"" + (Body(s) + "\"");
      assert Quoted(s)[1..] == Body(s) + "\"";
    } else {
      assert !ForcesQuote(s[0]);
    }
  }

  /** So different strings never look the same. */
  lemma {:induction false} QuotedInjective(s: string, t: string)
    requires Quoted(s) == Quoted(t)
    ensures s == t
  {
    QuotedBack(s);
    QuotedBack(t);
  }

  /** What a terminal shows as a character in its place: no C0 control, no DEL, no C1 control, and none
      of the characters that change the direction of text. */
  predicate Printable(c: char) {
    var code := c as int;
    && code >= 0x20 && code != 0x7F && !(0x80 <= code <= 0x9F)
    && code != 0x061C && code != 0x200E && code != 0x200F
    && code != 0x202A && code != 0x202B && code != 0x202C && code != 0x202D && code != 0x202E
    && code != 0x2066 && code != 0x2067 && code != 0x2068 && code != 0x2069
  }

  predicate Safe(s: string) {
    forall c | c in s :: Printable(c)
  }

  lemma {:induction false} EscapeIffUnprintable(c: char)
    ensures NeedsEscape(c) <==> !Printable(c)
  {
  }

  /** A text is printed as it is if and only if it is not empty and consists of printable characters
      other than the space, the quote and the equals sign. */
  lemma {:induction false} UnchangedIff(s: string)
    ensures Quoted(s) == s <==> s != "" && Safe(s) && ' ' !in s && '"' !in s && '=' !in s
  {
    forall c ensures NeedsEscape(c) <==> !Printable(c) {
      EscapeIffUnprintable(c);
    }
    hide NeedsEscape, Printable, Escaped;
    if Quoted(s) == s {
      if NeedsQuote(s) {
        BodyGrows(s);
      }
      assert s != "" && forall k | 0 <= k < |s| :: !ForcesQuote(s[k]);
    }
  }

  lemma {:induction false} BodyGrows(s: string)
    ensures |Body(s)| >= |s|
  {
    if s != "" {
      BodyGrows(s[1..]);
    }
  }

  lemma {:induction false} HexSafe(d: nat)
    requires d < 16
    ensures Printable(HexDigit(d)) && HexDigit(d) as int < 0x80
  {
    HexDigitBack(d);
  }

  lemma {:induction false} Hex4Safe(n: nat)
    requires n < 0x10000
    ensures Safe(Hex4(n)) && |Hex4(n)| == 4 && forall c | c in Hex4(n) :: c as int < 0x80
  {
    HexSafe(n / 16 / 16 / 16);
    HexSafe(n / 16 / 16 % 16);
    HexSafe(n / 16 % 16);
    HexSafe(n % 16);
    hide HexDigit, Printable;
  }

  lemma {:induction false} ShortEscapeSafe(c: char)
    requires c == '\\' || c == '"' || c == '\n' || c == '\r' || c == '\t'
    ensures Safe(Escaped(c)) && Bytes(Escaped(c)) == 2
  {
    var e := Escaped(c);
    assert |e| == 2 && e[0] == '\\' && e[1] as int < 0x7F && e[1] as int > 0x20;
    hide Escaped;
    AsciiBytes(e);
  }

  lemma {:induction false} HexEscapeSafe(n: nat)
    requires n < 0x10000
    ensures Safe("\\u{" + Hex4(n) + "}") && Bytes("\\u{" + Hex4(n) + "}") == 8
  {
    Hex4Safe(n);
    hide Hex4;
    AsciiBytes("\\u{" + Hex4(n) + "}");
  }

  lemma {:induction false} EscapedSafe(c: char)
    ensures Safe(Escaped(c))
    ensures Bytes(Escaped(c)) <= 8 * Utf8(c)
  {
    if c == '\\' || c == '"' || c == '\n' || c == '\r' || c == '\t' {
      ShortEscapeSafe(c);
    } else if NeedsEscape(c) {
      HexEscapeSafe(c as int);
      hide Safe, Bytes;
    } else {
      EscapeIffUnprintable(c);
      hide Hex4, NeedsEscape, Printable;
      assert [c][1..] == "";
    }
  }

  /** The length of a character in UTF-8. */
  function Utf8(c: char): (n: nat)
    ensures 1 <= n <= 4
  {
    var code := c as int;
    if code < 0x80 then 1 else if code < 0x800 then 2 else if code < 0x10000 then 3 else 4
  }

  function Bytes(s: string): nat {
    if s == "" then 0 else Utf8(s[0]) + Bytes(s[1..])
  }

  lemma {:induction false} BytesConcat(s: string, t: string)
    ensures Bytes(s + t) == Bytes(s) + Bytes(t)
  {
    if s == "" {
      assert s + t == t;
    } else {
      assert (s + t)[1..] == s[1..] + t;
      BytesConcat(s[1..], t);
    }
  }

  lemma {:induction false} AsciiBytes(s: string)
    requires forall c | c in s :: c as int < 0x80
    ensures Bytes(s) == |s|
  {
    if s != "" {
      assert s[0] in s;
      assert forall c | c in s[1..] :: c in s;
      AsciiBytes(s[1..]);
    }
  }

  lemma {:induction false} BodySafe(s: string)
    ensures Safe(Body(s)) && Bytes(Body(s)) <= 8 * Bytes(s)
  {
    if s != "" {
      BodySafe(s[1..]);
      EscapedSafe(s[0]);
      BytesConcat(Escaped(s[0]), Body(s[1..]));
    }
  }

  lemma {:induction false} PlainSafe(s: string)
    requires !NeedsQuote(s)
    ensures Safe(s)
  {
    forall c | c in s ensures Printable(c) {
      var k :| 0 <= k < |s| && s[k] == c;
      assert !ForcesQuote(s[k]);
      EscapeIffUnprintable(c);
    }
  }

  /** No control or direction character gets through, and each character grows eightfold at most. */
  lemma {:induction false} QuotedSafe(s: string)
    ensures Safe(Quoted(s))
    ensures Bytes(Quoted(s)) <= 8 * Bytes(s) + 2
  {
    if NeedsQuote(s) {
      BodySafe(s);
      BytesConcat("\"", Body(s));
      BytesConcat("\"" + Body(s), "\"");
    } else {
      PlainSafe(s);
    }
  }

  // Attribute values

  /** A double stands here with its printed digits. */
  datatype Value =
    | Text(text: string)
    | Flag(flag: bool)
    | Number(number: int)
    | Double(digits: string)
    | Blob(blob: seq<byte>)
    | Array(items: seq<Value>)
    | KeyValues(pairs: seq<Pair>)
    | StringIndex
    | Nothing

  datatype Pair = Pair(key: string, value: Option<Value>)

  predicate IsInt64(n: int) {
    -0x8000_0000_0000_0000 <= n < 0x8000_0000_0000_0000
  }

  /** Integers fit their type, and printed doubles consist of printable characters. */
  predicate WellFormed(v: Value) {
    match v
    case Number(n) => IsInt64(n)
    case Double(digits) => Safe(digits)
    case Array(items) => forall i | 0 <= i < |items| :: WellFormed(items[i])
    case KeyValues(pairs) => forall i | 0 <= i < |pairs| && pairs[i].value.Some? :: WellFormed(pairs[i].value.value)
    case _ => true
  }

  function Digits(n: nat): string {
    if n < 10 then [HexDigit(n)] else Digits(n / 10) + [HexDigit(n % 10)]
  }

  function Decimal(n: int): string {
    if n < 0 then "-" + Digits(-n) else Digits(n)
  }

  function HexOf(bytes: seq<byte>): string {
    if bytes == [] then ""
    else
      var last := bytes[|bytes| - 1] as nat;
      HexOf(bytes[..|bytes| - 1]) + [HexDigit(last / 16), HexDigit(last % 16)]
  }

  method Hex(bytes: seq<byte>) returns (s: string)
    ensures s == HexOf(bytes) && |s| == 2 * |bytes|
  {
    s := "";
    for i := 0 to |bytes|
      invariant s == HexOf(bytes[..i]) && |s| == 2 * i
    {
      assert bytes[..i + 1][..i] == bytes[..i];
      s := s + [HexDigit(bytes[i] as nat / 16), HexDigit(bytes[i] as nat % 16)];
    }
    assert bytes[..|bytes|] == bytes;
  }

  const SEPARATOR: string := ", "

  /** Only the strings at the leaves are quoted; what encloses them is printed as it is. */
  function Pretty(v: Value): string
    decreases v
  {
    match v
    case Text(s) => Quoted(s)
    case Flag(b) => if b then "true" else "false"
    case Number(n) => Decimal(n)
    case Double(digits) => digits
    case Blob(bytes) => "0x" + HexOf(bytes)
    case Array(items) => "[" + JoinItems(items) + "]"
    case KeyValues(pairs) => "{" + JoinPairs(pairs) + "}"
    case StringIndex => Quoted("")
    case Nothing => Quoted("")
  }

  function JoinItems(items: seq<Value>): string
    decreases items
  {
    if items == [] then ""
    else if |items| == 1 then Pretty(items[0])
    else Pretty(items[0]) + SEPARATOR + JoinItems(items[1..])
  }

  function PrettyPair(p: Pair): string
    decreases p
  {
    Quoted(p.key) + "=" + if p.value.Some? then Pretty(p.value.value) else Quoted("")
  }

  function JoinPairs(pairs: seq<Pair>): string
    decreases pairs
  {
    if pairs == [] then ""
    else if |pairs| == 1 then PrettyPair(pairs[0])
    else PrettyPair(pairs[0]) + SEPARATOR + JoinPairs(pairs[1..])
  }

  // Reading leaves back

  function ReadDigits(s: string): Option<nat> {
    if s == "" then None
    else
      var front, last := s[..|s| - 1], DigitValue(s[|s| - 1]);
      if last.None? || last.value >= 10 then None
      else if front == "" then last
      else if ReadDigits(front).None? then None
      else Some(10 * ReadDigits(front).value + last.value)
  }

  function ReadInt(s: string): Option<int> {
    var negative := s != "" && s[0] == '-';
    match ReadDigits(if negative then s[1..] else s)
    case None => None
    case Some(n) => Some(if negative then -(n as int) else n)
  }

  function ReadHex(s: string): Option<seq<byte>> {
    if s == "" then Some([])
    else if |s| == 1 then None
    else
      var high, low := DigitValue(s[|s| - 2]), DigitValue(s[|s| - 1]);
      var front := ReadHex(s[..|s| - 2]);
      if high.None? || low.None? || front.None? then None
      else Some(front.value + [(16 * high.value + low.value) as byte])
  }

  lemma {:induction false} DigitsRead(n: nat)
    ensures Digits(n) != "" && Digits(n)[0] != '-'
    ensures ReadDigits(Digits(n)) == Some(n)
    ensures n > 0 ==> Digits(n)[0] != '0'
  {
    HexDigitBack(n % 10);
    if n < 10 {
      HexDigitBack(n);
      assert n > 0 ==> HexDigit(n) != '0';
    } else {
      DigitsRead(n / 10);
      assert Digits(n)[..|Digits(n)| - 1] == Digits(n / 10);
    }
  }

  lemma {:induction false} DecimalRead(n: int)
    ensures ReadInt(Decimal(n)) == Some(n)
  {
    hide Digits, ReadDigits;
    DigitsRead(if n < 0 then -n else n);
    if n < 0 {
      assert Decimal(n)[1..] == Digits(-n);
    }
  }

  lemma {:induction false} ReadHexMore(s: string, b: byte)
    requires ReadHex(s).Some?
    ensures ReadHex(s + [HexDigit(b as nat / 16), HexDigit(b as nat % 16)]) == Some(ReadHex(s).value + [b])
  {
    var t := s + [HexDigit(b as nat / 16), HexDigit(b as nat % 16)];
    assert t[..|t| - 2] == s;
    HexDigitBack(b as nat / 16);
    HexDigitBack(b as nat % 16);
    hide HexDigit, DigitValue;
    assert 16 * (b as nat / 16) + b as nat % 16 == b as nat;
  }

  lemma {:induction false} HexOfRead(bytes: seq<byte>)
    ensures ReadHex(HexOf(bytes)) == Some(bytes)
  {
    hide ReadHex, HexDigit;
    if bytes == [] {
      NoDigits();
    } else {
      var front, last := bytes[..|bytes| - 1], bytes[|bytes| - 1];
      HexOfRead(front);
      ReadHexMore(HexOf(front), last);
      assert bytes == front + [last];
    }
  }

  lemma {:induction false} NoDigits()
    ensures ReadHex("") == Some([])
  {
  }

  /** Each kind of leaf can be read back from what is printed for it; a missing value and a string
      given by index are printed as an empty text. */
  lemma {:induction false} LeafRead(v: Value)
    ensures v.Text? ==> Unquoted(Pretty(v)) == Some(v.text)
    ensures v.Flag? ==> (Pretty(v) == "true" <==> v.flag) && (Pretty(v) == "false" <==> !v.flag)
    ensures v.Number? ==> ReadInt(Pretty(v)) == Some(v.number)
    ensures v.Double? ==> Pretty(v) == v.digits
    ensures v.Blob? ==> |Pretty(v)| >= 2 && Pretty(v)[..2] == "0x" && ReadHex(Pretty(v)[2..]) == Some(v.blob)
    ensures v.StringIndex? || v.Nothing? ==> Unquoted(Pretty(v)) == Some("") && Pretty(v) == "\"\""
  {
    match v
    case Text(s) => QuotedBack(s);
    case Number(n) => DecimalRead(n);
    case Blob(bytes) => HexOfRead(bytes);
    case _ =>
  }

  /** An array is printed item by item, in order, with separators between them only; so is a list of
      pairs. */
  lemma {:induction false} ItemsJoined(items: seq<Value>, k: nat)
    requires 0 < k < |items|
    ensures JoinItems(items) == JoinItems(items[..k]) + ", " + JoinItems(items[k..])
  {
    hide Pretty;
    if k == 1 {
      assert items[..1] == [items[0]];
    } else {
      var rest := items[1..];
      ItemsJoined(rest, k - 1);
      assert rest[..k - 1] == items[..k][1..] && rest[k - 1..] == items[k..];
    }
  }

  /** What encloses an array and a list of pairs, and what stands between a key and its value. */
  lemma {:induction false} Punctuation(v: Value, p: Pair)
    ensures v.Array? ==> Pretty(v) == "[" + JoinItems(v.items) + "]"
    ensures v.KeyValues? ==> Pretty(v) == "{" + JoinPairs(v.pairs) + "}"
    ensures JoinItems([v]) == Pretty(v) && JoinItems([]) == ""
    ensures JoinPairs([p]) == Quoted(p.key) + "=" + (if p.value.Some? then Pretty(p.value.value) else "\"\"")
    ensures JoinPairs([]) == ""
  {
  }

  lemma {:induction false} PairsJoined(pairs: seq<Pair>, k: nat)
    requires 0 < k < |pairs|
    ensures JoinPairs(pairs) == JoinPairs(pairs[..k]) + ", " + JoinPairs(pairs[k..])
  {
    hide PrettyPair;
    if k == 1 {
      assert pairs[..1] == [pairs[0]];
    } else {
      var rest := pairs[1..];
      PairsJoined(rest, k - 1);
      assert rest[..k - 1] == pairs[..k][1..] && rest[k - 1..] == pairs[k..];
    }
  }

  /** The bytes of text and data in a value. */
  function TextSize(v: Value): nat {
    match v
    case Text(s) => Bytes(s)
    case Double(digits) => Bytes(digits)
    case Blob(bytes) => |bytes|
    case Array(items) => ItemsSize(items)
    case KeyValues(pairs) => PairsSize(pairs)
    case _ => 0
  }

  function ItemsSize(items: seq<Value>): nat {
    if items == [] then 0 else TextSize(items[0]) + ItemsSize(items[1..])
  }

  function PairSize(p: Pair): nat {
    Bytes(p.key) + if p.value.Some? then TextSize(p.value.value) else 0
  }

  function PairsSize(pairs: seq<Pair>): nat {
    if pairs == [] then 0 else PairSize(pairs[0]) + PairsSize(pairs[1..])
  }

  /** How many values and pairs there are. */
  function Nodes(v: Value): nat {
    match v
    case Array(items) => 1 + ItemsNodes(items)
    case KeyValues(pairs) => 1 + PairsNodes(pairs)
    case _ => 1
  }

  function ItemsNodes(items: seq<Value>): nat {
    if items == [] then 0 else Nodes(items[0]) + ItemsNodes(items[1..])
  }

  function PairNodes(p: Pair): nat {
    1 + if p.value.Some? then Nodes(p.value.value) else 0
  }

  function PairsNodes(pairs: seq<Pair>): nat {
    if pairs == [] then 0 else PairNodes(pairs[0]) + PairsNodes(pairs[1..])
  }

  function Pow10(k: nat): nat {
    if k == 0 then 1 else 10 * Pow10(k - 1)
  }

  lemma {:induction false} DigitsFit(n: nat, k: nat)
    requires k >= 1 && n < Pow10(k)
    ensures |Digits(n)| <= k && Safe(Digits(n)) && Bytes(Digits(n)) == |Digits(n)|
  {
    if n < 10 {
      HexSafe(n);
      assert Digits(n)[1..] == "";
    } else {
      assert k >= 2 by { assert Pow10(1) == 10 * Pow10(0); }
      DigitsFit(n / 10, k - 1);
      HexSafe(n % 10);
      var last := [HexDigit(n % 10)];
      assert last[1..] == "";
      BytesConcat(Digits(n / 10), last);
    }
  }

  lemma {:induction false} DecimalFits(n: int)
    requires IsInt64(n)
    ensures Safe(Decimal(n)) && Bytes(Decimal(n)) <= 20
  {
    assert Pow10(19) == 10_000_000_000_000_000_000 by {
      assert Pow10(4) == 10_000;
      assert Pow10(8) == 100_000_000;
      assert Pow10(12) == 1_000_000_000_000;
      assert Pow10(16) == 10_000_000_000_000_000;
    }
    DigitsFit(if n < 0 then -n else n, 19);
    if n < 0 {
      BytesConcat("-", Digits(-n));
      assert "-"[1..] == "";
    }
  }

  lemma {:induction false} HexOfFits(bytes: seq<byte>)
    ensures Safe(HexOf(bytes)) && Bytes(HexOf(bytes)) == 2 * |bytes|
  {
    if bytes != [] {
      var last := bytes[|bytes| - 1] as nat;
      HexOfFits(bytes[..|bytes| - 1]);
      HexSafe(last / 16);
      HexSafe(last % 16);
      var two := [HexDigit(last / 16), HexDigit(last % 16)];
      AsciiBytes(two);
      BytesConcat(HexOf(bytes[..|bytes| - 1]), two);
    }
  }

  /** What one rendered piece may cost besides its text, with room for the separator behind it. */
  predicate Fits(s: string, text: nat, nodes: nat) {
    Safe(s) && Bytes(s) + 2 <= 8 * text + 22 * nodes
  }

  lemma {:induction false} Enclosed(left: string, inner: string, right: string)
    requires Safe(left) && Safe(inner) && Safe(right)
    ensures Safe(left + inner + right)
    ensures Bytes(left + inner + right) == Bytes(left) + Bytes(inner) + Bytes(right)
  {
    BytesConcat(left, inner);
    BytesConcat(left + inner, right);
  }

  lemma {:induction false} PunctuationBytes()
    ensures Bytes("[") == Bytes("]") == Bytes("{") == Bytes("}") == Bytes("=") == 1
    ensures Bytes("") == 0 && Bytes(", ") == Bytes("0x") == 2 && Bytes("true") == 4 && Bytes("false") == 5
  {
    AsciiBytes("[");
    AsciiBytes("]");
    AsciiBytes("{");
    AsciiBytes("}");
    AsciiBytes("=");
    AsciiBytes(", ");
    AsciiBytes("0x");
    AsciiBytes("true");
    AsciiBytes("false");
  }

  /** Whatever the nesting, a rendered value is safe and its length is bounded by its text and its
      number of nodes alone: enclosing a value adds a constant and never escapes it again. */
  lemma {:induction false} PrettyFits(v: Value)
    requires WellFormed(v)
    ensures Safe(Pretty(v))
    ensures Bytes(Pretty(v)) + 2 <= 8 * TextSize(v) + 22 * Nodes(v)
    decreases v
  {
    PunctuationBytes();
    hide Quoted, Decimal, HexOf, Bytes;
    match v
    case Text(s) => QuotedSafe(s);
    case Flag(_) =>
    case Number(n) => DecimalFits(n);
    case Double(_) =>
    case Blob(bytes) =>
      HexOfFits(bytes);
      BytesConcat("0x", HexOf(bytes));
    case Array(items) =>
      ItemsFit(items);
      Enclosed("[", JoinItems(items), "]");
    case KeyValues(pairs) =>
      PairsFit(pairs);
      Enclosed("{", JoinPairs(pairs), "}");
    case StringIndex => QuotedSafe("");
    case Nothing => QuotedSafe("");
  }

  lemma {:induction false} ItemsFit(items: seq<Value>)
    requires forall i | 0 <= i < |items| :: WellFormed(items[i])
    ensures Safe(JoinItems(items))
    ensures Bytes(JoinItems(items)) <= 8 * ItemsSize(items) + 22 * ItemsNodes(items)
    decreases items
  {
    if items != [] {
      PrettyFits(items[0]);
      if |items| > 1 {
        ItemsFit(items[1..]);
        PunctuationBytes();
        Enclosed(Pretty(items[0]), SEPARATOR, JoinItems(items[1..]));
      }
    }
  }

  lemma {:induction false} PairFits(p: Pair)
    requires p.value.Some? ==> WellFormed(p.value.value)
    ensures Safe(PrettyPair(p))
    ensures Bytes(PrettyPair(p)) + 2 <= 8 * PairSize(p) + 22 * PairNodes(p)
    decreases p, 0
  {
    PunctuationBytes();
    QuotedSafe(p.key);
    if p.value.Some? {
      PrettyFits(p.value.value);
      Enclosed(Quoted(p.key), "=", Pretty(p.value.value));
    } else {
      QuotedSafe("");
      Enclosed(Quoted(p.key), "=", Quoted(""));
    }
  }

  lemma {:induction false} PairsFit(pairs: seq<Pair>)
    requires forall i | 0 <= i < |pairs| && pairs[i].value.Some? :: WellFormed(pairs[i].value.value)
    ensures Safe(JoinPairs(pairs))
    ensures Bytes(JoinPairs(pairs)) <= 8 * PairsSize(pairs) + 22 * PairsNodes(pairs)
    decreases pairs
  {
    if pairs != [] {
      PairFits(pairs[0]);
      if |pairs| > 1 {
        PairsFit(pairs[1..]);
        PunctuationBytes();
        Enclosed(PrettyPair(pairs[0]), SEPARATOR, JoinPairs(pairs[1..]));
      }
    }
  }
}
