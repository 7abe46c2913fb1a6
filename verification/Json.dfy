/** The part of JSON that route metadata uses: strings with escapes (section 7 of RFC 8259),
    unsigned integers and flat objects, over Unicode code points including surrogates. */
module Json {
  import opened Collections
  import opened Order

  type Code = c: int | 0 <= c < 0x110000
  type Text = seq<Code>

  function Lit(s: string): (t: Text)
    ensures |t| == |s|
  {
    seq(|s|, i requires 0 <= i < |s| => s[i] as int)
  }

  const QUOTE: Code := 34
  const BACKSLASH: Code := 92
  const LOWER_U: Code := 117
  const COMMA: Code := 44
  const COLON: Code := 58
  const OPEN: Code := 123
  const CLOSE: Code := 125
  const NEWLINE: Code := 10

  predicate High(c: Code) {
    0xd800 <= c <= 0xdbff
  }

  predicate Low(c: Code) {
    0xdc00 <= c <= 0xdfff
  }

  function HexDigit(d: nat): Code
    requires d < 16
  {
    if d < 10 then 48 + d else 87 + d
  }

  function HexValue(c: Code): Option<nat> {
    if 48 <= c <= 57 then Some(c - 48)
    else if 97 <= c <= 102 then Some(c - 87)
    else if 65 <= c <= 70 then Some(c - 55)
    else None
  }

  /** `\uXXXX` for one 16-bit unit. */
  function Unit(n: nat): (t: Text)
    requires n < 0x10000
    ensures |t| == 6
  {
    [BACKSLASH, LOWER_U, HexDigit(n / 4096), HexDigit(n / 256 % 16), HexDigit(n / 16 % 16), HexDigit(n % 16)]
  }

  /** The unit escaped at the front of a text, if there is one. */
  function ReadUnit(t: Text): (r: Option<nat>)
    ensures r.Some? ==> |t| >= 6 && r.value < 0x10000
  {
    if |t| < 6 || t[0] != BACKSLASH || t[1] != LOWER_U then None
    else match (HexValue(t[2]), HexValue(t[3]), HexValue(t[4]), HexValue(t[5]))
      case (Some(a), Some(b), Some(c), Some(d)) => Some(4096 * a + 256 * b + 16 * c + d)
      case _ => None
  }

  /** The character after a backslash that stands for a code point. */
  function ShortEscape(c: Code): Option<Code> {
    if c == 8 then Some(98) else if c == 9 then Some(116) else if c == 10 then Some(110)
    else if c == 12 then Some(102) else if c == 13 then Some(114)
    else if c == QUOTE || c == BACKSLASH then Some(c) else None
  }

  function ShortMeaning(e: Code): Option<Code> {
    if e == 98 then Some(8) else if e == 116 then Some(9) else if e == 110 then Some(10)
    else if e == 102 then Some(12) else if e == 114 then Some(13)
    else if e == QUOTE || e == BACKSLASH || e == 47 then Some(e) else None
  }

  function HighOf(c: Code): nat
    requires c >= 0x10000
    ensures 0xd800 <= HighOf(c) <= 0xdbff
  {
    0xd800 + (c - 0x10000) / 0x400
  }

  function LowOf(c: Code): nat
    requires c >= 0x10000
    ensures 0xdc00 <= LowOf(c) <= 0xdfff
  {
    0xdc00 + (c - 0x10000) % 0x400
  }

  function Pair(high: nat, low: nat): Code
    requires 0xd800 <= high <= 0xdbff && 0xdc00 <= low <= 0xdfff
  {
    0x10000 + (high - 0xd800) * 0x400 + (low - 0xdc00)
  }

  /** The ASCII escape of one code point. */
  function Escape(c: Code): (t: Text)
    ensures |t| >= 1
  {
    if ShortEscape(c).Some? then [BACKSLASH, ShortEscape(c).value]
    else if 0x20 <= c <= 0x7e then [c]
    else if c < 0x10000 then Unit(c)
    else Unit(HighOf(c)) + Unit(LowOf(c))
  }

  function Encode(s: Text): Text {
    if s == [] then [] else Escape(s[0]) + Encode(s[1..])
  }

  /** Reads the rest of a string literal, up to and including its closing quote. */
  function Decode(t: Text): (r: Option<(Text, Text)>)
    ensures r.Some? ==> |r.value.1| < |t|
  {
    if t == [] then None
    else if t[0] == QUOTE then Some(([], t[1..]))
    else if t[0] < 0x20 then None
    else if t[0] != BACKSLASH then Prepend(t[0], Decode(t[1..]))
    else if |t| < 2 then None
    else if ShortMeaning(t[1]).Some? then Prepend(ShortMeaning(t[1]).value, Decode(t[2..]))
    else match ReadUnit(t)
      case None => None
      case Some(n) =>
        if High(n) && LowNext(t[6..]) then Prepend(Pair(n, ReadUnit(t[6..]).value), Decode(t[12..]))
        else Prepend(n, Decode(t[6..]))
  }

  function Prepend(c: Code, r: Option<(Text, Text)>): Option<(Text, Text)> {
    match r
    case None => None
    case Some((s, rest)) => Some(([c] + s, rest))
  }

  /** The next thing in the text is an escaped low surrogate. */
  predicate LowNext(t: Text) {
    ReadUnit(t).Some? && Low(ReadUnit(t).value)
  }

  /** Adjacent surrogate pairs replaced by the code point they stand for. */
  function Join(s: Text): Text {
    if s == [] then []
    else if |s| >= 2 && High(s[0]) && Low(s[1]) then [Pair(s[0], s[1])] + Join(s[2..])
    else [s[0]] + Join(s[1..])
  }

  predicate SplitPair(s: Text) {
    exists i :: 0 <= i < |s| - 1 && High(s[i]) && Low(s[i + 1])
  }

  function CodeRank(c: Code): int {
    c
  }

  predicate Before(a: Text, b: Text) {
    Precedes(CodeRank, a, b)
  }

  // ---------------------------------------------------------------- strings round-trip

  lemma HexRound(d: nat)
    requires d < 16
    ensures HexValue(HexDigit(d)) == Some(d)
  {
  }

  lemma Nibbles(n: nat)
    requires n < 0x10000
    ensures n / 4096 < 16
    ensures n == 4096 * (n / 4096) + 256 * (n / 256 % 16) + 16 * (n / 16 % 16) + n % 16
  {
    var a, b := n / 16, n / 16 / 16;
    assert n / 256 == b && n / 4096 == b / 16;
    assert n == 16 * a + n % 16 && a == 16 * b + a % 16 && b == 16 * (b / 16) + b % 16;
  }

  lemma UnitRead(n: nat, rest: Text)
    requires n < 0x10000
    ensures ReadUnit(Unit(n) + rest) == Some(n)
  {
    Nibbles(n);
    HexRound(n / 4096);
    HexRound(n / 256 % 16);
    HexRound(n / 16 % 16);
    HexRound(n % 16);
    var t := Unit(n) + rest;
    assert t[0] == BACKSLASH && t[1] == LOWER_U && t[2] == HexDigit(n / 4096) && t[3] == HexDigit(n / 256 % 16)
           && t[4] == HexDigit(n / 16 % 16) && t[5] == HexDigit(n % 16);
  }

  lemma LowNextEscape(c: Code, after: Text)
    ensures LowNext(Escape(c) + after) <==> Low(c)
  {
    var t := Escape(c) + after;
    if ShortEscape(c).Some? {
      assert t[1] == ShortEscape(c).value;
    } else if 0x20 <= c <= 0x7e {
      assert t[0] == c;
    } else if c < 0x10000 {
      UnitRead(c, after);
    } else {
      UnitRead(HighOf(c), Unit(LowOf(c)) + after);
      assert t == Unit(HighOf(c)) + (Unit(LowOf(c)) + after);
    }
  }

  /** What follows an encoded text starts with an escaped low surrogate only if the text does. */
  lemma LowNextEncoded(s: Text, rest: Text)
    ensures LowNext(Encode(s) + [QUOTE] + rest) <==> s != [] && Low(s[0])
  {
    var t := Encode(s) + [QUOTE] + rest;
    if s == [] {
      assert t[0] == QUOTE;
    } else {
      var after := Encode(s[1..]) + [QUOTE] + rest;
      assert t == Escape(s[0]) + after;
      LowNextEscape(s[0], after);
    }
  }

  lemma DecodeUnit(n: nat, after: Text)
    requires n < 0x10000
    ensures !(High(n) && LowNext(after)) ==> Decode(Unit(n) + after) == Prepend(n, Decode(after))
    ensures High(n) && LowNext(after) ==> Decode(Unit(n) + after) == Prepend(Pair(n, ReadUnit(after).value), Decode(after[6..]))
  {
    var t := Unit(n) + after;
    UnitRead(n, after);
    assert t[6..] == after;
    assert LowNext(after) ==> t[12..] == after[6..];
  }

  /** Two escaped halves of a pair are read as one code point. */
  lemma DecodePair(h: nat, l: nat, after: Text)
    requires 0xd800 <= h <= 0xdbff && 0xdc00 <= l <= 0xdfff
    ensures Decode(Unit(h) + (Unit(l) + after)) == Prepend(Pair(h, l), Decode(after))
  {
    var low := Unit(l) + after;
    UnitRead(l, after);
    DecodeUnit(h, low);
    assert low[6..] == after;
  }

  /** Decoding an escaped code point that is not the high half of a following pair. */
  lemma DecodeEscape(c: Code, after: Text)
    requires !(High(c) && LowNext(after))
    ensures Decode(Escape(c) + after) == Prepend(c, Decode(after))
  {
    if ShortEscape(c).Some? || 0x20 <= c <= 0x7e {
      DecodeShort(c, after);
    } else if c < 0x10000 {
      DecodeUnit(c, after);
    } else {
      DecodeLong(c, after);
    }
  }

  lemma DecodeLong(c: Code, after: Text)
    requires c >= 0x10000
    ensures Decode(Escape(c) + after) == Prepend(c, Decode(after))
  {
    LongEscape(c);
    Associate(Unit(HighOf(c)), Unit(LowOf(c)), after);
    DecodePair(HighOf(c), LowOf(c), after);
  }

  lemma LongEscape(c: Code)
    requires c >= 0x10000
    ensures Escape(c) == Unit(HighOf(c)) + Unit(LowOf(c)) && Pair(HighOf(c), LowOf(c)) == c
  {
  }

  lemma MeaningOfEscape(c: Code)
    requires ShortEscape(c).Some?
    ensures ShortMeaning(ShortEscape(c).value) == Some(c)
  {
  }

  lemma DecodeTwo(e: Code, c: Code, after: Text)
    requires ShortMeaning(e) == Some(c)
    ensures Decode([BACKSLASH, e] + after) == Prepend(c, Decode(after))
  {
    var t := [BACKSLASH, e] + after;
    assert t[0] == BACKSLASH && t[1] == e && t[2..] == after;
  }

  lemma DecodePlain(c: Code, after: Text)
    requires 0x20 <= c <= 0x7e && c != QUOTE && c != BACKSLASH
    ensures Decode([c] + after) == Prepend(c, Decode(after))
  {
    var t := [c] + after;
    assert t[0] == c && t[1..] == after;
  }

  lemma DecodeShort(c: Code, after: Text)
    requires ShortEscape(c).Some? || 0x20 <= c <= 0x7e
    ensures Decode(Escape(c) + after) == Prepend(c, Decode(after))
  {
    if ShortEscape(c).Some? {
      MeaningOfEscape(c);
      DecodeTwo(ShortEscape(c).value, c, after);
    } else {
      DecodePlain(c, after);
    }
  }

  lemma EncodeFirst(s: Text, later: Text)
    requires s != [] && later == s[1..]
    ensures Encode(s) == Escape(s[0]) + Encode(later)
  {
  }

  lemma EncodedFirst(s: Text, later: Text, rest: Text)
    requires s != [] && later == s[1..]
    ensures Encode(s) + [QUOTE] + rest == Escape(s[0]) + (Encode(later) + [QUOTE] + rest)
  {
    EncodeFirst(s, later);
    Associate(Escape(s[0]), Encode(later), [QUOTE]);
    Associate(Escape(s[0]), Encode(later) + [QUOTE], rest);
  }

  lemma EmptyDecode(rest: Text)
    ensures Decode(Encode([]) + [QUOTE] + rest) == Some(([], rest))
  {
    var t := Encode([]) + [QUOTE] + rest;
    assert t == [QUOTE] + rest && t[1..] == rest;
  }

  lemma DecodeFirst(s: Text, later: Text, rest: Text)
    requires s != [] && later == s[1..] && !(|s| >= 2 && High(s[0]) && Low(s[1]))
    ensures Decode(Encode(s) + [QUOTE] + rest) == Prepend(s[0], Decode(Encode(later) + [QUOTE] + rest))
  {
    EncodedFirst(s, later, rest);
    LowNextEncoded(later, rest);
    DecodeEscape(s[0], Encode(later) + [QUOTE] + rest);
  }

  lemma SurrogateEscape(c: Code)
    requires High(c) || Low(c)
    ensures Escape(c) == Unit(c)
  {
  }

  lemma DecodeFirstPair(s: Text, later: Text, rest: Text)
    requires |s| >= 2 && High(s[0]) && Low(s[1]) && later == s[2..]
    ensures Decode(Encode(s) + [QUOTE] + rest) == Prepend(Pair(s[0], s[1]), Decode(Encode(later) + [QUOTE] + rest))
  {
    assert s[1..][1..] == s[2..];
    EncodedFirst(s, s[1..], rest);
    EncodedFirst(s[1..], later, rest);
    SurrogateEscape(s[0]);
    SurrogateEscape(s[1]);
    DecodePair(s[0], s[1], Encode(later) + [QUOTE] + rest);
  }

  /** Decoding undoes encoding, up to joining split surrogate pairs. */
  lemma {:induction false} DecodeEncode(s: Text, rest: Text)
    ensures Decode(Encode(s) + [QUOTE] + rest) == Some((Join(s), rest))
    decreases |s|
  {
    if s == [] {
      EmptyDecode(rest);
    } else if |s| >= 2 && High(s[0]) && Low(s[1]) {
      DecodeFirstPair(s, s[2..], rest);
      DecodeEncode(s[2..], rest);
    } else {
      DecodeFirst(s, s[1..], rest);
      DecodeEncode(s[1..], rest);
    }
  }

  /** A string survives the round trip exactly when it holds no split surrogate pair. */
  lemma {:induction false} JoinIdentity(s: Text)
    ensures |Join(s)| <= |s|
    ensures Join(s) == s <==> !SplitPair(s)
    decreases |s|
  {
    if s != [] {
      if |s| >= 2 && High(s[0]) && Low(s[1]) {
        JoinIdentity(s[2..]);
        assert |Join(s)| < |s|;
        assert High(s[0]) && Low(s[0 + 1]);
      } else {
        JoinIdentity(s[1..]);
        assert s == [s[0]] + s[1..];
        assert Join(s) == s <==> Join(s[1..]) == s[1..] by {
          assert Join(s)[1..] == Join(s[1..]);
        }
        if i :| 0 <= i < |s| - 1 && High(s[i]) && Low(s[i + 1]) {
          assert i > 0;
          assert High(s[1..][i - 1]) && Low(s[1..][i - 1 + 1]);
        }
        if i :| 0 <= i < |s[1..]| - 1 && High(s[1..][i]) && Low(s[1..][i + 1]) {
          assert High(s[i + 1]) && Low(s[i + 1 + 1]);
        }
      }
    }
  }

  predicate Printable(t: Text) {
    forall c :: c in t ==> 0x20 <= c <= 0x7e
  }

  lemma EscapePrintable(c: Code)
    ensures Printable(Escape(c))
  {
    if c < 0x10000 {
      UnitPrintable(c);
    } else {
      UnitPrintable(HighOf(c));
      UnitPrintable(LowOf(c));
    }
  }

  lemma UnitPrintable(n: nat)
    requires n < 0x10000
    ensures Printable(Unit(n))
  {
    Nibbles(n);
    assert forall d: nat :: d < 16 ==> 0x20 <= HexDigit(d) <= 0x7e;
  }

  lemma {:induction false} EncodePrintable(s: Text)
    ensures Printable(Encode(s))
  {
    if s != [] {
      EscapePrintable(s[0]);
      EncodePrintable(s[1..]);
    }
  }

  // ---------------------------------------------------------------- numbers

  function Decimal(n: nat): (t: Text)
    ensures |t| >= 1 && forall c :: c in t ==> IsDigit(c)
  {
    (if n < 10 then [] else Decimal(n / 10)) + [48 + n % 10]
  }

  function DigitRun(t: Text): (k: nat)
    ensures k <= |t|
  {
    if t == [] || !IsDigit(t[0]) then 0 else 1 + DigitRun(t[1..])
  }

  function NumberOf(t: Text): nat {
    if t == [] then 0
    else
      var d := t[|t| - 1];
      10 * NumberOf(t[..|t| - 1]) + if IsDigit(d) then d - 48 else 0
  }

  /** An unsigned integer without leading zeros at the front of the text. */
  function ReadNumber(t: Text): (r: Option<(nat, Text)>)
    ensures r.Some? ==> |r.value.1| < |t|
  {
    var k := DigitRun(t);
    if k == 0 || (k > 1 && t[0] == 48) then None else Some((NumberOf(t[..k]), t[k..]))
  }

  lemma {:induction false} DecimalValue(n: nat)
    ensures NumberOf(Decimal(n)) == n
    ensures n >= 10 ==> Decimal(n)[0] != 48
    ensures 0 < n < 10 ==> Decimal(n)[0] != 48
    ensures n < 10 ==> |Decimal(n)| == 1
  {
    var t := Decimal(n);
    if n >= 10 {
      DecimalValue(n / 10);
      assert t[..|t| - 1] == Decimal(n / 10);
    } else {
      assert t[..|t| - 1] == [];
    }
  }

  lemma {:induction false} DigitRunOf(d: Text, rest: Text)
    requires (forall c :: c in d ==> IsDigit(c)) && (rest == [] || !IsDigit(rest[0]))
    ensures DigitRun(d + rest) == |d|
  {
    if d == [] {
      assert d + rest == rest;
    } else {
      DigitRunOf(d[1..], rest);
      assert (d + rest)[1..] == d[1..] + rest;
    }
  }

  lemma ReadDecimal(n: nat, rest: Text)
    requires rest == [] || !IsDigit(rest[0])
    ensures ReadNumber(Decimal(n) + rest) == Some((n, rest))
  {
    var d := Decimal(n);
    DigitRunOf(d, rest);
    DecimalValue(n);
    assert (d + rest)[..|d|] == d && (d + rest)[|d|..] == rest;
  }

  // ---------------------------------------------------------------- flat objects

  datatype Value = Str(text: Text) | Num(n: nat)

  datatype Member = Member(key: Text, value: Value)

  function Quoted(s: Text): Text {
    [QUOTE] + Encode(s) + [QUOTE]
  }

  function PrintValue(v: Value): Text {
    match v
    case Str(s) => Quoted(s)
    case Num(n) => Decimal(n)
  }

  function PrintMember(m: Member): Text {
    Quoted(m.key) + ([COLON] + PrintValue(m.value))
  }

  /** The members after the opening brace, with the closing one. */
  function PrintMembers(ms: seq<Member>): Text
    requires ms != []
  {
    PrintMember(ms[0]) + if |ms| == 1 then [CLOSE] else [COMMA] + PrintMembers(ms[1..])
  }

  function PrintObject(ms: seq<Member>): Text
    requires ms != []
  {
    [OPEN] + PrintMembers(ms)
  }

  predicate Space(c: Code) {
    c == 32 || c == 9 || c == 10 || c == 13
  }

  function Skip(t: Text): (r: Text)
    ensures |r| <= |t|
  {
    if t != [] && Space(t[0]) then Skip(t[1..]) else t
  }

  function ReadValue(t: Text): (r: Option<(Value, Text)>)
    ensures r.Some? ==> |r.value.1| < |t|
  {
    if t != [] && t[0] == QUOTE then
      match Decode(t[1..])
      case None => None
      case Some((s, rest)) => Some((Str(s), rest))
    else
      match ReadNumber(t)
      case None => None
      case Some((n, rest)) => Some((Num(n), rest))
  }

  /** The colon and the value that follow a key. */
  function ReadBinding(key: Text, after: Text): (r: Option<(Member, Text)>)
    ensures r.Some? ==> |r.value.1| < |after|
  {
    var rest := Skip(after);
    if rest == [] || rest[0] != COLON then None
    else match ReadValue(Skip(rest[1..]))
      case None => None
      case Some((v, rest')) => Some((Member(key, v), rest'))
  }

  function ReadMember(t: Text): (r: Option<(Member, Text)>)
    ensures r.Some? ==> |r.value.1| < |t|
  {
    if t == [] || t[0] != QUOTE then None
    else match Decode(t[1..])
      case None => None
      case Some((key, after)) => ReadBinding(key, after)
  }

  function ReadMembers(t: Text): Option<(seq<Member>, Text)>
    decreases |t|
  {
    match ReadMember(t)
    case None => None
    case Some((m, after)) =>
      var rest := Skip(after);
      if rest == [] then None
      else if rest[0] == CLOSE then Some(([m], rest[1..]))
      else if rest[0] != COMMA then None
      else match ReadMembers(Skip(rest[1..]))
        case None => None
        case Some((ms, rest')) => Some(([m] + ms, rest'))
  }

  function ReadObject(text: Text): Option<(seq<Member>, Text)> {
    var t := Skip(text);
    if t == [] || t[0] != OPEN then None
    else
      var body := Skip(t[1..]);
      if body != [] && body[0] == CLOSE then Some(([], body[1..])) else ReadMembers(body)
  }

  function JoinValue(v: Value): Value {
    match v
    case Str(s) => Str(Join(s))
    case Num(n) => v
  }

  function JoinMember(m: Member): Member {
    Member(Join(m.key), JoinValue(m.value))
  }

  function JoinMembers(ms: seq<Member>): (r: seq<Member>)
    ensures |r| == |ms| && forall i :: 0 <= i < |ms| ==> r[i] == JoinMember(ms[i])
  {
    seq(|ms|, i requires 0 <= i < |ms| => JoinMember(ms[i]))
  }

  lemma DecodeQuoted(s: Text, rest: Text)
    ensures var t := Quoted(s) + rest; t != [] && t[0] == QUOTE && Decode(t[1..]) == Some((Join(s), rest))
  {
    assert (Quoted(s) + rest)[1..] == Encode(s) + [QUOTE] + rest;
    DecodeEncode(s, rest);
  }

  lemma DecimalFront(n: nat, rest: Text)
    ensures IsDigit((Decimal(n) + rest)[0])
  {
    assert Decimal(n)[0] in Decimal(n);
  }

  lemma ReadPrintedValue(v: Value, rest: Text)
    requires rest != [] && !IsDigit(rest[0])
    ensures ReadValue(PrintValue(v) + rest) == Some((JoinValue(v), rest))
    ensures Skip(PrintValue(v) + rest) == PrintValue(v) + rest
  {
    match v
    case Str(s) =>
      DecodeQuoted(s, rest);
    case Num(n) =>
      DecimalFront(n, rest);
      ReadDecimal(n, rest);
  }

  lemma ReadPrintedBinding(key: Text, v: Value, rest: Text)
    requires rest != [] && !IsDigit(rest[0])
    ensures ReadBinding(key, [COLON] + (PrintValue(v) + rest)) == Some((Member(key, JoinValue(v)), rest))
  {
    var tail := [COLON] + (PrintValue(v) + rest);
    ReadPrintedValue(v, rest);
    assert tail[1..] == PrintValue(v) + rest && Skip(tail) == tail;
  }

  lemma ReadPrintedMember(m: Member, rest: Text)
    requires rest != [] && !IsDigit(rest[0])
    ensures ReadMember(PrintMember(m) + rest) == Some((JoinMember(m), rest))
  {
    var tail := [COLON] + (PrintValue(m.value) + rest);
    AssociateWith(Quoted(m.key), COLON, PrintValue(m.value), rest);
    DecodeQuoted(m.key, tail);
    ReadPrintedBinding(Join(m.key), m.value, rest);
  }

  /** What reading members yields once the first one has been read. */
  function Continue(m: Member, next: Code, rest: Text): Option<(seq<Member>, Text)> {
    if next == CLOSE then Some(([m], rest))
    else match ReadMembers(Skip(rest))
      case None => None
      case Some((ms, rest')) => Some(([m] + ms, rest'))
  }

  lemma ReadMembersStep(m: Member, next: Code, rest: Text)
    requires next == COMMA || next == CLOSE
    ensures ReadMembers(PrintMember(m) + ([next] + rest)) == Continue(JoinMember(m), next, rest)
  {
    var tail := [next] + rest;
    ReadPrintedMember(m, tail);
    assert tail[1..] == rest;
  }

  lemma PrintMembersFirst(ms: seq<Member>, rest: Text)
    requires ms != []
    ensures |ms| == 1 ==> PrintMembers(ms) + rest == PrintMember(ms[0]) + ([CLOSE] + rest)
    ensures |ms| > 1 ==> PrintMembers(ms) + rest == PrintMember(ms[0]) + ([COMMA] + (PrintMembers(ms[1..]) + rest))
    ensures Skip(PrintMembers(ms) + rest) == PrintMembers(ms) + rest
    ensures (PrintMembers(ms) + rest)[0] == QUOTE
  {
    AssociateWith(PrintMember(ms[0]), if |ms| == 1 then CLOSE else COMMA, if |ms| == 1 then [] else PrintMembers(ms[1..]), rest);
  }

  lemma AssociateWith(a: Text, c: Code, b: Text, rest: Text)
    ensures (a + ([c] + b)) + rest == a + ([c] + (b + rest))
  {
    assert ([c] + b) + rest == [c] + (b + rest);
  }

  lemma JoinMembersFirst(ms: seq<Member>)
    requires ms != []
    ensures |ms| == 1 ==> JoinMembers(ms) == [JoinMember(ms[0])]
    ensures JoinMembers(ms) == [JoinMember(ms[0])] + JoinMembers(ms[1..])
  {
  }

  lemma ReadPrintedFirst(ms: seq<Member>, rest: Text)
    requires ms != []
    ensures |ms| == 1 ==> ReadMembers(PrintMembers(ms) + rest) == Some(([JoinMember(ms[0])], rest))
    ensures |ms| > 1 ==> ReadMembers(PrintMembers(ms) + rest) == Continue(JoinMember(ms[0]), COMMA, PrintMembers(ms[1..]) + rest)
  {
    PrintMembersFirst(ms, rest);
    if |ms| == 1 {
      ReadMembersStep(ms[0], CLOSE, rest);
    } else {
      ReadMembersStep(ms[0], COMMA, PrintMembers(ms[1..]) + rest);
    }
  }

  /** Reading a printed flat object gives its members back, in order. */
  lemma {:induction false} ReadPrintedMembers(ms: seq<Member>, rest: Text)
    requires ms != []
    ensures ReadMembers(PrintMembers(ms) + rest) == Some((JoinMembers(ms), rest))
  {
    ReadPrintedFirst(ms, rest);
    JoinMembersFirst(ms);
    if |ms| > 1 {
      ReadPrintedMembers(ms[1..], rest);
      PrintMembersFirst(ms[1..], rest);
    }
  }

  lemma {:induction false} MembersPrintable(ms: seq<Member>)
    requires ms != []
    ensures Printable(PrintMembers(ms))
  {
    EncodePrintable(ms[0].key);
    if ms[0].value.Str? {
      EncodePrintable(ms[0].value.text);
    }
    assert Printable(PrintMember(ms[0]));
    if |ms| > 1 {
      MembersPrintable(ms[1..]);
    }
  }

  lemma ReadPrintedObject(ms: seq<Member>)
    requires ms != []
    ensures ReadObject(PrintObject(ms)) == Some((JoinMembers(ms), []))
  {
    ReadPrintedMembers(ms, []);
    PrintMembersFirst(ms, []);
    assert PrintMembers(ms) + [] == PrintMembers(ms);
    assert PrintObject(ms)[1..] == PrintMembers(ms);
  }

  lemma PairEncoding(h: Code, l: Code)
    requires High(h) && Low(l)
    ensures Pair(h, l) < 0x110000 && Escape(Pair(h, l)) == Escape(h) + Escape(l)
  {
    assert HighOf(Pair(h, l)) == h && LowOf(Pair(h, l)) == l;
  }

  lemma EncodeTwo(s: Text)
    requires |s| >= 2
    ensures Encode(s) == (Escape(s[0]) + Escape(s[1])) + Encode(s[2..])
  {
    assert s[1..][1..] == s[2..];
    EncodeFirst(s, s[1..]);
    EncodeFirst(s[1..], s[2..]);
    Associate(Escape(s[0]), Escape(s[1]), Encode(s[2..]));
  }

  /** A split pair and the code point it stands for have the same escapes. */
  lemma {:induction false} EncodeJoin(s: Text)
    ensures Encode(Join(s)) == Encode(s)
    decreases |s|
  {
    if |s| >= 2 && High(s[0]) && Low(s[1]) {
      var p := Pair(s[0], s[1]);
      PairEncoding(s[0], s[1]);
      EncodeJoin(s[2..]);
      EncodeTwo(s);
      assert Join(s)[0] == p && Join(s)[1..] == Join(s[2..]);
      assert Encode(Join(s)) == (Escape(s[0]) + Escape(s[1])) + Encode(s[2..]);
    } else if s != [] {
      EncodeJoin(s[1..]);
      assert Join(s)[1..] == Join(s[1..]);
    }
  }

  lemma PrintJoinedMember(m: Member)
    ensures PrintMember(JoinMember(m)) == PrintMember(m)
  {
    EncodeJoin(m.key);
    if m.value.Str? {
      EncodeJoin(m.value.text);
    }
  }

  lemma {:induction false} PrintJoined(ms: seq<Member>)
    requires ms != []
    ensures PrintMembers(JoinMembers(ms)) == PrintMembers(ms)
  {
    PrintJoinedMember(ms[0]);
    JoinMembersFirst(ms);
    if |ms| > 1 {
      PrintJoined(ms[1..]);
      assert JoinMembers(ms)[1..] == JoinMembers(ms[1..]);
    }
  }

  lemma ObjectPrintable(ms: seq<Member>)
    requires ms != []
    ensures Printable(PrintObject(ms))
  {
    MembersPrintable(ms);
  }

  lemma {:induction false} JoinAscii(s: Text)
    requires forall c :: c in s ==> c < 0x80
    ensures Join(s) == s
  {
    JoinIdentity(s);
    assert forall i :: 0 <= i < |s| ==> s[i] in s;
  }
}
