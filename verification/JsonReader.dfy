/** A reader for compact JSON text, written from the grammar of RFC 8259 (values in section 3, objects in 4, arrays in
    5, numbers in 6, strings in 7) and not from the encoder; it accepts no white space between tokens. Reading what
    the encoder writes gives the value back. */
module JsonReader {
  import opened Base
  import opened CanonicalJson

  // ---------------------------------------------------------------- characters

  predicate IsHex(c: char) { '0' <= c <= '9' || 'a' <= c <= 'f' || 'A' <= c <= 'F' }

  function HexValue(c: char): int
  {
    if c <= '9' then c as int - '0' as int
    else if c <= 'F' then c as int - 'A' as int + 10
    else c as int - 'a' as int + 10
  }

  /** The number that four hex digits write, or -1 where there are none. */
  function Hex4Value(t: string): int
  {
    if |t| < 4 || !IsHex(t[0]) || !IsHex(t[1]) || !IsHex(t[2]) || !IsHex(t[3]) then -1
    else HexValue(t[0]) * 4096 + HexValue(t[1]) * 256 + HexValue(t[2]) * 16 + HexValue(t[3])
  }

  /** The code of the first character of a string's text, read back; -1 where there is none. */
  function FirstCode(t: string): int
  {
    if t == [] || t[0] < ' ' || t[0] == '\"' then -1
    else if t[0] != '\\' then t[0] as int
    else if |t| == 1 then -1
    else if t[1] == 'n' then 10
    else if t[1] == 'r' then 13
    else if t[1] == 't' then 9
    else if t[1] == 'f' then 12
    else if t[1] == 'b' then 8
    else if t[1] == '\"' || t[1] == '\\' || t[1] == '/' then t[1] as int
    else if t[1] != 'u' then -1
    else
      var n := Hex4Value(t[2..]);
      if !(0xD800 <= n < 0xDC00) then n
      else if |t| < 12 || t[6..8] != "\\u" then -1
      else
        var low := Hex4Value(t[8..]);
        if 0xDC00 <= low < 0xE000 then 0x1_0000 + (n - 0xD800) * 0x400 + (low - 0xDC00) else -1
  }

  /** How much of the text it takes. */
  function Width(t: string): (w: nat)
    ensures t != [] ==> w > 0
  {
    if t == [] || t[0] != '\\' then 1
    else if |t| == 1 || t[1] != 'u' then 2
    else if 0xD800 <= Hex4Value(t[2..]) < 0xDC00 then 12
    else 6
  }

  predicate IsScalar(n: int) { 0 <= n < 0xD800 || 0xE000 <= n < 0x11_0000 }

  // ---------------------------------------------------------------- strings and numbers

  /** A string after its opening quote, and what follows its closing one. */
  function ReadBody(t: string): (r: Option<(string, string)>)
    ensures r.Some? ==> |r.value.1| < |t|
    decreases |t|
  {
    if t == [] then None
    else if t[0] == '\"' then Some(([], t[1..]))
    else if !IsScalar(FirstCode(t)) || Width(t) > |t| then None
    else
      match ReadBody(t[Width(t)..])
      case None => None
      case Some((s, rest)) => Some(([FirstCode(t) as char] + s, rest))
  }

  predicate IsDigit(c: char) { '0' <= c <= '9' }

  function DigitCount(t: string): (n: nat)
    ensures n <= |t|
  {
    if t == [] || !IsDigit(t[0]) then 0 else DigitCount(t[1..]) + 1
  }

  function DecimalValue(t: string): int
  {
    if t == [] then 0 else DecimalValue(t[..|t| - 1]) * 10 + HexValue(t[|t| - 1])
  }

  /** Digits without a leading zero. */
  function ReadDecimal(t: string): (r: Option<(int, string)>)
    ensures r.Some? ==> |r.value.1| < |t|
  {
    var n := DigitCount(t);
    if n == 0 || (n > 1 && t[0] == '0') then None else Some((DecimalValue(t[..n]), t[n..]))
  }

  function ReadNumber(t: string): (r: Option<(int, string)>)
    ensures r.Some? ==> |r.value.1| < |t|
  {
    if t != [] && t[0] == '-' then
      match ReadDecimal(t[1..])
      case None => None
      case Some((n, rest)) => Some((-n, rest))
    else ReadDecimal(t)
  }

  // ---------------------------------------------------------------- values

  predicate Starts(t: string, p: string) { |p| <= |t| && t[..|p|] == p }

  /** The value a text begins with, and the rest of the text. */
  function ReadValue(t: string): (r: Option<(Json, string)>)
    ensures r.Some? ==> |r.value.1| < |t|
    decreases |t|, 0
  {
    if t == [] then None
    else if t[0] == 'n' then if Starts(t, "null") then Some((Null, t[4..])) else None
    else if t[0] == 't' then if Starts(t, "true") then Some((Bool(true), t[4..])) else None
    else if t[0] == 'f' then if Starts(t, "false") then Some((Bool(false), t[5..])) else None
    else if t[0] == '\"' then
      match ReadBody(t[1..]) case None => None case Some((s, rest)) => Some((Str(s), rest))
    else if t[0] == '[' then
      if Starts(t[1..], "]") then Some((Arr([]), t[2..]))
      else match ReadItems(t[1..]) case None => None case Some((items, rest)) => Some((Arr(items), rest))
    else if t[0] == '{' then
      if Starts(t[1..], "}") then Some((Obj([]), t[2..]))
      else match ReadFields(t[1..]) case None => None case Some((fields, rest)) => Some((Obj(fields), rest))
    else
      match ReadNumber(t) case None => None case Some((n, rest)) => Some((Num(n), rest))
  }

  /** The elements of an array up to its closing bracket. */
  function ReadItems(t: string): (r: Option<(seq<Json>, string)>)
    ensures r.Some? ==> |r.value.1| < |t|
    decreases |t|, 1
  {
    match ReadValue(t)
    case None => None
    case Some((v, rest)) =>
      if Starts(rest, "]") then Some(([v], rest[1..]))
      else if !Starts(rest, ",") then None
      else
        match ReadItems(rest[1..])
        case None => None
        case Some((items, last)) => Some(([v] + items, last))
  }

  function ReadField(t: string): (r: Option<(Field, string)>)
    ensures r.Some? ==> |r.value.1| < |t|
    decreases |t|, 1
  {
    if !Starts(t, "\"") then None
    else
      match ReadBody(t[1..])
      case None => None
      case Some((key, rest)) =>
        if !Starts(rest, ":") then None
        else
          match ReadValue(rest[1..])
          case None => None
          case Some((v, last)) => Some((Field(key, v), last))
  }

  /** The members of an object up to its closing brace. */
  function ReadFields(t: string): (r: Option<(seq<Field>, string)>)
    ensures r.Some? ==> |r.value.1| < |t|
    decreases |t|, 2
  {
    match ReadField(t)
    case None => None
    case Some((f, rest)) =>
      if Starts(rest, "}") then Some(([f], rest[1..]))
      else if !Starts(rest, ",") then None
      else
        match ReadFields(rest[1..])
        case None => None
        case Some((fields, last)) => Some(([f] + fields, last))
  }

  // ---------------------------------------------------------------- characters read back

  lemma HexDigitInverse(d: int)
    requires 0 <= d < 16
    ensures IsHex(HexDigit(d)) && HexValue(HexDigit(d)) == d
  {
  }

  lemma HexDigitsSum(n: int)
    requires 0 <= n < 0x1_0000
    ensures n == n / 4096 * 4096 + n / 256 % 16 * 256 + n / 16 % 16 * 16 + n % 16
  {
    assert n / 16 == n / 256 * 16 + n / 16 % 16;
    assert n / 256 == n / 4096 * 16 + n / 256 % 16;
  }

  lemma Hex4Inverse(n: int, rest: string)
    requires 0 <= n < 0x1_0000
    ensures Hex4Value(Hex4(n) + rest) == n
  {
    HexDigitsSum(n);
    HexDigitInverse(n / 4096);
    HexDigitInverse(n / 256 % 16);
    HexDigitInverse(n / 16 % 16);
    HexDigitInverse(n % 16);
    var t := Hex4(n) + rest;
    assert t[0] == HexDigit(n / 4096) && t[1] == HexDigit(n / 256 % 16);
    assert t[2] == HexDigit(n / 16 % 16) && t[3] == HexDigit(n % 16);
  }

  /** A text begins with an escape of the given width for the character of the given code. */
  ghost predicate Escapes(t: string, code: int, width: nat, rest: string)
  {
    FirstCode(t) == code && Width(t) == width <= |t| && t[width..] == rest && t[0] != '\"'
  }

  lemma BmpReads(n: int, rest: string)
    requires 0 <= n < 0xD800 || 0xE000 <= n < 0x1_0000
    ensures Escapes("\\u" + Hex4(n) + rest, n, 6, rest)
  {
    var t := "\\u" + Hex4(n) + rest;
    assert t[2..] == Hex4(n) + rest && t[6..] == rest;
    Hex4Inverse(n, rest);
  }

  lemma PairReads(hi: int, lo: int, rest: string)
    requires 0xD800 <= hi < 0xDC00 <= lo < 0xE000
    ensures Escapes("\\u" + Hex4(hi) + "\\u" + Hex4(lo) + rest,
                    0x1_0000 + (hi - 0xD800) * 0x400 + (lo - 0xDC00), 12, rest)
  {
    var t := "\\u" + Hex4(hi) + "\\u" + Hex4(lo) + rest;
    assert t[2..] == Hex4(hi) + ("\\u" + Hex4(lo) + rest);
    assert t[6..8] == "\\u" && t[8..] == Hex4(lo) + rest && t[12..] == rest;
    Hex4Inverse(hi, "\\u" + Hex4(lo) + rest);
    Hex4Inverse(lo, rest);
  }

  /** The seven characters JSON has a short escape for, and its letter. */
  function ShortEscape(c: char): Option<char>
  {
    if c == '\"' || c == '\\' then Some(c)
    else if c == '\n' then Some('n')
    else if c == '\r' then Some('r')
    else if c == '\t' then Some('t')
    else if c == '\U{0c}' then Some('f')
    else if c == '\U{08}' then Some('b')
    else None
  }

  lemma NamedReads(c: char, rest: string)
    requires ShortEscape(c).Some?
    ensures Escapes(['\\', ShortEscape(c).value] + rest, c as int, 2, rest)
  {
    var t := ['\\', ShortEscape(c).value] + rest;
    assert t[0] == '\\' && t[1] == ShortEscape(c).value && t[2..] == rest;
  }

  lemma PlainReads(c: char, rest: string)
    requires ' ' <= c <= '~' && c != '\\' && c != '\"'
    ensures Escapes([c] + rest, c as int, 1, rest)
  {
    assert ([c] + rest)[0] == c && ([c] + rest)[1..] == rest;
  }

  lemma PairSplits(n: int)
    requires 0x1_0000 <= n < 0x11_0000
    ensures 0xD800 <= 0xD800 + (n - 0x1_0000) / 0x400 < 0xDC00 <= 0xDC00 + (n - 0x1_0000) % 0x400 < 0xE000
    ensures n == 0x1_0000 + (n - 0x1_0000) / 0x400 * 0x400 + (n - 0x1_0000) % 0x400
  {
  }

  lemma WideReads(c: char, rest: string)
    requires c as int >= 0x1_0000
    ensures Escapes(EscapeChar(c) + rest, c as int, 12, rest)
  {
    hide FirstCode, Hex4, Width, Escapes;
    PairSplits(c as int);
    PairReads(0xD800 + (c as int - 0x1_0000) / 0x400, 0xDC00 + (c as int - 0x1_0000) % 0x400, rest);
  }

  /** How wide each character is written: printable ASCII as itself, the seven special ones as two characters, the
      others as one `\\u` escape or, beyond the basic plane, as two. */
  function EscapeWidth(c: char): nat
  {
    if ShortEscape(c).Some? then 2
    else if ' ' <= c <= '~' then 1
    else if c as int < 0x1_0000 then 6
    else 12
  }

  /** Reading an escape gives the character back, and takes just the escape. */
  lemma CharReads(c: char, rest: string)
    ensures Escapes(EscapeChar(c) + rest, c as int, EscapeWidth(c), rest)
  {
    hide FirstCode, Hex4, Width, Escapes;
    if ShortEscape(c).Some? {
      NamedReads(c, rest);
      assert EscapeChar(c) == ['\\', ShortEscape(c).value];
    } else if ' ' <= c <= '~' {
      PlainReads(c, rest);
    } else if c as int < 0x1_0000 {
      BmpReads(c as int, rest);
    } else {
      WideReads(c, rest);
    }
  }

  // ---------------------------------------------------------------- strings and numbers read back

  lemma ReadBodyStep(t: string, c: char, width: nat, rest: string, s: string, r: string)
    requires Escapes(t, c as int, width, rest) && t != [] && ReadBody(rest) == Some((s, r))
    ensures ReadBody(t) == Some(([c] + s, r))
  {
    hide FirstCode, Width;
  }

  lemma {:induction false} BodyReads(s: string, r: string)
    ensures ReadBody(Body(s) + r) == Some((s, r))
    decreases |s|
  {
    if s == [] {
      assert ("\"" + r)[1..] == r;
    } else {
      hide ReadBody, EscapeChar, EscapeWidth, Escapes;
      var rest := Body(s[1..]) + r;
      CharReads(s[0], rest);
      BodyReads(s[1..], r);
      EscapeIsSome(s[0]);
      ReadBodyStep(EscapeChar(s[0]) + rest, s[0], EscapeWidth(s[0]), rest, s[1..], r);
      Regrouped(EscapeChar(s[0]), Body(s[1..]), r);
      assert s == [s[0]] + s[1..];
    }
  }

  lemma EscapeIsSome(c: char)
    ensures EscapeChar(c) != []
  {
    hide Hex4;
  }

  lemma Regrouped(x: string, y: string, r: string)
    ensures (x + y) + r == x + (y + r)
  {
  }

  /** What follows a number must not extend it. */
  predicate Stops(r: string) { r == [] || !IsDigit(r[0]) }

  lemma {:induction false} DecimalInverse(n: nat)
    ensures Decimal(n) != [] && (forall i :: 0 <= i < |Decimal(n)| ==> IsDigit(Decimal(n)[i]))
    ensures DecimalValue(Decimal(n)) == n
    ensures |Decimal(n)| > 1 ==> Decimal(n)[0] != '0'
    ensures n > 0 ==> Decimal(n)[0] != '0'
  {
    if n < 10 {
      assert DecimalValue([]) == 0;
    } else {
      DecimalInverse(n / 10);
      assert Decimal(n)[..|Decimal(n)| - 1] == Decimal(n / 10);
    }
  }

  lemma {:induction false} DigitsCounted(p: string, r: string)
    requires (forall i :: 0 <= i < |p| ==> IsDigit(p[i])) && Stops(r)
    ensures DigitCount(p + r) == |p|
  {
    if p == [] {
      assert p + r == r;
    } else {
      DigitsCounted(p[1..], r);
      assert (p + r)[1..] == p[1..] + r;
    }
  }

  lemma DecimalReads(n: nat, r: string)
    requires Stops(r)
    ensures ReadDecimal(Decimal(n) + r) == Some((n, r)) && (Decimal(n) + r)[0] != '-'
  {
    DecimalInverse(n);
    DigitsCounted(Decimal(n), r);
    var t := Decimal(n) + r;
    assert t[..|Decimal(n)|] == Decimal(n) && t[|Decimal(n)|..] == r && t[0] == Decimal(n)[0];
  }

  lemma NumberReads(n: int, r: string)
    requires Stops(r)
    ensures Number(n) != [] && ReadNumber(Number(n) + r) == Some((n, r))
    ensures var c := (Number(n) + r)[0]; c == '-' || IsDigit(c)
  {
    hide ReadDecimal, DigitCount, DecimalValue, Decimal;
    if n < 0 {
      DecimalReads(-n, r);
      assert Number(n) + r == "-" + (Decimal(-n) + r);
      assert (Number(n) + r)[1..] == Decimal(-n) + r;
    } else {
      DecimalReads(n, r);
      DecimalInverse(n);
    }
  }

  // ---------------------------------------------------------------- values read back

  lemma Literal(p: string, r: string)
    ensures Starts(p + r, p) && (p + r)[|p|..] == r
    ensures p != [] ==> (p + r)[0] == p[0]
  {
  }

  lemma OtherHead(t: string, p: string)
    requires t != [] && p != []
    ensures Starts(t, p) ==> t[0] == p[0]
  {
    assert |p| <= |t| ==> t[..|p|][0] == t[0];
  }

  lemma RenderedHead(v: Json, r: string)
    ensures Render(v) != []
    ensures var t := Render(v) + r; !Starts(t, "]") && !Starts(t, "}")
  {
    var t := Render(v) + r;
    if v.Num? { DecimalInverse(if v.n < 0 then -v.n else v.n); }
    OtherHead(t, "]");
    OtherHead(t, "}");
    assert t[0] == Render(v)[0];
  }

  lemma ScalarReads(v: Json, r: string)
    requires Stops(r) && !v.Arr? && !v.Obj?
    ensures ReadValue(Render(v) + r) == Some((v, r))
  {
    hide ReadBody, Body, ReadNumber, Number, Starts;
    match v
    case Null => Literal("null", r);
    case Bool(b) => Literal(if b then "true" else "false", r);
    case Num(n) => NumberReads(n, r);
    case Str(s) =>
      BodyReads(s, r);
      assert Render(v) + r == "\"" + (Body(s) + r);
      Literal("\"", Body(s) + r);
  }

  /** Reading what was rendered gives the value back and stops where it ends. */
  lemma {:induction false} ValueReads(v: Json, r: string)
    requires Stops(r)
    ensures ReadValue(Render(v) + r) == Some((v, r))
    decreases v
  {
    match v
    case Arr(items) => ArrayReads(items, r);
    case Obj(fields) => ObjectReads(fields, r);
    case _ => ScalarReads(v, r);
  }

  lemma ArrayText(items: seq<Json>, r: string)
    requires items != []
    ensures var t := Render(Arr(items)) + r;
      t[0] == '[' && !Starts(t[1..], "]") && t[1..] == Render(items[0]) + (RenderItems(items[1..]) + r)
  {
    var rest := Render(items[0]) + (RenderItems(items[1..]) + r);
    assert Render(Arr(items)) + r == "[" + rest;
    Literal("[", rest);
    RenderedHead(items[0], RenderItems(items[1..]) + r);
  }

  lemma {:induction false} ArrayReads(items: seq<Json>, r: string)
    requires Stops(r)
    ensures ReadValue(Render(Arr(items)) + r) == Some((Arr(items), r))
    decreases items, 1
  {
    if items == [] {
      var t := Render(Arr(items)) + r;
      assert t == "[" + ("]" + r) && t[2..] == r;
      Literal("[", "]" + r);
      Literal("]", r);
    } else {
      hide Render, RenderItems, ReadItems, Starts;
      ArrayText(items, r);
      ItemsRead(items, r);
    }
  }

  lemma Regroup(h: string, x: string, xs: string, r: string)
    ensures (h + x + xs) + r == h + (x + (xs + r))
  {
  }

  lemma ItemsText(items: seq<Json>, r: string)
    ensures items == [] ==> RenderItems(items) + r == "]" + r
    ensures items != [] ==>
      RenderItems(items) + r == "," + (Render(items[0]) + (RenderItems(items[1..]) + r))
    ensures Stops(RenderItems(items) + r)
  {
    hide Render;
    if items == [] {
      Literal("]", r);
    } else {
      var after := Render(items[0]) + (RenderItems(items[1..]) + r);
      Regroup(",", Render(items[0]), RenderItems(items[1..]), r);
      Literal(",", after);
    }
  }

  lemma {:induction false} ItemsRead(items: seq<Json>, r: string)
    requires Stops(r) && items != []
    ensures ReadItems(Render(items[0]) + (RenderItems(items[1..]) + r)) == Some((items, r))
    decreases items, 0
  {
    hide Render, RenderItems, ReadValue;
    var tail := items[1..];
    ItemsText(tail, r);
    ValueReads(items[0], RenderItems(tail) + r);
    assert items == [items[0]] + tail;
    if tail == [] {
      Literal("]", r);
      assert items == [items[0]];
    } else {
      var after, rest := Render(tail[0]) + (RenderItems(tail[1..]) + r), RenderItems(tail) + r;
      Literal(",", after);
      OtherHead(rest, "]");
      ItemsRead(tail, r);
      assert Starts(rest, ",") && !Starts(rest, "]") && rest[1..] == after;
    }
  }

  lemma {:induction false} FieldReads(f: Field, r: string)
    requires Stops(r)
    ensures ReadField(RenderField(f) + r) == Some((f, r))
    decreases f
  {
    hide Render, ReadValue, Body, ReadBody;
    var value := Render(f.value) + r;
    assert RenderField(f) + r == "\"" + (Body(f.key) + (":" + value));
    Literal("\"", Body(f.key) + (":" + value));
    BodyReads(f.key, ":" + value);
    Literal(":", value);
    ValueReads(f.value, r);
  }

  lemma ObjectText(fields: seq<Field>, r: string)
    requires fields != []
    ensures var t := Render(Obj(fields)) + r;
      t[0] == '{' && !Starts(t[1..], "}") && t[1..] == RenderField(fields[0]) + (RenderFields(fields[1..]) + r)
  {
    var rest := RenderField(fields[0]) + (RenderFields(fields[1..]) + r);
    assert Render(Obj(fields)) + r == "{" + rest;
    Literal("{", rest);
    assert rest[0] == '\"';
  }

  lemma {:induction false} ObjectReads(fields: seq<Field>, r: string)
    requires Stops(r)
    ensures ReadValue(Render(Obj(fields)) + r) == Some((Obj(fields), r))
    decreases fields, 1
  {
    if fields == [] {
      var t := Render(Obj(fields)) + r;
      assert t == "{" + ("}" + r) && t[2..] == r;
      Literal("{", "}" + r);
      Literal("}", r);
    } else {
      hide Render, RenderField, RenderFields, ReadFields, Starts;
      ObjectText(fields, r);
      FieldsRead(fields, r);
    }
  }

  lemma FieldsText(fields: seq<Field>, r: string)
    ensures fields == [] ==> RenderFields(fields) + r == "}" + r
    ensures fields != [] ==>
      RenderFields(fields) + r == "," + (RenderField(fields[0]) + (RenderFields(fields[1..]) + r))
    ensures Stops(RenderFields(fields) + r)
  {
    hide RenderField;
    if fields == [] {
      Literal("}", r);
    } else {
      var after := RenderField(fields[0]) + (RenderFields(fields[1..]) + r);
      Regroup(",", RenderField(fields[0]), RenderFields(fields[1..]), r);
      Literal(",", after);
    }
  }

  lemma {:induction false} FieldsRead(fields: seq<Field>, r: string)
    requires Stops(r) && fields != []
    ensures ReadFields(RenderField(fields[0]) + (RenderFields(fields[1..]) + r)) == Some((fields, r))
    decreases fields, 0
  {
    hide RenderField, RenderFields, ReadField;
    var tail := fields[1..];
    FieldsText(tail, r);
    FieldReads(fields[0], RenderFields(tail) + r);
    assert fields == [fields[0]] + tail;
    if tail == [] {
      Literal("}", r);
      assert fields == [fields[0]];
    } else {
      var after, rest := RenderField(tail[0]) + (RenderFields(tail[1..]) + r), RenderFields(tail) + r;
      Literal(",", after);
      OtherHead(rest, "}");
      FieldsRead(tail, r);
      assert Starts(rest, ",") && !Starts(rest, "}") && rest[1..] == after;
    }
  }

  // ---------------------------------------------------------------- the characters of the text

  /** Printable ASCII only. */
  predicate Plain(t: string)
  {
    forall i :: 0 <= i < |t| ==> ' ' <= t[i] <= '~'
  }

  lemma PlainAppend(s: string, t: string)
    requires Plain(s) && Plain(t)
    ensures Plain(s + t)
  {
  }

  lemma Hex4IsPlain(n: int)
    requires 0 <= n < 0x1_0000
    ensures Plain(Hex4(n)) && LowerCase(Hex4(n)) && |Hex4(n)| == 4
  {
  }

  /** No capitals: hex digits are written in lower case. */
  predicate LowerCase(t: string)
  {
    forall i :: 0 <= i < |t| ==> !('A' <= t[i] <= 'Z')
  }

  lemma EscapeIsPlain(c: char)
    ensures Plain(EscapeChar(c)) && |EscapeChar(c)| == EscapeWidth(c)
    ensures EscapeWidth(c) > 1 ==> LowerCase(EscapeChar(c))
  {
    if ShortEscape(c).Some? {
      ShortIsPlain(c);
    } else if ' ' <= c <= '~' {
      assert EscapeChar(c) == [c];
    } else if c as int < 0x1_0000 {
      UnicodeIsPlain(c as int);
    } else {
      WideIsPlain(c);
    }
  }

  lemma ShortIsPlain(c: char)
    requires ShortEscape(c).Some?
    ensures Plain(EscapeChar(c)) && LowerCase(EscapeChar(c)) && |EscapeChar(c)| == 2
  {
    assert EscapeChar(c) == ['\\', ShortEscape(c).value];
  }

  lemma WideIsPlain(c: char)
    requires c as int >= 0x1_0000
    ensures Plain(EscapeChar(c)) && LowerCase(EscapeChar(c)) && |EscapeChar(c)| == 12
  {
    hide Hex4, Plain, LowerCase;
    PairSplits(c as int);
    var hi, lo := 0xD800 + (c as int - 0x1_0000) / 0x400, 0xDC00 + (c as int - 0x1_0000) % 0x400;
    UnicodeIsPlain(hi);
    UnicodeIsPlain(lo);
    BothPlain("\\u" + Hex4(hi), "\\u" + Hex4(lo));
    assert EscapeChar(c) == ("\\u" + Hex4(hi)) + ("\\u" + Hex4(lo));
  }

  lemma UnicodeIsPlain(n: int)
    requires 0 <= n < 0x1_0000
    ensures var t := "\\u" + Hex4(n); Plain(t) && LowerCase(t) && |t| == 6
  {
    hide Hex4;
    Hex4IsPlain(n);
  }

  lemma BothPlain(s: string, t: string)
    requires Plain(s) && Plain(t) && LowerCase(s) && LowerCase(t)
    ensures Plain(s + t) && LowerCase(s + t)
  {
  }

  lemma {:induction false} BodyIsPlain(s: string)
    ensures Plain(Body(s))
  {
    hide EscapeChar;
    if s != [] {
      EscapeIsPlain(s[0]);
      BodyIsPlain(s[1..]);
      PlainAppend(EscapeChar(s[0]), Body(s[1..]));
    }
  }

  lemma NumberIsPlain(n: int)
    ensures Plain(Number(n))
  {
    DecimalInverse(if n < 0 then -n else n);
  }

  /** The text is ASCII whatever the strings in it: `ensure_ascii`. */
  lemma {:induction false} RenderIsPlain(v: Json)
    ensures Plain(Render(v))
    decreases v
  {
    hide Plain, Body, Number;
    Pieces();
    match v
    case Null =>
    case Bool(_) =>
    case Num(n) => NumberIsPlain(n);
    case Str(s) =>
      BodyIsPlain(s);
      PlainAppend("\"", Body(s));
    case Arr(items) =>
      if items != [] {
        RenderIsPlain(items[0]);
        ItemsArePlain(items[1..]);
        PlainAppend("[", Render(items[0]));
        PlainAppend("[" + Render(items[0]), RenderItems(items[1..]));
      }
    case Obj(fields) =>
      if fields != [] {
        FieldIsPlain(fields[0]);
        FieldsArePlain(fields[1..]);
        PlainAppend("{", RenderField(fields[0]));
        PlainAppend("{" + RenderField(fields[0]), RenderFields(fields[1..]));
      }
  }

  lemma Pieces()
    ensures Plain("null") && Plain("true") && Plain("false") && Plain("\"") && Plain(",") && Plain(":")
    ensures Plain("[") && Plain("]") && Plain("{") && Plain("}") && Plain("[]") && Plain("{}")
  {
  }

  lemma {:induction false} ItemsArePlain(items: seq<Json>)
    ensures Plain(RenderItems(items))
    decreases items
  {
    hide Plain, Render;
    Pieces();
    if items != [] {
      RenderIsPlain(items[0]);
      ItemsArePlain(items[1..]);
      PlainAppend(",", Render(items[0]));
      PlainAppend("," + Render(items[0]), RenderItems(items[1..]));
    }
  }

  lemma {:induction false} FieldIsPlain(f: Field)
    ensures Plain(RenderField(f))
    decreases f
  {
    hide Plain, Render, Body;
    Pieces();
    BodyIsPlain(f.key);
    RenderIsPlain(f.value);
    PlainAppend("\"", Body(f.key));
    PlainAppend("\"" + Body(f.key), ":");
    PlainAppend("\"" + Body(f.key) + ":", Render(f.value));
  }

  lemma {:induction false} FieldsArePlain(fields: seq<Field>)
    ensures Plain(RenderFields(fields))
    decreases fields
  {
    hide Plain, RenderField;
    Pieces();
    if fields != [] {
      FieldIsPlain(fields[0]);
      FieldsArePlain(fields[1..]);
      PlainAppend(",", RenderField(fields[0]));
      PlainAppend("," + RenderField(fields[0]), RenderFields(fields[1..]));
    }
  }
}
