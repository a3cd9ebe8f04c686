/** The canonical text under every hash: JSON with sorted keys, no spaces and ASCII escapes. */
module CanonicalJson {

  datatype Json =
    | Null
    | Bool(b: bool)
    | Num(n: int)
    | Str(s: string)
    | Arr(items: seq<Json>)
    | Obj(fields: seq<Field>)

  /** One entry of a Python dict; the fields of an object stand in insertion order. */
  datatype Field = Field(key: string, value: Json)

  // ---------------------------------------------------------------- strings

  function HexDigit(d: int): char
    requires 0 <= d < 16
  {
    if d < 10 then '0' + d as char else 'a' + (d - 10) as char
  }

  function Hex4(n: int): string
    requires 0 <= n < 0x1_0000
  {
    [HexDigit(n / 4096), HexDigit(n / 256 % 16), HexDigit(n / 16 % 16), HexDigit(n % 16)]
  }

  /** One character as `json.dumps` writes it: section 7 of RFC 8259, non-ASCII always escaped. */
  function EscapeChar(c: char): string
  {
    if c == '\"' then "\\\""
    else if c == '\\' then "\\\\"
    else if c == '\n' then "\\n"
    else if c == '\r' then "\\r"
    else if c == '\t' then "\\t"
    else if c == '\U{0c}' then "\\f"
    else if c == '\U{08}' then "\\b"
    else if ' ' <= c <= '~' then [c]
    else
      var n := c as int;
      if n < 0x1_0000 then "\\u" + Hex4(n)
      else "\\u" + Hex4(0xD800 + (n - 0x1_0000) / 0x400) + "\\u" + Hex4(0xDC00 + (n - 0x1_0000) % 0x400)
  }

  /** The characters of a string literal and its closing quote. */
  function Body(s: string): string
  {
    if s == [] then "\"" else EscapeChar(s[0]) + Body(s[1..])
  }

  // ---------------------------------------------------------------- numbers

  function Decimal(n: nat): string
  {
    if n < 10 then [HexDigit(n)] else Decimal(n / 10) + [HexDigit(n % 10)]
  }

  function Number(n: int): string
  {
    if n < 0 then "-" + Decimal(-n) else Decimal(n)
  }

  // ---------------------------------------------------------------- values

  /** The text of a value whose objects are written in field order. */
  function Render(v: Json): string
    decreases v
  {
    match v
    case Null => "null"
    case Bool(b) => if b then "true" else "false"
    case Num(n) => Number(n)
    case Str(s) => "\"" + Body(s)
    case Arr(items) =>
      if items == [] then "[]" else "[" + Render(items[0]) + RenderItems(items[1..])
    case Obj(fields) =>
      if fields == [] then "{}" else "{" + RenderField(fields[0]) + RenderFields(fields[1..])
  }

  function RenderItems(items: seq<Json>): string
    decreases items
  {
    if items == [] then "]" else "," + Render(items[0]) + RenderItems(items[1..])
  }

  function RenderField(f: Field): string
    decreases f
  {
    "\"" + Body(f.key) + ":" + Render(f.value)
  }

  function RenderFields(fields: seq<Field>): string
    decreases fields
  {
    if fields == [] then "}" else "," + RenderField(fields[0]) + RenderFields(fields[1..])
  }

  /** Code-point order of Python strings. */
  predicate Before(s: string, t: string)
  {
    t != [] && (s == [] || s[0] < t[0] || (s[0] == t[0] && Before(s[1..], t[1..])))
  }

  function Insert(f: Field, fs: seq<Field>): seq<Field>
  {
    if fs == [] || !Before(fs[0].key, f.key) then [f] + fs else [fs[0]] + Insert(f, fs[1..])
  }

  function Sort(fs: seq<Field>): seq<Field>
  {
    if fs == [] then [] else Insert(fs[0], Sort(fs[1..]))
  }

  /** The value with the fields of every object, at every depth, in key order. */
  function Canon(v: Json): Json
    decreases v
  {
    match v
    case Arr(items) => Arr(seq(|items|, i requires 0 <= i < |items| => Canon(items[i])))
    case Obj(fields) => Obj(Sort(CanonFields(fields)))
    case _ => v
  }

  function CanonFields(fields: seq<Field>): (r: seq<Field>)
    ensures |r| == |fields|
    ensures forall i :: 0 <= i < |r| ==> r[i].key == fields[i].key
    decreases fields
  {
    seq(|fields|, i requires 0 <= i < |fields| => Field(fields[i].key, Canon(fields[i].value)))
  }

  /** `stable_json_dumps` on JSON data. */
  function Dumps(v: Json): string
  {
    Render(Canon(v))
  }

  // ------------------------------------------------------ what "the same value" means

  /** Equality of JSON data: the order of fields in an object does not matter. */
  ghost predicate Same(a: Json, b: Json)
    decreases a
  {
    match a
    case Arr(xs) =>
      b.Arr? && |xs| == |b.items| && forall i :: 0 <= i < |xs| ==> Same(xs[i], b.items[i])
    case Obj(fs) =>
      b.Obj? && SameFields(fs, b.fields)
    case _ => a == b
  }

  /** Each field of one object is a field of the other. */
  ghost predicate SameFields(fs: seq<Field>, gs: seq<Field>)
    decreases fs, 1
  {
    && (forall i :: 0 <= i < |fs| ==> FoundIn(fs[i], gs))
    && (forall j :: 0 <= j < |gs| ==> FoundBy(fs, gs[j]))
  }

  ghost predicate FoundIn(f: Field, gs: seq<Field>)
    decreases f, 1
  {
    exists j :: 0 <= j < |gs| && SameField(f, gs[j])
  }

  ghost predicate FoundBy(fs: seq<Field>, g: Field)
    decreases fs, 0
  {
    exists i :: 0 <= i < |fs| && SameField(fs[i], g)
  }

  ghost predicate SameField(f: Field, g: Field)
    decreases f, 0
  {
    f.key == g.key && Same(f.value, g.value)
  }

  /** A Python dict never holds a key twice. */
  ghost predicate DistinctFields(fs: seq<Field>)
  {
    forall i, j :: 0 <= i < j < |fs| ==> fs[i].key != fs[j].key
  }

  ghost predicate WellFormed(v: Json)
    decreases v
  {
    match v
    case Arr(xs) => forall i :: 0 <= i < |xs| ==> WellFormed(xs[i])
    case Obj(fs) => DistinctFields(fs) && forall i :: 0 <= i < |fs| ==> WellFormed(fs[i].value)
    case _ => true
  }
}
