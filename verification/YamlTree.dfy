/** The documents the YAML printer accepts and the text it gives to one scalar. */
module YamlTree {
  import opened Strings

  /** `YamlValue`: insertion-ordered mappings, sequences and four kinds of scalar. */
  datatype Value =
    | Null
    | Bool(b: bool)
    | Int(n: int)
    | Str(s: string)
    | Mapping(entries: seq<Entry>)
    | Sequence(items: seq<Value>)

  datatype Entry = Entry(key: string, value: Value)

  /** Written on its key's or its dash's own line: the scalars and the empty collections. */
  predicate IsInline(v: Value) {
    match v
    case Mapping(entries) => entries == []
    case Sequence(items) => items == []
    case _ => true
  }

  // ---------------------------------------------------------------- characters

  predicate IsIdentStart(c: char) {
    'A' <= c <= 'Z' || 'a' <= c <= 'z' || c == '_'
  }

  predicate IsIdentChar(c: char) {
    IsIdentStart(c) || IsDigit(c) || c == '.' || c == '-'
  }

  /** One line break of YAML 1.2.2, section 5.4. */
  predicate IsBreak(c: char) {
    c == '\n' || c == '\r'
  }

  /** The characters Python's `str.strip` family removes. */
  predicate IsSpace(c: char) {
    var n := c as int;
    9 <= n <= 13 || 0x1c <= n <= 0x20 || n == 0x85 || n == 0xa0 || n == 0x1680
    || 0x2000 <= n <= 0x200a || n == 0x2028 || n == 0x2029 || n == 0x202f || n == 0x205f || n == 0x3000
  }

  function Lstrip(s: string): string {
    if s != "" && IsSpace(s[0]) then Lstrip(s[1..]) else s
  }

  function Rstrip(s: string): string {
    if s != "" && IsSpace(s[|s| - 1]) then Rstrip(s[..|s| - 1]) else s
  }

  function Lower(s: string): string {
    if s == "" then ""
    else [if 'A' <= s[0] <= 'Z' then (s[0] as int + 32) as char else s[0]] + Lower(s[1..])
  }

  // ------------------------------------------------------------------- scalars

  /** `[A-Za-z_][A-Za-z0-9_.-]*`, the whole string. */
  predicate Identifier(s: string) {
    s != "" && IsIdentStart(s[0]) && forall i :: 0 <= i < |s| ==> IsIdentChar(s[i])
  }

  /** The identifier with one newline behind it that `$` also lets through. */
  predicate TrailingNewline(s: string) {
    s != "" && s[|s| - 1] == '\n' && Identifier(s[..|s| - 1])
  }

  /** `_PLAIN.match`: in Python `$` matches at the end and before a final newline. */
  predicate PlainMatch(s: string) {
    Identifier(s) || TrailingNewline(s)
  }

  const NULL_WORDS: set<string> := {"null", "Null", "NULL", "~"}
  const TRUE_WORDS: set<string> :=
    {"true", "True", "TRUE", "yes", "Yes", "YES", "on", "On", "ON", "y", "Y"}
  const FALSE_WORDS: set<string> :=
    {"false", "False", "FALSE", "no", "No", "NO", "off", "Off", "OFF", "n", "N"}
  const FLOAT_WORDS: set<string> := {"inf", "infinity", "nan"}

  const RESERVED: set<string> :=
    {"true", "false", "null", "yes", "no", "on", "off", "y", "n",
     "True", "False", "Null", "Yes", "No", "On", "Off", "Y", "N",
     "TRUE", "FALSE", "NULL", "YES", "NO", "ON", "OFF", "~"}

  /** `s` without the newline `PlainMatch` tolerates. */
  function Chomp(s: string): string {
    if s != "" && s[|s| - 1] == '\n' then s[..|s| - 1] else s
  }

  /** `float(s)` succeeds. The only strings that reach the call begin with a letter or an
      underscore, and `float` reads three such words, in any case, ignoring the newline. */
  predicate LooksNumeric(s: string)
    requires PlainMatch(s)
  {
    Lower(Chomp(s)) in FLOAT_WORDS
  }

  predicate Unquoted(s: string) {
    PlainMatch(s) && s !in RESERVED && !LooksNumeric(s)
  }

  function HexDigit(n: nat): char
    requires n < 16
  {
    if n < 10 then ('0' as int + n) as char else ('a' as int + n - 10) as char
  }

  function Escape(c: char): string {
    if c == '\\' then "\\\\"
    else if c == '"' then "\\\""
    else if c == '\n' then "\\n"
    else if c == '\r' then "\\r"
    else if c == '\t' then "\\t"
    else if c as int < 0x20 then ['\\', 'x', HexDigit(c as int / 16), HexDigit(c as int % 16)]
    else [c]
  }

  function EscapeAll(s: string): string {
    if s == "" then "" else Escape(s[0]) + EscapeAll(s[1..])
  }

  function QuoteText(s: string): string {
    "\"" + EscapeAll(s) + "\""
  }

  function DigitsText(n: nat): string {
    if n < 10 then [('0' as int + n) as char]
    else DigitsText(n / 10) + [('0' as int + n % 10) as char]
  }

  function StringText(s: string): string {
    if Unquoted(s) then s else QuoteText(s)
  }

  function InlineText(v: Value): string
    requires IsInline(v)
  {
    match v
    case Mapping(_) => "{}"
    case Sequence(_) => "[]"
    case Null => "null"
    case Bool(b) => if b then "true" else "false"
    case Int(n) => if n < 0 then "-" + DigitsText(-n) else DigitsText(n)
    case Str(s) => StringText(s)
  }

  // ------------------------------------------------------------- printed lines

  function Pad(depth: nat): string {
    if depth == 0 then "" else "  " + Pad(depth - 1)
  }

  function MappingLines(entries: seq<Entry>, depth: nat): (lines: seq<string>)
    ensures entries != [] ==> lines != []
  {
    if entries == [] then []
    else EntryLines(entries[0], depth) + MappingLines(entries[1..], depth)
  }

  function EntryLines(e: Entry, depth: nat): (lines: seq<string>)
    ensures lines != []
  {
    var head := Pad(depth) + StringText(e.key) + ":";
    if IsInline(e.value) then [head + " " + InlineText(e.value)]
    else [head] + BlockLines(e.value, depth + 1)
  }

  function SequenceLines(items: seq<Value>, depth: nat): (lines: seq<string>)
    ensures items != [] ==> lines != []
  {
    if items == [] then []
    else ItemLines(items[0], depth) + SequenceLines(items[1..], depth)
  }

  function ItemLines(v: Value, depth: nat): (lines: seq<string>)
    ensures lines != []
    decreases v, 1
  {
    if IsInline(v) then [Pad(depth) + "- " + InlineText(v)]
    else RideDash(BlockLines(v, depth + 1), depth)
  }

  function BlockLines(v: Value, depth: nat): (lines: seq<string>)
    requires !IsInline(v)
    ensures lines != []
    decreases v, 0
  {
    if v.Mapping? then MappingLines(v.entries, depth) else SequenceLines(v.items, depth)
  }

  /** The first line of a nested block loses its pad and follows the dash. */
  function RideDash(nested: seq<string>, depth: nat): seq<string>
    requires nested != []
  {
    [Pad(depth) + "- " + Lstrip(nested[0])] + nested[1..]
  }

  function HeaderLines(header: seq<string>): seq<string> {
    if header == [] then [] else [Rstrip("# " + header[0])] + HeaderLines(header[1..])
  }

  function Join(lines: seq<string>): string {
    if lines == [] then ""
    else if |lines| == 1 then lines[0]
    else lines[0] + "\n" + Join(lines[1..])
  }

  function EmitText(document: seq<Entry>, header: seq<string>): string {
    Join(HeaderLines(header) + MappingLines(document, 0)) + "\n"
  }
}
