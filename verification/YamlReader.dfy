/** A reader for the printed subset of YAML 1.2.2: block mappings and sequences (section 8.2),
    compact nested collections after a dash, double-quoted scalars (sections 5.7 and 7.3.1) and
    plain scalars resolved the way a YAML 1.1 or 1.2 loader resolves them. It knows nothing of
    how the printer decides what to quote. */
module YamlReader {
  import opened Wrappers
  import opened Strings
  import opened YamlTree

  // ------------------------------------------------------------------- scalars

  /** An unquoted scalar. A word a loader takes for a float has no place in the document type. */
  function ReadPlain(t: string): Option<Value> {
    if t in NULL_WORDS then Some(Null)
    else if t in TRUE_WORDS then Some(Bool(true))
    else if t in FALSE_WORDS then Some(Bool(false))
    else if IsDecimal(t) then Some(Int(DecimalValue(t)))
    else if t != "" && t[0] == '-' && IsDecimal(t[1..]) then Some(Int(0 - DecimalValue(t[1..]) as int))
    else if Identifier(t) && Lower(t) !in FLOAT_WORDS then Some(Str(t))
    else None
  }

  function HexValue(c: char): Option<nat> {
    if IsDigit(c) then Some(c as int - '0' as int)
    else if 'a' <= c <= 'f' then Some(c as int - 'a' as int + 10)
    else None
  }

  /** What one escape stands for, and how many characters it takes. */
  function ReadEscape(s: string): Option<(char, nat)>
    requires s != "" && s[0] == '\\'
    ensures ReadEscape(s).Some? ==> 1 < ReadEscape(s).value.1 <= |s|
  {
    if |s| < 2 then None
    else if s[1] == '\\' then Some(('\\', 2))
    else if s[1] == '"' then Some(('"', 2))
    else if s[1] == 'n' then Some(('\n', 2))
    else if s[1] == 'r' then Some(('\r', 2))
    else if s[1] == 't' then Some(('\t', 2))
    else if s[1] == 'x' && |s| >= 4 then
      var high :- HexValue(s[2]);
      var low :- HexValue(s[3]);
      Some(((16 * high + low) as char, 4))
    else None
  }

  /** The text behind an opening quote: the string it spells and what follows the closing quote. */
  function ReadQuoted(s: string): Option<(string, string)> {
    if s == "" then None
    else if s[0] == '"' then Some(("", s[1..]))
    else if s[0] == '\\' then
      var (c, width) :- ReadEscape(s);
      var (tail, rest) :- ReadQuoted(s[width..]);
      Some(([c] + tail, rest))
    else if s[0] as int < 0x20 then None
    else
      var (tail, rest) :- ReadQuoted(s[1..]);
      Some(([s[0]] + tail, rest))
  }

  /** A value written on its own line. */
  function ReadInline(t: string): Option<Value> {
    if t == "{}" then Some(Mapping([]))
    else if t == "[]" then Some(Sequence([]))
    else if t != "" && t[0] == '"' then
      var (s, rest) :- ReadQuoted(t[1..]);
      if rest == "" then Some(Str(s)) else None
    else ReadPlain(t)
  }

  function BeforeColon(t: string): string {
    if t == "" || t[0] == ':' then "" else [t[0]] + BeforeColon(t[1..])
  }

  /** `key:` and whatever follows the colon. Only a string may be a key. */
  function ReadKey(t: string): Option<(string, string)> {
    if t != "" && t[0] == '"' then
      var (s, rest) :- ReadQuoted(t[1..]);
      if rest != "" && rest[0] == ':' then Some((s, rest[1..])) else None
    else
      var word := BeforeColon(t);
      if |word| < |t| then
        var key :- ReadPlain(word);
        if key.Str? then Some((key.s, t[|word| + 1..])) else None
      else None
  }

  // --------------------------------------------------------------------- lines

  datatype Line = Line(indent: nat, text: string)

  function Split(text: string): seq<string> {
    if text == "" then [""]
    else if IsBreak(text[0]) then [""] + Split(text[1..])
    else
      var tail := Split(text[1..]);
      if tail == [] then [[text[0]]] else [[text[0]] + tail[0]] + tail[1..]
  }

  function Indent(line: string): nat
    ensures Indent(line) <= |line|
  {
    if line != "" && line[0] == ' ' then 1 + Indent(line[1..]) else 0
  }

  function Measure(line: string): Line {
    Line(Indent(line), line[Indent(line)..])
  }

  /** The lines that carry something; blank ones separate and say nothing. */
  function Inked(lines: seq<string>): seq<Line> {
    if lines == [] then []
    else (if Measure(lines[0]).text == "" then [] else [Measure(lines[0])]) + Inked(lines[1..])
  }

  predicate IsComment(l: Line) {
    l.text != "" && l.text[0] == '#'
  }

  function Body(lines: seq<Line>): seq<Line> {
    if lines == [] then []
    else (if IsComment(lines[0]) then [] else [lines[0]]) + Body(lines[1..])
  }

  function Comments(lines: seq<Line>): seq<string> {
    if lines == [] then []
    else (if IsComment(lines[0]) then [lines[0].text] else []) + Comments(lines[1..])
  }

  // -------------------------------------------------------------------- blocks

  predicate IsDash(t: string) {
    |t| >= 2 && t[0] == '-' && t[1] == ' '
  }

  function Weight(lines: seq<Line>): nat {
    if lines == [] then 0 else |lines[0].text|
  }

  function ReadMapping(lines: seq<Line>, indent: nat): (r: Option<(seq<Entry>, seq<Line>)>)
    ensures r.Some? ==> |r.value.1| <= |lines|
    ensures r.Some? && lines != [] && lines[0].indent == indent ==> |r.value.1| < |lines|
    decreases |lines|, Weight(lines), 1
  {
    if lines == [] || lines[0].indent < indent then Some(([], lines))
    else if lines[0].indent > indent then None
    else
      var (head, rest) :- ReadEntry(lines, indent);
      var (tail, more) :- ReadMapping(rest, indent);
      Some(([head] + tail, more))
  }

  function ReadEntry(lines: seq<Line>, indent: nat): (r: Option<(Entry, seq<Line>)>)
    requires lines != []
    ensures r.Some? ==> |r.value.1| < |lines|
    decreases |lines|, Weight(lines), 0
  {
    var (key, after) :- ReadKey(lines[0].text);
    if after == "" then
      var (v, rest) :- ReadBlock(lines[1..], indent + 2);
      Some((Entry(key, v), rest))
    else if after[0] == ' ' then
      var v :- ReadInline(after[1..]);
      Some((Entry(key, v), lines[1..]))
    else None
  }

  function ReadSequence(lines: seq<Line>, indent: nat): (r: Option<(seq<Value>, seq<Line>)>)
    ensures r.Some? ==> |r.value.1| <= |lines|
    ensures r.Some? && lines != [] && lines[0].indent == indent ==> |r.value.1| < |lines|
    decreases |lines|, Weight(lines), 1
  {
    if lines == [] || lines[0].indent < indent then Some(([], lines))
    else if lines[0].indent > indent then None
    else
      var (head, rest) :- ReadItem(lines, indent);
      var (tail, more) :- ReadSequence(rest, indent);
      Some(([head] + tail, more))
  }

  /** Behind the dash a nested block starts two columns in, on the same line. */
  function ReadItem(lines: seq<Line>, indent: nat): (r: Option<(Value, seq<Line>)>)
    requires lines != []
    ensures r.Some? ==> |r.value.1| < |lines|
    decreases |lines|, Weight(lines), 0
  {
    if !IsDash(lines[0].text) then None
    else
      var inner := lines[0].text[2..];
      if IsDash(inner) || ReadKey(inner).Some? then
        ReadBlock([Line(indent + 2, inner)] + lines[1..], indent + 2)
      else
        var v :- ReadInline(inner);
        Some((v, lines[1..]))
  }

  function ReadBlock(lines: seq<Line>, indent: nat): (r: Option<(Value, seq<Line>)>)
    ensures r.Some? ==> |r.value.1| < |lines|
    decreases |lines|, Weight(lines), 2
  {
    if lines == [] || lines[0].indent != indent then None
    else if IsDash(lines[0].text) then
      var (items, rest) :- ReadSequence(lines, indent);
      Some((Sequence(items), rest))
    else
      var (entries, rest) :- ReadMapping(lines, indent);
      Some((Mapping(entries), rest))
  }

  /** The mapping a file holds, or nothing if the file is outside the subset. */
  function Read(text: string): Option<seq<Entry>> {
    var (entries, rest) :- ReadMapping(Body(Inked(Split(text))), 0);
    if rest == [] then Some(entries) else None
  }

  function ReadComments(text: string): seq<string> {
    Comments(Inked(Split(text)))
  }
}
