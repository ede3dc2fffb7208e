/** `yaml_emit.py`: the printer itself, which appends lines to a list as it walks the document. */
module YamlEmit {
  import opened Wrappers
  import opened YamlTree
  import YamlReader
  import YamlBlocks
  import YamlTheorems
  import YamlTidy

  /** The shared `out: list[str]`. */
  class LineBuffer {
    var lines: seq<string>

    constructor ()
      ensures lines == []
    {
      lines := [];
    }

    method Append(line: string)
      modifies this
      ensures lines == old(lines) + [line]
    {
      lines := lines + [line];
    }

    method Extend(more: seq<string>)
      modifies this
      ensures lines == old(lines) + more
    {
      lines := lines + more;
    }
  }

  lemma Associative<T>(a: seq<T>, b: seq<T>, c: seq<T>)
    ensures a + (b + c) == a + b + c
  {
  }

  lemma EscapeStep(out: string, value: string, i: nat)
    requires i < |value|
    ensures out + EscapeAll(value[i..]) == out + Escape(value[i]) + EscapeAll(value[i + 1..])
  {
    assert value[i..][1..] == value[i + 1..];
    Associative(out, Escape(value[i]), EscapeAll(value[i + 1..]));
  }

  /** `_quote`: one pass over the characters. */
  method Quote(value: string) returns (text: string)
    ensures text == QuoteText(value)
  {
    var out: string := "";
    for i := 0 to |value|
      invariant out + EscapeAll(value[i..]) == EscapeAll(value)
    {
      var piece := QuoteOne(value[i]);
      EscapeStep(out, value, i);
      out := out + piece;
    }
    assert value[|value|..] == "";
    text := "\"" + out + "\"";
  }

  /** The body of its loop. */
  method QuoteOne(c: char) returns (piece: string)
    ensures piece == Escape(c)
  {
    if c == '\\' {
      piece := "\\\\";
    } else if c == '"' {
      piece := "\\\"";
    } else if c == '\n' {
      piece := "\\n";
    } else if c == '\r' {
      piece := "\\r";
    } else if c == '\t' {
      piece := "\\t";
    } else if c as int < 0x20 {
      piece := ['\\', 'x', HexDigit(c as int / 16), HexDigit(c as int % 16)];
    } else {
      piece := [c];
    }
  }

  /** `_scalar`. A boolean is asked about before a number. */
  method Scalar(value: Value) returns (text: string)
    requires IsInline(value) && !value.Mapping? && !value.Sequence?
    ensures text == InlineText(value)
  {
    match value
    case Null => text := "null";
    case Bool(b) => text := if b then "true" else "false";
    case Int(n) => text := if n < 0 then "-" + DigitsText(-n) else DigitsText(n);
    case Str(s) =>
      if PlainMatch(s) && s !in RESERVED && !LooksNumeric(s) {
        text := s;
      } else {
        text := Quote(s);
      }
  }

  lemma MappingStep(node: seq<Entry>, i: nat, depth: nat, done: seq<string>)
    requires i < |node|
    ensures done + MappingLines(node[i..], depth)
         == (done + EntryLines(node[i], depth)) + MappingLines(node[i + 1..], depth)
  {
    var rest := node[i..];
    assert rest[1..] == node[i + 1..];
    assert MappingLines(rest, depth) == EntryLines(node[i], depth) + MappingLines(rest[1..], depth);
  }

  lemma SequenceStep(node: seq<Value>, i: nat, depth: nat, done: seq<string>)
    requires i < |node|
    ensures done + SequenceLines(node[i..], depth)
         == (done + ItemLines(node[i], depth)) + SequenceLines(node[i + 1..], depth)
  {
    assert node[i..][1..] == node[i + 1..];
  }

  /** `_emit_mapping`. */
  method EmitMapping(node: seq<Entry>, depth: nat, out: LineBuffer)
    modifies out
    ensures out.lines == old(out.lines) + MappingLines(node, depth)
    decreases node, 1
  {
    ghost var all := out.lines + MappingLines(node, depth);
    assert node[0..] == node;
    for i := 0 to |node|
      invariant out.lines + MappingLines(node[i..], depth) == all
    {
      MappingStep(node, i, depth, out.lines);
      EmitEntry(node[i], depth, out);
    }
    assert node[|node|..] == [];
  }

  /** The body of the loop in `_emit_mapping`. */
  method EmitEntry(e: Entry, depth: nat, out: LineBuffer)
    modifies out
    ensures out.lines == old(out.lines) + EntryLines(e, depth)
    decreases e, 2
  {
    var keyText := Scalar(Str(e.key));
    EmitUnder(Pad(depth) + keyText + ":", e.value, depth, out);
  }

  /** What follows a key: on its line, or in a block below it. */
  function UnderLines(head: string, v: Value, depth: nat): seq<string> {
    if IsInline(v) then [head + " " + InlineText(v)] else [head] + BlockLines(v, depth + 1)
  }

  lemma InlineUnder(head: string, v: Value, depth: nat, text: string)
    requires IsInline(v) && text == InlineText(v)
    ensures UnderLines(head, v, depth) == [head + " " + text]
  {
  }

  lemma BlockUnder(head: string, v: Value, depth: nat, before: seq<string>)
    requires !IsInline(v)
    ensures before + UnderLines(head, v, depth) == before + [head] + BlockLines(v, depth + 1)
    ensures BlockLines(v, depth + 1)
         == if v.Mapping? then MappingLines(v.entries, depth + 1) else SequenceLines(v.items, depth + 1)
  {
    Associative(before, [head], BlockLines(v, depth + 1));
  }

  method EmitUnder(head: string, v: Value, depth: nat, out: LineBuffer)
    modifies out
    ensures out.lines == old(out.lines) + UnderLines(head, v, depth)
    decreases v, 3
  {
    match v
    case Mapping(inner) =>
      if inner == [] {
        InlineUnder(head, v, depth, "{}");
        out.Append(head + " " + "{}");
      } else {
        BlockUnder(head, v, depth, out.lines);
        out.Append(head);
        EmitMapping(inner, depth + 1, out);
      }
    case Sequence(items) =>
      if items == [] {
        InlineUnder(head, v, depth, "[]");
        out.Append(head + " " + "[]");
      } else {
        BlockUnder(head, v, depth, out.lines);
        out.Append(head);
        EmitSequence(items, depth + 1, out);
      }
    case _ => EmitScalar(head, v, depth, out);
  }

  method EmitScalar(head: string, v: Value, depth: nat, out: LineBuffer)
    requires IsInline(v) && !v.Mapping? && !v.Sequence?
    modifies out
    ensures out.lines == old(out.lines) + UnderLines(head, v, depth)
  {
    var text := Scalar(v);
    InlineUnder(head, v, depth, text);
    out.Append(head + " " + text);
  }

  /** `_emit_sequence`. */
  method EmitSequence(node: seq<Value>, depth: nat, out: LineBuffer)
    modifies out
    ensures out.lines == old(out.lines) + SequenceLines(node, depth)
    decreases node, 1
  {
    ghost var all := out.lines + SequenceLines(node, depth);
    assert node[0..] == node;
    for i := 0 to |node|
      invariant out.lines + SequenceLines(node[i..], depth) == all
    {
      SequenceStep(node, i, depth, out.lines);
      EmitItem(node[i], depth, out);
    }
    assert node[|node|..] == [];
  }

  /** The nested block's first line rides the dash; the others keep their pads. */
  method Ride(nested: seq<string>, depth: nat, out: LineBuffer)
    requires nested != []
    modifies out
    ensures out.lines == old(out.lines) + RideDash(nested, depth)
  {
    var first := Lstrip(nested[0]);
    out.Append(Pad(depth) + "- " + first);
    out.Extend(nested[1..]);
  }

  /** The body of the loop in `_emit_sequence`: a nested block is printed apart and re-based. */
  method EmitItem(item: Value, depth: nat, out: LineBuffer)
    modifies out
    ensures out.lines == old(out.lines) + ItemLines(item, depth)
    decreases item, 2
  {
    match item {
      case Mapping(inner) =>
        if inner == [] {
          out.Append(Pad(depth) + "- " + "{}");
        } else {
          var nested := new LineBuffer();
          EmitMapping(inner, depth + 1, nested);
          assert nested.lines == BlockLines(item, depth + 1);
          Ride(nested.lines, depth, out);
        }
      case Sequence(inner) =>
        if inner == [] {
          out.Append(Pad(depth) + "- " + "[]");
        } else {
          var nested := new LineBuffer();
          EmitSequence(inner, depth + 1, nested);
          assert nested.lines == BlockLines(item, depth + 1);
          Ride(nested.lines, depth, out);
        }
      case _ =>
        var text := Scalar(item);
        assert ItemLines(item, depth) == [Pad(depth) + "- " + text];
        out.Append(Pad(depth) + "- " + text);
    }
  }

  lemma HeaderStep(header: seq<string>, i: nat, done: seq<string>)
    requires i < |header|
    ensures done + HeaderLines(header[i..])
         == (done + [Rstrip("# " + header[i])]) + HeaderLines(header[i + 1..])
  {
    assert header[i..][1..] == header[i + 1..];
  }

  /** `emit`. What it prints is read back exactly when no key or string value is loose and the header,
      cut into lines, is all comments. */
  method Emit(document: seq<Entry>, header: seq<string>) returns (text: string)
    ensures text == EmitText(document, header)
    ensures YamlReader.Read(text) == Some(document) <==> YamlBlocks.Tight(document) && YamlTheorems.CommentHeader(header)
    ensures YamlBlocks.Tight(document)
            ==> text[|text| - 1] == '\n' && (|text| > 1 ==> text[|text| - 2] != '\n')
  {
    var out := new LineBuffer();
    assert header[0..] == header;
    for i := 0 to |header|
      invariant out.lines + HeaderLines(header[i..]) == HeaderLines(header)
    {
      HeaderStep(header, i, out.lines);
      out.Append(Rstrip("# " + header[i]));
    }
    assert header[|header|..] == [];
    assert out.lines + [] == out.lines;
    EmitMapping(document, 0, out);
    text := Join(out.lines) + "\n";
    YamlTheorems.RoundTrip(document, header);
    if YamlBlocks.Tight(document) {
      YamlTidy.Tidy(document, header);
    }
  }
}
