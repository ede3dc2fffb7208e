/** No trailing whitespace, and exactly one newline at the end. */
module YamlTidy {
  import opened Strings
  import opened YamlTree
  import opened YamlScalars
  import opened YamlBlocks
  import opened YamlText
  import opened YamlTheorems

  /** A line whose last character is something a reader can see. */
  predicate EndsInk(line: string) {
    line != "" && !IsSpace(line[|line| - 1])
  }

  predicate AllInk(lines: seq<string>) {
    forall l :: l in lines ==> EndsInk(l)
  }

  lemma InkTail(a: string, b: string)
    requires EndsInk(b)
    ensures EndsInk(a + b)
  {
    assert (a + b)[|a + b| - 1] == b[|b| - 1];
  }

  lemma StringEndsInk(s: string)
    requires !Loose(s)
    ensures EndsInk(StringText(s))
  {
    if Unquoted(s) {
      assert IsIdentChar(s[|s| - 1]);
    }
  }

  lemma InlineEndsInk(v: Value)
    requires IsInline(v) && TightIn(v)
    ensures EndsInk(InlineText(v))
  {
    match v
    case Str(s) => StringEndsInk(s);
    case Int(n) =>
      var digits := DigitsText(if n < 0 then -n else n);
      DigitsReadBack(if n < 0 then -n else n);
      assert IsDigit(digits[|digits| - 1]);
      InkTail("-", digits);
    case _ =>
  }

  lemma {:induction false} MappingTidy(entries: seq<Entry>, depth: nat)
    requires Tight(entries)
    ensures AllInk(MappingLines(entries, depth))
    decreases entries, 0
  {
    if entries != [] {
      assert forall o :: o in entries[1..] ==> o in entries;
      EntryTidy(entries[0], depth);
      MappingTidy(entries[1..], depth);
    }
  }

  lemma {:induction false} EntryTidy(e: Entry, depth: nat)
    requires TightIn(e.value)
    ensures AllInk(EntryLines(e, depth))
    decreases e
  {
    var word := Pad(depth) + StringText(e.key);
    InkTail(word, ":");
    if IsInline(e.value) {
      InlineEndsInk(e.value);
      InkTail(word + ":" + " ", InlineText(e.value));
    } else {
      BlockTidy(e.value, depth + 1);
    }
  }

  lemma {:induction false} BlockTidy(v: Value, depth: nat)
    requires !IsInline(v) && TightIn(v)
    ensures AllInk(BlockLines(v, depth))
    decreases v, 0
  {
    if v.Mapping? {
      MappingTidy(v.entries, depth);
    } else {
      SequenceTidy(v.items, depth);
    }
  }

  lemma {:induction false} SequenceTidy(items: seq<Value>, depth: nat)
    requires forall i :: i in items ==> TightIn(i)
    ensures AllInk(SequenceLines(items, depth))
    decreases items, 0
  {
    if items != [] {
      var v := items[0];
      assert forall o :: o in items[1..] ==> o in items;
      SequenceTidy(items[1..], depth);
      if IsInline(v) {
        InlineEndsInk(v);
        InkTail(Pad(depth) + "- ", InlineText(v));
      } else {
        var nested := BlockLines(v, depth + 1);
        BlockTidy(v, depth + 1);
        BlockStartsAt(v, depth + 1);
        RideTidy(nested, depth);
      }
    }
  }

  lemma RideTidy(nested: seq<string>, depth: nat)
    requires nested != [] && StartsAt(nested[0], depth + 1) && AllInk(nested)
    ensures AllInk(RideDash(nested, depth))
  {
    var body := nested[0][2 * depth + 2..];
    PadShape(depth + 1);
    assert nested[0] == Pad(depth + 1) + body;
    LstripPadded(Pad(depth + 1), body);
    assert nested[0] in nested;
    assert body[|body| - 1] == nested[0][|nested[0]| - 1];
    InkTail(Pad(depth) + "- ", body);
  }

  lemma {:induction false} HeaderTidy(header: seq<string>)
    ensures AllInk(HeaderLines(header))
  {
    if header != [] {
      HeaderTidy(header[1..]);
      RstripPrefix("# " + header[0]);
    }
  }

  lemma {:induction false} JoinEnds(lines: seq<string>)
    requires lines != [] && AllInk(lines)
    ensures EndsInk(Join(lines))
  {
    if |lines| > 1 {
      assert forall l :: l in lines[1..] ==> l in lines;
      JoinEnds(lines[1..]);
      InkTail(lines[0] + "\n", Join(lines[1..]));
    }
  }

  /** Under a tight document no printed line ends in whitespace, and the file ends in one newline. */
  lemma Tidy(document: seq<Entry>, header: seq<string>)
    requires Tight(document)
    ensures AllInk(HeaderLines(header) + MappingLines(document, 0))
    ensures var text := EmitText(document, header);
            text[|text| - 1] == '\n' && (|text| > 1 ==> text[|text| - 2] != '\n')
  {
    HeaderTidy(header);
    MappingTidy(document, 0);
    var lines := HeaderLines(header) + MappingLines(document, 0);
    if lines != [] {
      JoinEnds(lines);
    }
  }

  /** A loose value at the end of a file costs it that promise. */
  lemma LooseValueEndsTwice(key: string, s: string)
    requires Loose(s)
    ensures var text := EmitText([Entry(key, Str(s))], []);
            |text| > 1 && text[|text| - 1] == '\n' && text[|text| - 2] == '\n'
  {
    var d := [Entry(key, Str(s))];
    assert d[1..] == [];
    var line := Pad(0) + StringText(key) + ":" + " " + s;
    assert EntryLines(d[0], 0) == [line];
    assert MappingLines(d, 0) == [line];
    assert HeaderLines([]) + [line] == [line];
    assert line[|line| - 1] == s[|s| - 1];
  }
}
