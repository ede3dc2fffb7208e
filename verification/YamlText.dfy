/** From the printed text to the line tokens a loader works on. */
module YamlText {
  import opened YamlTree
  import opened YamlReader
  import opened YamlScalars
  import opened YamlBlocks

  /** What the lines `ls` come to once each has been cut at its breaks and blanks are dropped. */
  function Tokens(ls: seq<string>): seq<Line> {
    if ls == [] then [] else Inked(Split(ls[0])) + Tokens(ls[1..])
  }

  // ------------------------------------------------------------ splitting text

  lemma {:induction false} SplitNonEmpty(text: string)
    ensures Split(text) != []
  {
    if text != "" {
      SplitNonEmpty(text[1..]);
    }
  }

  lemma SplitFirst(text: string)
    requires text != ""
    ensures Split(text[1..]) != []
    ensures Split(text)
         == if IsBreak(text[0]) then [""] + Split(text[1..])
            else [[text[0]] + Split(text[1..])[0]] + Split(text[1..])[1..]
  {
    SplitNonEmpty(text[1..]);
  }

  lemma {:induction false} SplitAt(a: string, b: string)
    ensures Split(a + "\n" + b) == Split(a) + Split(b)
  {
    var all := a + "\n" + b;
    SplitFirst(all);
    if a == "" {
      assert all[1..] == b;
    } else {
      assert all[1..] == a[1..] + "\n" + b;
      SplitAt(a[1..], b);
      SplitFirst(a);
      FirstOfBoth(a[0], Split(a[1..]), Split(b));
    }
  }

  /** A character in front of some lines, and more lines behind them. */
  lemma FirstOfBoth(c: char, s: seq<string>, t: seq<string>)
    requires s != []
    ensures [""] + (s + t) == [""] + s + t
    ensures [[c] + (s + t)[0]] + (s + t)[1..] == [[c] + s[0]] + s[1..] + t
  {
    assert (s + t)[0] == s[0] && (s + t)[1..] == s[1..] + t;
  }

  lemma {:induction false} SplitPrefix(prefix: string, text: string)
    requires NoBreak(prefix)
    ensures Split(text) != []
    ensures Split(prefix + text) == [prefix + Split(text)[0]] + Split(text)[1..]
  {
    SplitNonEmpty(text);
    if prefix == "" {
      assert prefix + text == text;
      assert prefix + Split(text)[0] == Split(text)[0];
    } else {
      assert (prefix + text)[1..] == prefix[1..] + text;
      SplitPrefix(prefix[1..], text);
      assert [prefix[0]] + (prefix[1..] + Split(text)[0]) == prefix + Split(text)[0];
    }
  }

  lemma SplitLine(line: string)
    requires NoBreak(line)
    ensures Split(line) == [line]
  {
    SplitPrefix(line, "");
    assert line + "" == line;
  }

  lemma {:induction false} InkedConcat(a: seq<string>, b: seq<string>)
    ensures Inked(a + b) == Inked(a) + Inked(b)
  {
    if a == [] {
      assert a + b == b;
    } else {
      assert (a + b)[1..] == a[1..] + b;
      InkedConcat(a[1..], b);
    }
  }

  lemma {:induction false} TokensConcat(a: seq<string>, b: seq<string>)
    ensures Tokens(a + b) == Tokens(a) + Tokens(b)
  {
    if a == [] {
      assert a + b == b;
    } else {
      assert (a + b)[1..] == a[1..] + b;
      TokensConcat(a[1..], b);
    }
  }

  lemma {:induction false} JoinTokens(ls: seq<string>)
    ensures Inked(Split(Join(ls) + "\n")) == Tokens(ls)
  {
    SplitAt(Join(ls), "");
    assert Join(ls) + "\n" + "" == Join(ls) + "\n";
    InkedConcat(Split(Join(ls)), [""]);
    if |ls| > 1 {
      JoinTokens(ls[1..]);
      SplitAt(ls[0], Join(ls[1..]));
      SplitAt(Join(ls[1..]), "");
      assert Join(ls[1..]) + "\n" + "" == Join(ls[1..]) + "\n";
      InkedConcat(Split(ls[0]), Split(Join(ls[1..])));
      InkedConcat(Split(Join(ls[1..])), [""]);
    } else if |ls| == 1 {
      assert ls[1..] == [];
    }
  }

  // ------------------------------------------------------------ pads and dashes

  lemma {:induction false} PadShape(depth: nat)
    ensures |Pad(depth)| == 2 * depth
    ensures forall i :: 0 <= i < 2 * depth ==> Pad(depth)[i] == ' '
  {
    if depth > 0 {
      PadShape(depth - 1);
    }
  }

  lemma {:induction false} MeasurePadded(pad: string, body: string)
    requires forall i :: 0 <= i < |pad| ==> pad[i] == ' '
    requires body != "" && body[0] != ' '
    ensures Measure(pad + body) == Line(|pad|, body)
  {
    if pad == "" {
      assert pad + body == body;
    } else {
      assert (pad + body)[1..] == pad[1..] + body;
      MeasurePadded(pad[1..], body);
      assert (pad + body)[1 + Indent(pad[1..] + body)..] == (pad + body)[1..][Indent(pad[1..] + body)..];
    }
  }

  lemma {:induction false} LstripPadded(pad: string, body: string)
    requires forall i :: 0 <= i < |pad| ==> pad[i] == ' '
    requires body != "" && !IsSpace(body[0])
    ensures Lstrip(pad + body) == body
  {
    if pad == "" {
      assert pad + body == body;
    } else {
      assert (pad + body)[1..] == pad[1..] + body;
      LstripPadded(pad[1..], body);
    }
  }

  /** A printed line: its pad, then something that is not blank. */
  predicate StartsAt(line: string, depth: nat) {
    && |line| > 2 * depth
    && line[..2 * depth] == Pad(depth)
    && GoodStart(line[2 * depth])
  }

  lemma OneToken(depth: nat, text: string)
    requires text != "" && NoBreak(text) && GoodStart(text[0])
    ensures Split(Pad(depth) + text) == [Pad(depth) + text]
    ensures Inked([Pad(depth) + text]) == [Line(2 * depth, text)]
  {
    PadShape(depth);
    SplitLine(Pad(depth) + text);
    MeasurePadded(Pad(depth), text);
    assert Inked([]) == [];
  }

  /** A padded body is one token, with or without a newline behind it. */
  lemma PaddedToken(depth: nat, body: string)
    requires Chomp(body) != "" && NoBreak(Chomp(body)) && GoodStart(body[0])
    ensures Tokens([Pad(depth) + body]) == [Line(2 * depth, Chomp(body))]
  {
    var line := Pad(depth) + Chomp(body);
    OneToken(depth, Chomp(body));
    if body == Chomp(body) {
      assert Tokens([line]) == Inked([line]) + [];
    } else {
      assert Pad(depth) + body == line + "\n" + "";
      SplitAt(line, "");
      InkedConcat([line], [""]);
      BlankTail();
      assert Tokens([Pad(depth) + body]) == Inked([line] + [""]) + [];
    }
  }

  lemma BlankTail()
    ensures Inked([""]) == []
  {
    assert Measure("").text == "";
    assert Inked([]) == [];
  }

  /** Moving the first line of a nested block behind a dash moves its first token and nothing else. */
  lemma RidingLine(line: string, depth: nat)
    requires StartsAt(line, depth + 1)
    ensures var a := Inked(Split(line));
            && a != [] && a[0].indent == 2 * depth + 2 && a[0].text != "" && GoodStart(a[0].text[0])
            && Inked(Split(Pad(depth) + "- " + Lstrip(line)))
               == [Line(2 * depth, "- " + a[0].text)] + a[1..]
    ensures StartsAt(Pad(depth) + "- " + Lstrip(line), depth)
  {
    var body := line[2 * depth + 2..];
    PadShape(depth);
    PadShape(depth + 1);
    assert line == Pad(depth + 1) + body;
    LstripPadded(Pad(depth + 1), body);
    SplitNonEmpty(body);
    var first, others := Split(body)[0], Split(body)[1..];
    assert first[0] == body[0] by { SplitNonEmpty(body[1..]); }
    SplitPrefix(Pad(depth + 1), body);
    MeasurePadded(Pad(depth + 1), first);
    InkedConcat([Pad(depth + 1) + first], others);

    SplitPrefix(Pad(depth) + "- ", body);
    MeasurePadded(Pad(depth), "- " + first);
    assert Pad(depth) + "- " + first == Pad(depth) + ("- " + first);
    InkedConcat([Pad(depth) + "- " + first], others);
    assert (Pad(depth) + "- " + body)[..2 * depth] == Pad(depth);
  }

  // ------------------------------------------------------- printed lines start

  lemma TextStarts(s: string)
    ensures StringText(s) != "" && GoodStart(StringText(s)[0])
  {
  }

  lemma PaddedStarts(depth: nat, body: string)
    requires body != "" && GoodStart(body[0])
    ensures StartsAt(Pad(depth) + body, depth)
  {
    PadShape(depth);
    assert (Pad(depth) + body)[2 * depth] == body[0];
  }

  lemma EntryStartsAt(e: Entry, depth: nat)
    ensures StartsAt(EntryLines(e, depth)[0], depth)
  {
    PadShape(depth);
    TextStarts(e.key);
    var rest := EntryLines(e, depth)[0][2 * depth..];
    assert EntryLines(e, depth)[0] == Pad(depth) + rest;
    assert rest[0] == StringText(e.key)[0];
    PaddedStarts(depth, rest);
  }

  lemma {:induction false} BlockStartsAt(v: Value, depth: nat)
    requires !IsInline(v)
    ensures StartsAt(BlockLines(v, depth)[0], depth)
    decreases v
  {
    if v.Mapping? {
      EntryStartsAt(v.entries[0], depth);
    } else if IsInline(v.items[0]) {
      var line := "- " + InlineText(v.items[0]);
      PaddedStarts(depth, line);
      assert ItemLines(v.items[0], depth)[0] == Pad(depth) + line;
    } else {
      BlockStartsAt(v.items[0], depth + 1);
      RidingLine(BlockLines(v.items[0], depth + 1)[0], depth);
    }
  }

  // --------------------------------------------------------- lines into tokens

  lemma {:induction false} MappingIntoTokens(entries: seq<Entry>, depth: nat)
    requires KeysTight(entries)
    ensures Tokens(MappingLines(entries, depth)) == MappingTokens(entries, depth)
    decreases entries, 0
  {
    if entries != [] {
      assert forall e :: e in entries[1..] ==> e in entries;
      EntryIntoTokens(entries[0], depth);
      MappingIntoTokens(entries[1..], depth);
      TokensConcat(EntryLines(entries[0], depth), MappingLines(entries[1..], depth));
    }
  }

  lemma ChompTail(a: string, b: string)
    requires b != ""
    ensures Chomp(a + b) == a + Chomp(b)
  {
  }

  /** A line that begins with a word and a colon is one token. */
  lemma WordHead(word: string, depth: nat, tail: string)
    requires word != "" && GoodStart(word[0]) && NoBreak(word) && NoBreak(Chomp(tail))
    ensures Tokens([Pad(depth) + word + ":" + tail]) == [Line(2 * depth, word + ":" + Chomp(tail))]
  {
    var head := word + ":";
    var body := head + tail;
    WordBody(head, tail);
    assert Pad(depth) + word + ":" + tail == Pad(depth) + body;
    PaddedToken(depth, body);
  }

  lemma WordBody(head: string, tail: string)
    requires head != "" && head[|head| - 1] == ':' && NoBreak(head) && NoBreak(Chomp(tail))
    ensures Chomp(head + tail) == head + Chomp(tail) && NoBreak(Chomp(head + tail))
  {
    if tail == "" {
      assert head + tail == head;
    }
  }

  /** The line an entry begins with: its key, then what stands behind the colon. */
  lemma EntryHead(key: string, depth: nat, tail: string)
    requires !Loose(key) && NoBreak(Chomp(tail))
    ensures Tokens([Pad(depth) + StringText(key) + ":" + tail])
         == [Line(2 * depth, StringText(key) + ":" + Chomp(tail))]
  {
    KeyReadsBack(key, "");
    TextStarts(key);
    WordHead(StringText(key), depth, tail);
  }

  /** A word, a colon, a space and an inline text. */
  lemma InlineWord(word: string, depth: nat, text: string)
    requires word != "" && GoodStart(word[0]) && NoBreak(word) && text != "" && NoBreak(Chomp(text))
    ensures Tokens([Pad(depth) + word + ":" + " " + text]) == [Line(2 * depth, word + ":" + " " + Chomp(text))]
  {
    ChompTail(" ", text);
    WordHead(word, depth, " " + text);
    assert Pad(depth) + word + ":" + " " + text == Pad(depth) + word + ":" + (" " + text);
    assert word + ":" + " " + Chomp(text) == word + ":" + (" " + Chomp(text));
  }

  lemma InlineEntryIntoTokens(e: Entry, depth: nat)
    requires !Loose(e.key) && IsInline(e.value)
    ensures Tokens(EntryLines(e, depth)) == EntryTokens(e, depth)
  {
    KeyReadsBack(e.key, "");
    TextStarts(e.key);
    InlineReadsBack(e.value);
    InlineWord(StringText(e.key), depth, InlineText(e.value));
  }

  lemma {:induction false} EntryIntoTokens(e: Entry, depth: nat)
    requires !Loose(e.key) && KeysTightIn(e.value)
    ensures Tokens(EntryLines(e, depth)) == EntryTokens(e, depth)
    decreases e
  {
    if IsInline(e.value) {
      InlineEntryIntoTokens(e, depth);
    } else {
      var head := Pad(depth) + StringText(e.key) + ":";
      BlockIntoTokens(e.value, depth + 1);
      EntryHead(e.key, depth, "");
      assert head + "" == head && StringText(e.key) + ":" + "" == StringText(e.key) + ":";
      TokensConcat([head], BlockLines(e.value, depth + 1));
    }
  }

  lemma {:induction false} BlockIntoTokens(v: Value, depth: nat)
    requires !IsInline(v) && KeysTightIn(v)
    ensures Tokens(BlockLines(v, depth)) == BlockTokens(v, depth)
    decreases v, 0
  {
    if v.Mapping? {
      MappingIntoTokens(v.entries, depth);
    } else {
      SequenceIntoTokens(v.items, depth);
    }
  }

  lemma {:induction false} SequenceIntoTokens(items: seq<Value>, depth: nat)
    requires forall i :: i in items ==> KeysTightIn(i)
    ensures Tokens(SequenceLines(items, depth)) == SequenceTokens(items, depth)
    decreases items, 0
  {
    if items != [] {
      assert forall i :: i in items[1..] ==> i in items;
      ItemIntoTokens(items[0], depth);
      SequenceIntoTokens(items[1..], depth);
      TokensConcat(ItemLines(items[0], depth), SequenceLines(items[1..], depth));
    }
  }

  /** A dash, a space and an inline text. */
  lemma InlineDash(depth: nat, text: string)
    requires text != "" && NoBreak(Chomp(text))
    ensures Tokens([Pad(depth) + "- " + text]) == [Line(2 * depth, "- " + Chomp(text))]
  {
    var body := "- " + text;
    ChompTail("- ", text);
    PaddedToken(depth, body);
    assert Pad(depth) + "- " + text == Pad(depth) + body;
  }

  lemma InlineItemIntoTokens(v: Value, depth: nat)
    requires IsInline(v)
    ensures Tokens(ItemLines(v, depth)) == ItemTokens(v, depth)
  {
    InlineReadsBack(v);
    InlineDash(depth, InlineText(v));
  }

  lemma {:induction false} ItemIntoTokens(v: Value, depth: nat)
    requires KeysTightIn(v)
    ensures Tokens(ItemLines(v, depth)) == ItemTokens(v, depth)
    decreases v, 1
  {
    if IsInline(v) {
      InlineItemIntoTokens(v, depth);
    } else {
      BlockStartsAt(v, depth + 1);
      BlockIntoTokens(v, depth + 1);
      RidingTokens(BlockLines(v, depth + 1), depth);
    }
  }

  lemma RidingTokens(nested: seq<string>, depth: nat)
    requires nested != [] && StartsAt(nested[0], depth + 1)
    ensures Tokens(nested) != []
    ensures Tokens(RideDash(nested, depth)) == RideTokens(Tokens(nested), depth)
    ensures Tokens(nested)[0].text != "" && GoodStart(Tokens(nested)[0].text[0])
  {
    var ridden := RideDash(nested, depth);
    RidingLine(nested[0], depth);
    TokensHead(nested);
    TokensHead(ridden);
    assert ridden[1..] == nested[1..];
    RideConcat(Inked(Split(nested[0])), Tokens(nested[1..]), depth);
  }

  lemma TokensHead(ls: seq<string>)
    requires ls != []
    ensures Tokens(ls) == Inked(Split(ls[0])) + Tokens(ls[1..])
  {
  }

  lemma RideConcat(first: seq<Line>, rest: seq<Line>, depth: nat)
    requires first != []
    ensures RideTokens(first + rest, depth) == [Line(2 * depth, "- " + first[0].text)] + first[1..] + rest
  {
    assert (first + rest)[1..] == first[1..] + rest;
  }

  lemma OneLine(line: string)
    ensures Tokens([line]) == Inked(Split(line))
  {
    TokensHead([line]);
    assert Tokens([line][1..]) == [];
  }
}
