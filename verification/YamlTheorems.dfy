/** The printer's promise: what it prints is read back, exactly for the tight documents. */
module YamlTheorems {
  import opened Wrappers
  import opened YamlTree
  import opened YamlReader
  import opened YamlScalars
  import opened YamlBlocks
  import opened YamlDepth
  import opened YamlText

  // ------------------------------------------------ a loose key breaks the file

  predicate Colon(t: Line) {
    t.text != "" && t.text[0] == ':'
  }

  predicate HasColon(ts: seq<Line>) {
    exists t :: t in ts && Colon(t)
  }

  lemma ColonLine(tail: string)
    ensures HasColon(Inked(Split(":" + tail)))
  {
    SplitPrefix(":", tail);
    var line := ":" + Split(tail)[0];
    assert line[0..] == line;
    assert Measure(line) == Line(0, line) && Colon(Line(0, line));
    InkedConcat([line], Split(tail)[1..]);
    assert Split(":" + tail) == [line] + Split(tail)[1..];
    assert Inked([line]) == [Line(0, line)] + Inked([]);
    assert Line(0, line) in Inked(Split(":" + tail));
  }

  /** What a key ending in a newline leaves on the line below it: a bare colon. */
  lemma BrokenKeyLine(above: string, tail: string)
    ensures HasColon(Inked(Split(above + "\n" + (":" + tail))))
  {
    var below := ":" + tail;
    SplitAt(above, below);
    InkedConcat(Split(above), Split(below));
    ColonLine(tail);
    HasColonConcat(Inked(Split(above)), Inked(Split(below)));
  }

  lemma BrokenKey(word: string, depth: nat, tail: string)
    requires word != "" && word[|word| - 1] == '\n'
    ensures HasColon(Inked(Split(Pad(depth) + word + ":" + tail)))
  {
    var above := Pad(depth) + word[..|word| - 1];
    BrokenKeyLine(above, tail);
    assert Pad(depth) + word + ":" + tail == above + "\n" + (":" + tail);
  }

  lemma HasColonConcat(a: seq<Line>, b: seq<Line>)
    ensures HasColon(a + b) <==> HasColon(a) || HasColon(b)
  {
    if HasColon(a) {
      var t :| t in a && Colon(t);
      assert t in a + b;
    }
    if HasColon(b) {
      var t :| t in b && Colon(t);
      assert t in a + b;
    }
  }

  lemma {:induction false} LooseKeyInMapping(entries: seq<Entry>, depth: nat)
    requires !KeysTight(entries)
    ensures HasColon(Tokens(MappingLines(entries, depth)))
    decreases entries, 0
  {
    var e := entries[0];
    var rest := entries[1..];
    TokensConcat(EntryLines(e, depth), MappingLines(rest, depth));
    HasColonConcat(Tokens(EntryLines(e, depth)), Tokens(MappingLines(rest, depth)));
    if Loose(e.key) || !KeysTightIn(e.value) {
      LooseKeyInEntry(e, depth);
    } else {
      assert entries == [e] + rest;
      LooseKeyInMapping(rest, depth);
    }
  }

  lemma LooseIsBare(key: string)
    requires Loose(key)
    ensures StringText(key) == key && key != "" && key[|key| - 1] == '\n'
  {
  }

  lemma LooseKeyOfEntry(e: Entry, depth: nat)
    requires Loose(e.key)
    ensures HasColon(Inked(Split(EntryLines(e, depth)[0])))
  {
    LooseIsBare(e.key);
    var tail := if IsInline(e.value) then " " + InlineText(e.value) else "";
    BrokenKey(e.key, depth, tail);
    HeadAndTail(e, depth, tail);
  }

  lemma HeadAndTail(e: Entry, depth: nat, tail: string)
    requires tail == if IsInline(e.value) then " " + InlineText(e.value) else ""
    ensures EntryLines(e, depth)[0] == Pad(depth) + StringText(e.key) + ":" + tail
  {
    var head := Pad(depth) + StringText(e.key) + ":";
    if IsInline(e.value) {
      assert head + " " + InlineText(e.value) == head + tail;
    } else {
      assert head + tail == head;
    }
  }

  lemma {:induction false} LooseKeyInEntry(e: Entry, depth: nat)
    requires Loose(e.key) || !KeysTightIn(e.value)
    ensures HasColon(Tokens(EntryLines(e, depth)))
    decreases e
  {
    var lines := EntryLines(e, depth);
    HasColonConcat(Inked(Split(lines[0])), Tokens(lines[1..]));
    if !KeysTightIn(e.value) {
      LooseKeyInBlock(e.value, depth + 1);
      assert lines[1..] == BlockLines(e.value, depth + 1);
    } else {
      LooseKeyOfEntry(e, depth);
    }
  }

  lemma {:induction false} LooseKeyInBlock(v: Value, depth: nat)
    requires !KeysTightIn(v)
    ensures !IsInline(v) && HasColon(Tokens(BlockLines(v, depth)))
    decreases v, 0
  {
    if v.Mapping? {
      LooseKeyInMapping(v.entries, depth);
    } else {
      LooseKeyInSequence(v.items, depth);
    }
  }

  lemma {:induction false} LooseKeyInSequence(items: seq<Value>, depth: nat)
    requires exists i :: i in items && !KeysTightIn(i)
    ensures HasColon(Tokens(SequenceLines(items, depth)))
    decreases items, 0
  {
    var item := items[0];
    TokensConcat(ItemLines(item, depth), SequenceLines(items[1..], depth));
    HasColonConcat(Tokens(ItemLines(item, depth)), Tokens(SequenceLines(items[1..], depth)));
    if !KeysTightIn(item) {
      LooseKeyInBlock(item, depth + 1);
      var nested := BlockLines(item, depth + 1);
      BlockStartsAt(item, depth + 1);
      RidingTokens(nested, depth);
      var t :| t in Tokens(nested) && Colon(t);
      assert t in Tokens(nested)[1..];
      assert t in RideTokens(Tokens(nested), depth);
    } else {
      assert items == [item] + items[1..];
      LooseKeyInSequence(items[1..], depth);
    }
  }

  // ------------------------------------- no line the reader takes begins with one

  predicate Taken(lines: seq<Line>, rest: seq<Line>) {
    && |rest| <= |lines|
    && rest == lines[|lines| - |rest|..]
    && !HasColon(lines[..|lines| - |rest|])
  }

  lemma TakenStep(lines: seq<Line>, mid: seq<Line>, rest: seq<Line>)
    requires Taken(lines, mid) && Taken(mid, rest)
    ensures Taken(lines, rest)
  {
    var a, b := |lines| - |mid|, |lines| - |rest|;
    assert lines[..b] == lines[..a] + mid[..|mid| - |rest|];
    HasColonConcat(lines[..a], mid[..|mid| - |rest|]);
  }

  lemma TakenOne(lines: seq<Line>)
    requires lines != [] && !Colon(lines[0])
    ensures Taken(lines, lines[1..])
  {
    assert lines[..1] == [lines[0]];
  }

  /** Behind a dash the block is read from a first line that has been moved. */
  lemma TakenRiding(lines: seq<Line>, first: Line, rest: seq<Line>)
    requires lines != [] && !Colon(lines[0])
    requires Taken([first] + lines[1..], rest) && |rest| < |lines|
    ensures Taken(lines, rest)
  {
    var moved := [first] + lines[1..];
    var n := |lines| - |rest|;
    assert moved[..n] == [first] + lines[1..n];
    assert lines[..n] == [lines[0]] + lines[1..n];
    HasColonConcat([first], lines[1..n]);
    HasColonConcat([lines[0]], lines[1..n]);
    assert rest == lines[n..];
  }

  lemma TakenNone(lines: seq<Line>)
    ensures Taken(lines, lines)
  {
    assert lines[..0] == [];
  }

  lemma {:induction false} MappingTakes(lines: seq<Line>, indent: nat)
    requires ReadMapping(lines, indent).Some?
    ensures Taken(lines, ReadMapping(lines, indent).value.1)
    decreases |lines|, Weight(lines), 1
  {
    if lines == [] || lines[0].indent < indent {
      TakenNone(lines);
    } else {
      var head := ReadEntry(lines, indent);
      var rest := head.value.1;
      EntryTakes(lines, indent);
      MappingTakes(rest, indent);
      TakenStep(lines, rest, ReadMapping(rest, indent).value.1);
    }
  }

  lemma ColonIsNoKey(t: string)
    ensures t == "" || t[0] == ':' ==> ReadKey(t) == None
  {
    assert BeforeColon("") == "";
  }

  lemma {:induction false} EntryTakes(lines: seq<Line>, indent: nat)
    requires lines != [] && ReadEntry(lines, indent).Some?
    ensures Taken(lines, ReadEntry(lines, indent).value.1)
    decreases |lines|, Weight(lines), 0
  {
    ColonIsNoKey(lines[0].text);
    TakenOne(lines);
    if ReadKey(lines[0].text).value.1 == "" {
      BlockTakes(lines[1..], indent + 2);
      TakenStep(lines, lines[1..], ReadEntry(lines, indent).value.1);
    }
  }

  lemma {:induction false} SequenceTakes(lines: seq<Line>, indent: nat)
    requires ReadSequence(lines, indent).Some?
    ensures Taken(lines, ReadSequence(lines, indent).value.1)
    decreases |lines|, Weight(lines), 1
  {
    if lines == [] || lines[0].indent < indent {
      TakenNone(lines);
    } else {
      var head := ReadItem(lines, indent);
      var rest := head.value.1;
      ItemTakes(lines, indent);
      SequenceTakes(rest, indent);
      TakenStep(lines, rest, ReadSequence(rest, indent).value.1);
    }
  }

  lemma {:induction false} ItemTakes(lines: seq<Line>, indent: nat)
    requires lines != [] && ReadItem(lines, indent).Some?
    ensures Taken(lines, ReadItem(lines, indent).value.1)
    decreases |lines|, Weight(lines), 0
  {
    var inner := lines[0].text[2..];
    TakenOne(lines);
    if IsDash(inner) || ReadKey(inner).Some? {
      var first := Line(indent + 2, inner);
      BlockTakes([first] + lines[1..], indent + 2);
      TakenRiding(lines, first, ReadItem(lines, indent).value.1);
    }
  }

  lemma {:induction false} BlockTakes(lines: seq<Line>, indent: nat)
    requires ReadBlock(lines, indent).Some?
    ensures Taken(lines, ReadBlock(lines, indent).value.1)
    decreases |lines|, Weight(lines), 2
  {
    if IsDash(lines[0].text) {
      SequenceTakes(lines, indent);
    } else {
      MappingTakes(lines, indent);
    }
  }

  // -------------------------------------------------------------------- header

  predicate PlainHeader(header: seq<string>) {
    forall h :: h in header ==> NoBreak(h)
  }

  lemma {:induction false} RstripPrefix(s: string)
    ensures Rstrip(s) <= s
    ensures Rstrip(s) != "" ==> !IsSpace(Rstrip(s)[|Rstrip(s)| - 1])
    ensures s != "" && !IsSpace(s[0]) ==> Rstrip(s) != "" && Rstrip(s)[0] == s[0]
  {
    if s != "" && IsSpace(s[|s| - 1]) {
      RstripPrefix(s[..|s| - 1]);
    }
  }

  lemma HeaderToken(h: string)
    requires NoBreak(h)
    ensures var line := Rstrip("# " + h); Inked(Split(line)) == [Line(0, line)] && IsComment(Line(0, line))
  {
    var line := Rstrip("# " + h);
    RstripPrefix("# " + h);
    assert NoBreak(line);
    SplitLine(line);
    assert Measure(line) == Line(0, line);
    assert Inked([line]) == [Line(0, line)] + Inked([]);
  }

  lemma CommentFirst(first: Line, others: seq<Line>)
    requires IsComment(first)
    ensures Body([first] + others) == Body(others)
    ensures Comments([first] + others) == [first.text] + Comments(others)
  {
    assert ([first] + others)[1..] == others;
  }

  /** A line that is one comment token. */
  predicate CommentLine(line: string) {
    Tokens([line]) == [Line(0, line)] && IsComment(Line(0, line))
  }

  function AsTokens(lines: seq<string>): seq<Line> {
    if lines == [] then [] else [Line(0, lines[0])] + AsTokens(lines[1..])
  }

  lemma {:induction false} CommentTokens(lines: seq<string>)
    requires forall l :: l in lines ==> CommentLine(l)
    ensures Tokens(lines) == AsTokens(lines)
  {
    if lines != [] {
      assert CommentLine(lines[0]);
      CommentTokens(lines[1..]);
      TokensConcat([lines[0]], lines[1..]);
      assert lines == [lines[0]] + lines[1..];
    }
  }

  lemma {:induction false} CommentsSkipped(lines: seq<string>, ts: seq<Line>)
    requires forall l :: l in lines ==> IsComment(Line(0, l))
    ensures Body(AsTokens(lines) + ts) == Body(ts)
    ensures Comments(AsTokens(lines) + ts) == lines + Comments(ts)
  {
    if lines == [] {
      assert AsTokens(lines) + ts == ts;
    } else {
      var others := AsTokens(lines[1..]) + ts;
      CommentsSkipped(lines[1..], ts);
      CommentFirst(Line(0, lines[0]), others);
      assert AsTokens(lines) + ts == [Line(0, lines[0])] + others;
      assert lines == [lines[0]] + lines[1..];
    }
  }

  lemma {:induction false} HeaderIsCommentLines(header: seq<string>)
    requires PlainHeader(header)
    ensures forall l :: l in HeaderLines(header) ==> CommentLine(l)
  {
    if header != [] {
      HeaderToken(header[0]);
      OneLine(Rstrip("# " + header[0]));
      HeaderIsCommentLines(header[1..]);
    }
  }

  lemma HeaderIsComments(header: seq<string>, ts: seq<Line>)
    requires PlainHeader(header)
    ensures Body(Tokens(HeaderLines(header)) + ts) == Body(ts)
    ensures Comments(Tokens(HeaderLines(header)) + ts) == HeaderLines(header) + Comments(ts)
  {
    HeaderIsCommentLines(header);
    assert forall l :: l in HeaderLines(header) ==> CommentLine(l);
    CommentTokens(HeaderLines(header));
    CommentsSkipped(HeaderLines(header), ts);
  }

  /** Every line that the header is cut into is blank or a comment: the header lines start with a mark,
      but one that holds a line break goes on without it. */
  predicate CommentHeader(header: seq<string>) {
    Body(Tokens(HeaderLines(header))) == []
  }

  lemma PlainHeaderIsComment(header: seq<string>)
    requires PlainHeader(header)
    ensures CommentHeader(header) && Comments(Tokens(HeaderLines(header))) == HeaderLines(header)
  {
    var ts := Tokens(HeaderLines(header));
    HeaderIsComments(header, []);
    assert ts + [] == ts && HeaderLines(header) + [] == HeaderLines(header);
  }

  lemma {:induction false} BodyConcat(a: seq<Line>, b: seq<Line>)
    ensures Body(a + b) == Body(a) + Body(b)
  {
    if a == [] {
      assert a + b == b;
    } else {
      assert (a + b)[0] == a[0] && (a + b)[1..] == a[1..] + b;
      BodyConcat(a[1..], b);
      var head := if IsComment(a[0]) then [] else [a[0]];
      assert Body(a) == head + Body(a[1..]);
      assert head + (Body(a[1..]) + Body(b)) == head + Body(a[1..]) + Body(b);
    }
  }

  lemma {:induction false} CommentsConcat(a: seq<Line>, b: seq<Line>)
    ensures Comments(a + b) == Comments(a) + Comments(b)
  {
    if a == [] {
      assert a + b == b;
    } else {
      assert (a + b)[0] == a[0] && (a + b)[1..] == a[1..] + b;
      CommentsConcat(a[1..], b);
      var head := if IsComment(a[0]) then [a[0].text] else [];
      assert Comments(a) == head + Comments(a[1..]);
      assert head + (Comments(a[1..]) + Comments(b)) == head + Comments(a[1..]) + Comments(b);
    }
  }

  predicate NoComment(ts: seq<Line>) {
    forall t :: t in ts ==> !IsComment(t)
  }

  lemma {:induction false} BodyOfPlain(ts: seq<Line>)
    requires NoComment(ts)
    ensures Body(ts) == ts && Comments(ts) == []
  {
    if ts != [] {
      BodyOfPlain(ts[1..]);
    }
  }

  lemma {:induction false} BodyKeepsColon(ts: seq<Line>)
    ensures HasColon(ts) ==> HasColon(Body(ts))
  {
    if ts != [] {
      BodyKeepsColon(ts[1..]);
      assert ts == [ts[0]] + ts[1..];
      HasColonConcat([ts[0]], ts[1..]);
      HasColonConcat(if IsComment(ts[0]) then [] else [ts[0]], Body(ts[1..]));
    }
  }

  lemma {:induction false} MappingHasNoComment(entries: seq<Entry>, depth: nat)
    ensures NoComment(MappingTokens(entries, depth))
    decreases entries, 0
  {
    if entries != [] {
      TextStarts(entries[0].key);
      if !IsInline(entries[0].value) {
        BlockHasNoComment(entries[0].value, depth + 1);
      }
      MappingHasNoComment(entries[1..], depth);
    }
  }

  lemma {:induction false} BlockHasNoComment(v: Value, depth: nat)
    requires !IsInline(v)
    ensures NoComment(BlockTokens(v, depth))
    decreases v, 0
  {
    if v.Mapping? {
      MappingHasNoComment(v.entries, depth);
    } else {
      SequenceHasNoComment(v.items, depth);
    }
  }

  lemma {:induction false} SequenceHasNoComment(items: seq<Value>, depth: nat)
    ensures NoComment(SequenceTokens(items, depth))
    decreases items, 0
  {
    if items != [] {
      if !IsInline(items[0]) {
        BlockHasNoComment(items[0], depth + 1);
      }
      SequenceHasNoComment(items[1..], depth);
    }
  }

  // ------------------------------------------------------------------ theorems

  /** The lines of a printed file, header and document. */
  lemma FileTokens(document: seq<Entry>, header: seq<string>)
    ensures var h, ts := Tokens(HeaderLines(header)), Tokens(MappingLines(document, 0));
            && Inked(Split(EmitText(document, header))) == h + ts
            && Body(h + ts) == Body(h) + Body(ts) && Comments(h + ts) == Comments(h) + Comments(ts)
  {
    JoinTokens(HeaderLines(header) + MappingLines(document, 0));
    TokensConcat(HeaderLines(header), MappingLines(document, 0));
    BodyConcat(Tokens(HeaderLines(header)), Tokens(MappingLines(document, 0)));
    CommentsConcat(Tokens(HeaderLines(header)), Tokens(MappingLines(document, 0)));
  }

  lemma DocumentTokens(document: seq<Entry>)
    requires KeysTight(document)
    ensures var ts := Tokens(MappingLines(document, 0));
            Body(ts) == ts && Comments(ts) == [] && ReadMapping(ts, 0) == Some((NormalEntries(document), []))
  {
    var ts := Tokens(MappingLines(document, 0));
    MappingIntoTokens(document, 0);
    MappingHasNoComment(document, 0);
    BodyOfPlain(ts);
    MappingReadsBack(document, 0, []);
    assert ts + [] == ts;
  }

  /** A loose key leaves a line that no reader takes, whatever stands above it. */
  lemma LooseKeyUnread(document: seq<Entry>, above: seq<Line>)
    requires !KeysTight(document)
    ensures var body := above + Body(Tokens(MappingLines(document, 0)));
            ReadMapping(body, 0).None? || ReadMapping(body, 0).value.1 != []
  {
    var ts := Tokens(MappingLines(document, 0));
    LooseKeyInMapping(document, 0);
    BodyKeepsColon(ts);
    HasColonConcat(above, Body(ts));
    var body := above + Body(ts);
    if ReadMapping(body, 0).Some? {
      MappingTakes(body, 0);
      assert body[..|body|] == body;
    }
  }

  /** What a loader makes of any printed file whose header is all comments: every value in its normal
      form, or, if some key is loose, no document at all. */
  lemma PrintedFileReads(document: seq<Entry>, header: seq<string>)
    requires CommentHeader(header)
    ensures Read(EmitText(document, header))
         == if KeysTight(document) then Some(NormalEntries(document)) else None
    ensures KeysTight(document) ==> ReadComments(EmitText(document, header)) == Comments(Tokens(HeaderLines(header)))
    ensures KeysTight(document) && PlainHeader(header) ==> ReadComments(EmitText(document, header)) == HeaderLines(header)
  {
    var ts := Tokens(MappingLines(document, 0));
    FileTokens(document, header);
    assert [] + Body(ts) == Body(ts);
    if PlainHeader(header) {
      PlainHeaderIsComment(header);
    }
    if KeysTight(document) {
      DocumentTokens(document);
      assert Comments(Tokens(HeaderLines(header))) + [] == Comments(Tokens(HeaderLines(header)));
    } else {
      LooseKeyUnread(document, []);
    }
  }

  lemma {:induction false} NormalLength(document: seq<Entry>)
    ensures |NormalEntries(document)| == |document|
  {
    if document != [] {
      NormalLength(document[1..]);
    }
  }

  /** Lines above a document that are no comments are either unreadable or more entries. */
  lemma MoreAbove(document: seq<Entry>, above: seq<Line>, ts: seq<Line>)
    requires above != [] && ReadMapping(ts, 0) == Some((NormalEntries(document), []))
    ensures ReadMapping(above + ts, 0) != Some((document, []))
  {
    var all := above + ts;
    assert all[0] == above[0];
    TopsConcat(above, ts, 0);
    NormalLength(document);
    AllCounted(ts, NormalEntries(document));
    if ReadMapping(all, 0) == Some((document, [])) {
      AllCounted(all, document);
    }
  }

  /** A header with a line that is no comment never lets the document through. */
  lemma BadHeader(document: seq<Entry>, header: seq<string>)
    requires !CommentHeader(header)
    ensures Read(EmitText(document, header)) != Some(document)
  {
    FileTokens(document, header);
    var above := Body(Tokens(HeaderLines(header)));
    if KeysTight(document) {
      DocumentTokens(document);
      MoreAbove(document, above, Tokens(MappingLines(document, 0)));
    } else {
      LooseKeyUnread(document, above);
    }
  }

  /** Printing then reading is the identity exactly on the tight documents under headers that are all
      comments. */
  lemma RoundTrip(document: seq<Entry>, header: seq<string>)
    ensures Read(EmitText(document, header)) == Some(document) <==> Tight(document) && CommentHeader(header)
  {
    if CommentHeader(header) {
      PrintedFileReads(document, header);
      NormalIsIdentity(document);
    } else {
      BadHeader(document, header);
    }
  }

  /** Two tight documents that print alike are alike, and so are their comments. */
  lemma Injective(d0: seq<Entry>, h0: seq<string>, d1: seq<Entry>, h1: seq<string>)
    requires Tight(d0) && Tight(d1) && CommentHeader(h0) && CommentHeader(h1)
    requires EmitText(d0, h0) == EmitText(d1, h1)
    ensures d0 == d1 && Comments(Tokens(HeaderLines(h0))) == Comments(Tokens(HeaderLines(h1)))
    ensures PlainHeader(h0) && PlainHeader(h1) ==> HeaderLines(h0) == HeaderLines(h1)
  {
    RoundTrip(d0, h0);
    RoundTrip(d1, h1);
    NormalIsIdentity(d0);
    NormalIsIdentity(d1);
    PrintedFileReads(d0, h0);
    PrintedFileReads(d1, h1);
  }

  /** A header that goes on with an entry prints like the document that begins with it. */
  lemma HeaderBecomesEntry()
    ensures EmitText([], ["x\nk: null"]) == EmitText([Entry("k", Null)], ["x"])
    ensures !CommentHeader(["x\nk: null"]) && CommentHeader(["x"])
  {
    var d := [Entry("k", Null)];
    assert Rstrip("# x\nk: null") == "# x\nk: null" && "# " + "x\nk: null" == "# x\nk: null" && "# " + "x" == "# x";
    assert HeaderLines(["x\nk: null"]) == ["# x\nk: null"] && HeaderLines(["x"]) == ["# x"] by {
      assert ["x"][1..] == [] && ["x\nk: null"][1..] == [];
    }
    KeyAndNull(d);
    assert Join(["# x"] + ["k: null"]) == "# x\nk: null" by {
      assert (["# x"] + ["k: null"])[1..] == ["k: null"];
    }
    assert ["# x\nk: null"] + MappingLines([], 0) == ["# x\nk: null"];
    PlainHeaderIsComment(["x"]);
    PrintedFileReads(d, ["x"]);
    if CommentHeader(["x\nk: null"]) {
      PrintedFileReads([], ["x\nk: null"]);
    }
  }

  lemma KeyAndNull(d: seq<Entry>)
    requires d == [Entry("k", Null)]
    ensures MappingLines(d, 0) == ["k: null"] && KeysTight(d) && |NormalEntries(d)| == 1
  {
    ShortWords();
    assert d[1..] == [];
    assert StringText("k") == "k";
    assert EntryLines(d[0], 0) == ["" + "k" + ":" + " " + "null"];
    assert "" + "k" + ":" + " " + "null" == "k: null";
  }

  lemma ReservedEnd(t: string)
    requires t in RESERVED
    ensures t != "" && t[|t| - 1] != '\n'
  {
  }

  lemma ShortWords()
    ensures Loose("yes\n") && ReadPlain("yes") == Some(Bool(true)) && !Loose("k")
  {
    assert "yes\n"[..3] == "yes" && "yes\n"[3] == '\n';
    assert Identifier("yes") && Identifier("k");
    assert Lower("yes") == "yes" by {
      assert "yes"[1..] == "es" && "es"[1..] == "s" && "s"[1..] == "";
    }
    assert "yes\n" !in RESERVED by {
      if "yes\n" in RESERVED {
        ReservedEnd("yes\n");
      }
    }
    assert "yes" in TRUE_WORDS && "yes" !in NULL_WORDS;
  }

  lemma LooseEntry(key: string, s: string)
    requires !Loose(key) && Loose(s)
    ensures KeysTight([Entry(key, Str(s))])
    ensures ReadPlain(Chomp(s)).Some?
    ensures NormalEntries([Entry(key, Str(s))]) == [Entry(key, ReadPlain(Chomp(s)).value)]
  {
    PlainReadsBack(s);
    var d := [Entry(key, Str(s))];
    assert d[1..] == [] && NormalEntries([]) == [];
  }

  /** A value the printer leaves bare with its newline: `yes` comes back as a boolean. */
  lemma LooseValueIsLost()
    ensures Read(EmitText([Entry("k", Str("yes\n"))], [])) == Some([Entry("k", Bool(true))])
  {
    ShortWords();
    LooseEntry("k", "yes\n");
    assert Chomp("yes\n") == "yes";
    PrintedFileReads([Entry("k", Str("yes\n"))], []);
  }
}
