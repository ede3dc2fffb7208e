/** What the reader takes for a block is indented like it or deeper, and each entry of a mapping takes
    exactly one line at the mapping's own indent. */
module YamlDepth {
  import opened Wrappers
  import opened YamlTree
  import opened YamlReader

  /** `rest` is `lines` without some first ones, none of which is indented less. */
  predicate Deep(lines: seq<Line>, rest: seq<Line>, indent: nat) {
    && |rest| <= |lines|
    && rest == lines[|lines| - |rest|..]
    && forall t :: t in lines[..|lines| - |rest|] ==> t.indent >= indent
  }

  lemma DeepNone(lines: seq<Line>, indent: nat)
    ensures Deep(lines, lines, indent)
  {
    assert lines[..0] == [];
  }

  lemma DeepTrans(lines: seq<Line>, mid: seq<Line>, rest: seq<Line>, indent: nat)
    requires Deep(lines, mid, indent) && Deep(mid, rest, indent)
    ensures Deep(lines, rest, indent)
  {
    assert lines[..|lines| - |rest|] == lines[..|lines| - |mid|] + mid[..|mid| - |rest|];
  }

  lemma DeepFirst(lines: seq<Line>, rest: seq<Line>, indent: nat)
    requires lines != [] && lines[0].indent >= indent && Deep(lines[1..], rest, indent)
    ensures Deep(lines, rest, indent)
  {
    assert lines[..|lines| - |rest|] == [lines[0]] + lines[1..][..|lines[1..]| - |rest|];
  }

  lemma DeeperIsDeep(lines: seq<Line>, rest: seq<Line>, indent: nat, deeper: nat)
    requires Deep(lines, rest, deeper) && indent <= deeper
    ensures Deep(lines, rest, indent)
  {
  }

  /** Behind a dash the block is read from a first line that has been moved. */
  lemma DeepRiding(first: Line, lines: seq<Line>, rest: seq<Line>, indent: nat)
    requires Deep([first] + lines, rest, indent) && |rest| <= |lines|
    ensures Deep(lines, rest, indent)
  {
    var n := |lines| - |rest|;
    assert ([first] + lines)[..n + 1] == [first] + lines[..n];
    assert ([first] + lines)[n + 1..] == lines[n..];
    assert forall t :: t in lines[..n] ==> t in [first] + lines[..n];
  }

  lemma {:induction false} MappingDeep(lines: seq<Line>, indent: nat)
    requires ReadMapping(lines, indent).Some?
    ensures Deep(lines, ReadMapping(lines, indent).value.1, indent)
    decreases |lines|, Weight(lines), 1
  {
    if lines == [] || lines[0].indent < indent {
      DeepNone(lines, indent);
    } else {
      var rest := ReadEntry(lines, indent).value.1;
      EntryDeep(lines, indent);
      MappingDeep(rest, indent);
      DeeperIsDeep(lines[1..], rest, indent, indent + 2);
      DeepFirst(lines, rest, indent);
      DeepTrans(lines, rest, ReadMapping(rest, indent).value.1, indent);
    }
  }

  lemma {:induction false} EntryDeep(lines: seq<Line>, indent: nat)
    requires lines != [] && ReadEntry(lines, indent).Some?
    ensures Deep(lines[1..], ReadEntry(lines, indent).value.1, indent + 2)
    decreases |lines|, Weight(lines), 0
  {
    if ReadKey(lines[0].text).value.1 == "" {
      BlockDeep(lines[1..], indent + 2);
    } else {
      DeepNone(lines[1..], indent + 2);
    }
  }

  lemma {:induction false} SequenceDeep(lines: seq<Line>, indent: nat)
    requires ReadSequence(lines, indent).Some?
    ensures Deep(lines, ReadSequence(lines, indent).value.1, indent)
    decreases |lines|, Weight(lines), 1
  {
    if lines == [] || lines[0].indent < indent {
      DeepNone(lines, indent);
    } else {
      var rest := ReadItem(lines, indent).value.1;
      ItemDeep(lines, indent);
      SequenceDeep(rest, indent);
      DeeperIsDeep(lines[1..], rest, indent, indent + 2);
      DeepFirst(lines, rest, indent);
      DeepTrans(lines, rest, ReadSequence(rest, indent).value.1, indent);
    }
  }

  lemma {:induction false} ItemDeep(lines: seq<Line>, indent: nat)
    requires lines != [] && ReadItem(lines, indent).Some?
    ensures Deep(lines[1..], ReadItem(lines, indent).value.1, indent + 2)
    decreases |lines|, Weight(lines), 0
  {
    var inner := lines[0].text[2..];
    if IsDash(inner) || ReadKey(inner).Some? {
      var first := Line(indent + 2, inner);
      BlockDeep([first] + lines[1..], indent + 2);
      DeepRiding(first, lines[1..], ReadItem(lines, indent).value.1, indent + 2);
    } else {
      DeepNone(lines[1..], indent + 2);
    }
  }

  lemma {:induction false} BlockDeep(lines: seq<Line>, indent: nat)
    requires ReadBlock(lines, indent).Some?
    ensures Deep(lines, ReadBlock(lines, indent).value.1, indent)
    decreases |lines|, Weight(lines), 2
  {
    if IsDash(lines[0].text) {
      SequenceDeep(lines, indent);
    } else {
      MappingDeep(lines, indent);
    }
  }

  // ------------------------------------------------------------- counting the entries

  /** How many lines stand at `indent`. */
  function Tops(lines: seq<Line>, indent: nat): nat {
    if lines == [] then 0 else (if lines[0].indent == indent then 1 else 0) + Tops(lines[1..], indent)
  }

  lemma {:induction false} TopsConcat(a: seq<Line>, b: seq<Line>, indent: nat)
    ensures Tops(a + b, indent) == Tops(a, indent) + Tops(b, indent)
  {
    if a == [] {
      assert a + b == b;
    } else {
      assert (a + b)[1..] == a[1..] + b;
      TopsConcat(a[1..], b, indent);
    }
  }

  lemma {:induction false} NoTopsDeeper(lines: seq<Line>, indent: nat)
    requires forall t :: t in lines ==> t.indent > indent
    ensures Tops(lines, indent) == 0
  {
    if lines != [] {
      assert lines[0] in lines;
      NoTopsDeeper(lines[1..], indent);
    }
  }

  /** As many entries were read as lines at `indent` were taken. */
  predicate Counted(lines: seq<Line>, read: (seq<Entry>, seq<Line>), indent: nat) {
    |read.1| <= |lines| && Tops(lines[..|lines| - |read.1|], indent) == |read.0|
  }

  lemma MappingParts(lines: seq<Line>, indent: nat) returns (mid: seq<Line>)
    requires ReadMapping(lines, indent).Some? && lines != [] && lines[0].indent >= indent
    ensures lines[0].indent == indent && ReadEntry(lines, indent).Some? && mid == ReadEntry(lines, indent).value.1
    ensures |mid| < |lines| && ReadMapping(mid, indent).Some?
    ensures ReadMapping(lines, indent).value.1 == ReadMapping(mid, indent).value.1
    ensures |ReadMapping(lines, indent).value.0| == 1 + |ReadMapping(mid, indent).value.0|
  {
    mid := ReadEntry(lines, indent).value.1;
  }

  /** A mapping has as many entries as there are lines at its indent among those it takes. */
  lemma {:induction false} MappingTops(lines: seq<Line>, indent: nat)
    requires ReadMapping(lines, indent).Some?
    ensures Counted(lines, ReadMapping(lines, indent).value, indent)
    decreases |lines|
  {
    if lines == [] || lines[0].indent < indent {
      NothingRead(lines, indent);
    } else {
      var mid := MappingParts(lines, indent);
      MappingTops(mid, indent);
      EntryDeep(lines, indent);
      MappingDeep(mid, indent);
      CountedStep(lines, mid, ReadMapping(lines, indent).value, ReadMapping(mid, indent).value, indent);
    }
  }

  lemma CountedStep(lines: seq<Line>, mid: seq<Line>, all: (seq<Entry>, seq<Line>), more: (seq<Entry>, seq<Line>), indent: nat)
    requires lines != [] && lines[0].indent == indent
    requires Deep(lines[1..], mid, indent + 2) && Deep(mid, more.1, indent) && Counted(mid, more, indent)
    requires all.1 == more.1 && |all.0| == 1 + |more.0|
    ensures Counted(lines, all, indent)
  {
    EntryTops(lines, mid, more.1, indent);
  }

  lemma NothingRead(lines: seq<Line>, indent: nat)
    requires lines == [] || lines[0].indent < indent
    ensures ReadMapping(lines, indent) == Some(([], lines)) && Counted(lines, ([], lines), indent)
  {
    assert lines[..|lines| - |lines|] == [];
  }

  lemma EntryTops(lines: seq<Line>, mid: seq<Line>, rest: seq<Line>, indent: nat)
    requires lines != [] && lines[0].indent == indent && Deep(lines[1..], mid, indent + 2) && Deep(mid, rest, indent)
    ensures Tops(lines[..|lines| - |rest|], indent) == 1 + Tops(mid[..|mid| - |rest|], indent)
  {
    var body := lines[1..][..|lines[1..]| - |mid|];
    var more := mid[..|mid| - |rest|];
    assert lines[..|lines| - |rest|] == [lines[0]] + (body + more);
    assert ([lines[0]] + (body + more))[1..] == body + more;
    TopsConcat(body, more, indent);
    NoTopsDeeper(body, indent);
  }

  /** A mapping read to the end has as many entries as lines at its indent, and begins there. */
  lemma AllCounted(lines: seq<Line>, entries: seq<Entry>)
    requires ReadMapping(lines, 0) == Some((entries, []))
    ensures Tops(lines, 0) == |entries|
    ensures lines != [] ==> lines[0].indent == 0
  {
    MappingTops(lines, 0);
    WholeCounted(lines, entries, 0);
    if lines != [] {
      var mid := MappingParts(lines, 0);
    }
  }

  lemma WholeCounted(lines: seq<Line>, entries: seq<Entry>, indent: nat)
    requires Counted(lines, (entries, []), indent)
    ensures Tops(lines, indent) == |entries|
  {
    assert lines[..|lines|] == lines;
  }
}
