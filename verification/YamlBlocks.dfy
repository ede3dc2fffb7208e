/** Reading a printed block back, one line token at a time. */
module YamlBlocks {
  import opened Wrappers
  import opened YamlTree
  import opened YamlReader
  import opened YamlScalars

  // --------------------------------------------- what a loader sees of a document

  predicate KeysTight(entries: seq<Entry>) {
    forall e :: e in entries ==> !Loose(e.key) && KeysTightIn(e.value)
  }

  predicate KeysTightIn(v: Value) {
    match v
    case Mapping(entries) => KeysTight(entries)
    case Sequence(items) => forall i :: i in items ==> KeysTightIn(i)
    case _ => true
  }

  /** No key and no string value is loose. */
  predicate Tight(entries: seq<Entry>) {
    forall e :: e in entries ==> !Loose(e.key) && TightIn(e.value)
  }

  predicate TightIn(v: Value) {
    match v
    case Mapping(entries) => Tight(entries)
    case Sequence(items) => forall i :: i in items ==> TightIn(i)
    case Str(s) => !Loose(s)
    case _ => true
  }

  function Normal(v: Value): Value {
    if IsInline(v) then NormalInline(v)
    else if v.Mapping? then Mapping(NormalEntries(v.entries))
    else Sequence(NormalItems(v.items))
  }

  function NormalEntries(entries: seq<Entry>): seq<Entry> {
    if entries == [] then []
    else [Entry(entries[0].key, Normal(entries[0].value))] + NormalEntries(entries[1..])
  }

  function NormalItems(items: seq<Value>): seq<Value> {
    if items == [] then [] else [Normal(items[0])] + NormalItems(items[1..])
  }

  // ------------------------------------------------------- printed line tokens

  function MappingTokens(entries: seq<Entry>, depth: nat): (ts: seq<Line>)
    ensures entries != [] ==> ts != []
  {
    if entries == [] then [] else EntryTokens(entries[0], depth) + MappingTokens(entries[1..], depth)
  }

  function EntryTokens(e: Entry, depth: nat): (ts: seq<Line>)
    ensures ts != []
  {
    var head := StringText(e.key) + ":";
    if IsInline(e.value) then [Line(2 * depth, head + " " + Chomp(InlineText(e.value)))]
    else [Line(2 * depth, head)] + BlockTokens(e.value, depth + 1)
  }

  function SequenceTokens(items: seq<Value>, depth: nat): (ts: seq<Line>)
    ensures items != [] ==> ts != []
  {
    if items == [] then [] else ItemTokens(items[0], depth) + SequenceTokens(items[1..], depth)
  }

  function ItemTokens(v: Value, depth: nat): (ts: seq<Line>)
    ensures ts != []
    decreases v, 1
  {
    if IsInline(v) then [Line(2 * depth, "- " + Chomp(InlineText(v)))]
    else RideTokens(BlockTokens(v, depth + 1), depth)
  }

  function BlockTokens(v: Value, depth: nat): (ts: seq<Line>)
    requires !IsInline(v)
    ensures ts != []
    decreases v, 0
  {
    if v.Mapping? then MappingTokens(v.entries, depth) else SequenceTokens(v.items, depth)
  }

  function RideTokens(nested: seq<Line>, depth: nat): seq<Line>
    requires nested != []
  {
    [Line(2 * depth, "- " + nested[0].text)] + nested[1..]
  }

  // ---------------------------------------------------------------- round trip

  /** The lines that follow belong to an enclosing block. */
  predicate Outer(rest: seq<Line>, indent: nat) {
    rest == [] || rest[0].indent < indent
  }

  /** An entry's first line is its key, a colon, and whatever stands on the line behind them. */
  lemma EntryText(e: Entry, depth: nat) returns (after: string)
    ensures EntryTokens(e, depth)[0] == Line(2 * depth, StringText(e.key) + ":" + after)
  {
    var head := StringText(e.key) + ":";
    after := if IsInline(e.value) then " " + Chomp(InlineText(e.value)) else "";
    if IsInline(e.value) {
      Associative(head, " ", Chomp(InlineText(e.value)));
    } else {
      NothingBehind(head);
    }
  }

  lemma Associative(a: string, b: string, c: string)
    ensures a + b + c == a + (b + c)
  {
  }

  lemma NothingBehind(a: string)
    ensures a + "" == a
  {
  }

  lemma EntryStart(e: Entry, depth: nat)
    requires !Loose(e.key)
    ensures var t := EntryTokens(e, depth)[0];
            t.indent == 2 * depth && !IsDash(t.text) && ReadKey(t.text).Some?
  {
    var after := EntryText(e, depth);
    KeyReadsBack(e.key, after);
  }

  lemma ItemStart(v: Value, depth: nat)
    ensures var t := ItemTokens(v, depth)[0]; t.indent == 2 * depth && IsDash(t.text)
  {
  }

  lemma {:induction false} MappingReadsBack(entries: seq<Entry>, depth: nat, rest: seq<Line>)
    requires KeysTight(entries) && Outer(rest, 2 * depth)
    ensures ReadMapping(MappingTokens(entries, depth) + rest, 2 * depth)
         == Some((NormalEntries(entries), rest))
    decreases entries, 1
  {
    if entries == [] {
      assert MappingTokens(entries, depth) + rest == rest;
    } else {
      FirstEntry(entries, depth, rest);
      MappingReadsBack(entries[1..], depth, rest);
      MappingStep(MappingTokens(entries, depth) + rest, MappingTokens(entries[1..], depth) + rest, 2 * depth,
                  Entry(entries[0].key, Normal(entries[0].value)), NormalEntries(entries[1..]), rest);
    }
  }

  /** The first entry of a mapping reads back and leaves the others. */
  lemma {:induction false} FirstEntry(entries: seq<Entry>, depth: nat, rest: seq<Line>)
    requires entries != [] && KeysTight(entries) && Outer(rest, 2 * depth)
    ensures var all := MappingTokens(entries, depth) + rest;
            && all != [] && all[0].indent == 2 * depth
            && ReadEntry(all, 2 * depth)
               == Some((Entry(entries[0].key, Normal(entries[0].value)), MappingTokens(entries[1..], depth) + rest))
    decreases entries, 0
  {
    EntryApart(entries, depth, rest);
    MappingBehind(entries[1..], depth, rest);
    EntryReadsBack(entries[0], depth, MappingTokens(entries[1..], depth) + rest);
  }

  /** A mapping's lines are its first entry's and then the others'. */
  lemma EntryApart(entries: seq<Entry>, depth: nat, rest: seq<Line>)
    requires entries != []
    ensures MappingTokens(entries, depth) + rest
         == EntryTokens(entries[0], depth) + (MappingTokens(entries[1..], depth) + rest)
    ensures (MappingTokens(entries, depth) + rest)[0].indent == 2 * depth
  {
    EntryIndent(entries[0], depth);
    TwoBefore(EntryTokens(entries[0], depth), MappingTokens(entries[1..], depth), rest);
  }

  lemma EntryIndent(e: Entry, depth: nat)
    ensures EntryTokens(e, depth)[0].indent == 2 * depth
  {
  }

  lemma TwoBefore(a: seq<Line>, b: seq<Line>, c: seq<Line>)
    ensures a + b + c == a + (b + c)
    ensures a != [] ==> (a + b + c)[0] == a[0]
  {
  }

  /** What follows an entry does not belong to its value. */
  lemma MappingBehind(entries: seq<Entry>, depth: nat, rest: seq<Line>)
    requires KeysTight(entries) && Outer(rest, 2 * depth)
    ensures Outer(MappingTokens(entries, depth) + rest, 2 * depth + 1)
  {
    if entries == [] {
      assert MappingTokens(entries, depth) + rest == rest;
    } else {
      EntryStart(entries[0], depth);
    }
  }

  /** One entry read, and the rest of its mapping behind it. */
  lemma MappingStep(all: seq<Line>, more: seq<Line>, indent: nat, head: Entry, tail: seq<Entry>, rest: seq<Line>)
    requires all != [] && all[0].indent == indent
    requires ReadEntry(all, indent) == Some((head, more)) && ReadMapping(more, indent) == Some((tail, rest))
    ensures ReadMapping(all, indent) == Some(([head] + tail, rest))
  {
  }

  lemma ReadInlineEntry(all: seq<Line>, key: string, t: string, indent: nat)
    requires all != [] && ReadKey(all[0].text) == Some((key, " " + t)) && ReadInline(t).Some?
    ensures ReadEntry(all, indent) == Some((Entry(key, ReadInline(t).value), all[1..]))
  {
    assert (" " + t)[1..] == t;
  }

  /** `key: value` on one line. */
  lemma InlineEntry(key: string, t: string, v: Value, indent: nat, rest: seq<Line>)
    requires !Loose(key) && ReadInline(t) == Some(v)
    ensures ReadEntry([Line(indent, StringText(key) + ":" + " " + t)] + rest, indent)
         == Some((Entry(key, v), rest))
  {
    var all := [Line(indent, StringText(key) + ":" + " " + t)] + rest;
    assert all[0].text == StringText(key) + ":" + (" " + t);
    KeyReadsBack(key, " " + t);
    ReadInlineEntry(all, key, t, indent);
    assert all[1..] == rest;
  }

  /** `key:` with its value as a block behind it. */
  lemma BlockEntry(key: string, block: seq<Line>, v: Value, indent: nat, rest: seq<Line>)
    requires !Loose(key) && ReadBlock(block + rest, indent + 2) == Some((v, rest))
    ensures ReadEntry([Line(indent, StringText(key) + ":")] + block + rest, indent)
         == Some((Entry(key, v), rest))
  {
    var head := Line(indent, StringText(key) + ":");
    KeyReadsBack(key, "");
    NothingBehind(StringText(key) + ":");
    FirstApart(head, block, rest);
    ReadBlockEntry([head] + block + rest, key, v, indent, rest);
  }

  lemma FirstApart(head: Line, block: seq<Line>, rest: seq<Line>)
    ensures ([head] + block + rest)[0] == head && ([head] + block + rest)[1..] == block + rest
  {
  }

  lemma ReadBlockEntry(all: seq<Line>, key: string, v: Value, indent: nat, rest: seq<Line>)
    requires all != [] && ReadKey(all[0].text) == Some((key, "")) && ReadBlock(all[1..], indent + 2) == Some((v, rest))
    ensures ReadEntry(all, indent) == Some((Entry(key, v), rest))
  {
  }

  lemma {:induction false} EntryReadsBack(e: Entry, depth: nat, rest: seq<Line>)
    requires !Loose(e.key) && KeysTightIn(e.value) && Outer(rest, 2 * depth + 1)
    ensures ReadEntry(EntryTokens(e, depth) + rest, 2 * depth)
         == Some((Entry(e.key, Normal(e.value)), rest))
    decreases e
  {
    if IsInline(e.value) {
      InlineReadsBack(e.value);
      InlineEntry(e.key, Chomp(InlineText(e.value)), Normal(e.value), 2 * depth, rest);
    } else {
      BlockReadsBack(e.value, depth + 1, rest);
      BlockEntry(e.key, BlockTokens(e.value, depth + 1), Normal(e.value), 2 * depth, rest);
    }
  }

  lemma BlockStart(v: Value, depth: nat)
    requires !IsInline(v) && KeysTightIn(v)
    ensures var t := BlockTokens(v, depth)[0];
            && t.indent == 2 * depth
            && (v.Mapping? ==> !IsDash(t.text) && ReadKey(t.text).Some?)
            && (v.Sequence? ==> IsDash(t.text))
  {
    if v.Mapping? {
      EntryStart(v.entries[0], depth);
    } else {
      ItemStart(v.items[0], depth);
    }
  }

  lemma {:induction false} BlockReadsBack(v: Value, depth: nat, rest: seq<Line>)
    requires !IsInline(v) && KeysTightIn(v) && Outer(rest, 2 * depth)
    ensures ReadBlock(BlockTokens(v, depth) + rest, 2 * depth) == Some((Normal(v), rest))
    decreases v, 0
  {
    BlockStart(v, depth);
    if v.Mapping? {
      MappingReadsBack(v.entries, depth, rest);
    } else {
      SequenceReadsBack(v.items, depth, rest);
    }
  }

  lemma {:induction false} SequenceReadsBack(items: seq<Value>, depth: nat, rest: seq<Line>)
    requires (forall i :: i in items ==> KeysTightIn(i)) && Outer(rest, 2 * depth)
    ensures ReadSequence(SequenceTokens(items, depth) + rest, 2 * depth)
         == Some((NormalItems(items), rest))
    decreases items, 0
  {
    if items == [] {
      assert SequenceTokens(items, depth) + rest == rest;
    } else {
      var more := SequenceTokens(items[1..], depth) + rest;
      var all := SequenceTokens(items, depth) + rest;
      assert all == ItemTokens(items[0], depth) + more;
      assert forall i :: i in items[1..] ==> i in items;
      if items[1..] != [] {
        ItemStart(items[1], depth);
        assert items[1..][0] == items[1];
      }
      assert more == [] || more[0].indent <= 2 * depth;
      ItemStart(items[0], depth);
      ItemReadsBack(items[0], depth, more);
      SequenceReadsBack(items[1..], depth, rest);
    }
  }

  /** `- value` on one line. */
  lemma InlineItem(t: string, v: Value, indent: nat, rest: seq<Line>)
    requires !IsDash(t) && ReadKey(t) == None && ReadInline(t) == Some(v)
    ensures ReadItem([Line(indent, "- " + t)] + rest, indent) == Some((v, rest))
  {
    var all := [Line(indent, "- " + t)] + rest;
    assert all[0].text[2..] == t;
    assert all[1..] == rest;
  }

  lemma ReadRiding(all: seq<Line>, inner: string, indent: nat)
    requires all != [] && IsDash(all[0].text) && all[0].text[2..] == inner
    requires IsDash(inner) || ReadKey(inner).Some?
    ensures ReadItem(all, indent) == ReadBlock([Line(indent + 2, inner)] + all[1..], indent + 2)
  {
  }

  lemma RideShape(nested: seq<Line>, depth: nat, rest: seq<Line>)
    requires nested != [] && nested[0].indent == 2 * depth + 2
    ensures var all := RideTokens(nested, depth) + rest;
            && IsDash(all[0].text) && all[0].text[2..] == nested[0].text
            && [Line(2 * depth + 2, nested[0].text)] + all[1..] == nested + rest
  {
  }

  /** A block whose first line rides the dash. */
  lemma RidingItem(nested: seq<Line>, v: Value, depth: nat, rest: seq<Line>)
    requires nested != [] && nested[0].indent == 2 * depth + 2
    requires IsDash(nested[0].text) || ReadKey(nested[0].text).Some?
    requires ReadBlock(nested + rest, 2 * depth + 2) == Some((v, rest))
    ensures ReadItem(RideTokens(nested, depth) + rest, 2 * depth) == Some((v, rest))
  {
    RideShape(nested, depth, rest);
    ReadRiding(RideTokens(nested, depth) + rest, nested[0].text, 2 * depth);
  }

  lemma {:induction false} ItemReadsBack(v: Value, depth: nat, rest: seq<Line>)
    requires KeysTightIn(v) && Outer(rest, 2 * depth + 1)
    ensures ReadItem(ItemTokens(v, depth) + rest, 2 * depth) == Some((Normal(v), rest))
    decreases v, 1
  {
    if IsInline(v) {
      InlineReadsBack(v);
      InlineItem(Chomp(InlineText(v)), Normal(v), 2 * depth, rest);
    } else {
      BlockStart(v, depth + 1);
      BlockReadsBack(v, depth + 1, rest);
      RidingItem(BlockTokens(v, depth + 1), Normal(v), depth, rest);
    }
  }

  // --------------------------------------------------------------- normal form

  /** Nothing is lost exactly when nothing is loose. */
  lemma {:induction false} NormalIsIdentity(entries: seq<Entry>)
    ensures KeysTight(entries) && NormalEntries(entries) == entries <==> Tight(entries)
    decreases entries
  {
    if entries != [] {
      NormalValueIsIdentity(entries[0].value);
      NormalIsIdentity(entries[1..]);
      assert entries == [entries[0]] + entries[1..];
      assert entries[0] == Entry(entries[0].key, entries[0].value);
    }
  }

  lemma {:induction false} NormalValueIsIdentity(v: Value)
    ensures KeysTightIn(v) && Normal(v) == v <==> TightIn(v)
    decreases v
  {
    match v
    case Mapping(entries) => NormalIsIdentity(entries);
    case Sequence(items) => NormalItemsIsIdentity(items);
    case Str(s) =>
      if Loose(s) {
        PlainReadsBack(s);
      }
    case _ =>
  }

  lemma {:induction false} NormalItemsIsIdentity(items: seq<Value>)
    ensures (forall i :: i in items ==> KeysTightIn(i)) && NormalItems(items) == items
       <==> (forall i :: i in items ==> TightIn(i))
    decreases items
  {
    if items != [] {
      NormalValueIsIdentity(items[0]);
      NormalItemsIsIdentity(items[1..]);
      assert items == [items[0]] + items[1..];
    }
  }
}
