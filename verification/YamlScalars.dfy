/** What the reader makes of one printed scalar or key. */
module YamlScalars {
  import opened Wrappers
  import opened Strings
  import opened YamlTree
  import opened YamlReader

  /** Printed bare although it ends in a newline: the strings `_PLAIN` lets through by accident. */
  predicate Loose(s: string) {
    Unquoted(s) && TrailingNewline(s)
  }

  /** What a loader sees of an inline value: a loose string loses its newline and is read as a bare word. */
  function NormalInline(v: Value): Value
    requires IsInline(v)
  {
    if v.Str? && Loose(v.s) && ReadPlain(Chomp(v.s)).Some? then ReadPlain(Chomp(v.s)).value else v
  }

  predicate NoBreak(t: string) {
    forall i :: 0 <= i < |t| ==> !IsBreak(t[i])
  }

  /** A character a printed line may begin with behind its pad. */
  predicate GoodStart(c: char) {
    IsIdentStart(c) || IsDigit(c) || c == '"' || c == '-' || c == '{' || c == '['
  }

  // ------------------------------------------------------------ quoted strings

  lemma {:induction false} QuotedReadsBack(s: string, rest: string)
    ensures ReadQuoted(EscapeAll(s) + "\"" + rest) == Some((s, rest))
  {
    if s == "" {
      assert EscapeAll(s) + "\"" + rest == ['"'] + rest;
    } else {
      QuotedReadsBack(s[1..], rest);
      QuotedStep(s[0], s[1..], EscapeAll(s[1..]) + "\"" + rest, rest);
      assert EscapeAll(s) + "\"" + rest == Escape(s[0]) + (EscapeAll(s[1..]) + "\"" + rest);
      assert [s[0]] + s[1..] == s;
    }
  }

  /** One escaped character is read, and then what follows it. */
  lemma QuotedStep(c: char, more: string, tail: string, rest: string)
    requires ReadQuoted(tail) == Some((more, rest))
    ensures ReadQuoted(Escape(c) + tail) == Some(([c] + more, rest))
  {
    var e := Escape(c);
    if e[0] == '\\' {
      EscapeReadsBack(c, tail);
      assert (e + tail)[|e|..] == tail;
    } else {
      assert (e + tail)[1..] == tail;
    }
  }

  lemma EscapeReadsBack(c: char, tail: string)
    requires Escape(c)[0] == '\\'
    ensures ReadEscape(Escape(c) + tail) == Some((c, |Escape(c)|))
  {
    var e := Escape(c);
    var t := e + tail;
    assert forall i :: 0 <= i < |e| ==> t[i] == e[i];
    if |e| == 4 {
      assert HexValue(HexDigit(c as int / 16)) == Some(c as int / 16);
      assert HexValue(HexDigit(c as int % 16)) == Some(c as int % 16);
    }
  }

  lemma {:induction false} EscapedHasNoBreak(s: string)
    ensures NoBreak(EscapeAll(s))
  {
    if s != "" {
      EscapedHasNoBreak(s[1..]);
    }
  }

  // ------------------------------------------------------------------- numbers

  lemma {:induction false} DigitsReadBack(n: nat)
    ensures IsDecimal(DigitsText(n)) && DecimalValue(DigitsText(n)) == n
  {
    if n < 10 {
      var t := DigitsText(n);
      assert t[..|t| - 1] == "";
    } else {
      DigitsReadBack(n / 10);
      var t := DigitsText(n);
      assert t[..|t| - 1] == DigitsText(n / 10);
    }
  }

  // --------------------------------------------------------------- plain words

  lemma IdentifierIsNotDecimal(s: string)
    requires Identifier(s)
    ensures Chomp(s) == s && !IsDecimal(s) && s[0] != '-' && s != "" && NoBreak(s)
    ensures forall i :: 0 <= i < |s| ==> s[i] != ':' && s[i] != ' '
  {
    assert IsIdentChar(s[|s| - 1]);
  }

  lemma PlainReadsBack(s: string)
    requires Unquoted(s)
    ensures Identifier(s) ==> ReadPlain(s) == Some(Str(s))
    ensures TrailingNewline(s) ==> Identifier(Chomp(s)) && ReadPlain(Chomp(s)).Some?
    ensures TrailingNewline(s) ==> ReadPlain(Chomp(s)).value != Str(s)
  {
    if Identifier(s) {
      IdentifierIsNotDecimal(s);
      assert s !in NULL_WORDS && s !in TRUE_WORDS && s !in FALSE_WORDS;
    }
    if TrailingNewline(s) {
      IdentifierIsNotDecimal(Chomp(s));
    }
  }

  lemma {:induction false} NoColonBefore(word: string, rest: string)
    requires forall i :: 0 <= i < |word| ==> word[i] != ':'
    ensures BeforeColon(word + ":" + rest) == word
    ensures BeforeColon(word) == word
  {
    if word == "" {
      assert word + ":" + rest == [':'] + rest;
    } else {
      NoColonBefore(word[1..], rest);
      assert (word + ":" + rest)[1..] == word[1..] + ":" + rest;
    }
  }

  // ---------------------------------------------------------- keys and scalars

  lemma QuotedKeyReadsBack(key: string, after: string)
    ensures ReadKey(QuoteText(key) + ":" + after) == Some((key, after))
    ensures NoBreak(QuoteText(key))
  {
    QuotedReadsBack(key, ":" + after);
    EscapedHasNoBreak(key);
    assert (QuoteText(key) + ":" + after)[1..] == EscapeAll(key) + "\"" + (":" + after);
  }

  lemma PlainKeyReadsBack(key: string, after: string)
    requires Identifier(key) && ReadPlain(key) == Some(Str(key))
    ensures ReadKey(key + ":" + after) == Some((key, after))
  {
    IdentifierIsNotDecimal(key);
    NoColonBefore(key, after);
    var text := key + ":" + after;
    assert text[0] != '"';
    assert text[|key| + 1..] == after;
  }

  /** A key that is not loose is read back, and so is whatever was printed behind its colon. */
  lemma KeyReadsBack(key: string, after: string)
    requires !Loose(key)
    ensures ReadKey(StringText(key) + ":" + after) == Some((key, after))
    ensures StringText(key) != "" && NoBreak(StringText(key))
    ensures StringText(key)[0] == '"' || IsIdentStart(StringText(key)[0])
  {
    if Unquoted(key) {
      IdentifierIsNotDecimal(key);
      PlainReadsBack(key);
      PlainKeyReadsBack(key, after);
    } else {
      QuotedKeyReadsBack(key, after);
    }
  }

  /** `t`, on a line of its own, is read as the scalar `v` and as nothing else. */
  predicate Spells(t: string, v: Value) {
    && t != "" && NoBreak(t) && GoodStart(t[0])
    && Chomp(t) == t && !IsDash(t) && ReadKey(t) == None
    && ReadInline(t) == Some(v)
  }

  lemma ReservedStart(t: string)
    requires t in NULL_WORDS || t in TRUE_WORDS || t in FALSE_WORDS
    ensures t != "" && (IsIdentStart(t[0]) || t[0] == '~')
  {
  }

  lemma WordSpells(t: string)
    requires Identifier(t) && ReadPlain(t).Some?
    ensures Spells(t, ReadPlain(t).value)
  {
    IdentifierIsNotDecimal(t);
    NoColonBefore(t, "");
  }

  lemma NumberIsNoWord(t: string)
    requires t != "" && (IsDigit(t[0]) || t[0] == '-')
    ensures t !in NULL_WORDS && t !in TRUE_WORDS && t !in FALSE_WORDS
  {
    if t in NULL_WORDS || t in TRUE_WORDS || t in FALSE_WORDS {
      ReservedStart(t);
    }
  }

  /** Printed digits, with or without a sign, are an integer to a loader. */
  lemma NumberReads(digits: string, negative: bool)
    requires IsDecimal(digits)
    ensures var t := if negative then "-" + digits else digits;
            ReadPlain(t) == Some(Int(if negative then 0 - DecimalValue(digits) as int else DecimalValue(digits)))
  {
    var t := if negative then "-" + digits else digits;
    NumberIsNoWord(t);
    assert negative ==> t[1..] == digits;
  }

  lemma NumberSpells(t: string, v: Value)
    requires t != "" && (forall i :: 0 <= i < |t| ==> IsDigit(t[i]) || (i == 0 && t[i] == '-'))
    requires IsDigit(t[|t| - 1]) && ReadPlain(t) == Some(v)
    ensures Spells(t, v)
  {
    NoColonBefore(t, "");
  }

  lemma IntSpells(n: int)
    ensures Spells(InlineText(Int(n)), Int(n))
  {
    var size: nat := if n < 0 then -n else n;
    DigitsReadBack(size);
    NumberReads(DigitsText(size), n < 0);
    NumberSpells(InlineText(Int(n)), Int(n));
  }

  lemma QuotedSpells(s: string)
    ensures Spells(QuoteText(s), Str(s))
  {
    var t := QuoteText(s);
    QuotedReadsBack(s, "");
    EscapedHasNoBreak(s);
    assert t[1..] == EscapeAll(s) + "\"" + "";
  }

  lemma NullSpells()
    ensures Spells("null", Null)
  {
    assert "null" in NULL_WORDS;
    WordSpells("null");
  }

  lemma BoolSpells(b: bool)
    ensures Spells(if b then "true" else "false", Bool(b))
  {
    assert "true" in TRUE_WORDS && "false" in FALSE_WORDS;
    assert "true" !in NULL_WORDS && "false" !in NULL_WORDS && "false" !in TRUE_WORDS;
    WordSpells(if b then "true" else "false");
  }

  lemma StringSpells(s: string)
    ensures Spells(Chomp(StringText(s)), NormalInline(Str(s)))
  {
    if Unquoted(s) {
      PlainReadsBack(s);
      WordSpells(Chomp(s));
    } else {
      QuotedSpells(s);
    }
  }

  /** A printed inline value reads back as its normal form and cannot be mistaken for a key or a dash. */
  lemma InlineReadsBack(v: Value)
    requires IsInline(v)
    ensures Spells(Chomp(InlineText(v)), NormalInline(v))
  {
    match v
    case Mapping(_) => NoColonBefore("{}", "");
    case Sequence(_) => NoColonBefore("[]", "");
    case Null => NullSpells();
    case Bool(b) => BoolSpells(b);
    case Int(n) => IntSpells(n);
    case Str(s) => StringSpells(s);
  }
}
