/** `ingestion.py`: the two-pass classifier of a record at the ingestion boundary, the comparison of a
    rebuilt projection, and the reading of declared durations. */
module Ingestion {
  import opened Wrappers
  import opened Dicts
  import opened Strings
  import opened YamlTree
  import YamlScalars

  // ------------------------------------------------------------------------ policy

  /** What the module's regular expressions and Unicode tables decide; nothing here depends on how.
      `patterns` are the value shapes a rule may name. */
  datatype Recognisers = Recognisers(
    lower: string -> string, patterns: set<string>,
    found: (string, string) -> bool, wellFormed: (string, string) -> bool)

  datatype RuleKind = AttributeName | AttributePrefix | ValueShape
  datatype Rule = Rule(name: string, kind: RuleKind, matching: string)

  datatype Validation = Enum(values: seq<string>) | Shape(shape: Option<string>) | Opaque
  datatype Attribute = Attribute(name: string, signals: seq<string>, validation: Validation)

  datatype Policy = Policy(attributes: seq<Attribute>, rejected: seq<Rule>)

  datatype Verdict =
    | Accepted
    | RefusedByRule(rule: string, attribute: string)
    | NotInVocabulary(attribute: string)
    | InvalidValue(attribute: string)

  function AttributePairs(attributes: seq<Attribute>, signal: string): seq<(string, Attribute)> {
    if attributes == [] then []
    else
      var last := attributes[|attributes| - 1];
      AttributePairs(attributes[..|attributes| - 1], signal) + if signal in last.signals then [(last.name, last)] else []
  }

  /** `accepted`: the vocabulary of one signal. */
  function Vocabulary(p: Policy, signal: string): map<string, Attribute> {
    FromPairs(AttributePairs(p.attributes, signal))
  }

  /** `_matches`. */
  predicate RuleMatches(k: Recognisers, rule: Rule, name: string, value: string) {
    match rule.kind
    case AttributeName => k.lower(name) == k.lower(rule.matching)
    case AttributePrefix => k.lower(rule.matching) <= k.lower(name)
    case ValueShape => rule.matching in k.patterns && k.found(rule.matching, value)
  }

  /** `_structurally_safe`. */
  predicate StructurallySafe(k: Recognisers, vocabulary: map<string, Attribute>, name: string, value: string) {
    && name in vocabulary && vocabulary[name].validation.Shape?
    && vocabulary[name].validation.shape.Some? && k.wellFormed(vocabulary[name].validation.shape.value, value)
  }

  /** The first rule that refuses an attribute. */
  function RefusingRule(
      k: Recognisers, rules: seq<Rule>, vocabulary: map<string, Attribute>, name: string, value: string): Option<Rule>
  {
    if rules == [] then None
    else if rules[0].kind == ValueShape && StructurallySafe(k, vocabulary, name, value) then
      RefusingRule(k, rules[1..], vocabulary, name, value)
    else if RuleMatches(k, rules[0], name, value) then Some(rules[0])
    else RefusingRule(k, rules[1..], vocabulary, name, value)
  }

  /** The first pass: declared rules over every attribute. */
  function ByRules(
      k: Recognisers, rules: seq<Rule>, vocabulary: map<string, Attribute>, record: seq<(string, string)>)
    : Option<Verdict>
  {
    if record == [] then None
    else
      var refusing := RefusingRule(k, rules, vocabulary, record[0].0, record[0].1);
      if refusing.Some? then Some(RefusedByRule(refusing.value.name, record[0].0))
      else ByRules(k, rules, vocabulary, record[1..])
  }

  /** The second pass: the vocabulary and each attribute's own validation. */
  function ByVocabulary(k: Recognisers, vocabulary: map<string, Attribute>, record: seq<(string, string)>): Verdict {
    if record == [] then Accepted
    else
      var (name, value) := record[0];
      if name !in vocabulary then NotInVocabulary(name)
      else
        match vocabulary[name].validation
        case Enum(values) =>
          if value !in values then InvalidValue(name) else ByVocabulary(k, vocabulary, record[1..])
        case Shape(shape) =>
          if shape.None? || !k.wellFormed(shape.value, value) then InvalidValue(name)
          else ByVocabulary(k, vocabulary, record[1..])
        case Opaque => ByVocabulary(k, vocabulary, record[1..])
  }

  function Classify(k: Recognisers, p: Policy, signal: string, record: seq<(string, string)>): Verdict {
    var vocabulary := Vocabulary(p, signal);
    var refused := ByRules(k, p.rejected, vocabulary, record);
    if refused.Some? then refused.value else ByVocabulary(k, vocabulary, record)
  }

  // -------------------------------------------------------------- what it decides

  /** A rule refuses an attribute: it matches, and is not a value heuristic over a value whose
      declared structure already accounts for it. */
  predicate Refuses(
      k: Recognisers, rule: Rule, vocabulary: map<string, Attribute>, name: string, value: string)
  {
    && RuleMatches(k, rule, name, value)
    && !(rule.kind == ValueShape && StructurallySafe(k, vocabulary, name, value))
  }

  predicate Valid(k: Recognisers, vocabulary: map<string, Attribute>, name: string, value: string) {
    && name in vocabulary
    && match vocabulary[name].validation
       case Enum(values) => value in values
       case Shape(shape) => shape.Some? && k.wellFormed(shape.value, value)
       case Opaque => true
  }

  /** No rule refuses the attribute, and the vocabulary holds it with a valid value. */
  predicate Admissible(k: Recognisers, p: Policy, signal: string, attribute: (string, string)) {
    var vocabulary := Vocabulary(p, signal);
    && (forall rule :: rule in p.rejected ==> !Refuses(k, rule, vocabulary, attribute.0, attribute.1))
    && Valid(k, vocabulary, attribute.0, attribute.1)
  }

  lemma {:induction false} RefusingRuleMeans(
      k: Recognisers, rules: seq<Rule>, vocabulary: map<string, Attribute>, name: string, value: string)
    ensures var r := RefusingRule(k, rules, vocabulary, name, value);
            if r.None? then forall rule :: rule in rules ==> !Refuses(k, rule, vocabulary, name, value)
            else exists i :: 0 <= i < |rules| && rules[i] == r.value && FirstRefusing(k, rules, vocabulary, name, value, i)
  {
    if rules != [] && !Refuses(k, rules[0], vocabulary, name, value) {
      RefusingRuleMeans(k, rules[1..], vocabulary, name, value);
      var r := RefusingRule(k, rules, vocabulary, name, value);
      if r.Some? {
        var i :| 0 <= i < |rules[1..]| && rules[1..][i] == r.value && FirstRefusing(k, rules[1..], vocabulary, name, value, i);
        assert forall j :: 0 < j < i + 1 ==> rules[j] == rules[1..][j - 1];
        assert FirstRefusing(k, rules, vocabulary, name, value, i + 1);
      }
    } else if rules != [] {
      assert FirstRefusing(k, rules, vocabulary, name, value, 0);
    }
  }

  ghost predicate FirstRefusing(
      k: Recognisers, rules: seq<Rule>, vocabulary: map<string, Attribute>, name: string, value: string, i: nat)
    requires i < |rules|
  {
    && Refuses(k, rules[i], vocabulary, name, value)
    && forall j :: 0 <= j < i ==> !Refuses(k, rules[j], vocabulary, name, value)
  }

  /** The first pass is silent exactly when no rule refuses any attribute; else it names the earliest
      refused attribute and the earliest rule that refuses it. */
  lemma {:induction false} ByRulesMeans(
      k: Recognisers, rules: seq<Rule>, vocabulary: map<string, Attribute>, record: seq<(string, string)>)
    ensures var v := ByRules(k, rules, vocabulary, record);
            if v.None? then
              forall a, rule :: a in record && rule in rules ==> !Refuses(k, rule, vocabulary, a.0, a.1)
            else
              exists n, i :: 0 <= n < |record| && 0 <= i < |rules|
                && v.value == RefusedByRule(rules[i].name, record[n].0)
                && FirstRefusing(k, rules, vocabulary, record[n].0, record[n].1, i)
                && forall m, rule :: 0 <= m < n && rule in rules ==> !Refuses(k, rule, vocabulary, record[m].0, record[m].1)
  {
    if record != [] {
      RefusingRuleMeans(k, rules, vocabulary, record[0].0, record[0].1);
      var v := ByRules(k, rules, vocabulary, record);
      if RefusingRule(k, rules, vocabulary, record[0].0, record[0].1).None? {
        ByRulesMeans(k, rules, vocabulary, record[1..]);
        if v.Some? {
          var n, i :| 0 <= n < |record[1..]| && 0 <= i < |rules|
                      && v.value == RefusedByRule(rules[i].name, record[1..][n].0)
                      && FirstRefusing(k, rules, vocabulary, record[1..][n].0, record[1..][n].1, i)
                      && forall m, rule :: 0 <= m < n && rule in rules ==>
                           !Refuses(k, rule, vocabulary, record[1..][m].0, record[1..][m].1);
          assert forall m :: 0 < m < |record| ==> record[m] == record[1..][m - 1];
          assert record[n + 1] == record[1..][n];
        } else {
          assert forall a :: a in record ==> a == record[0] || a in record[1..];
        }
      } else {
        var i :| 0 <= i < |rules| && rules[i] == RefusingRule(k, rules, vocabulary, record[0].0, record[0].1).value
                 && FirstRefusing(k, rules, vocabulary, record[0].0, record[0].1, i);
        assert v.value == RefusedByRule(rules[i].name, record[0].0);
      }
    }
  }

  lemma SomeRefusal(
      k: Recognisers, rules: seq<Rule>, vocabulary: map<string, Attribute>, record: seq<(string, string)>)
    returns (a: (string, string), rule: Rule)
    requires ByRules(k, rules, vocabulary, record).Some?
    ensures a in record && rule in rules && Refuses(k, rule, vocabulary, a.0, a.1)
  {
    ByRulesMeans(k, rules, vocabulary, record);
    var n, i :| 0 <= n < |record| && 0 <= i < |rules|
                && ByRules(k, rules, vocabulary, record).value == RefusedByRule(rules[i].name, record[n].0)
                && FirstRefusing(k, rules, vocabulary, record[n].0, record[n].1, i)
                && forall m, rule :: 0 <= m < n && rule in rules ==> !Refuses(k, rule, vocabulary, record[m].0, record[m].1);
    a, rule := record[n], rules[i];
  }

  lemma {:induction false} ByVocabularyMeans(
      k: Recognisers, vocabulary: map<string, Attribute>, record: seq<(string, string)>)
    ensures ByVocabulary(k, vocabulary, record) == Accepted
       <==> forall a :: a in record ==> Valid(k, vocabulary, a.0, a.1)
    ensures !ByVocabulary(k, vocabulary, record).RefusedByRule?
  {
    if record != [] {
      ByVocabularyMeans(k, vocabulary, record[1..]);
      assert forall a :: a in record <==> a == record[0] || a in record[1..];
    }
  }

  /** Exactness: a record is accepted exactly when each of its attributes is admissible on its own. */
  lemma AcceptedExactly(k: Recognisers, p: Policy, signal: string, record: seq<(string, string)>)
    ensures Classify(k, p, signal, record) == Accepted
       <==> forall a :: a in record ==> Admissible(k, p, signal, a)
  {
    var vocabulary := Vocabulary(p, signal);
    ByRulesMeans(k, p.rejected, vocabulary, record);
    ByVocabularyMeans(k, vocabulary, record);
    if ByRules(k, p.rejected, vocabulary, record).Some? {
      var a, rule := SomeRefusal(k, p.rejected, vocabulary, record);
      assert !Admissible(k, p, signal, a);
    }
  }

  /** The attribute is declared for the signal. */
  predicate DeclaredFor(p: Policy, signal: string, d: Attribute) {
    d in p.attributes && signal in d.signals
  }

  /** No name is declared twice for the signal. */
  ghost predicate DeclaredOnce(p: Policy, signal: string) {
    forall d, e :: DeclaredFor(p, signal, d) && DeclaredFor(p, signal, e) && d.name == e.name ==> d == e
  }

  /** The value is one the declaration admits. */
  predicate Admits(k: Recognisers, d: Attribute, value: string) {
    match d.validation
    case Enum(values) => value in values
    case Shape(shape) => shape.Some? && k.wellFormed(shape.value, value)
    case Opaque => true
  }

  /** The rule hits: by the whole name, by how the name begins, both in lower case, or by what is found in
      the value, unless the name is declared with a shape that the value has. */
  ghost predicate Hits(k: Recognisers, p: Policy, signal: string, rule: Rule, name: string, value: string) {
    match rule.kind
    case AttributeName => k.lower(name) == k.lower(rule.matching)
    case AttributePrefix => exists rest :: k.lower(name) == k.lower(rule.matching) + rest
    case ValueShape =>
      && rule.matching in k.patterns && k.found(rule.matching, value)
      && !exists d :: DeclaredFor(p, signal, d) && d.name == name && d.validation.Shape? && Admits(k, d, value)
  }

  lemma {:induction false} AttributePairsMean(attributes: seq<Attribute>, signal: string)
    ensures forall x :: x in AttributePairs(attributes, signal) <==> x.1 in attributes && signal in x.1.signals && x.0 == x.1.name
  {
    if attributes != [] {
      var n := |attributes| - 1;
      AttributePairsMean(attributes[..n], signal);
      assert attributes == attributes[..n] + [attributes[n]];
    }
  }

  lemma VocabularyMeans(p: Policy, signal: string, name: string)
    requires DeclaredOnce(p, signal)
    ensures name in Vocabulary(p, signal) <==> exists d :: DeclaredFor(p, signal, d) && d.name == name
    ensures name in Vocabulary(p, signal) ==>
              DeclaredFor(p, signal, Vocabulary(p, signal)[name]) && Vocabulary(p, signal)[name].name == name
  {
    var pairs := AttributePairs(p.attributes, signal);
    AttributePairsMean(p.attributes, signal);
    forall i, j | 0 <= i < |pairs| && 0 <= j < |pairs| && pairs[i].0 == pairs[j].0 ensures pairs[i].1 == pairs[j].1 {
      assert pairs[i] in pairs && pairs[j] in pairs;
    }
    AgreeingPairs(pairs);
    if d :| DeclaredFor(p, signal, d) && d.name == name {
      assert (name, d) in pairs;
    }
    if name in Vocabulary(p, signal) {
      assert (name, FromPairs(pairs)[name]) in pairs;
    }
  }

  lemma HitsAreRefusals(k: Recognisers, p: Policy, signal: string, rule: Rule, name: string, value: string)
    requires DeclaredOnce(p, signal)
    ensures Refuses(k, rule, Vocabulary(p, signal), name, value) <==> Hits(k, p, signal, rule, name, value)
  {
    VocabularyMeans(p, signal, name);
    if rule.kind == AttributePrefix && k.lower(rule.matching) <= k.lower(name) {
      var n := |k.lower(rule.matching)|;
      assert k.lower(name) == k.lower(rule.matching) + k.lower(name)[n..];
    }
  }

  /** What is accepted: every attribute is declared for the signal with a value its declaration admits, and
      no declared rule hits it. */
  lemma AcceptedMeans(k: Recognisers, p: Policy, signal: string, record: seq<(string, string)>)
    requires DeclaredOnce(p, signal)
    ensures Classify(k, p, signal, record) == Accepted
       <==> forall a :: a in record ==>
              && (exists d :: DeclaredFor(p, signal, d) && d.name == a.0 && Admits(k, d, a.1))
              && (forall rule :: rule in p.rejected ==> !Hits(k, p, signal, rule, a.0, a.1))
  {
    AcceptedExactly(k, p, signal, record);
    forall a | a in record
      ensures Admissible(k, p, signal, a)
         <==> && (exists d :: DeclaredFor(p, signal, d) && d.name == a.0 && Admits(k, d, a.1))
              && (forall rule :: rule in p.rejected ==> !Hits(k, p, signal, rule, a.0, a.1))
    {
      AdmissibleMeans(k, p, signal, a);
    }
  }

  lemma AdmissibleMeans(k: Recognisers, p: Policy, signal: string, a: (string, string))
    requires DeclaredOnce(p, signal)
    ensures Admissible(k, p, signal, a)
       <==> && (exists d :: DeclaredFor(p, signal, d) && d.name == a.0 && Admits(k, d, a.1))
            && (forall rule :: rule in p.rejected ==> !Hits(k, p, signal, rule, a.0, a.1))
  {
    VocabularyMeans(p, signal, a.0);
    forall rule | rule in p.rejected
      ensures Refuses(k, rule, Vocabulary(p, signal), a.0, a.1) <==> Hits(k, p, signal, rule, a.0, a.1)
    {
      HitsAreRefusals(k, p, signal, rule, a.0, a.1);
    }
  }

  /** So acceptance is closed under dropping, repeating and reordering attributes; two records with
      the same attributes in any order are accepted or refused together. */
  lemma AcceptanceOfParts(
      k: Recognisers, p: Policy, signal: string, record: seq<(string, string)>, part: seq<(string, string)>)
    requires forall a :: a in part ==> a in record
    ensures Classify(k, p, signal, record) == Accepted ==> Classify(k, p, signal, part) == Accepted
    ensures multiset(part) == multiset(record) ==>
              (Classify(k, p, signal, part) == Accepted <==> Classify(k, p, signal, record) == Accepted)
  {
    AcceptedExactly(k, p, signal, record);
    AcceptedExactly(k, p, signal, part);
    if multiset(part) == multiset(record) {
      forall a | a in record ensures a in part {
        assert a in multiset(part);
      }
    }
  }

  function WithRule(p: Policy, at: nat, rule: Rule): Policy
    requires at <= |p.rejected|
  {
    p.(rejected := p.rejected[..at] + [rule] + p.rejected[at..])
  }

  /** Adding a rule anywhere can only shrink what is accepted, and by exactly the records it refuses. */
  lemma RulesOnlyShrink(k: Recognisers, p: Policy, signal: string, record: seq<(string, string)>, at: nat, rule: Rule)
    requires at <= |p.rejected|
    ensures Classify(k, WithRule(p, at, rule), signal, record) == Accepted
       <==> Classify(k, p, signal, record) == Accepted
            && forall a :: a in record ==> !Refuses(k, rule, Vocabulary(p, signal), a.0, a.1)
  {
    var stricter := WithRule(p, at, rule);
    AcceptedExactly(k, p, signal, record);
    AcceptedExactly(k, stricter, signal, record);
    assert p.rejected == p.rejected[..at] + p.rejected[at..];
    assert forall r :: r in stricter.rejected <==> r == rule || r in p.rejected;
    assert Vocabulary(stricter, signal) == Vocabulary(p, signal);
  }

  /** A declared rule outranks the vocabulary: if a rule refuses any attribute, the verdict names a
      declared rule, whatever the vocabulary says of the other attributes or of this one. */
  lemma RulesOutrank(k: Recognisers, p: Policy, signal: string, record: seq<(string, string)>)
    ensures Classify(k, p, signal, record).RefusedByRule?
       <==> exists a, rule :: a in record && rule in p.rejected && Refuses(k, rule, Vocabulary(p, signal), a.0, a.1)
  {
    var vocabulary := Vocabulary(p, signal);
    ByRulesMeans(k, p.rejected, vocabulary, record);
    ByVocabularyMeans(k, vocabulary, record);
    if ByRules(k, p.rejected, vocabulary, record).Some? {
      var a, rule := SomeRefusal(k, p.rejected, vocabulary, record);
    }
  }

  /** A forbidden name is refused whatever its value and however well-formed: only value heuristics
      are ever exempted. */
  lemma ForbiddenFieldStaysForbidden(
      k: Recognisers, p: Policy, signal: string, record: seq<(string, string)>, rule: Rule, name: string, value: string)
    requires rule in p.rejected && rule.kind == AttributeName && rule.matching == name
    requires (name, value) in record
    ensures Classify(k, p, signal, record).RefusedByRule?
  {
    assert Refuses(k, rule, Vocabulary(p, signal), name, value);
    RulesOutrank(k, p, signal, record);
  }

  // ------------------------------------------------------------------ compare_rebuild

  datatype Comparison =
    | Unmeasured
    | Matched
    | Diverged(missing: set<string>, extra: set<string>, differing: set<string>)

  function OnlyIn(a: map<string, string>, b: map<string, string>): set<string> {
    set key | key in a && key !in b
  }

  function Differing(s: map<string, string>, p: map<string, string>): set<string> {
    set key | key in s && key in p && p[key] != s[key]
  }

  function CompareRebuild(source: Option<map<string, string>>, projection: Option<map<string, string>>): Comparison {
    if source.None? || projection.None? then Unmeasured
    else
      var s, p := source.value, projection.value;
      if s == map[] && p == map[] then Unmeasured
      else if OnlyIn(s, p) != {} || OnlyIn(p, s) != {} || Differing(s, p) != {} then
        Diverged(OnlyIn(s, p), OnlyIn(p, s), Differing(s, p))
      else Matched
  }

  /** A match is agreement about content, and about something. */
  lemma MatchedMeans(source: Option<map<string, string>>, projection: Option<map<string, string>>)
    ensures CompareRebuild(source, projection) == Matched
       <==> source == projection && source.Some? && source.value != map[]
  {
    if CompareRebuild(source, projection) == Matched {
      var s, p := source.value, projection.value;
      assert OnlyIn(s, p) == {} && OnlyIn(p, s) == {} && Differing(s, p) == {};
      forall key ensures key in s <==> key in p {
        assert key !in OnlyIn(s, p) && key !in OnlyIn(p, s);
      }
      forall key | key in s ensures s[key] == p[key] {
        assert key !in Differing(s, p);
      }
      assert s == p;
    }
  }

  /** A divergence is complete: dropping what is extra and taking what is missing or differs from the
      source turns the projection into the source, and no other key disagreed. */
  lemma DivergenceRepairs(s: map<string, string>, p: map<string, string>)
    requires CompareRebuild(Some(s), Some(p)).Diverged?
    ensures var d := CompareRebuild(Some(s), Some(p));
            (p - d.extra) + (map key | key in s && key in d.missing + d.differing :: s[key]) == s
    ensures var d := CompareRebuild(Some(s), Some(p));
            d.missing !! d.extra !! d.differing && d.missing + d.extra + d.differing != {}
  {
  }

  // ------------------------------------------------------------------------ durations

  const UNITS: seq<string> := ["ms", "s", "m", "h", "d", "w", "y"]

  function Factor(unit: string): real {
    match unit
    case "ms" => 0.001
    case "s" => 1.0
    case "m" => 60.0
    case "h" => 3600.0
    case "d" => 86400.0
    case "w" => 604800.0
    case _ => 31536000.0
  }

  function Seconds(count: nat, unit: string): real {
    count as real * Factor(unit)
  }

  /** `duration_seconds`; `None` is its `ValueError`. */
  function DurationSeconds(value: string): Option<real> {
    DurationIn(value, UNITS)
  }

  /** Its loop: the first unit that stands behind a count decides. */
  function DurationIn(value: string, units: seq<string>): Option<real> {
    if units == [] then None
    else if CountOf(value, units[0]) then
      Some(Seconds(DecimalValue(value[..|value| - |units[0]|]), units[0]))
    else DurationIn(value, units[1..])
  }

  predicate CountOf(value: string, unit: string) {
    EndsWith(value, unit) && IsDecimal(value[..|value| - |unit|])
  }

  /** A word without digits. */
  predicate UnitWord(unit: string) {
    unit != "" && forall i :: 0 <= i < |unit| ==> !IsDigit(unit[i])
  }

  /** A count with its unit behind it is a count of that unit and of no other, even where one unit is
      the suffix of another as `s` is of `ms`. */
  lemma OneUnit(count: string, unit: string, other: string)
    requires IsDecimal(count) && UnitWord(unit) && UnitWord(other)
    ensures CountOf(count + unit, other) <==> unit == other
  {
    var value := count + unit;
    var own, cut := |value| - |unit|, |value| - |other|;
    assert value[..own] == count && value[own..] == unit;
    LongSuffix(count, unit, other);
    if EndsWith(value, other) && cut > own {
      assert value[..cut][own] == unit[0];
    }
  }

  /** A suffix longer than the unit begins inside the count. */
  lemma LongSuffix(count: string, unit: string, other: string)
    requires IsDecimal(count)
    ensures |unit| < |other| && EndsWith(count + unit, other) ==> IsDigit(other[0])
  {
    var value := count + unit;
    var cut := |value| - |other|;
    if |unit| < |other| && EndsWith(value, other) {
      assert value[cut..][0] == value[cut] == count[cut];
    }
  }

  lemma {:induction false} DurationFrom(count: string, units: seq<string>, unit: string)
    requires IsDecimal(count) && unit in units && forall u :: u in units ==> UnitWord(u)
    ensures DurationIn(count + unit, units) == Some(Seconds(DecimalValue(count), unit))
  {
    var value := count + unit;
    assert units[0] in units;
    OneUnit(count, unit, units[0]);
    if units[0] == unit {
      assert value[..|value| - |unit|] == count;
    } else {
      DurationFrom(count, units[1..], unit);
    }
  }

  /** Whatever the units are called, every number of every unit reads as that number of that unit. */
  lemma CountReadsBack(n: nat, units: seq<string>, unit: string)
    requires unit in units && forall u :: u in units ==> UnitWord(u)
    ensures DurationIn(DigitsText(n) + unit, units) == Some(Seconds(n, unit))
  {
    YamlScalars.DigitsReadBack(n);
    DurationFrom(DigitsText(n), units, unit);
  }

  /** Round trip: every number of every declared unit reads as that number of that unit. */
  lemma DurationReadsBack(n: nat, unit: string)
    requires unit in UNITS
    ensures DurationSeconds(DigitsText(n) + unit) == Some(Seconds(n, unit))
  {
    CountReadsBack(n, UNITS, unit);
  }

  /** The duration pattern of the schema, whose `$` also admits one final newline. */
  predicate DurationShaped(value: string) {
    exists unit :: unit in UNITS && CountOf(WithoutNewline(value), unit)
  }

  function WithoutNewline(value: string): string {
    if value != "" && value[|value| - 1] == '\n' then value[..|value| - 1] else value
  }

  lemma LastOfSuffix(value: string, suffix: string)
    ensures EndsWith(value, suffix) && suffix != "" ==> value != "" && value[|value| - 1] == suffix[|suffix| - 1]
  {
    if EndsWith(value, suffix) && suffix != "" {
      assert value[|value| - |suffix|..][|suffix| - 1] == value[|value| - 1];
    }
  }

  lemma {:induction false} NoUnitBehindNewline(value: string, units: seq<string>)
    requires value != "" && value[|value| - 1] == '\n'
    requires forall u :: u in units ==> u != "" && u[|u| - 1] != '\n'
    ensures DurationIn(value, units) == None
  {
    if units != [] {
      assert units[0] in units;
      LastOfSuffix(value, units[0]);
      NoUnitBehindNewline(value, units[1..]);
    }
  }

  lemma ShapedReadsIn(value: string, units: seq<string>)
    requires forall u :: u in units ==> UnitWord(u) && u[|u| - 1] != '\n'
    requires exists unit :: unit in units && CountOf(WithoutNewline(value), unit)
    ensures value != "" && (DurationIn(value, units).Some? <==> value[|value| - 1] != '\n')
  {
    var unit :| unit in units && CountOf(WithoutNewline(value), unit);
    if value[|value| - 1] == '\n' {
      NoUnitBehindNewline(value, units);
    } else {
      var count := value[..|value| - |unit|];
      assert value == count + unit;
      DurationFrom(count, units, unit);
    }
  }

  /** A duration that the schema lets through is read if and only if no newline follows it. */
  lemma ShapedReads(value: string)
    requires DurationShaped(value)
    ensures value != ""
    ensures DurationSeconds(value).Some? <==> value[|value| - 1] != '\n'
  {
    ShapedReadsIn(value, UNITS);
  }
}
