/** `attribution.py`: the vault of poisoned values and the public envelope of a census. */
module Projection {
  import opened Wrappers
  import opened CensusRecords
  import opened Strings

  // --------------------------------------------------------------------- payloads

  /** A payload as `_walk` sees it. A key is a string or something else; booleans and floats are
      `OtherNumber`, and `Other` is any other object, by its `str`. */
  datatype Node =
    | Str(s: string)
    | Int(n: int)
    | OtherNumber
    | Nil
    | Dict(entries: seq<Member>)
    | Items(items: seq<Node>)
    | Other(text: string)

  datatype Member = Member(key: Option<string>, value: Node)

  /** The texts `_walk` yields: string keys and values, wherever they are. */
  function TextsIn(n: Node): seq<string>
    decreases n, 0
  {
    match n
    case Str(s) => [s]
    case Int(_) => []
    case OtherNumber => []
    case Nil => []
    case Dict(entries) => DictStrings(entries)
    case Items(items) => ItemStrings(items)
    case Other(text) => [text]
  }

  function DictStrings(entries: seq<Member>): seq<string>
    decreases entries, 1
  {
    if entries == [] then [] else MemberStrings(entries[0]) + DictStrings(entries[1..])
  }

  function MemberStrings(m: Member): seq<string>
    decreases m, 1
  {
    (if m.key.Some? then [m.key.value] else []) + TextsIn(m.value)
  }

  function ItemStrings(items: seq<Node>): seq<string>
    decreases items, 1
  {
    if items == [] then [] else TextsIn(items[0]) + ItemStrings(items[1..])
  }

  /** Where a text can sit: at a key, or further down under one child. */
  datatype Place = Here | KeyOf(index: nat) | Under(index: nat, rest: Place)

  function TextAt(n: Node, place: Place): Option<string>
    decreases place
  {
    match place
    case Here => (
      match n
      case Str(s) => Some(s)
      case Other(text) => Some(text)
      case _ => None)
    case KeyOf(i) => if n.Dict? && i < |n.entries| then n.entries[i].key else None
    case Under(i, rest) =>
      if n.Dict? && i < |n.entries| then TextAt(n.entries[i].value, rest)
      else if n.Items? && i < |n.items| then TextAt(n.items[i], rest)
      else None
  }

  /** The walk misses nothing: it yields exactly the texts that sit somewhere in the payload. */
  lemma WalkYieldsEveryText(n: Node, text: string)
    ensures text in TextsIn(n) <==> exists place :: TextAt(n, place) == Some(text)
  {
    if text in TextsIn(n) {
      var place := YieldedHasPlace(n, text);
    }
    forall place | TextAt(n, place) == Some(text) ensures text in TextsIn(n) {
      TextIsYielded(n, place, text);
    }
  }

  lemma {:induction false} TextIsYielded(n: Node, place: Place, text: string)
    requires TextAt(n, place) == Some(text)
    ensures text in TextsIn(n)
    decreases place
  {
    match place
    case Here =>
    case KeyOf(i) =>
      DictYields(n.entries, text);
      assert InEntry(n.entries[i], text);
    case Under(i, rest) =>
      if n.Dict? {
        TextIsYielded(n.entries[i].value, rest, text);
        DictYields(n.entries, text);
        assert InEntry(n.entries[i], text);
      } else {
        TextIsYielded(n.items[i], rest, text);
        ItemsYield(n.items, text);
      }
  }

  lemma {:induction false} YieldedHasPlace(n: Node, text: string) returns (place: Place)
    requires text in TextsIn(n)
    ensures TextAt(n, place) == Some(text)
    decreases n
  {
    place := Here;
    if n.Dict? {
      DictYields(n.entries, text);
      var i :| 0 <= i < |n.entries| && InEntry(n.entries[i], text);
      if n.entries[i].key == Some(text) {
        place := KeyOf(i);
      } else {
        assert n.entries[i] in n.entries;
        var rest := YieldedHasPlace(n.entries[i].value, text);
        place := Under(i, rest);
      }
    } else if n.Items? {
      ItemsYield(n.items, text);
      var i :| 0 <= i < |n.items| && text in TextsIn(n.items[i]);
      var rest := YieldedHasPlace(n.items[i], text);
      place := Under(i, rest);
    }
  }

  /** The member shows the text, as its key or in its value. */
  predicate InEntry(entry: Member, text: string) {
    text in MemberStrings(entry)
  }

  lemma {:induction false} DictYields(entries: seq<Member>, text: string)
    ensures text in DictStrings(entries) <==> exists i :: 0 <= i < |entries| && InEntry(entries[i], text)
  {
    if entries != [] {
      DictYields(entries[1..], text);
      if text in DictStrings(entries[1..]) {
        var i :| 0 <= i < |entries| - 1 && InEntry(entries[1..][i], text);
        assert InEntry(entries[i + 1], text);
      }
      if i :| 0 <= i < |entries| && InEntry(entries[i], text) {
        if i > 0 {
          assert InEntry(entries[1..][i - 1], text);
        }
      }
    }
  }

  lemma {:induction false} ItemsYield(items: seq<Node>, text: string)
    ensures text in ItemStrings(items) <==> exists i :: 0 <= i < |items| && text in TextsIn(items[i])
  {
    if items != [] {
      ItemsYield(items[1..], text);
      if text in ItemStrings(items[1..]) {
        var i :| 0 <= i < |items| - 1 && text in TextsIn(items[1..][i]);
        assert text in TextsIn(items[i + 1]);
      }
      if i :| 0 <= i < |items| && text in TextsIn(items[i]) {
        if i > 0 {
          assert text in TextsIn(items[1..][i - 1]);
        }
      }
    }
  }

  // ------------------------------------------------------------------------- vault

  /** No poisoned value is part of any text of the payload, wherever it sits. */
  ghost predicate Unpoisoned(payload: Node, values: set<string>) {
    forall place, v :: v in values && TextAt(payload, place).Some? ==> !Within(TextAt(payload, place).value, v)
  }

  /** `RedactionVault`. */
  class Vault {
    var values: set<string>

    constructor ()
      ensures values == {}
    {
      values := {};
    }

    method Poison(value: Option<string>)
      modifies this
      ensures values == old(values) + (if Names(value) then {value.value} else {})
    {
      if value.Some? && value.value != "" {
        values := values + {value.value};
      }
    }

    /** `assert_clean`: it lets a payload through exactly when nothing poisoned is in it. */
    method AssertClean(payload: Node) returns (clean: bool)
      ensures clean <==> Unpoisoned(payload, values)
    {
      var texts := TextsIn(payload);
      for i := 0 to |texts|
        invariant forall k, v :: 0 <= k < i && v in values ==> !Within(texts[k], v)
      {
        var rest := values;
        while rest != {}
          invariant rest <= values
          invariant forall v :: v in values - rest ==> !Within(texts[i], v)
          decreases |rest|
        {
          var v :| v in rest;
          if Within(texts[i], v) {
            WalkYieldsEveryText(payload, texts[i]);
            return false;
          }
          rest := rest - {v};
        }
        assert values - {} == values;
      }
      forall place, v | v in values && TextAt(payload, place).Some?
        ensures !Within(TextAt(payload, place).value, v)
      {
        WalkYieldsEveryText(payload, TextAt(payload, place).value);
      }
      return true;
    }
  }

  // ---------------------------------------------------------------------- envelope

  datatype PublicField =
    | TargetId | ObservationDigest | CollectorArtifactDigest | HostIdentityDigest | ObservedAt
    | AuthorizationDigest | ChallengeDigest | AuthorityRef
    | ConsumersAttributed | ConsumersUnattributed

  /** `CLASSIFIED_FIELDS`: the public names, and the private ones, told apart by name; any other name
      is unclassified. */
  datatype Field = Public(field: PublicField) | Private(name: string) | Unclassified(name: string)

  type Observed = map<Field, Node>
  type Scans = map<Family, FamilyScan>

  datatype Refusal =
    | UnclassifiedField | CoverageMismatch | InputMissing | CountRefused | AuthorityMissing | LeakRefusal

  datatype Coverage = Coverage(family: Family, verdict: Verdict, found: nat, errorCount: nat)

  datatype Counts = Counts(declared: nat, scanned: nat, absent: nat, unknown: nat, attributed: int, unattributed: int)

  datatype Envelope = Envelope(
    targetId: Node, observationDigest: Node, collectorArtifactDigest: Node, hostIdentityDigest: Node, observedAt: Node,
    coverage: seq<Coverage>, counts: Counts,
    authorizationDigest: string, challengeDigest: string, authorityRef: string)

  /** What Python's `str` and `str.strip` say, which nothing here depends on. */
  datatype Texts = Texts(display: Node -> string, blank: string -> bool)

  /** The names of families, verdicts and schema are public constants of the envelope. */
  datatype Wording = Wording(schema: string, family: Family -> string, verdict: Verdict -> string)

  function VerdictCount(scans: Scans, families: seq<Family>, v: Verdict): nat
    requires forall f :: f in families ==> f in scans
  {
    if families == [] then 0
    else
      VerdictCount(scans, families[..|families| - 1], v)
      + if scans[families[|families| - 1]].Verdict() == v then 1 else 0
  }

  /** Every family is exactly one of the three. */
  lemma {:induction false} VerdictsPartition(scans: Scans, families: seq<Family>)
    requires forall f :: f in families ==> f in scans
    ensures VerdictCount(scans, families, SCANNED) + VerdictCount(scans, families, ABSENT)
          + VerdictCount(scans, families, UNKNOWN) == |families|
  {
    if families != [] {
      VerdictsPartition(scans, families[..|families| - 1]);
    }
  }

  predicate Covered(scans: Scans) {
    forall f: Family :: f in DECLARED_FAMILIES ==> f in scans
  }

  const REQUIRED: seq<PublicField> :=
    [TargetId, ObservationDigest, CollectorArtifactDigest, HostIdentityDigest, ObservedAt,
     AuthorizationDigest, ChallengeDigest, AuthorityRef]

  predicate AllPresent(o: Observed) {
    forall p :: p in REQUIRED ==> Public(p) in o
  }

  /** A count that is absent is zero; anything but an integer is refused. */
  predicate Countable(o: Observed, p: PublicField) {
    Public(p) in o ==> o[Public(p)].Int?
  }

  function CountOf(o: Observed, p: PublicField): int
    requires Countable(o, p)
  {
    if Public(p) in o then o[Public(p)].n else 0
  }

  /** The three references are there and not blank. */
  predicate Authorized(o: Observed, t: Texts)
    requires AllPresent(o)
  {
    && !t.blank(t.display(o[Public(AuthorizationDigest)]))
    && !t.blank(t.display(o[Public(ChallengeDigest)]))
    && !t.blank(t.display(o[Public(AuthorityRef)]))
  }

  predicate Classified(o: Observed) {
    forall field :: field in o ==> !field.Unclassified?
  }

  predicate Projectable(o: Observed, scans: Scans, t: Texts) {
    && Classified(o) && Covered(scans) && AllPresent(o)
    && Countable(o, ConsumersAttributed) && Countable(o, ConsumersUnattributed) && Authorized(o, t)
  }

  function CountsOf(o: Observed, scans: Scans): Counts
    requires Covered(scans) && Countable(o, ConsumersAttributed) && Countable(o, ConsumersUnattributed)
  {
    Counts(
      |DECLARED_FAMILIES|,
      VerdictCount(scans, DECLARED_FAMILIES, SCANNED), VerdictCount(scans, DECLARED_FAMILIES, ABSENT),
      VerdictCount(scans, DECLARED_FAMILIES, UNKNOWN),
      CountOf(o, ConsumersAttributed), CountOf(o, ConsumersUnattributed))
  }

  function EnvelopeOf(o: Observed, scans: Scans, t: Texts): Envelope
    requires Projectable(o, scans, t)
  {
    Envelope(
      o[Public(TargetId)], o[Public(ObservationDigest)], o[Public(CollectorArtifactDigest)],
      o[Public(HostIdentityDigest)], o[Public(ObservedAt)],
      seq(|DECLARED_FAMILIES|, i requires 0 <= i < |DECLARED_FAMILIES| =>
        var f := DECLARED_FAMILIES[i];
        assert f in DECLARED_FAMILIES;
        Coverage(f, scans[f].Verdict(), scans[f].found, |scans[f].errors|)),
      CountsOf(o, scans),
      t.display(o[Public(AuthorizationDigest)]), t.display(o[Public(ChallengeDigest)]), t.display(o[Public(AuthorityRef)]))
  }

  function Keyed(key: string, value: Node): Member {
    Member(Some(key), value)
  }

  function CoverageNode(c: Coverage, w: Wording): Node {
    Dict([Keyed("family", Str(w.family(c.family))), Keyed("verdict", Str(w.verdict(c.verdict))),
          Keyed("found", Int(c.found)), Keyed("error_count", Int(c.errorCount))])
  }

  /** The envelope as the payload the vault walks: every field of it. */
  function AsNode(e: Envelope, w: Wording): Node {
    Dict([
      Keyed("schema_version", Str(w.schema)), Keyed("target_id", e.targetId),
      Keyed("observation_digest", e.observationDigest), Keyed("collector_artifact_digest", e.collectorArtifactDigest),
      Keyed("host_identity_digest", e.hostIdentityDigest), Keyed("observed_at", e.observedAt),
      Keyed("coverage", Items(seq(|e.coverage|, i requires 0 <= i < |e.coverage| => CoverageNode(e.coverage[i], w)))),
      Keyed("counts", Dict([
        Keyed("families_declared", Int(e.counts.declared)), Keyed("families_scanned", Int(e.counts.scanned)),
        Keyed("families_absent", Int(e.counts.absent)), Keyed("families_unknown", Int(e.counts.unknown)),
        Keyed("consumers_attributed", Int(e.counts.attributed)),
        Keyed("consumers_unattributed", Int(e.counts.unattributed))])),
      Keyed("authorization_digest", Str(e.authorizationDigest)), Keyed("challenge_digest", Str(e.challengeDigest)),
      Keyed("authority_ref", Str(e.authorityRef))])
  }

  /** The observation is published: it can be projected, and nothing poisoned is in the result. */
  ghost predicate Published(o: Observed, scans: Scans, poisoned: set<string>, t: Texts, w: Wording) {
    Projectable(o, scans, t) && Unpoisoned(AsNode(EnvelopeOf(o, scans, t), w), poisoned)
  }

  /** `project_envelope`: it publishes exactly when every input is classified, every family is covered,
      every reference is there and nothing poisoned is anywhere in the result; and the published counts
      cover every declared family once. */
  method ProjectEnvelope(o: Observed, scans: Scans, vault: Vault, t: Texts, w: Wording)
    returns (r: Result<Envelope, Refusal>)
    ensures r.Ok? <==> Published(o, scans, vault.values, t, w)
    ensures r.Ok? ==> r.value == EnvelopeOf(o, scans, t)
    ensures r.Ok? ==> var c := r.value.counts; c.scanned + c.absent + c.unknown == c.declared == |DECLARED_FAMILIES|
  {
    if !Classified(o) {
      return Err(UnclassifiedField);
    }
    if !Covered(scans) {
      return Err(CoverageMismatch);
    }
    if !AllPresent(o) {
      return Err(InputMissing);
    }
    if !Countable(o, ConsumersAttributed) || !Countable(o, ConsumersUnattributed) {
      return Err(CountRefused);
    }
    if !Authorized(o, t) {
      return Err(AuthorityMissing);
    }
    var envelope := EnvelopeOf(o, scans, t);
    VerdictsPartition(scans, DECLARED_FAMILIES);
    var clean := vault.AssertClean(AsNode(envelope, w));
    if !clean {
      return Err(LeakRefusal);
    }
    return Ok(envelope);
  }

  lemma UnpoisonedParts(n: Node, i: nat, values: set<string>)
    requires n.Dict? && i < |n.entries| && Unpoisoned(n, values)
    ensures Unpoisoned(n.entries[i].value, values)
  {
    forall place, v | v in values && TextAt(n.entries[i].value, place).Some?
      ensures !Within(TextAt(n.entries[i].value, place).value, v)
    {
      assert TextAt(n, Under(i, place)) == TextAt(n.entries[i].value, place);
    }
  }

  /** What can be projected: an observation of classified fields alone, with the eight public values, whole
      numbers where there are counts, three references that are not blank, and every family scanned. */
  lemma ProjectableMeans(o: Observed, scans: Scans, t: Texts)
    ensures Projectable(o, scans, t)
       <==> && (forall field :: field in o ==> field.Public? || field.Private?)
            && (forall f: Family :: f in scans)
            && Public(TargetId) in o && Public(ObservationDigest) in o && Public(CollectorArtifactDigest) in o
            && Public(HostIdentityDigest) in o && Public(ObservedAt) in o
            && (forall p :: p in {ConsumersAttributed, ConsumersUnattributed} && Public(p) in o ==> o[Public(p)].Int?)
            && (forall p :: p in {AuthorizationDigest, ChallengeDigest, AuthorityRef} ==>
                  Public(p) in o && !t.blank(t.display(o[Public(p)])))
  {
    assert AllPresent(o)
      <==> && Public(TargetId) in o && Public(ObservationDigest) in o && Public(CollectorArtifactDigest) in o
           && Public(HostIdentityDigest) in o && Public(ObservedAt) in o && Public(AuthorizationDigest) in o
           && Public(ChallengeDigest) in o && Public(AuthorityRef) in o by {
      RequiredAre();
    }
    forall f: Family ensures f in DECLARED_FAMILIES {
      EveryFamily(f);
    }
  }

  lemma RequiredAre()
    ensures forall p :: p in REQUIRED
              <==> p in {TargetId, ObservationDigest, CollectorArtifactDigest, HostIdentityDigest, ObservedAt,
                         AuthorizationDigest, ChallengeDigest, AuthorityRef}
  {
    assert REQUIRED[0] == TargetId && REQUIRED[1] == ObservationDigest && REQUIRED[2] == CollectorArtifactDigest;
    assert REQUIRED[3] == HostIdentityDigest && REQUIRED[4] == ObservedAt && REQUIRED[5] == AuthorizationDigest;
    assert REQUIRED[6] == ChallengeDigest && REQUIRED[7] == AuthorityRef;
  }

  lemma EveryFamily(f: Family)
    ensures f in DECLARED_FAMILIES
  {
    var i := match f
      case SystemdService => 0
      case SystemdTimer => 1
      case SystemdDropin => 2
      case Cron => 3
      case Anacron => 4
      case At => 5
      case Docker => 6
      case Compose => 7
      case CiRunner => 8
      case ScriptFamily => 9
      case AgentFamily => 10;
    assert DECLARED_FAMILIES[i] == f;
  }

  /** What is published is what was observed under each public name, and no poisoned value is part of any
      of it: not of the five observed values, and not of the three references. */
  lemma PublishedIsClean(o: Observed, scans: Scans, poisoned: set<string>, t: Texts, w: Wording)
    requires Published(o, scans, poisoned, t, w)
    ensures var e := EnvelopeOf(o, scans, t);
            && e.targetId == o[Public(TargetId)] && e.observationDigest == o[Public(ObservationDigest)]
            && e.collectorArtifactDigest == o[Public(CollectorArtifactDigest)]
            && e.hostIdentityDigest == o[Public(HostIdentityDigest)] && e.observedAt == o[Public(ObservedAt)]
            && e.authorizationDigest == t.display(o[Public(AuthorizationDigest)])
            && e.challengeDigest == t.display(o[Public(ChallengeDigest)])
            && e.authorityRef == t.display(o[Public(AuthorityRef)])
            && !t.blank(e.authorizationDigest) && !t.blank(e.challengeDigest) && !t.blank(e.authorityRef)
    ensures forall p :: p in {TargetId, ObservationDigest, CollectorArtifactDigest, HostIdentityDigest, ObservedAt} ==>
              Public(p) in o && Unpoisoned(o[Public(p)], poisoned)
    ensures forall p, v :: p in {AuthorizationDigest, ChallengeDigest, AuthorityRef} && v in poisoned ==>
              Public(p) in o && !Within(t.display(o[Public(p)]), v)
  {
    var e := EnvelopeOf(o, scans, t);
    var n := AsNode(e, w);
    RequiredAre();
    UnpoisonedParts(n, 1, poisoned);
    UnpoisonedParts(n, 2, poisoned);
    UnpoisonedParts(n, 3, poisoned);
    UnpoisonedParts(n, 4, poisoned);
    UnpoisonedParts(n, 5, poisoned);
    UnpoisonedText(n, 8, e.authorizationDigest, poisoned);
    UnpoisonedText(n, 9, e.challengeDigest, poisoned);
    UnpoisonedText(n, 10, e.authorityRef, poisoned);
  }

  lemma UnpoisonedText(n: Node, i: nat, text: string, values: set<string>)
    requires n.Dict? && i < |n.entries| && n.entries[i].value == Str(text) && Unpoisoned(n, values)
    ensures forall v :: v in values ==> !Within(text, v)
  {
    UnpoisonedParts(n, i, values);
    assert TextAt(Str(text), Here) == Some(text);
  }

  predicate Covers(e: Envelope, f: Family) {
    exists c :: c in e.coverage && c.family == f
  }

  /** And its coverage is the census: every declared family in turn, with its own verdict and counts. */
  lemma CoverageIsTheCensus(o: Observed, scans: Scans, t: Texts)
    requires Projectable(o, scans, t)
    ensures var e := EnvelopeOf(o, scans, t);
            && |e.coverage| == |DECLARED_FAMILIES| == 11
            && (forall f :: Covers(e, f))
            && (forall c :: c in e.coverage ==>
                  && c.family in scans && c.verdict == scans[c.family].Verdict()
                  && c.found == scans[c.family].found && c.errorCount == |scans[c.family].errors|)
            && (Public(ConsumersAttributed) in o ==> o[Public(ConsumersAttributed)] == Int(e.counts.attributed))
            && (Public(ConsumersUnattributed) in o ==> o[Public(ConsumersUnattributed)] == Int(e.counts.unattributed))
  {
    var e := EnvelopeOf(o, scans, t);
    forall f ensures Covers(e, f) {
      EveryFamily(f);
      var i :| 0 <= i < |DECLARED_FAMILIES| && DECLARED_FAMILIES[i] == f;
      assert e.coverage[i].family == f && e.coverage[i] in e.coverage;
    }
  }

  /** Private inputs leave no trace: before one and the same vault, two observations that agree on the
      public fields are published or refused alike, as the same envelope. What a private value can still
      do is sit in the vault, where it decides whether the envelope is refused. */
  lemma PrivateInputsDoNotShow(a: Observed, b: Observed, scans: Scans, poisoned: set<string>, t: Texts, w: Wording)
    requires Classified(a) && Classified(b)
    requires forall p: PublicField :: (Public(p) in a <==> Public(p) in b)
    requires forall p: PublicField :: Public(p) in a ==> a[Public(p)] == b[Public(p)]
    ensures Published(a, scans, poisoned, t, w) <==> Published(b, scans, poisoned, t, w)
    ensures Published(a, scans, poisoned, t, w) ==> EnvelopeOf(a, scans, t) == EnvelopeOf(b, scans, t)
  {
    assert Projectable(a, scans, t) <==> Projectable(b, scans, t);
    if Projectable(a, scans, t) {
      assert EnvelopeOf(a, scans, t) == EnvelopeOf(b, scans, t);
    }
  }
}
