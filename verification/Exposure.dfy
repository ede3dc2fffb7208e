/** `render.py`: declared surfaces compiled to packet-filter rules, and what those rules decide.

    A rule is one appended line with its matches as fields. The decision of a chain is that of its
    first matching rule, as `iptables` evaluates it. */
module Exposure {
  import opened Wrappers
  import opened Records

  /** An address is its bits; a prefix is the bits it fixes. */
  datatype Address = Address(family: Family, bits: seq<bool>)
  datatype Prefix = Prefix(family: Family, bits: seq<bool>)

  predicate Covers(prefix: Prefix, address: Address) {
    prefix.family == address.family && prefix.bits <= address.bits
  }

  datatype SourceBinding = SourceBinding(interface: Option<string>, prefixes: seq<Prefix>)

  datatype Target = ACCEPT | DROP

  /** `establishedOnly` is `--ctstate RELATED,ESTABLISHED`; `interface` is `-i`; `source` is `-s`. */
  datatype Rule = Rule(
    chain: Chain, interface: Option<string>, source: Option<Prefix>, protocol: Protocol, port: nat,
    establishedOnly: bool, target: Target)

  datatype Packet = Packet(
    chain: Chain, interface: string, source: Address, protocol: Protocol, port: nat, established: bool)

  predicate Matches(r: Rule, p: Packet) {
    && r.chain == p.chain && r.protocol == p.protocol && r.port == p.port
    && (r.interface.Some? ==> r.interface.value == p.interface)
    && (r.source.Some? ==> Covers(r.source.value, p.source))
    && (r.establishedOnly ==> p.established)
  }

  /** First match wins; `None` leaves the packet to the chain's policy. */
  function Decide(rules: seq<Rule>, p: Packet): Option<Target> {
    if rules == [] then None
    else if Matches(rules[0], p) then Some(rules[0].target)
    else Decide(rules[1..], p)
  }

  lemma {:induction false} DecideConcat(front: seq<Rule>, back: seq<Rule>, p: Packet)
    ensures Decide(front + back, p) == if Decide(front, p).Some? then Decide(front, p) else Decide(back, p)
  {
    if front == [] {
      assert front + back == back;
    } else {
      assert (front + back)[1..] == front[1..] + back;
      DecideConcat(front[1..], back, p);
    }
  }

  // -------------------------------------------------------------- the declared policy

  /** The surface a packet is addressed to, as the declaration sees it. */
  predicate Addressed(s: Surface, family: Family, p: Packet) {
    && family in FamiliesOf(s) && p.chain == ChainFor(s, family)
    && p.protocol == s.protocol && p.port == s.port
  }

  /** The packet comes from where the binding says. */
  predicate FromBinding(b: SourceBinding, p: Packet) {
    b.interface == Some(p.interface) || exists prefix :: prefix in b.prefixes && Covers(prefix, p.source)
  }

  /** What a surface declares about a packet addressed to it. */
  predicate Admits(s: Surface, sets: map<string, SourceBinding>, p: Packet)
    requires Bound(s, sets)
  {
    match s.exposure
    case Closed => false
    case Loopback => false
    case Public => true
    case Ingress => p.established || FromBinding(sets[s.allowFrom.value], p)
  }

  predicate Bound(s: Surface, sets: map<string, SourceBinding>) {
    s.exposure == Ingress ==> s.allowFrom.Some? && s.allowFrom.value in sets
  }

  /** Every surface of a family has the source set it needs. */
  predicate AllBound(surfaces: seq<Surface>, sets: map<string, SourceBinding>, family: Family) {
    forall s :: s in surfaces && family in FamiliesOf(s) ==> Bound(s, sets)
  }

  // ------------------------------------------------------------------ the compiler

  function RuleFor(s: Surface, family: Family, target: Target): Rule {
    Rule(ChainFor(s, family), None, None, s.protocol, s.port, false, target)
  }

  function PrefixRules(base: Rule, prefixes: seq<Prefix>): seq<Rule> {
    if prefixes == [] then []
    else PrefixRules(base, prefixes[..|prefixes| - 1]) + [base.(source := Some(prefixes[|prefixes| - 1]))]
  }

  function SurfaceRules(s: Surface, family: Family, sets: map<string, SourceBinding>): seq<Rule>
    requires Bound(s, sets)
  {
    var accept, drop := RuleFor(s, family, ACCEPT), RuleFor(s, family, DROP);
    match s.exposure
    case Closed => [drop]
    case Loopback => [drop]
    case Public => [accept.(establishedOnly := true), accept]
    case Ingress =>
      var b := sets[s.allowFrom.value];
      [accept.(establishedOnly := true)]
      + (if b.interface.Some? then [accept.(interface := b.interface)] else [])
      + PrefixRules(accept, b.prefixes) + [drop]
  }

  function Compiled(surfaces: seq<Surface>, sets: map<string, SourceBinding>, family: Family): seq<Rule>
    requires AllBound(surfaces, sets, family)
  {
    if surfaces == [] then []
    else
      var s := surfaces[|surfaces| - 1];
      Compiled(surfaces[..|surfaces| - 1], sets, family)
      + (if family in FamiliesOf(s) then SurfaceRules(s, family, sets) else [])
  }

  /** The assertion about a missing `allow_from`, and the `KeyError` of an unresolved set. */
  datatype ExposureError = AllowFromMissing | SourceSetUnresolved(name: string)

  /** `_exposure_rules`: it fails exactly when an ingress surface of the family lacks its set. */
  method ExposureRules(surfaces: seq<Surface>, sets: map<string, SourceBinding>, family: Family)
    returns (r: Result<seq<Rule>, ExposureError>)
    ensures r.Ok? <==> AllBound(surfaces, sets, family)
    ensures r.Ok? ==> r.value == Compiled(surfaces, sets, family)
  {
    var rules := [];
    for i := 0 to |surfaces|
      invariant AllBound(surfaces[..i], sets, family)
      invariant rules == Compiled(surfaces[..i], sets, family)
    {
      var s := surfaces[i];
      assert surfaces[..i + 1] == surfaces[..i] + [s] && s in surfaces;
      CompiledGrows(surfaces[..i], s, sets, family);
      if family !in FamiliesOf(s) {
        continue;
      }
      var one := OneSurface(s, family, sets);
      if one.Err? {
        return Err(one.error);
      }
      rules := rules + one.value;
    }
    assert surfaces[..|surfaces|] == surfaces;
    return Ok(rules);
  }

  lemma CompiledGrows(before: seq<Surface>, s: Surface, sets: map<string, SourceBinding>, family: Family)
    requires AllBound(before, sets, family)
    ensures AllBound(before + [s], sets, family) <==> (family in FamiliesOf(s) ==> Bound(s, sets))
    ensures AllBound(before + [s], sets, family) ==>
              Compiled(before + [s], sets, family)
              == Compiled(before, sets, family) + (if family in FamiliesOf(s) then SurfaceRules(s, family, sets) else [])
  {
    assert (before + [s])[..|before|] == before;
    assert s in before + [s];
  }

  /** The body of the compiler's loop. */
  method OneSurface(s: Surface, family: Family, sets: map<string, SourceBinding>)
    returns (r: Result<seq<Rule>, ExposureError>)
    ensures r.Ok? <==> Bound(s, sets)
    ensures r.Ok? ==> r.value == SurfaceRules(s, family, sets)
    ensures r.Err? ==> r.error == if s.allowFrom.None? then AllowFromMissing else SourceSetUnresolved(s.allowFrom.value)
  {
    var accept := RuleFor(s, family, ACCEPT);
    if s.exposure == Closed || s.exposure == Loopback {
      return Ok([RuleFor(s, family, DROP)]);
    }
    var rules := [accept.(establishedOnly := true)];
    if s.exposure == Public {
      return Ok(rules + [accept]);
    }
    if s.allowFrom.None? {
      return Err(AllowFromMissing);
    }
    if s.allowFrom.value !in sets {
      return Err(SourceSetUnresolved(s.allowFrom.value));
    }
    var b := sets[s.allowFrom.value];
    if b.interface.Some? {
      rules := rules + [accept.(interface := b.interface)];
    }
    ghost var before := rules;
    for i := 0 to |b.prefixes|
      invariant rules == before + PrefixRules(accept, b.prefixes[..i])
    {
      assert b.prefixes[..i + 1][..i] == b.prefixes[..i];
      rules := rules + [accept.(source := Some(b.prefixes[i]))];
    }
    assert b.prefixes[..|b.prefixes|] == b.prefixes;
    rules := rules + [RuleFor(s, family, DROP)];
    return Ok(rules);
  }

  // ------------------------------------------------------------ what the rules decide

  lemma {:induction false} PrefixRulesDecide(base: Rule, prefixes: seq<Prefix>, p: Packet)
    requires base.source == None
    ensures Decide(PrefixRules(base, prefixes), p)
         == if Matches(base, p) && (exists prefix :: prefix in prefixes && Covers(prefix, p.source))
            then Some(base.target) else None
  {
    if prefixes != [] {
      var before, last := prefixes[..|prefixes| - 1], prefixes[|prefixes| - 1];
      PrefixRulesDecide(base, before, p);
      DecideConcat(PrefixRules(base, before), [base.(source := Some(last))], p);
      assert forall prefix :: prefix in prefixes <==> prefix in before || prefix == last;
    }
  }

  /** One surface's rules decide every packet addressed to it as it declares, and no other. */
  lemma SurfaceDecides(s: Surface, family: Family, sets: map<string, SourceBinding>, p: Packet)
    requires Bound(s, sets) && family in FamiliesOf(s)
    ensures Decide(SurfaceRules(s, family, sets), p)
         == if Addressed(s, family, p) then Some(if Admits(s, sets, p) then ACCEPT else DROP) else None
  {
    var accept, drop := RuleFor(s, family, ACCEPT), RuleFor(s, family, DROP);
    var established := [accept.(establishedOnly := true)];
    if s.exposure == Public {
      DecideConcat(established, [accept], p);
    } else if s.exposure == Ingress {
      var b := sets[s.allowFrom.value];
      var tunnel := if b.interface.Some? then [accept.(interface := b.interface)] else [];
      var admitted := established + tunnel + PrefixRules(accept, b.prefixes);
      assert SurfaceRules(s, family, sets) == admitted + [drop];
      DecideConcat(admitted, [drop], p);
      DecideConcat(established + tunnel, PrefixRules(accept, b.prefixes), p);
      DecideConcat(established, tunnel, p);
      PrefixRulesDecide(accept, b.prefixes, p);
      assert Decide(tunnel, p) == if Matches(accept, p) && b.interface == Some(p.interface) then Some(ACCEPT) else None;
    }
  }

  /** The first surface that claims a packet. */
  function FirstClaim(surfaces: seq<Surface>, family: Family, p: Packet): (s: Option<Surface>)
    ensures s.Some? ==> s.value in surfaces && Addressed(s.value, family, p)
  {
    if surfaces == [] then None
    else if Addressed(surfaces[0], family, p) then Some(surfaces[0])
    else FirstClaim(surfaces[1..], family, p)
  }

  lemma {:induction false} FirstClaimSnoc(surfaces: seq<Surface>, last: Surface, family: Family, p: Packet)
    ensures FirstClaim(surfaces + [last], family, p)
         == if FirstClaim(surfaces, family, p).Some? then FirstClaim(surfaces, family, p)
            else if Addressed(last, family, p) then Some(last) else None
  {
    if surfaces != [] {
      assert (surfaces + [last])[1..] == surfaces[1..] + [last];
      FirstClaimSnoc(surfaces[1..], last, family, p);
    }
  }

  /** What the claiming surface declares about a packet. */
  function Declared(claim: Option<Surface>, sets: map<string, SourceBinding>, p: Packet): Option<Target>
    requires claim.Some? ==> Bound(claim.value, sets)
  {
    if claim.None? then None else Some(if Admits(claim.value, sets, p) then ACCEPT else DROP)
  }

  /** The compiled rules refine the declared policy: every packet gets the decision of the earliest
      surface it is addressed to, and a packet addressed to none is left to the chain. */
  lemma {:induction false} CompiledDecides(
      surfaces: seq<Surface>, sets: map<string, SourceBinding>, family: Family, p: Packet)
    requires AllBound(surfaces, sets, family)
    ensures Decide(Compiled(surfaces, sets, family), p) == Declared(FirstClaim(surfaces, family, p), sets, p)
  {
    if surfaces != [] {
      var before, s := surfaces[..|surfaces| - 1], surfaces[|surfaces| - 1];
      assert surfaces == before + [s];
      CompiledDecides(before, sets, family, p);
      FirstClaimSnoc(before, s, family, p);
      if family in FamiliesOf(s) {
        SurfaceDecides(s, family, sets, p);
        DecideConcat(Compiled(before, sets, family), SurfaceRules(s, family, sets), p);
      } else {
        assert Compiled(surfaces, sets, family) == Compiled(before, sets, family);
      }
    }
  }

  /** Two surfaces that one packet could be addressed to. */
  predicate SharedKey(a: Surface, b: Surface, family: Family) {
    && family in FamiliesOf(a) && family in FamiliesOf(b)
    && ChainFor(a, family) == ChainFor(b, family) && a.protocol == b.protocol && a.port == b.port
  }

  predicate DistinctKeys(surfaces: seq<Surface>, family: Family) {
    forall i, j :: 0 <= i < j < |surfaces| ==> !SharedKey(surfaces[i], surfaces[j], family)
  }

  lemma {:induction false} ClaimIsUnique(surfaces: seq<Surface>, family: Family, s: Surface, p: Packet)
    requires DistinctKeys(surfaces, family) && s in surfaces && Addressed(s, family, p)
    ensures FirstClaim(surfaces, family, p) == Some(s)
  {
    if surfaces[0] == s {
    } else {
      var j :| 0 <= j < |surfaces| && surfaces[j] == s;
      assert !SharedKey(surfaces[0], surfaces[j], family);
      ClaimIsUnique(surfaces[1..], family, s, p);
    }
  }

  /** With no key shared, every surface is enforced exactly as it declares. */
  lemma EverySurfaceEnforced(
      surfaces: seq<Surface>, sets: map<string, SourceBinding>, family: Family, s: Surface, p: Packet)
    requires AllBound(surfaces, sets, family) && DistinctKeys(surfaces, family)
    requires s in surfaces && Addressed(s, family, p)
    ensures Decide(Compiled(surfaces, sets, family), p) == Some(if Admits(s, sets, p) then ACCEPT else DROP)
  {
    ClaimIsUnique(surfaces, family, s, p);
    CompiledDecides(surfaces, sets, family, p);
  }

  /** The earliest surface that a packet addressed to `s` could be addressed to. */
  function FirstSharing(surfaces: seq<Surface>, family: Family, s: Surface): (first: Surface)
    requires s in surfaces && family in FamiliesOf(s)
    ensures first in surfaces && SharedKey(first, s, family)
  {
    if SharedKey(surfaces[0], s, family) then surfaces[0] else FirstSharing(surfaces[1..], family, s)
  }

  lemma {:induction false} ClaimIsFirstSharing(surfaces: seq<Surface>, family: Family, s: Surface, p: Packet)
    requires s in surfaces && Addressed(s, family, p)
    ensures FirstClaim(surfaces, family, p) == Some(FirstSharing(surfaces, family, s))
  {
    if !SharedKey(surfaces[0], s, family) {
      ClaimIsFirstSharing(surfaces[1..], family, s, p);
    }
  }

  /** Every packet addressed to the surface is decided as the surface declares. */
  ghost predicate Enforced(surfaces: seq<Surface>, sets: map<string, SourceBinding>, family: Family, s: Surface)
    requires AllBound(surfaces, sets, family) && s in surfaces && family in FamiliesOf(s)
  {
    forall p :: Addressed(s, family, p) ==>
      Decide(Compiled(surfaces, sets, family), p) == Some(if Admits(s, sets, p) then ACCEPT else DROP)
  }

  /** When a surface is enforced: exactly when it admits the same packets as the earliest surface that
      shares its key, which is itself where no key is shared. */
  lemma EnforcedExactly(surfaces: seq<Surface>, sets: map<string, SourceBinding>, family: Family, s: Surface)
    requires AllBound(surfaces, sets, family) && s in surfaces && family in FamiliesOf(s)
    ensures Enforced(surfaces, sets, family, s)
       <==> forall p :: Addressed(s, family, p) ==>
              (Admits(s, sets, p) <==> Admits(FirstSharing(surfaces, family, s), sets, p))
  {
    forall p | Addressed(s, family, p)
      ensures Decide(Compiled(surfaces, sets, family), p)
           == Some(if Admits(FirstSharing(surfaces, family, s), sets, p) then ACCEPT else DROP)
    {
      ClaimIsFirstSharing(surfaces, family, s, p);
      CompiledDecides(surfaces, sets, family, p);
    }
  }

  /** A loopback surface is closed to loopback too: its rule names no interface, so what comes in on `lo`
      is dropped with the rest. */
  lemma LoopbackDropsItsOwn(
      surfaces: seq<Surface>, sets: map<string, SourceBinding>, family: Family, s: Surface, p: Packet)
    requires AllBound(surfaces, sets, family) && s in surfaces && s.exposure == Loopback
    requires Addressed(s, family, p) && p.interface == "lo" && FirstSharing(surfaces, family, s) == s
    ensures Decide(Compiled(surfaces, sets, family), p) == Some(DROP)
  {
    ClaimIsFirstSharing(surfaces, family, s, p);
    CompiledDecides(surfaces, sets, family, p);
  }

  /** A shared key silently overrides: whatever a later surface declares, the earlier one decides, so
      a closed surface behind a public one on the same port is open. */
  lemma SharedKeyOverrides(
      surfaces: seq<Surface>, sets: map<string, SourceBinding>, family: Family, i: nat, j: nat, p: Packet)
    requires AllBound(surfaces, sets, family)
    requires i < j < |surfaces| && SharedKey(surfaces[i], surfaces[j], family)
    requires forall k :: 0 <= k < i ==> !SharedKey(surfaces[k], surfaces[j], family)
    requires Addressed(surfaces[j], family, p)
    ensures Decide(Compiled(surfaces, sets, family), p)
         == Some(if Admits(surfaces[i], sets, p) then ACCEPT else DROP)
    ensures surfaces[i].exposure == Public && surfaces[j].exposure == Closed ==>
              Decide(Compiled(surfaces, sets, family), p) == Some(ACCEPT) && !Admits(surfaces[j], sets, p)
  {
    FirstClaimAt(surfaces, family, i, p);
    CompiledDecides(surfaces, sets, family, p);
  }

  lemma {:induction false} FirstClaimAt(surfaces: seq<Surface>, family: Family, i: nat, p: Packet)
    requires i < |surfaces| && Addressed(surfaces[i], family, p)
    requires forall k :: 0 <= k < i ==> !Addressed(surfaces[k], family, p)
    ensures FirstClaim(surfaces, family, p) == Some(surfaces[i])
  {
    if i > 0 {
      FirstClaimAt(surfaces[1..], family, i - 1, p);
    }
  }

  /** The verifier expects from outside what the rules do: a packet that belongs to no connection and
      to no bound source is accepted exactly when a probe should find the surface reachable. */
  lemma RulesMeetExpectation(
      surfaces: seq<Surface>, sets: map<string, SourceBinding>, family: Family, s: Surface, p: Packet)
    requires AllBound(surfaces, sets, family) && DistinctKeys(surfaces, family)
    requires s in surfaces && Addressed(s, family, p)
    requires !p.established && (s.exposure == Ingress ==> !FromBinding(sets[s.allowFrom.value], p))
    ensures Decide(Compiled(surfaces, sets, family), p) == Some(ACCEPT) <==> ExpectationFor(s) == Reachable
  {
    EverySurfaceEnforced(surfaces, sets, family, s, p);
  }

  // ------------------------------------------------------------------ where rules land

  lemma {:induction false} PrefixRulesShape(base: Rule, prefixes: seq<Prefix>)
    ensures forall r :: r in PrefixRules(base, prefixes) <==>
              exists prefix :: prefix in prefixes && r == base.(source := Some(prefix))
  {
    if prefixes != [] {
      var before, last := prefixes[..|prefixes| - 1], prefixes[|prefixes| - 1];
      PrefixRulesShape(base, before);
      assert forall prefix :: prefix in prefixes <==> prefix in before || prefix == last;
    }
  }

  /** Every rule sits in the chain its surface's packets traverse, so no IPv6 rule ever lands in
      `DOCKER-USER`, and an IPv4 rule does only for a container publish. */
  lemma {:induction false} NoInertChain(
      surfaces: seq<Surface>, sets: map<string, SourceBinding>, family: Family, r: Rule)
    requires AllBound(surfaces, sets, family) && r in Compiled(surfaces, sets, family)
    ensures exists s :: s in surfaces && family in FamiliesOf(s) && r.chain == ChainFor(s, family)
    ensures exists s :: s in surfaces && (s.family == DualStack || s.family == Only(family))
              && (r.chain == DockerUser <==> s.kind == ContainerPublished && family == Ipv4)
              && (r.chain == DockerUser || r.chain == Input)
    ensures r.chain == DockerUser ==> family == Ipv4 && exists s :: s in surfaces && s.kind == ContainerPublished
  {
    var before, s := surfaces[..|surfaces| - 1], surfaces[|surfaces| - 1];
    if r in Compiled(before, sets, family) {
      NoInertChain(before, sets, family, r);
    } else {
      RulesOfSurface(s, family, sets, r);
    }
  }

  lemma RulesOfSurface(s: Surface, family: Family, sets: map<string, SourceBinding>, r: Rule)
    requires Bound(s, sets) && r in SurfaceRules(s, family, sets)
    ensures r.chain == ChainFor(s, family)
    ensures r.source.Some? ==> s.exposure == Ingress && r.source.value in sets[s.allowFrom.value].prefixes
  {
    if s.exposure == Ingress {
      PrefixRulesShape(RuleFor(s, family, ACCEPT), sets[s.allowFrom.value].prefixes);
    }
  }

  /** A packet that arrives at a surface as packets do: on its port, in a family it has, forwarded if a
      container publishes it over IPv4 and delivered to the host otherwise. */
  predicate Reaches(s: Surface, family: Family, p: Packet) {
    && (s.family == DualStack || s.family == Only(family))
    && p.protocol == s.protocol && p.port == s.port
    && p.chain == (if s.kind == ContainerPublished && family == Ipv4 then DockerUser else Input)
  }

  /** Every rule of a container publish over IPv4 is in `DOCKER-USER`, and every other rule in `INPUT`. */
  lemma RulesOnTheirPath(s: Surface, family: Family, sets: map<string, SourceBinding>, r: Rule)
    requires Bound(s, sets) && r in SurfaceRules(s, family, sets)
    ensures r.chain == DockerUser <==> s.kind == ContainerPublished && family == Ipv4
    ensures r.chain != DockerUser ==> r.chain == Input
    ensures r.protocol == s.protocol && r.port == s.port
  {
    RulesOfSurface(s, family, sets, r);
    if s.exposure == Ingress {
      PrefixRulesShape(RuleFor(s, family, ACCEPT), sets[s.allowFrom.value].prefixes);
    }
  }

  /** A packet that reaches one surface and no other is decided as that surface declares. */
  lemma ReachedDecides(
      surfaces: seq<Surface>, sets: map<string, SourceBinding>, family: Family, s: Surface, p: Packet)
    requires AllBound(surfaces, sets, family) && s in surfaces && Reaches(s, family, p)
    requires forall t :: t in surfaces && Reaches(t, family, p) ==> t == s
    ensures s.exposure == Ingress ==> s.allowFrom.Some? && s.allowFrom.value in sets
    ensures Decide(Compiled(surfaces, sets, family), p)
         == match s.exposure
            case Public => Some(ACCEPT)
            case Ingress =>
              Some(if p.established || FromBinding(sets[s.allowFrom.value], p) then ACCEPT else DROP)
            case _ => Some(DROP)
  {
    CompiledDecides(surfaces, sets, family, p);
    OnlyClaim(surfaces, family, s, p);
  }

  lemma {:induction false} OnlyClaim(surfaces: seq<Surface>, family: Family, s: Surface, p: Packet)
    requires s in surfaces && Reaches(s, family, p)
    requires forall t :: t in surfaces && Reaches(t, family, p) ==> t == s
    ensures FirstClaim(surfaces, family, p) == Some(s)
  {
    assert surfaces[0] in surfaces;
    if surfaces[0] != s {
      OnlyClaim(surfaces[1..], family, s, p);
    }
  }

  /** A packet that reaches no surface is left to the chain. */
  lemma {:induction false} UnreachedIsLeft(
      surfaces: seq<Surface>, sets: map<string, SourceBinding>, family: Family, p: Packet)
    requires AllBound(surfaces, sets, family) && forall t :: t in surfaces ==> !Reaches(t, family, p)
    ensures Decide(Compiled(surfaces, sets, family), p) == None
  {
    CompiledDecides(surfaces, sets, family, p);
    var claim := FirstClaim(surfaces, family, p);
    assert claim.Some? ==> Reaches(claim.value, family, p);
  }

  // --------------------------------------------------------------- prefixes of one family

  /** No rule of the file names a source of the other family. */
  ghost predicate OneFamily(rules: seq<Rule>, family: Family) {
    forall r :: r in rules && r.source.Some? ==> r.source.value.family == family
  }

  ghost predicate PrefixesOf(surfaces: seq<Surface>, sets: map<string, SourceBinding>, family: Family)
    requires AllBound(surfaces, sets, family)
  {
    forall s, prefix ::
      s in surfaces && family in FamiliesOf(s) && s.exposure == Ingress && prefix in sets[s.allowFrom.value].prefixes ==>
        prefix.family == family
  }

  /** Prefixes go into a family's file unfiltered: it names only sources of that family exactly when
      every prefix bound to one of its ingress surfaces is of that family. */
  lemma {:induction false} FileIsOneFamily(
      surfaces: seq<Surface>, sets: map<string, SourceBinding>, family: Family)
    requires AllBound(surfaces, sets, family)
    ensures OneFamily(Compiled(surfaces, sets, family), family) <==> PrefixesOf(surfaces, sets, family)
  {
    if surfaces != [] {
      var before, s := surfaces[..|surfaces| - 1], surfaces[|surfaces| - 1];
      FileIsOneFamily(before, sets, family);
      assert forall x :: x in surfaces <==> x in before || x == s;
      if family in FamiliesOf(s) {
        SurfaceIsOneFamily(s, sets, family);
      }
    }
  }

  lemma SurfaceIsOneFamily(s: Surface, sets: map<string, SourceBinding>, family: Family)
    requires Bound(s, sets)
    ensures OneFamily(SurfaceRules(s, family, sets), family)
       <==> (s.exposure == Ingress ==>
               forall prefix :: prefix in sets[s.allowFrom.value].prefixes ==> prefix.family == family)
  {
    if s.exposure == Ingress {
      var base, prefixes := RuleFor(s, family, ACCEPT), sets[s.allowFrom.value].prefixes;
      PrefixRulesShape(base, prefixes);
      forall prefix | prefix in prefixes && OneFamily(SurfaceRules(s, family, sets), family)
        ensures prefix.family == family
      {
        assert base.(source := Some(prefix)) in PrefixRules(base, prefixes);
      }
    }
  }

  /** What a restore installs: it refuses a file whole if one of its sources is of the other family, and
      then none of its rules is there. */
  ghost function Installed(surfaces: seq<Surface>, sets: map<string, SourceBinding>, family: Family): seq<Rule>
    requires AllBound(surfaces, sets, family)
  {
    var rules := Compiled(surfaces, sets, family);
    if OneFamily(rules, family) then rules else []
  }

  /** What is installed decides as declared exactly when the bound prefixes are of the file's family;
      otherwise every packet is left to the chain, one that a closed surface should drop included. */
  lemma InstalledDecides(surfaces: seq<Surface>, sets: map<string, SourceBinding>, family: Family, p: Packet)
    requires AllBound(surfaces, sets, family)
    ensures Decide(Installed(surfaces, sets, family), p)
         == if PrefixesOf(surfaces, sets, family) then Declared(FirstClaim(surfaces, family, p), sets, p) else None
  {
    FileIsOneFamily(surfaces, sets, family);
    CompiledDecides(surfaces, sets, family, p);
  }

  /** So a dual-stack ingress surface bound to any prefix spoils one of the two files. */
  lemma DualStackPrefixSpoilsAFile(surfaces: seq<Surface>, sets: map<string, SourceBinding>, s: Surface)
    requires AllBound(surfaces, sets, Ipv4) && AllBound(surfaces, sets, Ipv6)
    requires s in surfaces && s.family == DualStack && s.exposure == Ingress
    requires sets[s.allowFrom.value].prefixes != []
    ensures !OneFamily(Compiled(surfaces, sets, Ipv4), Ipv4) || !OneFamily(Compiled(surfaces, sets, Ipv6), Ipv6)
  {
    FileIsOneFamily(surfaces, sets, Ipv4);
    FileIsOneFamily(surfaces, sets, Ipv6);
    assert sets[s.allowFrom.value].prefixes[0] in sets[s.allowFrom.value].prefixes;
  }
}
