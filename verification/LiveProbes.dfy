/** `live_verify.py`, condition 5: every declared surface probed on every family it has, in the chain
    its packets traverse, with the outcome its exposure declares and a control that worked. */
module LiveProbes {
  import opened Records
  import opened Dicts

  type Slot = (string, Family)

  /** Every (surface, family) pair the exposure policy declares. */
  function SlotSet(surfaces: seq<Surface>): set<Slot> {
    set s, f | s in surfaces && f in FamiliesOf(s) :: (s.name, f)
  }

  /** `declared_probe_slots`: those pairs, surface by surface. */
  method DeclaredProbeSlots(state: DesiredState) returns (slots: seq<Slot>)
    ensures forall k :: k in slots <==> k in SlotSet(state.surfaces)
    ensures slots == SlotList(state.surfaces)
  {
    slots := [];
    for i := 0 to |state.surfaces|
      invariant slots == SlotList(state.surfaces[..i])
    {
      assert state.surfaces[..i + 1][..i] == state.surfaces[..i];
      var more := SlotsOf(state.surfaces[i]);
      slots := slots + more;
    }
    assert state.surfaces[..|state.surfaces|] == state.surfaces;
    SlotListMeans(state.surfaces);
  }

  /** Its inner loop: one surface, family by family. */
  method SlotsOf(s: Surface) returns (slots: seq<Slot>)
    ensures slots == OnFamilies(s.name, FamiliesOf(s))
  {
    var families := FamiliesOf(s);
    slots := [];
    for j := 0 to |families|
      invariant |slots| == j && forall k :: 0 <= k < j ==> slots[k] == (s.name, families[k])
    {
      slots := slots + [(s.name, families[j])];
    }
  }

  function OnFamilies(name: string, families: seq<Family>): seq<Slot> {
    seq(|families|, i requires 0 <= i < |families| => (name, families[i]))
  }

  function SlotList(surfaces: seq<Surface>): seq<Slot> {
    if surfaces == [] then []
    else
      var s := surfaces[|surfaces| - 1];
      SlotList(surfaces[..|surfaces| - 1]) + OnFamilies(s.name, FamiliesOf(s))
  }

  lemma {:induction false} SlotListMeans(surfaces: seq<Surface>)
    ensures forall k :: k in SlotList(surfaces) <==> k in SlotSet(surfaces)
  {
    if surfaces != [] {
      var n := |surfaces| - 1;
      SlotListMeans(surfaces[..n]);
      assert surfaces == surfaces[..n] + [surfaces[n]];
      forall k ensures k in SlotList(surfaces) <==> k in SlotSet(surfaces) {
        assert k in OnFamilies(surfaces[n].name, FamiliesOf(surfaces[n]))
          <==> k.0 == surfaces[n].name && k.1 in FamiliesOf(surfaces[n]) by {
          if k.0 == surfaces[n].name && k.1 in FamiliesOf(surfaces[n]) {
            var j :| 0 <= j < |FamiliesOf(surfaces[n])| && FamiliesOf(surfaces[n])[j] == k.1;
            assert OnFamilies(surfaces[n].name, FamiliesOf(surfaces[n]))[j] == k;
          }
        }
      }
    }
  }

  /** One probe says what the policy says, and its positive control worked in the same pass. */
  predicate ProbeAgrees(s: Surface, family: Family, p: LiveProbe) {
    && p.chain == ChainFor(s, family)
    && p.expectation == ExpectationFor(s)
    && p.outcome == ExpectationFor(s)
    && p.controlOutcome == Reachable
    && p.controlEvidence.Some?
  }

  predicate ProbeFault(code: Code, s: Surface, family: Family, p: LiveProbe) {
    match code
    case ProbeChainInert => p.chain != ChainFor(s, family)
    case ProbeExpectationWrong => p.expectation != ExpectationFor(s)
    case ProbeControlFailed => p.controlOutcome != Reachable
    case ProbeControlUnproven => p.controlOutcome == Reachable && p.controlEvidence.None?
    case ProbeInconclusive => p.controlOutcome == Reachable && p.outcome == Inconclusive
    case ProbeUnexpectedReachable =>
      p.controlOutcome == Reachable && p.outcome == Reachable && p.outcome != p.expectation
    case ProbeUnexpectedRefused =>
      p.controlOutcome == Reachable && p.outcome == Refused && p.outcome != p.expectation
    case _ => false
  }

  /** A probe that agrees was made in the chain its packets traverse, expected what the exposure says
      and saw it, while a control that was meant to get through did, with evidence. */
  lemma AgreementMeans(s: Surface, family: Family, p: LiveProbe)
    ensures ProbeAgrees(s, family, p)
       <==> && p.chain == (if s.kind == ContainerPublished && family == Ipv4 then DockerUser else Input)
            && p.expectation == p.outcome && p.outcome == (if s.exposure == Public then Reachable else Refused)
            && p.controlOutcome == Reachable && p.controlEvidence.Some?
  {
  }

  function Where(name: string, family: Family): string {
    name + if family == Ipv4 then "/ipv4" else "/ipv6"
  }

  /** `_one_probe_findings`. A failed control ends the questions: nothing else was measured. */
  method OneProbeFindings(s: Surface, family: Family, p: LiveProbe) returns (findings: seq<Finding>)
    ensures findings == [] <==> ProbeAgrees(s, family, p)
    ensures forall code :: Finding(code, Where(s.name, family)) in findings <==> ProbeFault(code, s, family, p)
    ensures Finding(ProbeChainInert, Where(s.name, family)) in findings
       <==> if s.kind == ContainerPublished && family == Ipv4 then p.chain != DockerUser else p.chain != Input
    ensures Finding(ProbeExpectationWrong, Where(s.name, family)) in findings
       <==> if s.exposure == Public then p.expectation != Reachable else p.expectation != Refused
  {
    var at := Where(s.name, family);
    var policy := PolicyFindings(at, s, family, p);
    if p.controlOutcome != Reachable {
      return policy + [Finding(ProbeControlFailed, at)];
    }
    var measured := MeasuredFindings(at, p);
    findings := policy + measured;
  }

  /** Whether the probe asked in the right chain for the right thing. */
  method PolicyFindings(at: string, s: Surface, family: Family, p: LiveProbe) returns (findings: seq<Finding>)
    ensures findings == [] <==> p.chain == ChainFor(s, family) && p.expectation == ExpectationFor(s)
    ensures forall code :: Finding(code, at) in findings
              <==> || (code == ProbeChainInert && p.chain != ChainFor(s, family))
                   || (code == ProbeExpectationWrong && p.expectation != ExpectationFor(s))
  {
    findings := [];
    if p.chain != ChainFor(s, family) {
      findings := [Finding(ProbeChainInert, at)];
    }
    if p.expectation != ExpectationFor(s) {
      findings := findings + [Finding(ProbeExpectationWrong, at)];
    }
  }

  /** What the outcome says once the control is known to have worked. */
  method MeasuredFindings(at: string, p: LiveProbe) returns (findings: seq<Finding>)
    ensures findings == [] <==> p.controlEvidence.Some? && p.outcome == p.expectation && p.outcome != Inconclusive
    ensures forall code :: Finding(code, at) in findings
              <==> || (code == ProbeControlUnproven && p.controlEvidence.None?)
                   || (code == ProbeInconclusive && p.outcome == Inconclusive)
                   || (p.outcome != p.expectation
                       && ((code == ProbeUnexpectedReachable && p.outcome == Reachable)
                           || (code == ProbeUnexpectedRefused && p.outcome == Refused)))
  {
    findings := [];
    if p.controlEvidence.None? {
      findings := [Finding(ProbeControlUnproven, at)];
    }
    if p.outcome == Inconclusive {
      findings := findings + [Finding(ProbeInconclusive, at)];
    } else if p.outcome != p.expectation {
      var code := if p.outcome == Reachable then ProbeUnexpectedReachable else ProbeUnexpectedRefused;
      findings := findings + [Finding(code, at)];
    }
  }

  function ProbePairs(probes: seq<LiveProbe>): seq<(Slot, LiveProbe)> {
    seq(|probes|, i requires 0 <= i < |probes| => ((probes[i].surface, probes[i].family), probes[i]))
  }

  predicate SurfaceProbed(s: Surface, seen: map<Slot, LiveProbe>) {
    forall f :: f in FamiliesOf(s) ==> (s.name, f) in seen && ProbeAgrees(s, f, seen[(s.name, f)])
  }

  /** The probed slots are the declared ones, and each agrees with every surface of that name. */
  predicate ProbesAgree(state: DesiredState, live: LiveState) {
    var seen := FromPairs(ProbePairs(live.probes));
    && seen.Keys == SlotSet(state.surfaces)
    && forall s :: s in state.surfaces ==> SurfaceProbed(s, seen)
  }

  /** `_probe_findings`. */
  method ProbeFindings(state: DesiredState, live: LiveState) returns (findings: seq<Finding>)
    ensures findings == [] <==> ProbesAgree(state, live)
  {
    var surfaces := state.surfaces;
    OrderIsKeys(ProbePairs(live.probes));
    if surfaces != [] && live.probes == [] {
      var s := surfaces[0];
      assert s in surfaces && FamiliesOf(s)[0] in FamiliesOf(s);
      assert (s.name, FamiliesOf(s)[0]) in SlotSet(surfaces);
      return [Finding(ProbesNotRead, "live.probes")];
    }
    var seen, keys := Build(ProbePairs(live.probes));
    var declared := DeclaredFindings(surfaces, seen);
    var undeclared := UndeclaredFindings(keys, SlotSet(surfaces));
    findings := declared + undeclared;
    if forall s :: s in surfaces ==> SurfaceProbed(s, seen) {
      forall k | k in SlotSet(surfaces) ensures k in seen {
        var s, f :| s in surfaces && f in FamiliesOf(s) && (s.name, f) == k;
        assert SurfaceProbed(s, seen);
      }
    }
  }

  /** Its first loop: every surface, on every family it has. */
  method DeclaredFindings(surfaces: seq<Surface>, seen: map<Slot, LiveProbe>) returns (findings: seq<Finding>)
    ensures findings == [] <==> forall s :: s in surfaces ==> SurfaceProbed(s, seen)
  {
    findings := [];
    for i := 0 to |surfaces|
      invariant findings == [] <==> forall k :: 0 <= k < i ==> SurfaceProbed(surfaces[k], seen)
    {
      var more := SurfaceFindings(surfaces[i], seen);
      findings := findings + more;
    }
  }

  /** Its second loop: nothing undeclared was probed. */
  method UndeclaredFindings(keys: seq<Slot>, declared: set<Slot>) returns (findings: seq<Finding>)
    ensures findings == [] <==> forall k :: k in keys ==> k in declared
    ensures forall k :: k in keys && k !in declared ==> Finding(ProbeUndeclaredSurface, Where(k.0, k.1)) in findings
  {
    findings := [];
    for i := 0 to |keys|
      invariant findings == [] <==> forall k :: 0 <= k < i ==> keys[k] in declared
      invariant forall k :: 0 <= k < i && keys[k] !in declared ==>
                  Finding(ProbeUndeclaredSurface, Where(keys[k].0, keys[k].1)) in findings
    {
      if keys[i] !in declared {
        findings := findings + [Finding(ProbeUndeclaredSurface, Where(keys[i].0, keys[i].1))];
      }
    }
  }

  /** The inner loop of `_probe_findings`: one surface, family by family. */
  method SurfaceFindings(s: Surface, seen: map<Slot, LiveProbe>) returns (findings: seq<Finding>)
    ensures findings == [] <==> SurfaceProbed(s, seen)
    ensures forall f :: f in FamiliesOf(s) && (s.name, f) !in seen
              ==> Finding(ProbeFamilyMissing, Where(s.name, f)) in findings
  {
    var families := FamiliesOf(s);
    findings := [];
    for i := 0 to |families|
      invariant findings == []
           <==> forall k :: 0 <= k < i ==>
                  (s.name, families[k]) in seen && ProbeAgrees(s, families[k], seen[(s.name, families[k])])
      invariant forall k :: 0 <= k < i && (s.name, families[k]) !in seen
                  ==> Finding(ProbeFamilyMissing, Where(s.name, families[k])) in findings
    {
      var slot := (s.name, families[i]);
      if slot !in seen {
        findings := findings + [Finding(ProbeFamilyMissing, Where(s.name, families[i]))];
        continue;
      }
      var more := OneProbeFindings(s, families[i], seen[slot]);
      findings := findings + more;
    }
  }
}
