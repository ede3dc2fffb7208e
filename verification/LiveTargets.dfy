/** `live_verify.py`, condition 2: every declared target is up in the declared number, nothing else is
    scraped, and every gate's alert is loaded and evaluates. */
module LiveTargets {
  import opened Records
  import opened Dicts

  /** How many endpoints each job resolved to: all of `Resolution` this condition reads. */
  type Endpoints = map<string, nat>

  predicate JobsResolved(state: DesiredState, endpoints: Endpoints) {
    forall j :: j in Jobs(state.targets) ==> j.job in endpoints
  }

  function Declared(j: ScrapeJob, endpoints: Endpoints): nat
    requires j.job in endpoints
  {
    if j.expected.Some? then j.expected.value else endpoints[j.job]
  }

  /** What the inventory declares: each job with its count, then each federation with one. */
  function DeclaredPairs(jobs: seq<ScrapeJob>, federations: seq<Federation>, endpoints: Endpoints)
    : (pairs: seq<(string, nat)>)
    requires forall j :: j in jobs ==> j.job in endpoints
    ensures |pairs| == |jobs| + |federations|
  {
    seq(|jobs|, i requires 0 <= i < |jobs| => (jobs[i].job, Declared(jobs[i], endpoints)))
    + seq(|federations|, i requires 0 <= i < |federations| => (federations[i].name, 1))
  }

  function OfJob(targets: seq<LiveTarget>, job: string): seq<LiveTarget> {
    if targets == [] then []
    else
      var t := targets[|targets| - 1];
      OfJob(targets[..|targets| - 1], job) + if t.job == job then [t] else []
  }

  predicate AllUp(targets: seq<LiveTarget>) {
    forall t :: t in targets ==> t.health == Up
  }

  /** One declared job is as declared: present, of the right size, and up. */
  predicate JobHealthy(observed: seq<LiveTarget>, expected: nat) {
    observed != [] && |observed| == expected && AllUp(observed)
  }

  predicate TargetsAgree(state: DesiredState, endpoints: Endpoints, live: LiveState)
    requires JobsResolved(state, endpoints)
  {
    var declared := FromPairs(DeclaredPairs(Jobs(state.targets), state.federations, endpoints));
    && live.targets != []
    && (forall job :: job in declared ==> JobHealthy(OfJob(live.targets, job), declared[job]))
    && (forall t :: t in live.targets ==> t.job in declared)
  }

  /** `counted`: the live targets of each job, and the jobs in order of appearance. */
  method CountTargets(targets: seq<LiveTarget>)
    returns (counted: map<string, seq<LiveTarget>>, jobs: seq<string>)
    ensures forall job :: job in counted <==> job in jobs
    ensures forall job :: job in counted <==> exists t :: t in targets && t.job == job
    ensures forall job :: job in counted ==> counted[job] == OfJob(targets, job)
    ensures forall job :: job !in counted ==> OfJob(targets, job) == []
  {
    counted, jobs := map[], [];
    for i := 0 to |targets|
      invariant forall job :: job in counted <==> job in jobs
      invariant forall job :: job in counted <==> exists t :: t in targets[..i] && t.job == job
      invariant forall job :: job in counted ==> counted[job] == OfJob(targets[..i], job)
      invariant forall job :: job !in counted ==> OfJob(targets[..i], job) == []
    {
      var t := targets[i];
      assert targets[..i + 1] == targets[..i] + [t];
      assert targets[..i + 1][..i] == targets[..i];
      if t.job !in counted {
        counted := counted[t.job := []];
        jobs := jobs + [t.job];
      }
      counted := counted[t.job := counted[t.job] + [t]];
    }
    assert targets[..|targets|] == targets;
  }

  /** `declared`, filled set by set and then from the federations. */
  method DeclareTargets(state: DesiredState, endpoints: Endpoints)
    returns (declared: map<string, nat>, jobs: seq<string>)
    requires JobsResolved(state, endpoints)
    ensures declared == FromPairs(DeclaredPairs(Jobs(state.targets), state.federations, endpoints))
    ensures forall job :: job in declared <==> job in jobs
  {
    var pairs: seq<(string, nat)> := [];
    for i := 0 to |state.targets|
      invariant forall j :: j in Jobs(state.targets[..i]) ==> j.job in endpoints
      invariant pairs == DeclaredPairs(Jobs(state.targets[..i]), [], endpoints)
    {
      assert state.targets[..i + 1][..i] == state.targets[..i];
      JobsPrefix(state.targets, i + 1);
      var jobsOf := state.targets[i].jobs;
      assert Jobs(state.targets[..i + 1]) == Jobs(state.targets[..i]) + jobsOf;
      assert forall j :: j in jobsOf ==> j in Jobs(state.targets[..i + 1]);
      DeclaredConcat(Jobs(state.targets[..i]), jobsOf, endpoints);
      var more := DeclareSet(jobsOf, endpoints);
      pairs := pairs + more;
    }
    assert state.targets[..|state.targets|] == state.targets;
    for i := 0 to |state.federations|
      invariant pairs == DeclaredPairs(Jobs(state.targets), state.federations[..i], endpoints)
    {
      pairs := pairs + [(state.federations[i].name, 1)];
    }
    assert state.federations[..|state.federations|] == state.federations;
    declared, jobs := Build(pairs);
  }

  lemma DeclaredConcat(a: seq<ScrapeJob>, b: seq<ScrapeJob>, endpoints: Endpoints)
    requires forall j :: j in a + b ==> j.job in endpoints
    requires (forall j :: j in a ==> j.job in endpoints) && forall j :: j in b ==> j.job in endpoints
    ensures DeclaredPairs(a + b, [], endpoints) == DeclaredPairs(a, [], endpoints) + DeclaredPairs(b, [], endpoints)
  {
  }

  /** Its inner loop: the jobs of one set. */
  method DeclareSet(jobs: seq<ScrapeJob>, endpoints: Endpoints) returns (pairs: seq<(string, nat)>)
    requires forall j :: j in jobs ==> j.job in endpoints
    ensures pairs == DeclaredPairs(jobs, [], endpoints)
  {
    pairs := [];
    for k := 0 to |jobs|
      invariant pairs == DeclaredPairs(jobs[..k], [], endpoints)
    {
      assert jobs[k] in jobs;
      pairs := pairs + [(jobs[k].job, Declared(jobs[k], endpoints))];
    }
    assert jobs[..|jobs|] == jobs;
  }

  lemma {:induction false} JobsPrefix(targets: seq<TargetSet>, n: nat)
    requires n <= |targets|
    ensures forall j :: j in Jobs(targets[..n]) ==> j in Jobs(targets)
    decreases |targets| - n
  {
    if n < |targets| {
      assert targets[..n + 1][..n] == targets[..n];
      JobsPrefix(targets, n + 1);
    } else {
      assert targets[..n] == targets;
    }
  }

  /** The complaints a target list gives rise to. */
  predicate TargetFault(f: Finding, declared: map<string, nat>, targets: seq<LiveTarget>) {
    var observed := OfJob(targets, f.location);
    match f.code
    case TargetAbsent => f.location in declared && observed == []
    case TargetCount => f.location in declared && observed != [] && |observed| != declared[f.location]
    case TargetUnhealthy => f.location in declared && !AllUp(observed)
    case TargetUndeclared => f.location !in declared && observed != []
    case _ => false
  }

  lemma NoTargetFault(declared: map<string, nat>, targets: seq<LiveTarget>)
    ensures (forall f :: !TargetFault(f, declared, targets))
       <==> && (forall job :: job in declared ==> JobHealthy(OfJob(targets, job), declared[job]))
            && (forall t :: t in targets ==> t.job in declared)
  {
    if forall f :: !TargetFault(f, declared, targets) {
      forall job | job in declared ensures JobHealthy(OfJob(targets, job), declared[job]) {
        assert !TargetFault(Finding(TargetAbsent, job), declared, targets);
        assert !TargetFault(Finding(TargetCount, job), declared, targets);
        assert !TargetFault(Finding(TargetUnhealthy, job), declared, targets);
      }
      forall t | t in targets ensures t.job in declared {
        OfJobMeans(targets, t.job);
        assert !TargetFault(Finding(TargetUndeclared, t.job), declared, targets);
      }
    } else {
      var f :| TargetFault(f, declared, targets);
      OfJobMeans(targets, f.location);
    }
  }

  /** The first loop of `_target_findings`: every declared job is looked up and compared. */
  method DeclaredFaults(declared: map<string, nat>, jobs: seq<string>,
                        counted: map<string, seq<LiveTarget>>, ghost targets: seq<LiveTarget>)
    returns (findings: seq<Finding>)
    requires forall job :: job in declared <==> job in jobs
    requires forall job :: OfJob(targets, job) == if job in counted then counted[job] else []
    ensures forall f :: f in findings <==> f.code != TargetUndeclared && TargetFault(f, declared, targets)
  {
    findings := [];
    for i := 0 to |jobs|
      invariant forall f :: f in findings
                  <==> f.code != TargetUndeclared && f.location in jobs[..i] && TargetFault(f, declared, targets)
    {
      assert jobs[..i + 1] == jobs[..i] + [jobs[i]];
      var observed := if jobs[i] in counted then counted[jobs[i]] else [];
      var one := OneDeclared(jobs[i], declared, observed, targets);
      findings := findings + one;
    }
    assert jobs[..|jobs|] == jobs;
  }

  /** The body of that loop. */
  method OneDeclared(job: string, declared: map<string, nat>, observed: seq<LiveTarget>, ghost targets: seq<LiveTarget>)
    returns (findings: seq<Finding>)
    requires job in declared && observed == OfJob(targets, job)
    ensures forall f :: f in findings
              <==> f.code != TargetUndeclared && f.location == job && TargetFault(f, declared, targets)
  {
    if observed == [] {
      return [Finding(TargetAbsent, job)];
    }
    findings := if |observed| != declared[job] then [Finding(TargetCount, job)] else [];
    var unhealthy := Unhealthy(observed);
    if unhealthy {
      findings := findings + [Finding(TargetUnhealthy, job)];
    }
  }

  /** The second loop: nothing undeclared is scraped. */
  method UndeclaredFaults(declared: map<string, nat>, seen: seq<string>, ghost targets: seq<LiveTarget>)
    returns (findings: seq<Finding>)
    requires forall job :: job in seen <==> OfJob(targets, job) != []
    ensures forall f :: f in findings <==> f.code == TargetUndeclared && TargetFault(f, declared, targets)
  {
    findings := [];
    for i := 0 to |seen|
      invariant forall f :: f in findings
                  <==> f.code == TargetUndeclared && f.location in seen[..i] && TargetFault(f, declared, targets)
    {
      assert seen[..i + 1] == seen[..i] + [seen[i]];
      if seen[i] !in declared {
        findings := findings + [Finding(TargetUndeclared, seen[i])];
      }
    }
    assert seen[..|seen|] == seen;
  }

  /** `_target_findings`. */
  method TargetFindings(state: DesiredState, endpoints: Endpoints, live: LiveState)
    returns (findings: seq<Finding>)
    requires JobsResolved(state, endpoints)
    ensures findings == [] <==> TargetsAgree(state, endpoints, live)
    ensures live.targets == [] ==> findings == [Finding(TargetsNotRead, "live.targets")]
    ensures live.targets != [] ==>
              var declared := FromPairs(DeclaredPairs(Jobs(state.targets), state.federations, endpoints));
              forall f :: f in findings <==> TargetFault(f, declared, live.targets)
  {
    if live.targets == [] {
      return [Finding(TargetsNotRead, "live.targets")];
    }
    var counted, seen := CountTargets(live.targets);
    var declared, jobs := DeclareTargets(state, endpoints);
    forall job ensures job in seen <==> OfJob(live.targets, job) != [] {
      OfJobMeans(live.targets, job);
    }
    var wrong := DeclaredFaults(declared, jobs, counted, live.targets);
    var extra := UndeclaredFaults(declared, seen, live.targets);
    findings := wrong + extra;
    NoTargetFault(declared, live.targets);
    if findings != [] {
      assert findings[0] in findings;
    }
  }

  lemma {:induction false} OfJobMeans(targets: seq<LiveTarget>, job: string)
    ensures forall t :: t in OfJob(targets, job) <==> t in targets && t.job == job
    ensures OfJob(targets, job) != [] <==> exists t :: t in targets && t.job == job
  {
    if targets != [] {
      var n := |targets| - 1;
      OfJobMeans(targets[..n], job);
      assert targets == targets[..n] + [targets[n]];
      if OfJob(targets, job) != [] {
        assert OfJob(targets, job)[0] in OfJob(targets, job);
      }
    }
  }

  method Unhealthy(targets: seq<LiveTarget>) returns (some: bool)
    ensures some <==> !AllUp(targets)
  {
    for i := 0 to |targets|
      invariant forall k :: 0 <= k < i ==> targets[k].health == Up
    {
      if targets[i].health != Up {
        return true;
      }
    }
    return false;
  }

  predicate IsLower(c: char) {
    'a' <= c <= 'z'
  }

  predicate IsUpper(c: char) {
    'A' <= c <= 'Z'
  }

  /** `_meta_alert_name`: each part between dots and dashes capitalised, then joined. */
  function MetaAlertName(name: string, atStart: bool := true): string {
    if name == "" then ""
    else if name[0] == '.' || name[0] == '-' then MetaAlertName(name[1..], true)
    else
      var c := name[0];
      [if atStart && IsLower(c) then (c as int - 32) as char
       else if !atStart && IsUpper(c) then (c as int + 32) as char
       else c] + MetaAlertName(name[1..], false)
  }

  function RulePairs(rules: seq<LiveRule>): seq<(string, LiveRule)> {
    seq(|rules|, i requires 0 <= i < |rules| => (rules[i].name, rules[i]))
  }

  /** Every gate's alert is loaded, and the rule of that name evaluates cleanly. */
  predicate RulesAgree(state: DesiredState, live: LiveState) {
    var loaded := FromPairs(RulePairs(live.rules));
    forall g :: g in state.gates ==>
      MetaAlertName(g.name) in loaded && loaded[MetaAlertName(g.name)].health == RuleOk
  }

  function GatePairs(gates: seq<Gate>): seq<(string, Gate)> {
    seq(|gates|, i requires 0 <= i < |gates| => (MetaAlertName(gates[i].name), gates[i]))
  }

  predicate RuleFault(f: Finding, declared: map<string, Gate>, loaded: map<string, LiveRule>) {
    && f.location in declared
    && match f.code
       case RuleAbsent => f.location !in loaded
       case RuleUnhealthy => f.location in loaded && loaded[f.location].health != RuleOk
       case _ => false
  }

  /** `_rule_findings`. */
  method RuleFindings(state: DesiredState, live: LiveState) returns (findings: seq<Finding>)
    ensures findings == [] <==> RulesAgree(state, live)
    ensures state.gates != [] && live.rules == [] ==> findings == [Finding(RulesNotRead, "live.rules")]
    ensures live.rules != [] ==>
              forall f :: f in findings
                <==> RuleFault(f, FromPairs(GatePairs(state.gates)), FromPairs(RulePairs(live.rules)))
  {
    findings := [];
    var declared, names := Build(GatePairs(state.gates));
    OrderIsKeys(GatePairs(state.gates));
    if state.gates == [] {
      return;
    }
    var loaded, _ := Build(RulePairs(live.rules));
    OrderIsKeys(RulePairs(live.rules));
    if live.rules == [] {
      assert state.gates[0] in state.gates;
      return [Finding(RulesNotRead, "live.rules")];
    }
    findings := GateFaults(names, declared, loaded);
    NoRuleFault(state, live, declared, loaded);
    if findings != [] {
      assert findings[0] in findings;
    }
  }

  /** Its loop over the gates' alerts. */
  method GateFaults(names: seq<string>, ghost declared: map<string, Gate>, loaded: map<string, LiveRule>)
    returns (findings: seq<Finding>)
    requires forall name :: name in names <==> name in declared
    ensures forall f :: f in findings <==> RuleFault(f, declared, loaded)
  {
    findings := [];
    for i := 0 to |names|
      invariant forall f :: f in findings <==> f.location in names[..i] && RuleFault(f, declared, loaded)
    {
      assert names[..i + 1] == names[..i] + [names[i]];
      var one := OneGate(names[i], declared, loaded);
      findings := findings + one;
    }
    assert names[..|names|] == names;
  }

  method OneGate(name: string, ghost declared: map<string, Gate>, loaded: map<string, LiveRule>)
    returns (findings: seq<Finding>)
    requires name in declared
    ensures forall f :: f in findings <==> f.location == name && RuleFault(f, declared, loaded)
  {
    if name !in loaded {
      return [Finding(RuleAbsent, name)];
    } else if loaded[name].health != RuleOk {
      return [Finding(RuleUnhealthy, name)];
    }
    return [];
  }

  lemma NoRuleFault(state: DesiredState, live: LiveState,
                    declared: map<string, Gate>, loaded: map<string, LiveRule>)
    requires declared == FromPairs(GatePairs(state.gates)) && loaded == FromPairs(RulePairs(live.rules))
    ensures (forall f :: !RuleFault(f, declared, loaded)) <==> RulesAgree(state, live)
  {
    OrderIsKeys(GatePairs(state.gates));
    if forall f :: !RuleFault(f, declared, loaded) {
      forall g | g in state.gates
        ensures MetaAlertName(g.name) in loaded && loaded[MetaAlertName(g.name)].health == RuleOk
      {
        var i :| 0 <= i < |state.gates| && state.gates[i] == g;
        assert GatePairs(state.gates)[i].0 == MetaAlertName(g.name);
        assert !RuleFault(Finding(RuleAbsent, MetaAlertName(g.name)), declared, loaded);
        assert !RuleFault(Finding(RuleUnhealthy, MetaAlertName(g.name)), declared, loaded);
      }
    } else {
      var f :| RuleFault(f, declared, loaded);
      var i :| 0 <= i < |state.gates| && GatePairs(state.gates)[i].0 == f.location;
      var g := state.gates[i];
      assert g in state.gates && MetaAlertName(g.name) == f.location;
    }
  }
}
