/** What the verifier's statements say of a host, entry by entry, without its dictionaries. */
module LiveMeaning {
  import opened Wrappers
  import opened Records
  import opened Dicts
  import opened LiveTree
  import opened LiveTargets
  import opened LiveIntegrity
  import opened LiveDelivery
  import opened LiveProbes
  import opened Resolution
  import RenderLookups
  import SemanticGate
  import YamlTree

  // ----------------------------------------------------------------- condition 1: files

  /** No rendered path has two texts, and no observed one two digests. */
  predicate OneTextEach(tree: Tree, live: LiveState) {
    && (forall f, g :: f in tree && g in tree && f.0 == g.0 ==> f.1 == g.1)
    && (forall e, d :: e in live.tree && d in live.tree && e.path == d.path ==> e.sha256 == d.sha256)
  }

  lemma ExpectedMeans(tree: Tree)
    requires forall f, g :: f in tree && g in tree && f.0 == g.0 ==> f.1 == g.1
    ensures Agreeing(ExpectedPairs(tree))
    ensures forall f :: f in tree ==> (f.0, Sha256(f.1)) in ExpectedPairs(tree)
    ensures forall x :: x in ExpectedPairs(tree) ==> exists f :: f in tree && x == (f.0, Sha256(f.1))
  {
    var pairs := ExpectedPairs(tree);
    forall i | 0 <= i < |tree| ensures pairs[i] == (tree[i].0, Sha256(tree[i].1)) && pairs[i] in pairs && tree[i] in tree {
    }
  }

  lemma ObservedMeans(live: LiveState)
    requires forall e, d :: e in live.tree && d in live.tree && e.path == d.path ==> e.sha256 == d.sha256
    ensures Agreeing(ObservedPairs(live.tree))
    ensures forall e :: e in live.tree ==> (e.path, e.sha256) in ObservedPairs(live.tree)
    ensures forall x :: x in ObservedPairs(live.tree) ==> TreeEntry(x.0, x.1) in live.tree
  {
    var pairs := ObservedPairs(live.tree);
    forall i | 0 <= i < |live.tree|
      ensures pairs[i] == (live.tree[i].path, live.tree[i].sha256) && pairs[i] in pairs && live.tree[i] in live.tree
    {
    }
  }

  lemma SameDictionary<K, V>(a: seq<(K, V)>, b: seq<(K, V)>)
    requires Agreeing(a) && Agreeing(b)
    ensures FromPairs(a) == FromPairs(b)
       <==> (forall x :: x in a ==> x in b) && forall x :: x in b ==> exists y :: y in a && y.0 == x.0
  {
    AgreeingPairs(a);
    AgreeingPairs(b);
  }

  /** Every rendered file is observed with the digest of its bytes, and nothing else is. */
  lemma TreeMeans(tree: Tree, live: LiveState)
    requires OneTextEach(tree, live)
    ensures TreeAgrees(tree, live)
       <==> && live.tree != []
            && (forall f :: f in tree ==> TreeEntry(f.0, Sha256(f.1)) in live.tree)
            && (forall e :: e in live.tree ==> exists f :: f in tree && f.0 == e.path)
  {
    var expected, observed := ExpectedPairs(tree), ObservedPairs(live.tree);
    ExpectedMeans(tree);
    ObservedMeans(live);
    SameDictionary(expected, observed);
    if TreeAgrees(tree, live) {
      forall f | f in tree ensures TreeEntry(f.0, Sha256(f.1)) in live.tree {
        assert (f.0, Sha256(f.1)) in observed;
      }
      forall e | e in live.tree ensures exists f :: f in tree && f.0 == e.path {
        assert (e.path, e.sha256) in observed;
      }
    }
  }

  // --------------------------------------------------------- condition 2: targets and rules

  /** The scrape jobs are those of the target sets. */
  lemma {:induction false} JobsMean(targets: seq<TargetSet>)
    ensures forall j :: j in Jobs(targets) <==> exists t :: t in targets && j in t.jobs
  {
    if targets != [] {
      var n := |targets| - 1;
      JobsMean(targets[..n]);
      assert targets == targets[..n] + [targets[n]];
    }
  }

  /** No job or federation has the name of another. */
  predicate NamesDiffer(state: DesiredState) {
    var jobs, federations := Jobs(state.targets), state.federations;
    && (forall i, k :: 0 <= i < k < |jobs| ==> jobs[i].job != jobs[k].job)
    && (forall i, k :: 0 <= i < k < |federations| ==> federations[i].name != federations[k].name)
    && (forall j, f :: j in jobs && f in federations ==> j.job != f.name)
  }

  /** How many targets a job is to have: what it states, or else what it resolved to. */
  function Wanted(j: ScrapeJob, endpoints: Endpoints): nat
    requires j.expected.None? ==> j.job in endpoints
  {
    match j.expected
    case Some(n) => n
    case None => endpoints[j.job]
  }

  /** There are exactly that many live targets of the name, all of them up. */
  predicate Scraped(live: LiveState, name: string, n: nat) {
    |OfJob(live.targets, name)| == n > 0 && forall t :: t in live.targets && t.job == name ==> t.health == Up
  }

  lemma DeclaredPlaces(jobs: seq<ScrapeJob>, federations: seq<Federation>, endpoints: Endpoints)
    requires forall j :: j in jobs ==> j.job in endpoints
    ensures var pairs := DeclaredPairs(jobs, federations, endpoints);
            && (forall i :: 0 <= i < |jobs| ==> jobs[i] in jobs && pairs[i] == (jobs[i].job, Wanted(jobs[i], endpoints)))
            && (forall i :: |jobs| <= i < |pairs| ==> pairs[i] == (federations[i - |jobs|].name, 1))
  {
  }

  lemma DeclaredMembers(jobs: seq<ScrapeJob>, federations: seq<Federation>, endpoints: Endpoints)
    requires forall j :: j in jobs ==> j.job in endpoints
    ensures var pairs := DeclaredPairs(jobs, federations, endpoints);
            && (forall j :: j in jobs ==> (j.job, Wanted(j, endpoints)) in pairs)
            && (forall f :: f in federations ==> (f.name, 1) in pairs)
            && (forall x :: x in pairs ==>
                  || (exists j :: j in jobs && x == (j.job, Wanted(j, endpoints)))
                  || (exists f :: f in federations && x == (f.name, 1)))
  {
    var pairs := DeclaredPairs(jobs, federations, endpoints);
    DeclaredPlaces(jobs, federations, endpoints);
    forall j | j in jobs ensures (j.job, Wanted(j, endpoints)) in pairs {
      var i :| 0 <= i < |jobs| && jobs[i] == j;
      assert pairs[i] in pairs;
    }
    forall f | f in federations ensures (f.name, 1) in pairs {
      var i :| 0 <= i < |federations| && federations[i] == f;
      assert pairs[|jobs| + i] in pairs;
    }
    forall x | x in pairs
      ensures (exists j :: j in jobs && x == (j.job, Wanted(j, endpoints))) || exists f :: f in federations && x == (f.name, 1)
    {
      var i :| 0 <= i < |pairs| && pairs[i] == x;
      if i >= |jobs| {
        assert federations[i - |jobs|] in federations;
      }
    }
  }

  lemma DeclaredAgree(state: DesiredState, endpoints: Endpoints)
    requires JobsResolved(state, endpoints) && NamesDiffer(state)
    ensures Agreeing(DeclaredPairs(Jobs(state.targets), state.federations, endpoints))
  {
    var jobs, federations := Jobs(state.targets), state.federations;
    var pairs := DeclaredPairs(jobs, federations, endpoints);
    DeclaredPlaces(jobs, federations, endpoints);
    forall i, k | 0 <= i < k < |pairs| ensures pairs[i].0 != pairs[k].0 {
      if k < |jobs| {
        assert jobs[i].job != jobs[k].job;
      } else if i < |jobs| {
        assert jobs[i] in jobs && federations[k - |jobs|] in federations;
      } else {
        assert federations[i - |jobs|].name != federations[k - |jobs|].name;
      }
    }
  }

  lemma DeclaredMeans(state: DesiredState, endpoints: Endpoints)
    requires JobsResolved(state, endpoints) && NamesDiffer(state)
    ensures var pairs := DeclaredPairs(Jobs(state.targets), state.federations, endpoints);
            && Agreeing(pairs)
            && (forall j :: j in Jobs(state.targets) ==> (j.job, Wanted(j, endpoints)) in pairs)
            && (forall f :: f in state.federations ==> (f.name, 1) in pairs)
            && (forall x :: x in pairs ==>
                  || (exists j :: j in Jobs(state.targets) && x == (j.job, Wanted(j, endpoints)))
                  || (exists f :: f in state.federations && x == (f.name, 1)))
  {
    DeclaredAgree(state, endpoints);
    DeclaredMembers(Jobs(state.targets), state.federations, endpoints);
  }

  lemma HealthyMeans(live: LiveState, name: string, n: nat)
    ensures JobHealthy(OfJob(live.targets, name), n) <==> Scraped(live, name, n)
  {
    OfJobMeans(live.targets, name);
  }

  /** Every name of the dictionary is scraped as it says. */
  predicate AllScraped(declared: map<string, nat>, live: LiveState) {
    forall name :: name in declared ==> Scraped(live, name, declared[name])
  }

  lemma HealthyIsScraped(declared: map<string, nat>, live: LiveState)
    ensures (forall job :: job in declared ==> JobHealthy(OfJob(live.targets, job), declared[job]))
       <==> AllScraped(declared, live)
  {
    forall name | name in declared
      ensures JobHealthy(OfJob(live.targets, name), declared[name]) <==> Scraped(live, name, declared[name])
    {
      HealthyMeans(live, name, declared[name]);
    }
  }

  lemma ScrapedPairs(pairs: seq<(string, nat)>, live: LiveState)
    requires Agreeing(pairs)
    ensures AllScraped(FromPairs(pairs), live) <==> forall x :: x in pairs ==> Scraped(live, x.0, x.1)
  {
    var declared := FromPairs(pairs);
    AgreeingPairs(pairs);
    if AllScraped(declared, live) {
      forall x | x in pairs ensures Scraped(live, x.0, x.1) {
        assert x.0 in declared && declared[x.0] == x.1;
      }
    }
    if forall x :: x in pairs ==> Scraped(live, x.0, x.1) {
      forall name | name in declared ensures Scraped(live, name, declared[name]) {
        assert (name, declared[name]) in pairs;
      }
    }
  }

  lemma HealthyPairsMean(pairs: seq<(string, nat)>, live: LiveState)
    requires Agreeing(pairs)
    ensures (forall job :: job in FromPairs(pairs) ==> JobHealthy(OfJob(live.targets, job), FromPairs(pairs)[job]))
       <==> forall x :: x in pairs ==> Scraped(live, x.0, x.1)
    ensures (forall t :: t in live.targets ==> t.job in FromPairs(pairs))
       <==> forall t :: t in live.targets ==> exists x :: x in pairs && x.0 == t.job
  {
    HealthyIsScraped(FromPairs(pairs), live);
    ScrapedPairs(pairs, live);
    AgreeingPairs(pairs);
    forall t | t in live.targets ensures t.job in FromPairs(pairs) <==> exists x :: x in pairs && x.0 == t.job {
      if t.job in FromPairs(pairs) {
        assert (t.job, FromPairs(pairs)[t.job]) in pairs;
      }
    }
  }

  /** The live target is one of the job's or of the federation's. */
  predicate DeclaredTarget(state: DesiredState, t: LiveTarget) {
    || (exists j :: j in Jobs(state.targets) && j.job == t.job)
    || (exists f :: f in state.federations && f.name == t.job)
  }

  /** Condition 2 about targets: every job is scraped at as many targets as it states, or at as many as
      its endpoints, every federation at one, all of them up, and nothing else is scraped. */
  lemma TargetsMean(state: DesiredState, endpoints: Endpoints, live: LiveState)
    requires JobsResolved(state, endpoints) && NamesDiffer(state)
    ensures TargetsAgree(state, endpoints, live)
       <==> && live.targets != []
            && (forall j :: j in Jobs(state.targets) ==> Scraped(live, j.job, Wanted(j, endpoints)))
            && (forall f :: f in state.federations ==> Scraped(live, f.name, 1))
            && (forall t :: t in live.targets ==> DeclaredTarget(state, t))
  {
    var pairs := DeclaredPairs(Jobs(state.targets), state.federations, endpoints);
    DeclaredMeans(state, endpoints);
    HealthyPairsMean(pairs, live);
    forall t | t in live.targets ensures (exists x :: x in pairs && x.0 == t.job) <==> DeclaredTarget(state, t) {
      NamedByPair(state, endpoints, t);
    }
  }

  lemma NamedByPair(state: DesiredState, endpoints: Endpoints, t: LiveTarget)
    requires JobsResolved(state, endpoints) && NamesDiffer(state)
    ensures (exists x :: x in DeclaredPairs(Jobs(state.targets), state.federations, endpoints) && x.0 == t.job)
       <==> DeclaredTarget(state, t)
  {
    DeclaredMeans(state, endpoints);
    if j :| j in Jobs(state.targets) && j.job == t.job {
      assert (j.job, Wanted(j, endpoints)) in DeclaredPairs(Jobs(state.targets), state.federations, endpoints);
    }
    if f :| f in state.federations && f.name == t.job {
      assert (f.name, 1) in DeclaredPairs(Jobs(state.targets), state.federations, endpoints);
    }
  }

  lemma TargetCountMeans(state: DesiredState, endpoints: Endpoints, live: LiveState, j: ScrapeJob)
    requires JobsResolved(state, endpoints) && NamesDiffer(state) && j in Jobs(state.targets)
    ensures TargetFault(Finding(TargetCount, j.job),
                        FromPairs(DeclaredPairs(Jobs(state.targets), state.federations, endpoints)), live.targets)
       <==> |OfJob(live.targets, j.job)| != 0 && |OfJob(live.targets, j.job)| != Wanted(j, endpoints)
  {
    var pairs := DeclaredPairs(Jobs(state.targets), state.federations, endpoints);
    DeclaredMeans(state, endpoints);
    AgreeingPairs(pairs);
    assert (j.job, Wanted(j, endpoints)) in pairs;
  }

  lemma DistinctNamesDiffer(state: DesiredState)
    requires Distinct(SemanticGate.Names(Jobs(state.targets), state.federations))
    ensures NamesDiffer(state)
  {
    var jobs, federations := Jobs(state.targets), state.federations;
    var names := SemanticGate.Names(jobs, federations);
    forall i, k | 0 <= i < k < |jobs| ensures jobs[i].job != jobs[k].job {
      assert names[i] != names[k];
    }
    forall i, k | 0 <= i < k < |federations| ensures federations[i].name != federations[k].name {
      assert names[|jobs| + i] != names[|jobs| + k];
    }
    forall j, f | j in jobs && f in federations ensures j.job != f.name {
      var i :| 0 <= i < |jobs| && jobs[i] == j;
      var k :| 0 <= k < |federations| && federations[k] == f;
      assert names[i] != names[|jobs| + k];
    }
  }

  /** What a job is to be scraped at, where the inventories say it. */
  function Reviewed(j: ScrapeJob, targets: Targets): nat
    requires j.expected.None? && j.publication.None? ==> j.targetId in targets
  {
    match (j.expected, j.publication)
    case (Some(n), _) => n
    case (None, Some(endpoints)) => |endpoints|
    case (None, None) => |targets[j.targetId].endpoints|
  }

  lemma WantedIsReviewed(state: DesiredState, i: Inventory, j: ScrapeJob)
    requires SemanticGate.PubliclySound(state) && Sound(state, i) && DatasourcesDeclared(state)
    requires j in Jobs(state.targets)
    ensures j.publication.None? ==> j.targetId in TargetsOf(i)
    ensures JobsResolved(state, RenderLookups.EndpointCounts(Resolved(state, i)))
    ensures Wanted(j, RenderLookups.EndpointCounts(Resolved(state, i))) == Reviewed(j, TargetsOf(i))
  {
    RenderLookups.PromotionIsFed(state, i);
    RenderLookups.EachJobKeepsItsOwn(state, i, j);
    assert JobSound(j, TargetsOf(i));
  }

  /** `_target_findings` over resolved inventories: a job is reported with the wrong number exactly when
      it is scraped at all and not at as many targets as it states, or, where it states none, at as many
      as its publication or its private binding lists. */
  method ResolvedTargetFindings(state: DesiredState, i: Inventory, live: LiveState) returns (findings: seq<Finding>)
    requires SemanticGate.PubliclySound(state) && Sound(state, i) && DatasourcesDeclared(state)
    ensures forall j :: j in Jobs(state.targets) ==>
              && (j.publication.None? ==> j.targetId in TargetsOf(i))
              && (Finding(TargetCount, j.job) in findings
                  <==> |OfJob(live.targets, j.job)| != 0 && |OfJob(live.targets, j.job)| != Reviewed(j, TargetsOf(i)))
  {
    var endpoints := RenderLookups.EndpointCounts(Resolved(state, i));
    RenderLookups.PromotionIsFed(state, i);
    DistinctNamesDiffer(state);
    findings := TargetFindings(state, endpoints, live);
    forall j | j in Jobs(state.targets)
      ensures (j.publication.None? ==> j.targetId in TargetsOf(i))
      ensures Finding(TargetCount, j.job) in findings
         <==> |OfJob(live.targets, j.job)| != 0 && |OfJob(live.targets, j.job)| != Reviewed(j, TargetsOf(i))
    {
      WantedIsReviewed(state, i, j);
      TargetCountMeans(state, endpoints, live, j);
    }
  }

  /** And condition 2 over resolved inventories, job by job. */
  lemma ResolvedTargetsMean(state: DesiredState, i: Inventory, live: LiveState, j: ScrapeJob)
    requires SemanticGate.PubliclySound(state) && Sound(state, i) && DatasourcesDeclared(state)
    requires j in Jobs(state.targets)
    ensures j.publication.None? ==> j.targetId in TargetsOf(i)
    ensures JobsResolved(state, RenderLookups.EndpointCounts(Resolved(state, i)))
    ensures TargetsAgree(state, RenderLookups.EndpointCounts(Resolved(state, i)), live) ==>
              Scraped(live, j.job, Reviewed(j, TargetsOf(i)))
  {
    WantedIsReviewed(state, i, j);
    DistinctNamesDiffer(state);
    TargetsMean(state, RenderLookups.EndpointCounts(Resolved(state, i)), live);
  }

  // --------------------------------------------------------------------- alert names

  /** `name.replace(".", "-")`. */
  function Dashed(name: string): string {
    if name == "" then "" else [if name[0] == '.' then '-' else name[0]] + Dashed(name[1..])
  }

  /** `split("-")`. */
  function Parts(name: string): (parts: seq<string>)
    ensures parts != []
  {
    if name == "" then [""]
    else if name[0] == '-' then [""] + Parts(name[1..])
    else [[name[0]] + Parts(name[1..])[0]] + Parts(name[1..])[1..]
  }

  /** `str.capitalize`, on ASCII. */
  function Capitalize(part: string): string {
    if part == "" then ""
    else [if 'a' <= part[0] <= 'z' then (part[0] as int - 32) as char else part[0]] + YamlTree.Lower(part[1..])
  }

  function Joined(parts: seq<string>): string {
    if parts == [] then "" else Capitalize(parts[0]) + Joined(parts[1..])
  }

  /** The alert the verifier looks for is the one the renderer names: the gate's parts between dots and
      dashes, each capitalised, joined. */
  lemma {:induction false} AlertNameIsParts(name: string)
    ensures MetaAlertName(name, true) == Joined(Parts(Dashed(name)))
    ensures MetaAlertName(name, false) == YamlTree.Lower(Parts(Dashed(name))[0]) + Joined(Parts(Dashed(name))[1..])
  {
    if name != "" {
      AlertNameIsParts(name[1..]);
      var rest := Parts(Dashed(name[1..]));
      if name[0] == '.' || name[0] == '-' {
        PartsAtDash(name, rest);
        NewPart(rest);
      } else {
        PartsAtLetter(name, rest);
        LongerPart(name[0], rest);
      }
    }
  }

  lemma PartsAtDash(name: string, rest: seq<string>)
    requires name != "" && (name[0] == '.' || name[0] == '-') && rest == Parts(Dashed(name[1..]))
    ensures Parts(Dashed(name)) == [""] + rest
  {
    assert Dashed(name)[1..] == Dashed(name[1..]);
  }

  lemma PartsAtLetter(name: string, rest: seq<string>)
    requires name != "" && name[0] != '.' && name[0] != '-' && rest == Parts(Dashed(name[1..]))
    ensures Parts(Dashed(name)) == [[name[0]] + rest[0]] + rest[1..]
  {
    assert Dashed(name)[1..] == Dashed(name[1..]);
  }

  lemma NewPart(rest: seq<string>)
    ensures Joined([""] + rest) == Joined(rest) && ([""] + rest)[1..] == rest && YamlTree.Lower("") == ""
  {
  }

  /** One more character in front of the first part. */
  lemma LongerPart(c: char, rest: seq<string>)
    requires rest != []
    ensures var longer := [[c] + rest[0]] + rest[1..];
            && Joined(longer) == [if IsLower(c) then (c as int - 32) as char else c] + (YamlTree.Lower(rest[0]) + Joined(rest[1..]))
            && YamlTree.Lower(longer[0]) == [if IsUpper(c) then (c as int + 32) as char else c] + YamlTree.Lower(rest[0])
            && longer[1..] == rest[1..]
  {
    var longer := [[c] + rest[0]] + rest[1..];
    assert longer[1..] == rest[1..] && longer[0][1..] == rest[0];
  }

  /** Condition 2 about rules, where no two loaded rules have one name: every gate's alert is loaded and
      evaluates. */
  lemma RulesMean(state: DesiredState, live: LiveState)
    requires forall r, o :: r in live.rules && o in live.rules && r.name == o.name ==> r == o
    ensures RulesAgree(state, live)
       <==> forall g :: g in state.gates ==>
              exists r :: r in live.rules && r.name == Joined(Parts(Dashed(g.name))) && r.health == RuleOk
  {
    var pairs := RulePairs(live.rules);
    forall i | 0 <= i < |live.rules| ensures pairs[i] == (live.rules[i].name, live.rules[i]) && live.rules[i] in live.rules && pairs[i] in pairs {
    }
    AgreeingPairs(pairs);
    forall g | g in state.gates
      ensures (MetaAlertName(g.name) in FromPairs(pairs) && FromPairs(pairs)[MetaAlertName(g.name)].health == RuleOk)
         <==> exists r :: r in live.rules && r.name == Joined(Parts(Dashed(g.name))) && r.health == RuleOk
    {
      AlertNameIsParts(g.name);
      if r :| r in live.rules && r.name == MetaAlertName(g.name) && r.health == RuleOk {
        assert (r.name, r) in pairs;
      }
    }
  }

  // ----------------------------------------------------------------- condition 3: counters

  /** No counter has two readings on one side. */
  predicate OneReadingEach(readings: seq<IntegrityReading>) {
    forall r, o :: r in readings && o in readings && r.counter == o.counter ==> r == o
  }

  lemma ReadingsMean(live: LiveState)
    requires OneReadingEach(live.integrity)
    ensures forall r :: r in live.integrity ==> r.counter in Readings(live) && Readings(live)[r.counter] == r
    ensures forall c :: c in Readings(live) ==> Readings(live)[c] in live.integrity && Readings(live)[c].counter == c
  {
    var pairs := ReadingPairs(live.integrity);
    forall i | 0 <= i < |live.integrity|
      ensures pairs[i] == (live.integrity[i].counter, live.integrity[i]) && live.integrity[i] in live.integrity && pairs[i] in pairs
    {
    }
    AgreeingPairs(pairs);
  }

  /** Condition 3: exactly the counters some gate asserts about are read; each was read at the baseline,
      not as zero, with the same value from the same process start; and the time between the two is no
      less than any gate's window. */
  lemma IntegrityMeans(state: DesiredState, live: LiveState, baseline: LiveState)
    requires OneReadingEach(live.integrity) && OneReadingEach(baseline.integrity)
    ensures IntegrityHolds(state, live, Some(baseline))
       <==> && (forall g, c :: g in state.gates && c in g.counters ==> exists r :: r in live.integrity && r.counter == c)
            && (forall r :: r in live.integrity ==>
                  && (exists g :: g in state.gates && r.counter in g.counters)
                  && r.value > 0 && r in baseline.integrity)
            && !baseline.observedAt.Unreadable? && !live.observedAt.Unreadable?
            && (baseline.observedAt.Naive? <==> live.observedAt.Naive?)
            && live.observedAt.at >= baseline.observedAt.at
            && forall g :: g in state.gates ==>
                 g.window.Some? && live.observedAt.at - baseline.observedAt.at >= g.window.value as real
  {
    CountersMean(state, live);
    ContinuityMeans(live, baseline);
  }

  lemma CountersMean(state: DesiredState, live: LiveState)
    requires OneReadingEach(live.integrity)
    ensures Readings(live).Keys == CounterSet(state.gates)
       <==> && (forall g, c :: g in state.gates && c in g.counters ==> exists r :: r in live.integrity && r.counter == c)
            && (forall r :: r in live.integrity ==> exists g :: g in state.gates && r.counter in g.counters)
  {
    ReadingsMean(live);
    var read, declared := Readings(live), CounterSet(state.gates);
    if read.Keys == declared {
      forall g, c | g in state.gates && c in g.counters ensures exists r :: r in live.integrity && r.counter == c {
        assert c in declared && c in read;
      }
      forall r | r in live.integrity ensures exists g :: g in state.gates && r.counter in g.counters {
        assert r.counter in read.Keys && r.counter in declared;
      }
    }
    if && (forall g, c :: g in state.gates && c in g.counters ==> exists r :: r in live.integrity && r.counter == c)
       && (forall r :: r in live.integrity ==> exists g :: g in state.gates && r.counter in g.counters) {
      forall c ensures c in read.Keys <==> c in declared {
        if c in read {
          assert read[c] in live.integrity;
        }
      }
    }
  }

  lemma ContinuityMeans(live: LiveState, baseline: LiveState)
    requires OneReadingEach(live.integrity) && OneReadingEach(baseline.integrity)
    ensures (forall c :: c in Readings(live) ==> c in Readings(baseline) && Continuous(Readings(baseline)[c], Readings(live)[c]))
       <==> forall r :: r in live.integrity ==> r.value > 0 && r in baseline.integrity
  {
    ReadingsMean(live);
    ReadingsMean(baseline);
    var read, based := Readings(live), Readings(baseline);
    if forall c :: c in read ==> c in based && Continuous(based[c], read[c]) {
      forall r | r in live.integrity ensures r.value > 0 && r in baseline.integrity {
        assert r.counter in read;
        assert based[r.counter] == r;
      }
    }
  }

  // ------------------------------------------------------------------ condition 4: routes

  /** Where no route has two receivers, on either side: every declared route is live and delivers where it
      is declared to. */
  lemma RoutesMean(state: DesiredState, live: LiveState)
    requires forall r, o :: r in state.routes && o in state.routes && r.identifier == o.identifier ==> r == o
    requires forall r, o :: r in live.routes && o in live.routes && r.identifier == o.identifier ==> r == o
    ensures RoutesAgree(state, live)
       <==> forall r :: r in state.routes ==> LiveRoute(r.identifier, r.receiver) in live.routes
  {
    DeclaredRoutes(state.routes);
    LiveRoutes(live.routes);
    var declared, observed := FromPairs(RoutePairs(state.routes)), FromPairs(LiveRoutePairs(live.routes));
    if RoutesAgree(state, live) {
      forall r | r in state.routes ensures LiveRoute(r.identifier, r.receiver) in live.routes {
        assert r.identifier in declared && observed[r.identifier] == r.receiver;
      }
    }
  }

  lemma DeclaredRoutes(routes: seq<Route>)
    requires forall r, o :: r in routes && o in routes && r.identifier == o.identifier ==> r == o
    ensures var m := FromPairs(RoutePairs(routes));
            && (forall r :: r in routes ==> r.identifier in m && m[r.identifier] == r.receiver)
            && (forall id :: id in m ==> Route(id, m[id]) in routes)
  {
    var pairs := RoutePairs(routes);
    forall i | 0 <= i < |routes|
      ensures pairs[i] == (routes[i].identifier, routes[i].receiver) && routes[i] in routes && pairs[i] in pairs
    {
    }
    AgreeingPairs(pairs);
  }

  lemma LiveRoutes(routes: seq<LiveRoute>)
    requires forall r, o :: r in routes && o in routes && r.identifier == o.identifier ==> r == o
    ensures var m := FromPairs(LiveRoutePairs(routes));
            && (forall r :: r in routes ==> r.identifier in m && m[r.identifier] == r.receiver)
            && (forall id :: id in m ==> LiveRoute(id, m[id]) in routes)
  {
    var pairs := LiveRoutePairs(routes);
    forall i | 0 <= i < |routes|
      ensures pairs[i] == (routes[i].identifier, routes[i].receiver) && routes[i] in routes && pairs[i] in pairs
    {
    }
    AgreeingPairs(pairs);
  }

  // ------------------------------------------------------------------ condition 5: probes

  /** The surface is on the family. */
  predicate On(s: Surface, family: Family) {
    s.family == DualStack || s.family == Only(family)
  }

  /** The probe of the surface on the family was made where its packets pass, saw what the exposure
      promises, and had a control that got through. */
  predicate Shows(s: Surface, family: Family, p: LiveProbe) {
    && p.surface == s.name && p.family == family
    && p.chain == (if s.kind == ContainerPublished && family == Ipv4 then DockerUser else Input)
    && p.expectation == p.outcome && p.outcome == (if s.exposure == Public then Reachable else Refused)
    && p.controlOutcome == Reachable && p.controlEvidence.Some?
  }

  lemma ProbesAre(probes: seq<LiveProbe>)
    requires forall p, o :: p in probes && o in probes && p.surface == o.surface && p.family == o.family ==> p == o
    ensures var m := FromPairs(ProbePairs(probes));
            && (forall p :: p in probes ==> (p.surface, p.family) in m && m[(p.surface, p.family)] == p)
            && (forall k :: k in m ==> m[k] in probes && (m[k].surface, m[k].family) == k)
  {
    var pairs := ProbePairs(probes);
    forall i | 0 <= i < |probes|
      ensures pairs[i] == ((probes[i].surface, probes[i].family), probes[i]) && probes[i] in probes && pairs[i] in pairs
    {
    }
    AgreeingPairs(pairs);
  }

  lemma OnFamily(s: Surface, family: Family)
    ensures family in FamiliesOf(s) <==> On(s, family)
  {
    assert [Ipv4, Ipv6][if family == Ipv4 then 0 else 1] == family;
  }

  lemma ProbedMeans(s: Surface, live: LiveState)
    requires forall p, o :: p in live.probes && o in live.probes && p.surface == o.surface && p.family == o.family ==> p == o
    ensures SurfaceProbed(s, FromPairs(ProbePairs(live.probes)))
       <==> forall family :: On(s, family) ==> exists p :: p in live.probes && Shows(s, family, p)
  {
    var seen := FromPairs(ProbePairs(live.probes));
    ProbesAre(live.probes);
    forall family
      ensures ((s.name, family) in seen && ProbeAgrees(s, family, seen[(s.name, family)]))
         <==> exists p :: p in live.probes && Shows(s, family, p)
    {
      if (s.name, family) in seen {
        AgreementMeans(s, family, seen[(s.name, family)]);
      }
    }
    forall family ensures family in FamiliesOf(s) <==> On(s, family) {
      OnFamily(s, family);
    }
  }

  /** Condition 5, where no slot was probed twice with two results: every declared surface was probed on
      every family it has and shows what it must, and nothing else was probed. */
  lemma ProbesMean(state: DesiredState, live: LiveState)
    requires forall p, o :: p in live.probes && o in live.probes && p.surface == o.surface && p.family == o.family ==> p == o
    ensures ProbesAgree(state, live)
       <==> && (forall s, family :: s in state.surfaces && On(s, family) ==> exists p :: p in live.probes && Shows(s, family, p))
            && (forall p :: p in live.probes ==> exists s :: s in state.surfaces && s.name == p.surface && On(s, p.family))
  {
    var seen := FromPairs(ProbePairs(live.probes));
    ProbesAre(live.probes);
    SlotsMean(state.surfaces);
    forall s | s in state.surfaces
      ensures SurfaceProbed(s, seen) <==> forall family :: On(s, family) ==> exists p :: p in live.probes && Shows(s, family, p)
    {
      ProbedMeans(s, live);
    }
    if ProbesAgree(state, live) {
      forall p | p in live.probes ensures exists s :: s in state.surfaces && s.name == p.surface && On(s, p.family) {
        assert (p.surface, p.family) in SlotSet(state.surfaces);
      }
    }
    if forall s :: s in state.surfaces ==> SurfaceProbed(s, seen) {
      forall k | k in SlotSet(state.surfaces) ensures k in seen {
        var s :| s in state.surfaces && s.name == k.0 && On(s, k.1);
        OnFamily(s, k.1);
        assert SurfaceProbed(s, seen);
      }
    }
  }

  lemma SlotsMean(surfaces: seq<Surface>)
    ensures forall k :: k in SlotSet(surfaces) <==> exists s :: s in surfaces && s.name == k.0 && On(s, k.1)
  {
    forall s, family | s in surfaces ensures family in FamiliesOf(s) <==> On(s, family) {
      OnFamily(s, family);
    }
  }
}
