/** `drift.py`: the desired tree, a read-back and the last receipt, compared pair by pair. */
module Drift {
  import opened Wrappers
  import opened Records
  import opened Digests
  import opened Dicts
  import opened LiveTree
  import opened LiveVerify
  import opened Receipt

  datatype DriftReport = DriftReport(
    desiredVsLive: seq<Finding>, liveVsReceipt: seq<Finding>, receiptVsDesired: seq<Finding>,
    incomparable: seq<Finding>)
  {
    function Findings(): seq<Finding> {
      incomparable + desiredVsLive + liveVsReceipt + receiptVsDesired
    }

    predicate Clean() {
      Findings() == []
    }
  }

  /** `str(release.get("current"))`: a receipt without a release block reads as the word `None`. */
  function RecordedRelease(r: Receipt): string {
    if r.release.Some? then r.release.value.current else "None"
  }

  predicate LiveMatchesReceipt(live: LiveState, r: Receipt) {
    && live.release.current == RecordedRelease(r)
    && r.live.Some?
    && r.live.value.rulesSemanticDigest == RulesSha(live.rules)
    && r.live.value.targetsUp == UpCount(live.targets)
    && r.live.value.routesVerified == |live.routes|
  }

  /** All three artifacts, and every fact two of them share is the same fact. */
  predicate Agreed(tree: Option<Tree>, live: Option<LiveState>, receipt: Option<Receipt>) {
    && tree.Some? && live.Some? && receipt.Some?
    && TreeAgrees(tree.value, live.value)
    && LiveMatchesReceipt(live.value, receipt.value)
    && receipt.value.renderedDigest == TreeSha(tree.value)
  }

  /** The path is on one side only, or on both with different bytes. */
  predicate Drifted(path: string, expected: map<string, Digest>, observed: map<string, Digest>) {
    if path in expected && path in observed then expected[path] != observed[path]
    else path in expected || path in observed
  }

  lemma NothingDrifted(expected: map<string, Digest>, observed: map<string, Digest>)
    ensures (forall p :: !Drifted(p, expected, observed)) <==> expected == observed
  {
    if forall p :: !Drifted(p, expected, observed) {
      forall p ensures p in expected <==> p in observed {
        assert !Drifted(p, expected, observed);
      }
      forall p | p in expected ensures expected[p] == observed[p] {
        assert !Drifted(p, expected, observed);
      }
    }
  }

  /** The two loops of `_desired_vs_live`. */
  method DriftedPaths(expected: map<string, Digest>, paths: seq<string>,
                      observed: map<string, Digest>, seen: seq<string>)
    returns (findings: seq<Finding>)
    requires forall p :: p in paths <==> p in expected
    requires forall p :: p in seen <==> p in observed
    ensures forall f :: f in findings <==> f.code == DriftDesiredLive && Drifted(f.location, expected, observed)
  {
    findings := [];
    for i := 0 to |paths|
      invariant forall f :: f in findings
                  <==> f.code == DriftDesiredLive && f.location in paths[..i] && Drifted(f.location, expected, observed)
    {
      assert paths[..i + 1] == paths[..i] + [paths[i]];
      if paths[i] !in observed {
        findings := findings + [Finding(DriftDesiredLive, paths[i])];
      } else if observed[paths[i]] != expected[paths[i]] {
        findings := findings + [Finding(DriftDesiredLive, paths[i])];
      }
    }
    assert paths[..|paths|] == paths;
    for i := 0 to |seen|
      invariant forall f :: f in findings
                  <==> && f.code == DriftDesiredLive && Drifted(f.location, expected, observed)
                       && (f.location in paths || f.location in seen[..i])
    {
      assert seen[..i + 1] == seen[..i] + [seen[i]];
      if seen[i] !in expected {
        findings := findings + [Finding(DriftDesiredLive, seen[i])];
      }
    }
    assert seen[..|seen|] == seen;
  }

  /** `_desired_vs_live`: the verifier's tree comparison, spelled again with one code. */
  method DesiredVsLive(tree: Tree, live: LiveState) returns (findings: seq<Finding>)
    ensures findings == [] <==> TreeAgrees(tree, live)
    ensures live.tree != [] ==>
              forall path :: Finding(DriftDesiredLive, path) in findings
                <==> Drifted(path, FromPairs(ExpectedPairs(tree)), FromPairs(ObservedPairs(live.tree)))
  {
    if live.tree == [] {
      return [Finding(DriftLiveTreeNotRead, "live.tree")];
    }
    var expected, paths := Build(ExpectedPairs(tree));
    var observed, seen := Build(ObservedPairs(live.tree));
    findings := DriftedPaths(expected, paths, observed, seen);
    NothingDrifted(expected, observed);
    if findings != [] {
      assert findings[0] in findings;
    } else {
      forall p ensures !Drifted(p, expected, observed) {
        assert Finding(DriftDesiredLive, p) !in findings;
      }
    }
  }

  /** `_live_vs_receipt`: only what a receipt holds can be compared with it. */
  method LiveVsReceipt(live: LiveState, r: Receipt) returns (findings: seq<Finding>)
    ensures findings == [] <==> LiveMatchesReceipt(live, r)
    ensures Finding(DriftLiveReceipt, "release.current") in findings
       <==> live.release.current != RecordedRelease(r)
  {
    findings := [];
    if live.release.current != RecordedRelease(r) {
      findings := findings + [Finding(DriftLiveReceipt, "release.current")];
    }
    var digest := RulesSemanticDigest(live);
    if r.live.None? || r.live.value.rulesSemanticDigest != digest {
      findings := findings + [Finding(DriftLiveReceipt, "live.rules_semantic_digest")];
    }
    var up := 0;
    for i := 0 to |live.targets|
      invariant up == UpCount(live.targets[..i])
    {
      assert live.targets[..i + 1][..i] == live.targets[..i];
      up := up + if live.targets[i].health == Up then 1 else 0;
    }
    assert live.targets[..|live.targets|] == live.targets;
    if r.live.None? || up != r.live.value.targetsUp {
      findings := findings + [Finding(DriftLiveReceipt, "live.targets_up")];
    }
    if r.live.None? || |live.routes| != r.live.value.routesVerified {
      findings := findings + [Finding(DriftLiveReceipt, "live.routes_verified")];
    }
  }

  /** `compare`: clean exactly when nothing was missing and nothing disagreed. */
  method Compare(tree: Option<Tree>, live: Option<LiveState>, receipt: Option<Receipt>)
    returns (report: DriftReport)
    ensures report.Clean() <==> Agreed(tree, live, receipt)
    ensures report.incomparable == [] <==> tree.Some? && live.Some? && receipt.Some?
    ensures tree.Some? && live.Some? ==> (report.desiredVsLive == [] <==> TreeAgrees(tree.value, live.value))
    ensures live.Some? && receipt.Some? ==>
              (report.liveVsReceipt == [] <==> LiveMatchesReceipt(live.value, receipt.value))
    ensures tree.Some? && receipt.Some? ==>
              (report.receiptVsDesired == [] <==> receipt.value.renderedDigest == TreeSha(tree.value))
  {
    var incomparable, desiredVsLive, liveVsReceipt, receiptVsDesired: seq<Finding> := [], [], [], [];
    if tree.None? {
      incomparable := incomparable + [Finding(DriftIncomparable, "desired")];
    }
    if live.None? {
      incomparable := incomparable + [Finding(DriftIncomparable, "live")];
    }
    if receipt.None? {
      incomparable := incomparable + [Finding(DriftIncomparable, "receipt")];
    }
    if tree.Some? && live.Some? {
      desiredVsLive := DesiredVsLive(tree.value, live.value);
    }
    if live.Some? && receipt.Some? {
      liveVsReceipt := LiveVsReceipt(live.value, receipt.value);
    }
    if tree.Some? && receipt.Some? {
      var expected := TreeDigest(tree.value);
      if receipt.value.renderedDigest != expected {
        receiptVsDesired := [Finding(DriftReceiptDesired, "rendered_digest")];
      }
    }
    report := DriftReport(desiredVsLive, liveVsReceipt, receiptVsDesired, incomparable);
  }

  /** The receipt of a promotion that verified agrees with the tree it rendered and the host it read
      back, whatever else the receipt records. */
  lemma VerifiedIsAgreed(q: Question, x: Inputs, outcome: Outcome)
    requires Answerable(q) && Deployed(q) && x.state == q.state && x.tree == q.tree
    ensures Agreed(Some(q.tree), Some(q.live), Some(ReceiptOf(outcome, x, Some(q.live))))
  {
    assert Holds(1, q);
  }

  /** What a later clean comparison proves about the promotion that filed the receipt: the same files
      in the same order, the same release, the same rules counted with repetition, as many targets
      up and as many routes. */
  lemma CleanMeansUnchanged(x: Inputs, then_: LiveState, tree: Tree, now: LiveState)
    requires Framable(x.tree) && Framable(tree)
    requires RulesFramable(then_.rules) && RulesFramable(now.rules)
    ensures Agreed(Some(tree), Some(now), Some(ReceiptOf(Accepted, x, Some(then_))))
       <==> && tree == x.tree
            && TreeAgrees(x.tree, now)
            && now.release.current == then_.release.current
            && (forall group, name :: Loaded(now.rules, group, name) == Loaded(then_.rules, group, name))
            && |UpPlaces(now.targets)| == |UpPlaces(then_.targets)|
            && |now.routes| == |then_.routes|
  {
    TreeShaDetermines(x.tree, tree);
    RulesShaDetermines(then_.rules, now.rules);
    UpCountMeans(now.targets);
    UpCountMeans(then_.targets);
  }
}
