/** `live_verify.py`, condition 1: the observation is of the right host, and the whole rendered tree
    is what that host runs. */
module LiveTree {
  import opened Records
  import opened Digests
  import opened Dicts

  function ExpectedPairs(tree: Tree): seq<(string, Digest)> {
    seq(|tree|, i requires 0 <= i < |tree| => (tree[i].0, FileSha(tree[i].1)))
  }

  function ObservedPairs(entries: seq<TreeEntry>): seq<(string, Digest)> {
    seq(|entries|, i requires 0 <= i < |entries| => (entries[i].path, entries[i].sha256))
  }

  /** The host holds exactly the rendered files, byte for byte, and the read-back listed some. */
  predicate TreeAgrees(tree: Tree, live: LiveState) {
    live.tree != [] && FromPairs(ExpectedPairs(tree)) == FromPairs(ObservedPairs(live.tree))
  }

  /** The complaints two path-to-digest maps give rise to. */
  predicate TreeFault(f: Finding, expected: map<string, Digest>, observed: map<string, Digest>) {
    var p := f.location;
    match f.code
    case TreeMissing => p in expected && p !in observed
    case TreeDiffers => p in expected && p in observed && observed[p] != expected[p]
    case TreeUnexpected => p in observed && p !in expected
    case _ => false
  }

  lemma NoTreeFault(expected: map<string, Digest>, observed: map<string, Digest>)
    ensures (forall f :: !TreeFault(f, expected, observed)) <==> expected == observed
  {
    if forall f :: !TreeFault(f, expected, observed) {
      forall p ensures p in expected <==> p in observed {
        assert !TreeFault(Finding(TreeMissing, p), expected, observed);
        assert !TreeFault(Finding(TreeUnexpected, p), expected, observed);
      }
      forall p | p in expected ensures expected[p] == observed[p] {
        assert !TreeFault(Finding(TreeDiffers, p), expected, observed);
      }
    }
  }

  /** The first loop of `_tree_findings`: every expected path is there and as rendered. */
  method ExpectedFindings(paths: seq<string>, expected: map<string, Digest>, observed: map<string, Digest>)
    returns (findings: seq<Finding>)
    requires forall p :: p in paths <==> p in expected
    ensures forall f :: f in findings <==> f.code != TreeUnexpected && TreeFault(f, expected, observed)
  {
    findings := [];
    for i := 0 to |paths|
      invariant forall f :: f in findings
                  <==> f.code != TreeUnexpected && f.location in paths[..i] && TreeFault(f, expected, observed)
    {
      assert paths[..i + 1] == paths[..i] + [paths[i]];
      var one := ExpectedPath(paths[i], expected, observed);
      findings := findings + one;
    }
    assert paths[..|paths|] == paths;
  }

  method ExpectedPath(path: string, expected: map<string, Digest>, observed: map<string, Digest>)
    returns (findings: seq<Finding>)
    requires path in expected
    ensures forall f :: f in findings <==> f.code != TreeUnexpected && f.location == path && TreeFault(f, expected, observed)
  {
    if path !in observed {
      return [Finding(TreeMissing, path)];
    } else if observed[path] != expected[path] {
      return [Finding(TreeDiffers, path)];
    }
    return [];
  }

  /** The second loop: nothing else is there. */
  method UnexpectedFindings(seen: seq<string>, expected: map<string, Digest>, observed: map<string, Digest>)
    returns (findings: seq<Finding>)
    requires forall p :: p in seen <==> p in observed
    ensures forall f :: f in findings <==> f.code == TreeUnexpected && TreeFault(f, expected, observed)
  {
    findings := [];
    for i := 0 to |seen|
      invariant forall f :: f in findings
                  <==> f.code == TreeUnexpected && f.location in seen[..i] && TreeFault(f, expected, observed)
    {
      assert seen[..i + 1] == seen[..i] + [seen[i]];
      if seen[i] !in expected {
        findings := findings + [Finding(TreeUnexpected, seen[i])];
      }
    }
    assert seen[..|seen|] == seen;
  }

  /** `_tree_findings`. Silent exactly when the trees agree; otherwise it names every path that is
      missing, different or unexpected, and nothing else. */
  method TreeFindings(tree: Tree, live: LiveState) returns (findings: seq<Finding>)
    ensures findings == [] <==> TreeAgrees(tree, live)
    ensures live.tree == [] ==> findings == [Finding(TreeNotRead, "live.tree")]
    ensures live.tree != [] ==>
              forall f :: f in findings
                <==> TreeFault(f, FromPairs(ExpectedPairs(tree)), FromPairs(ObservedPairs(live.tree)))
  {
    if live.tree == [] {
      return [Finding(TreeNotRead, "live.tree")];
    }
    var expected, paths := Build(ExpectedPairs(tree));
    var observed, seen := Build(ObservedPairs(live.tree));
    var wrong := ExpectedFindings(paths, expected, observed);
    var extra := UnexpectedFindings(seen, expected, observed);
    findings := wrong + extra;
    NoTreeFault(expected, observed);
    if findings != [] {
      assert findings[0] in findings;
    }
  }

  /** `_identity_findings`. */
  method IdentityFindings(state: DesiredState, live: LiveState) returns (findings: seq<Finding>)
    ensures findings == [] <==> live.environment == state.environment && live.hostTargetId == state.hostTarget
    ensures Finding(ObservationEnvironment, live.environment) in findings
            <==> live.environment != state.environment
    ensures Finding(ObservationHost, live.hostTargetId) in findings
            <==> live.hostTargetId != state.hostTarget
  {
    findings := [];
    if live.environment != state.environment {
      findings := findings + [Finding(ObservationEnvironment, live.environment)];
    }
    if live.hostTargetId != state.hostTarget {
      findings := findings + [Finding(ObservationHost, live.hostTargetId)];
    }
  }
}
