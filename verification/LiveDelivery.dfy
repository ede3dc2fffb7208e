/** `live_verify.py`, conditions 4 and 6: the canary reached its receiver, and the rollback restored
    the bytes of the release before. */
module LiveDelivery {
  import opened Wrappers
  import opened Records
  import opened Dicts

  function RoutePairs(routes: seq<Route>): seq<(string, string)> {
    seq(|routes|, i requires 0 <= i < |routes| => (routes[i].identifier, routes[i].receiver))
  }

  function LiveRoutePairs(routes: seq<LiveRoute>): seq<(string, string)> {
    seq(|routes|, i requires 0 <= i < |routes| => (routes[i].identifier, routes[i].receiver))
  }

  predicate RoutesAgree(state: DesiredState, live: LiveState) {
    var declared, observed := FromPairs(RoutePairs(state.routes)), FromPairs(LiveRoutePairs(live.routes));
    forall r :: r in declared ==> r in observed && observed[r] == declared[r]
  }

  /** Fired, sent to a declared receiver, seen arriving there with a reference, and cleared. */
  predicate CanaryProved(state: DesiredState, live: LiveState) {
    && live.canary.fired
    && (exists r :: r in state.receivers && r.name == live.canary.receiver)
    && live.canary.delivered && live.canary.evidence.Some?
    && live.canary.recovered
  }

  predicate DeliveryProved(state: DesiredState, live: LiveState) {
    RoutesAgree(state, live) && CanaryProved(state, live)
  }

  predicate RouteFault(f: Finding, declared: map<string, string>, observed: map<string, string>) {
    && f.location in declared
    && match f.code
       case RouteAbsent => f.location !in observed
       case RouteReceiverDiffers => f.location in observed && observed[f.location] != declared[f.location]
       case _ => false
  }

  /** The route half of `_delivery_findings`. A route nobody declared is not reported. */
  method RouteFindings(state: DesiredState, live: LiveState) returns (findings: seq<Finding>)
    ensures findings == [] <==> RoutesAgree(state, live)
    ensures forall f :: f in findings && f.code != RoutesNotRead
              <==> RouteFault(f, FromPairs(RoutePairs(state.routes)), FromPairs(LiveRoutePairs(live.routes)))
  {
    var declared, ids := Build(RoutePairs(state.routes));
    var observed, seen := Build(LiveRoutePairs(live.routes));
    var unread := ids != [] && seen == [];
    var faults := RouteFaults(declared, ids, observed);
    if unread {
      assert ids[0] in declared && ids[0] !in observed;
    }
    findings := (if unread then [Finding(RoutesNotRead, "live.routes")] else []) + faults;
  }

  method RouteFaults(declared: map<string, string>, ids: seq<string>, observed: map<string, string>)
    returns (findings: seq<Finding>)
    requires forall r :: r in ids <==> r in declared
    ensures forall f :: f in findings <==> RouteFault(f, declared, observed)
    ensures findings == [] <==> forall r :: r in declared ==> r in observed && observed[r] == declared[r]
  {
    findings := [];
    for i := 0 to |ids|
      invariant forall f :: f in findings <==> f.location in ids[..i] && RouteFault(f, declared, observed)
    {
      assert ids[..i + 1] == ids[..i] + [ids[i]];
      var one := OneRoute(ids[i], declared, observed);
      findings := findings + one;
    }
    assert ids[..|ids|] == ids;
    if findings == [] {
      forall r | r in declared ensures r in observed && observed[r] == declared[r] {
        assert !RouteFault(Finding(RouteAbsent, r), declared, observed);
        assert !RouteFault(Finding(RouteReceiverDiffers, r), declared, observed);
      }
    } else {
      assert findings[0] in findings;
    }
  }

  method OneRoute(id: string, declared: map<string, string>, observed: map<string, string>) returns (findings: seq<Finding>)
    requires id in declared
    ensures forall f :: f in findings <==> f.location == id && RouteFault(f, declared, observed)
  {
    if id !in observed {
      return [Finding(RouteAbsent, id)];
    } else if observed[id] != declared[id] {
      return [Finding(RouteReceiverDiffers, id)];
    }
    return [];
  }

  /** The canary half of `_delivery_findings`. */
  method CanaryFindings(state: DesiredState, live: LiveState) returns (findings: seq<Finding>)
    ensures findings == [] <==> CanaryProved(state, live)
    ensures var c := live.canary;
            && (Finding(CanaryNotFired, c.receiver) in findings <==> !c.fired)
            && (Finding(CanaryReceiverUndeclared, c.receiver) in findings
                <==> forall r :: r in state.receivers ==> r.name != c.receiver)
            && (Finding(CanaryNotDelivered, c.receiver) in findings <==> !c.delivered)
            && (Finding(CanaryDeliveryUnproven, c.receiver) in findings <==> c.delivered && c.evidence.None?)
            && (Finding(CanaryNotRecovered, c.receiver) in findings <==> !c.recovered)
  {
    var canary := live.canary;
    findings := [];
    if !canary.fired {
      findings := [Finding(CanaryNotFired, canary.receiver)];
    }
    var known := IsReceiver(state.receivers, canary.receiver);
    if !known {
      findings := findings + [Finding(CanaryReceiverUndeclared, canary.receiver)];
    }
    if !canary.delivered {
      findings := findings + [Finding(CanaryNotDelivered, canary.receiver)];
    } else if canary.evidence.None? {
      findings := findings + [Finding(CanaryDeliveryUnproven, canary.receiver)];
    }
    if !canary.recovered {
      findings := findings + [Finding(CanaryNotRecovered, canary.receiver)];
    }
  }

  method IsReceiver(receivers: seq<Receiver>, name: string) returns (known: bool)
    ensures known <==> exists r :: r in receivers && r.name == name
  {
    for i := 0 to |receivers|
      invariant forall k :: 0 <= k < i ==> receivers[k].name != name
    {
      if receivers[i].name == name {
        return true;
      }
    }
    return false;
  }

  // --------------------------------------------------------- condition 6: rollback

  predicate RollbackProved(live: LiveState, previousDigest: Option<Digest>, firstPromotion: bool) {
    && live.rollback.Some?
    && var r := live.rollback.value;
       && r.exercised && r.succeeded
       && (firstPromotion
           || (r.restoredRelease.Some? && previousDigest.Some? && r.restoredDigest == previousDigest))
  }

  const DIGEST_FAULTS: set<Code> :=
    {RollbackBaselineAbsent, RollbackDigestMismatch, RollbackRestoredNothing, RollbackOrderUnknown}

  /** Why the restored bytes do not prove the restore, if they do not. */
  function DigestFault(r: LiveRollback, previousDigest: Option<Digest>): Option<Code> {
    if previousDigest.None? then Some(RollbackBaselineAbsent)
    else if r.restoredDigest == previousDigest then None
    else if r.restoredDigest.Some? then Some(RollbackDigestMismatch)
    else if r.digestAbsence == Some(NothingRestored) then Some(RollbackRestoredNothing)
    else Some(RollbackOrderUnknown)
  }

  /** `_rollback_findings`. */
  method RollbackFindings(live: LiveState, previousDigest: Option<Digest>, firstPromotion: bool)
    returns (findings: seq<Finding>)
    ensures findings == [] <==> RollbackProved(live, previousDigest, firstPromotion)
    ensures var at, r := live.release.current, live.rollback;
            && (Finding(RollbackNotExercised, at) in findings <==> r.None? || !r.value.exercised)
            && (r.Some? && r.value.exercised ==>
                  && (Finding(RollbackFailed, at) in findings <==> !r.value.succeeded)
                  && (Finding(RollbackTargetAbsent, at) in findings
                      <==> !firstPromotion && r.value.restoredRelease.None?)
                  && (forall code :: code in DIGEST_FAULTS ==>
                        (Finding(code, at) in findings
                         <==> !firstPromotion && DigestFault(r.value, previousDigest) == Some(code))))
  {
    var at := live.release.current;
    findings := [];
    if live.rollback.None? || !live.rollback.value.exercised {
      return [Finding(RollbackNotExercised, at)];
    }
    var rollback := live.rollback.value;
    if !rollback.succeeded {
      findings := [Finding(RollbackFailed, at)];
    }
    if firstPromotion {
      return;
    }
    if rollback.restoredRelease.None? {
      findings := findings + [Finding(RollbackTargetAbsent, at)];
    }
    if previousDigest.None? {
      findings := findings + [Finding(RollbackBaselineAbsent, at)];
    } else if rollback.restoredDigest.None? {
      if rollback.digestAbsence == Some(NothingRestored) {
        findings := findings + [Finding(RollbackRestoredNothing, at)];
      } else {
        findings := findings + [Finding(RollbackOrderUnknown, at)];
      }
    } else if rollback.restoredDigest != previousDigest {
      findings := findings + [Finding(RollbackDigestMismatch, at)];
    }
  }
}
