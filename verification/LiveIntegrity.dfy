/** `live_verify.py`, condition 3: no rejected sample since a baseline that was not reset. */
module LiveIntegrity {
  import opened Wrappers
  import opened Records
  import opened Dicts

  /** Every counter some gate asserts about. */
  function CounterSet(gates: seq<Gate>): set<string> {
    set g, c | g in gates && c in g.counters :: c
  }

  /** `integrity_counters`: the same names, once each, in declaration order. */
  method IntegrityCounters(state: DesiredState) returns (found: seq<string>)
    ensures forall c :: c in found <==> c in CounterSet(state.gates)
    ensures forall i, j :: 0 <= i < j < |found| ==> found[i] != found[j]
  {
    found := [];
    for i := 0 to |state.gates|
      invariant forall c :: c in found <==> c in CounterSet(state.gates[..i])
      invariant forall k, l :: 0 <= k < l < |found| ==> found[k] != found[l]
    {
      var tokens := state.gates[i].counters;
      assert state.gates[..i + 1] == state.gates[..i] + [state.gates[i]];
      for t := 0 to |tokens|
        invariant forall c :: c in found <==> c in CounterSet(state.gates[..i]) || c in tokens[..t]
        invariant forall k, l :: 0 <= k < l < |found| ==> found[k] != found[l]
      {
        assert tokens[..t + 1] == tokens[..t] + [tokens[t]];
        if tokens[t] !in found {
          found := found + [tokens[t]];
        }
      }
      assert tokens[..|tokens|] == tokens;
    }
    assert state.gates[..|state.gates|] == state.gates;
  }

  function ReadingPairs(readings: seq<IntegrityReading>): seq<(string, IntegrityReading)> {
    seq(|readings|, i requires 0 <= i < |readings| => (readings[i].counter, readings[i]))
  }

  function Readings(live: LiveState): map<string, IntegrityReading> {
    FromPairs(ReadingPairs(live.integrity))
  }

  /** Two readings of a counter between which nothing happened to it. */
  predicate Continuous(before: IntegrityReading, after: IntegrityReading) {
    before.value != 0 && after.value == before.value && after.processStartTime == before.processStartTime
  }

  /** Two readable stamps of which exactly one has an offset: Python cannot subtract them. */
  predicate Mixed(a: Stamp, b: Stamp) {
    (a.Naive? && b.Aware?) || (a.Aware? && b.Naive?)
  }

  /** The `TypeError` of that subtraction, which no handler in the verifier expects. */
  datatype StampError = CannotSubtract

  /** `_elapsed_seconds`, where it returns. Two stamps without an offset are compared as they stand. */
  function Elapsed(earlier: Stamp, later: Stamp): Option<real>
    requires !Mixed(earlier, later)
  {
    if earlier.Unreadable? || later.Unreadable? then None else Some(later.at - earlier.at)
  }

  /** The reading is at least as late as the baseline and as every gate's window asks. */
  predicate WindowSpans(state: DesiredState, live: LiveState, baseline: LiveState) {
    && !Mixed(baseline.observedAt, live.observedAt)
    && var elapsed := Elapsed(baseline.observedAt, live.observedAt);
    && elapsed.Some? && elapsed.value >= 0.0
    && forall g :: g in state.gates ==> g.window.Some? && elapsed.value >= g.window.value as real
  }

  /** Condition 3 has no answer at all. */
  predicate IntegrityRaises(live: LiveState, baseline: Option<LiveState>) {
    baseline.Some? && Mixed(baseline.value.observedAt, live.observedAt)
  }

  predicate IntegrityHolds(state: DesiredState, live: LiveState, baseline: Option<LiveState>) {
    && baseline.Some?
    && var read, based := Readings(live), Readings(baseline.value);
    && read.Keys == CounterSet(state.gates)
    && (forall c :: c in read ==> c in based && Continuous(based[c], read[c]))
    && WindowSpans(state, live, baseline.value)
  }

  /** `_counter_findings`. */
  method CounterFindings(before: IntegrityReading, after: IntegrityReading) returns (findings: seq<Finding>)
    ensures findings == [] <==> Continuous(before, after)
    ensures forall f :: f in findings <==> CounterFault(f, before, after)
  {
    findings := [];
    if before.value == 0 {
      findings := findings + [Finding(IntegrityBaselineZero, after.counter)];
    }
    if after.processStartTime != before.processStartTime {
      findings := findings + [Finding(IntegrityProcessRestarted, after.counter)];
    }
    if after.value < before.value {
      findings := findings + [Finding(IntegrityCounterReset, after.counter)];
    } else if after.value > before.value {
      findings := findings + [Finding(IntegrityIncreased, after.counter)];
    }
    if findings != [] {
      assert findings[0] in findings;
    }
  }

  predicate CounterFault(f: Finding, before: IntegrityReading, after: IntegrityReading) {
    && f.location == after.counter
    && match f.code
       case IntegrityBaselineZero => before.value == 0
       case IntegrityProcessRestarted => after.processStartTime != before.processStartTime
       case IntegrityCounterReset => after.value < before.value
       case IntegrityIncreased => after.value > before.value
       case _ => false
  }

  /** `_window_findings`: the longest window asked for, against the time elapsed. */
  method WindowFindings(state: DesiredState, live: LiveState, baseline: LiveState)
    returns (r: Result<seq<Finding>, StampError>)
    ensures r.Err? <==> Mixed(baseline.observedAt, live.observedAt)
    ensures r.Ok? ==> (r.value == [] <==> WindowSpans(state, live, baseline))
    ensures r.Ok? ==> forall f :: f in r.value ==>
              f.code in {IntegrityWindowUnreadable, IntegrityWindowInverted, IntegrityWindowTooShort}
  {
    var findings := [];
    var required := 0;
    var unreadable := false;
    for i := 0 to |state.gates|
      invariant unreadable <==> exists k :: 0 <= k < i && state.gates[k].window.None?
      invariant required >= 0
      invariant forall k :: 0 <= k < i && state.gates[k].window.Some? ==> state.gates[k].window.value <= required
      invariant required == 0 || exists k :: 0 <= k < i && state.gates[k].window == Some(required)
    {
      var window := state.gates[i].window;
      if window.None? {
        unreadable := true;
      } else if window.value > required {
        required := window.value;
      }
    }
    if unreadable {
      findings := findings + [Finding(IntegrityWindowUnreadable, "gates")];
    }
    var elapsed := ElapsedSeconds(baseline.observedAt, live.observedAt);
    if elapsed.Err? {
      return Err(elapsed.error);
    }
    if elapsed.value.None? {
      return Ok(findings + [Finding(IntegrityWindowUnreadable, "observed_at")]);
    }
    if elapsed.value.value < 0.0 {
      return Ok(findings + [Finding(IntegrityWindowInverted, "observed_at")]);
    }
    if elapsed.value.value < required as real {
      findings := findings + [Finding(IntegrityWindowTooShort, "observed_at")];
    }
    return Ok(findings);
  }

  /** `_elapsed_seconds`: a stamp that cannot be read is caught, two that cannot be subtracted are not. */
  method ElapsedSeconds(earlier: Stamp, later: Stamp) returns (r: Result<Option<real>, StampError>)
    ensures r.Err? <==> Mixed(earlier, later)
    ensures r.Ok? ==> r.value == Elapsed(earlier, later)
  {
    if earlier.Unreadable? || later.Unreadable? {
      return Ok(None);
    }
    if earlier.Naive? != later.Naive? {
      return Err(CannotSubtract);
    }
    return Ok(Some(later.at - earlier.at));
  }

  /** `_integrity_findings`. The two sets of counters must be the same set. It raises exactly when there
      is a baseline and one of two readable stamps has an offset and the other has none. */
  method IntegrityFindings(state: DesiredState, live: LiveState, baseline: Option<LiveState>)
    returns (r: Result<seq<Finding>, StampError>)
    ensures r.Err? <==> IntegrityRaises(live, baseline)
    ensures r.Ok? ==> (r.value == [] <==> IntegrityHolds(state, live, baseline))
    ensures baseline.None? ==> r == Ok([Finding(IntegrityBaselineAbsent, "baseline")])
    ensures r.Ok? && baseline.Some? ==> forall c ::
              && (Finding(IntegrityCounterUnread, c) in r.value
                  <==> c in CounterSet(state.gates) && c !in Readings(live))
              && (Finding(IntegrityCounterUnwatched, c) in r.value
                  <==> c !in CounterSet(state.gates) && c in Readings(live))
  {
    if baseline.None? {
      return Ok([Finding(IntegrityBaselineAbsent, "baseline")]);
    }
    var declared := IntegrityCounters(state);
    var read, seen := Build(ReadingPairs(live.integrity));
    var based, _ := Build(ReadingPairs(baseline.value.integrity));
    var presence := PresenceFindings(declared, read, seen);
    var deltas := DeltaFindings(declared, read, based);
    var window := WindowFindings(state, live, baseline.value);
    if window.Err? {
      return Err(window.error);
    }
    assert forall f :: f in window.value ==> f.code != IntegrityCounterUnread && f.code != IntegrityCounterUnwatched;
    assert read.Keys == CounterSet(state.gates) <==> (forall c :: c in declared <==> c in read);
    r := Ok(presence + (deltas + window.value));
  }

  /** Declared and not read, then read and not declared. */
  method PresenceFindings(declared: seq<string>, read: map<string, IntegrityReading>, seen: seq<string>)
    returns (findings: seq<Finding>)
    requires forall c :: c in seen <==> c in read
    ensures findings == [] <==> forall c :: c in declared <==> c in read
    ensures forall f :: f in findings
              <==> || (f.code == IntegrityCounterUnread && f.location in declared && f.location !in read)
                   || (f.code == IntegrityCounterUnwatched && f.location in read && f.location !in declared)
  {
    findings := [];
    for i := 0 to |declared|
      invariant forall f :: f in findings
                  <==> f.code == IntegrityCounterUnread && f.location in declared[..i] && f.location !in read
    {
      assert declared[..i + 1] == declared[..i] + [declared[i]];
      if declared[i] !in read {
        findings := findings + [Finding(IntegrityCounterUnread, declared[i])];
      }
    }
    assert declared[..|declared|] == declared;
    for i := 0 to |seen|
      invariant forall f :: f in findings
                  <==> || (f.code == IntegrityCounterUnread && f.location in declared && f.location !in read)
                       || (f.code == IntegrityCounterUnwatched && f.location in seen[..i] && f.location !in declared)
    {
      assert seen[..i + 1] == seen[..i] + [seen[i]];
      if seen[i] !in declared {
        findings := findings + [Finding(IntegrityCounterUnwatched, seen[i])];
      }
    }
    assert seen[..|seen|] == seen;
    if findings != [] {
      assert findings[0] in findings;
    } else {
      forall c ensures c in declared <==> c in read {
        assert Finding(IntegrityCounterUnread, c) !in findings;
        assert Finding(IntegrityCounterUnwatched, c) !in findings;
      }
    }
  }

  /** The counters on both sides, compared reading by reading. */
  method DeltaFindings(declared: seq<string>, read: map<string, IntegrityReading>,
                       based: map<string, IntegrityReading>)
    returns (findings: seq<Finding>)
    ensures findings == []
       <==> forall c :: c in declared && c in read ==> c in based && Continuous(based[c], read[c])
    ensures forall f :: f in findings ==> f.code != IntegrityCounterUnread && f.code != IntegrityCounterUnwatched
  {
    findings := [];
    for i := 0 to |declared|
      invariant findings == []
        <==> forall k :: 0 <= k < i && declared[k] in read
               ==> declared[k] in based && Continuous(based[declared[k]], read[declared[k]])
      invariant forall f :: f in findings ==> f.code != IntegrityCounterUnread && f.code != IntegrityCounterUnwatched
    {
      var counter := declared[i];
      if counter !in read {
        continue;
      }
      if counter !in based {
        findings := findings + [Finding(IntegrityBaselineCounterAbsent, counter)];
        continue;
      }
      var more := CounterFindings(based[counter], read[counter]);
      findings := findings + more;
    }
  }

  // ------------------------------------------------------- what may have happened

  /** One thing that can happen to a counter: samples are rejected, or its process restarts and the
      counter with it. Every restart is later than the start it replaces. */
  datatype Event = Rejected(samples: nat) | Restarted(at: real)

  datatype Process = Process(value: nat, start: real)

  function After(p: Process, history: seq<Event>): Process {
    if history == [] then p
    else
      var q := After(p, history[..|history| - 1]);
      match history[|history| - 1]
      case Rejected(n) => q.(value := q.value + n)
      case Restarted(at) => Process(0, at)
  }

  predicate Possible(p: Process, history: seq<Event>) {
    history == []
    || var earlier := history[..|history| - 1];
       && Possible(p, earlier)
       && match history[|history| - 1]
          case Rejected(n) => n > 0
          case Restarted(at) => at > After(p, earlier).start
  }

  /** A possible history never moves the start back, and keeps it only without a restart. */
  lemma {:induction false} StartNeverFalls(p: Process, history: seq<Event>)
    requires Possible(p, history)
    ensures After(p, history).start >= p.start
    ensures After(p, history).start == p.start ==>
              (forall e :: e in history ==> e.Rejected?) && After(p, history).value >= p.value + |history|
  {
    if history != [] {
      var n := |history| - 1;
      StartNeverFalls(p, history[..n]);
      assert history == history[..n] + [history[n]];
    }
  }

  /** The same start and the same value leave room for no event at all. */
  lemma QuietHistory(p: Process, history: seq<Event>)
    requires Possible(p, history)
    ensures After(p, history) == p <==> history == []
  {
    StartNeverFalls(p, history);
  }

  function State(r: IntegrityReading): Process {
    Process(r.value, r.processStartTime)
  }

  /** Condition 3 cannot be satisfied by a reset: whatever histories lead from the baseline to the
      reading, they are empty for every counter a gate asserts about, over every gate's window. */
  lemma NoResetPasses(state: DesiredState, live: LiveState, baseline: LiveState,
                      histories: map<string, seq<Event>>)
    requires IntegrityHolds(state, live, Some(baseline))
    requires forall c :: c in CounterSet(state.gates) && c in Readings(live) && c in Readings(baseline) ==>
               && c in histories
               && Possible(State(Readings(baseline)[c]), histories[c])
               && After(State(Readings(baseline)[c]), histories[c]) == State(Readings(live)[c])
    ensures forall c :: c in CounterSet(state.gates) ==>
              c in histories && histories[c] == [] && Readings(baseline)[c].value > 0
    ensures Elapsed(baseline.observedAt, live.observedAt).Some?
    ensures forall g :: g in state.gates ==>
              g.window.Some? && Elapsed(baseline.observedAt, live.observedAt).value >= g.window.value as real
  {
    forall c | c in CounterSet(state.gates)
      ensures c in histories && histories[c] == []
    {
      assert c in Readings(live);
      assert c in Readings(baseline);
      QuietHistory(State(Readings(baseline)[c]), histories[c]);
    }
  }

  /** A comparison of values alone passes a restart: rejections, a reset, and a climb back. */
  lemma ValuesAloneAdmitAReset(value: nat, start: real)
    requires value > 0
    ensures var history := [Rejected(1), Restarted(start + 1.0), Rejected(value)];
            && Possible(Process(value, start), history)
            && After(Process(value, start), history).value == value
            && After(Process(value, start), history).start != start
  {
    var p := Process(value, start);
    var h0, h1 := [Rejected(1)], [Rejected(1), Restarted(start + 1.0)];
    var h2 := [Rejected(1), Restarted(start + 1.0), Rejected(value)];
    assert h0[..0] == [] && h1[..1] == h0 && h2[..2] == h1;
    assert After(p, h0) == Process(value + 1, start);
    assert After(p, h1) == Process(0, start + 1.0);
    assert Possible(p, h0) && Possible(p, h1);
  }
}
