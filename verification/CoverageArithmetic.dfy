/** Causal coverage: which requirements count, how they were settled, and the ratio they make. */
module Coverage {
  import opened Options
  import opened PyText

  datatype Eligibility = Eligible | ExcludedNonBehavioral | ExcludedOutOfScope | ExcludedUnverifiable

  datatype Verdict = Verified | PartiallyVerified | Contradicted | Inconclusive | Blocked | NotRun

  datatype State = StVerified | StContradicted | StInconclusive | StBlocked | StNotRun

  /** `nonBehavioral` is what the contract itself says of the requirement. */
  datatype Requirement = Requirement(id: string, nonBehavioral: bool)

  /** A result given for a requirement: an unbound fact, a receipt with the judgement of the verifier
      authority on it, a plain dictionary, or one that fails its bindings and raises. */
  datatype Result =
    | Unbound(verdict: Verdict)
    | Receipt(verdict: Verdict, causallyVerified: bool, authority: bool)
    | Plain(verdict: Verdict, claimsVerified: bool)
    | Unacceptable

  /** Overrides and rationales of the caller. */
  datatype Caller = Caller(overrides: map<string, Eligibility>, rationales: map<string, string>)

  // ---- determine_requirement_eligibility ----

  /** All six change classes are behavioral. None is a refusal. */
  function EligibilityOf(r: Requirement, c: Caller): Option<Eligibility>
  {
    if r.id !in c.overrides || c.overrides[r.id] == Eligible then Some(Eligible)
    else if !r.nonBehavioral then None
    else if r.id !in c.rationales || Blank(c.rationales[r.id]) then None
    else Some(c.overrides[r.id])
  }

  // ---- One requirement ----

  /** Only a receipt with valid authority keeps a verified verdict. */
  function EffectiveVerdict(res: Result): (Verdict, bool)
    requires !res.Unacceptable?
  {
    match res
    case Unbound(v) => (if v == Verified then Inconclusive else v, false)
    case Receipt(v, causal, authority) =>
      if authority then (v, causal && v == Verified)
      else (if v == Verified || causal then Inconclusive else v, false)
    case Plain(v, claims) => (if v == Verified || claims then Inconclusive else v, false)
  }

  function StateOf(results: map<string, Result>, id: string): State
    requires id in results ==> !results[id].Unacceptable?
  {
    if id !in results then StNotRun
    else
      var (v, verified) := EffectiveVerdict(results[id]);
      if verified && v == Verified then StVerified
      else if v == Contradicted then StContradicted
      else if v == Blocked then StBlocked
      else if v == NotRun then StNotRun
      else StInconclusive
  }

  datatype Fact = Fact(id: string, eligibility: Eligibility, state: State)

  predicate Settles(r: Requirement, results: map<string, Result>, c: Caller)
  {
    EligibilityOf(r, c).Some?
    && (EligibilityOf(r, c) == Some(Eligible) && r.id in results ==> !results[r.id].Unacceptable?)
  }

  function FactOf(r: Requirement, results: map<string, Result>, c: Caller): Fact
    requires Settles(r, results, c)
  {
    var e := EligibilityOf(r, c).value;
    Fact(r.id, e, if e == Eligible then StateOf(results, r.id) else StNotRun)
  }

  // ---- The summary ----

  datatype Summary = Summary(total: nat, eligible: nat, excluded: nat, verified: nat, notRun: nat, inconclusive: nat,
                             contradicted: nat, blocked: nat, ratio: Option<real>, percentage: Option<real>,
                             fullyVerified: bool, overall: Verdict, facts: seq<Fact>)

  function CountState(facts: seq<Fact>, s: State): nat
  {
    if facts == [] then 0
    else
      var f := facts[|facts| - 1];
      CountState(facts[..|facts| - 1], s) + if f.eligibility == Eligible && f.state == s then 1 else 0
  }

  function CountEligible(facts: seq<Fact>): nat
  {
    if facts == [] then 0
    else CountEligible(facts[..|facts| - 1]) + if facts[|facts| - 1].eligibility == Eligible then 1 else 0
  }

  /** Round half to even, to a whole number. */
  function Round(x: real): int
  {
    var f := x.Floor;
    var rest := x - f as real;
    if rest < 0.5 then f else if rest > 0.5 then f + 1 else if f % 2 == 0 then f else f + 1
  }

  function RoundTo(x: real, scale: real): real
    requires scale > 0.0
  {
    Round(x * scale) as real / scale
  }

  function Quotient(verified: nat, eligible: nat): real
    requires eligible > 0
  {
    verified as real / eligible as real
  }

  predicate DistinctIds(reqs: seq<Requirement>)
  {
    forall i, j :: 0 <= i < j < |reqs| ==> reqs[i].id != reqs[j].id
  }

  /** What a contract, its results and its caller must satisfy for a summary to be made at all. */
  predicate Accepted(reqs: seq<Requirement>, results: map<string, Result>, c: Caller)
  {
    && DistinctIds(reqs)
    && (forall id :: id in results ==> exists i :: 0 <= i < |reqs| && reqs[i].id == id)
    && (forall i :: 0 <= i < |reqs| ==> Settles(reqs[i], results, c))
  }

  /** The checks of `CausalCoverageSummary.__post_init__` on counts. */
  predicate Adds(s: Summary)
  {
    && s.eligible + s.excluded == s.total
    && s.verified + s.notRun + s.inconclusive + s.contradicted + s.blocked == s.eligible
  }

  ghost predicate Summarises(s: Summary, reqs: seq<Requirement>, results: map<string, Result>, c: Caller)
    requires Accepted(reqs, results, c)
  {
    && s.total == |reqs| == |s.facts|
    && (forall i :: 0 <= i < |reqs| ==> s.facts[i] == FactOf(reqs[i], results, c))
    && s.eligible == CountEligible(s.facts)
    && s.verified == CountState(s.facts, StVerified) && s.notRun == CountState(s.facts, StNotRun)
    && s.inconclusive == CountState(s.facts, StInconclusive) && s.contradicted == CountState(s.facts, StContradicted)
    && s.blocked == CountState(s.facts, StBlocked)
    && Adds(s)
    && (s.eligible == 0 ==> s.ratio == None && s.percentage == None)
    && (s.eligible > 0 ==>
          && s.ratio == Some(RoundTo(Quotient(s.verified, s.eligible), 1000000.0))
          && s.percentage == Some(RoundTo(Quotient(s.verified, s.eligible) * 100.0, 100.0)))
    && (s.fullyVerified <==> s.eligible > 0 && s.verified == s.eligible)
    && (s.overall == Verified <==> s.fullyVerified)
    && (s.overall == Contradicted <==> s.contradicted > 0)
    && (s.overall == Blocked <==> s.contradicted == 0 && s.blocked > 0)
    && (s.overall == PartiallyVerified <==> s.contradicted == 0 && s.blocked == 0 && 0 < s.verified < s.eligible)
    && (s.overall == Inconclusive <==> s.contradicted == 0 && s.blocked == 0 && s.verified == 0 && s.inconclusive > 0)
    && (s.overall == NotRun <==> s.notRun == s.eligible)
  }

  /** The counters of the loop. */
  datatype Tally = Tally(eligible: nat, excluded: nat, verified: nat, notRun: nat, inconclusive: nat,
                         contradicted: nat, blocked: nat)

  predicate Tallies(t: Tally, facts: seq<Fact>)
  {
    && t.eligible == CountEligible(facts) && t.eligible + t.excluded == |facts|
    && t.verified == CountState(facts, StVerified) && t.notRun == CountState(facts, StNotRun)
    && t.inconclusive == CountState(facts, StInconclusive) && t.blocked == CountState(facts, StBlocked)
    && t.contradicted == CountState(facts, StContradicted)
    && t.verified + t.notRun + t.inconclusive + t.contradicted + t.blocked == t.eligible
  }

  method Count(t: Tally, ghost facts: seq<Fact>, f: Fact) returns (more: Tally)
    requires Tallies(t, facts)
    ensures Tallies(more, facts + [f])
  {
    assert (facts + [f])[..|facts|] == facts;
    if f.eligibility != Eligible {
      return t.(excluded := t.excluded + 1);
    }
    var u := t.(eligible := t.eligible + 1);
    match f.state {
      case StVerified => more := u.(verified := u.verified + 1);
      case StContradicted => more := u.(contradicted := u.contradicted + 1);
      case StBlocked => more := u.(blocked := u.blocked + 1);
      case StNotRun => more := u.(notRun := u.notRun + 1);
      case StInconclusive => more := u.(inconclusive := u.inconclusive + 1);
    }
  }

  /** The loop over the requirements; it stops at the first that raises. */
  method CollectFacts(reqs: seq<Requirement>, results: map<string, Result>, c: Caller)
    returns (facts: Option<seq<Fact>>, t: Tally)
    ensures facts.Some? <==> forall i :: 0 <= i < |reqs| ==> Settles(reqs[i], results, c)
    ensures facts.Some? ==> |facts.value| == |reqs| && Tallies(t, facts.value)
                            && forall i :: 0 <= i < |reqs| ==> facts.value[i] == FactOf(reqs[i], results, c)
  {
    var list: seq<Fact> := [];
    t := Tally(0, 0, 0, 0, 0, 0, 0);
    for i := 0 to |reqs|
      invariant |list| == i && Tallies(t, list)
      invariant forall j :: 0 <= j < i ==> Settles(reqs[j], results, c) && list[j] == FactOf(reqs[j], results, c)
    {
      var r := reqs[i];
      var e := EligibilityOf(r, c);
      if e.None? || (e.value == Eligible && r.id in results && results[r.id].Unacceptable?) {
        assert !Settles(reqs[i], results, c);
        return None, t;
      }
      t := Count(t, list, FactOf(r, results, c));
      list := list + [FactOf(r, results, c)];
    }
    facts := Some(list);
  }

  /** `compute_causal_coverage` as it runs: validate, count in one pass, then the arithmetic. */
  method ComputeCoverage(reqs: seq<Requirement>, results: map<string, Result>, c: Caller) returns (s: Option<Summary>)
    ensures s.Some? <==> Accepted(reqs, results, c)
    ensures s.Some? ==> Summarises(s.value, reqs, results, c)
  {
    var known := Known(reqs);
    if known.None? || !(results.Keys <= known.value) {
      return None;
    }
    assert forall id :: id in results ==> id in known.value;
    var facts, t := CollectFacts(reqs, results, c);
    if facts.None? {
      return None;
    }
    var full := t.eligible > 0 && t.verified == t.eligible && t.contradicted == 0 && t.blocked == 0
                && t.inconclusive == 0 && t.notRun == 0;
    var overall :=
      if t.eligible == 0 then NotRun
      else if t.contradicted > 0 then Contradicted
      else if t.blocked > 0 then Blocked
      else if full then Verified
      else if t.verified > 0 then PartiallyVerified
      else if t.inconclusive > 0 then Inconclusive
      else NotRun;
    var ratio := if t.eligible == 0 then None else Some(RoundTo(Quotient(t.verified, t.eligible), 1000000.0));
    var percentage := if t.eligible == 0 then None else Some(RoundTo(Quotient(t.verified, t.eligible) * 100.0, 100.0));
    s := Some(Summary(|reqs|, t.eligible, t.excluded, t.verified, t.notRun, t.inconclusive, t.contradicted, t.blocked,
                      ratio, percentage, full, overall, facts.value));
  }

  /** The identifiers of a contract, when they are distinct. */
  method Known(reqs: seq<Requirement>) returns (seen: Option<set<string>>)
    ensures seen.Some? <==> DistinctIds(reqs)
    ensures seen.Some? ==> forall id :: id in seen.value <==> exists i :: 0 <= i < |reqs| && reqs[i].id == id
  {
    var ids: set<string> := {};
    for i := 0 to |reqs|
      invariant DistinctIds(reqs[..i])
      invariant forall id :: id in ids <==> exists j :: 0 <= j < i && reqs[j].id == id
    {
      if reqs[i].id in ids {
        var j :| 0 <= j < i && reqs[j].id == reqs[i].id;
        return None;
      }
      ids := ids + {reqs[i].id};
    }
    assert reqs[..|reqs|] == reqs;
    seen := Some(ids);
  }
}

module CoverageProofs {
  import opened Options
  import opened PyText
  import opened Coverage

  /** A requirement leaves the denominator only when the contract itself marks it non-behavioral and the
      caller both overrides it and gives a reason. */
  lemma ExcludedIff(r: Requirement, c: Caller)
    ensures EligibilityOf(r, c).Some? && EligibilityOf(r, c).value != Eligible
            <==> && r.nonBehavioral
                 && r.id in c.overrides && c.overrides[r.id] != Eligible
                 && r.id in c.rationales && !Blank(c.rationales[r.id])
  {
  }

  /** A requirement is settled exactly when it counts and its result is acceptable, or when it is left out
      on the contract's own mark and with a reason. */
  lemma SettlesIff(r: Requirement, results: map<string, Result>, c: Caller)
    ensures var counts := r.id !in c.overrides || c.overrides[r.id] == Eligible;
            && (Settles(r, results, c)
                <==> if counts then r.id in results ==> !results[r.id].Unacceptable?
                     else r.nonBehavioral && r.id in c.rationales && !Blank(c.rationales[r.id]))
            && (Settles(r, results, c) ==>
                  var f := FactOf(r, results, c);
                  && f.id == r.id && f.eligibility == (if counts then Eligible else c.overrides[r.id])
                  && f.state == if counts then StateOf(results, r.id) else StNotRun)
  {
  }

  /** The verdict is kept: it is not a claim of success, and no claim of success comes with it but from a
      receipt under valid authority. */
  predicate Says(res: Result, v: Verdict)
  {
    && v != Verified
    && match res
       case Unbound(x) => x == v
       case Receipt(x, causal, authority) => x == v && (authority || !causal)
       case Plain(x, claims) => x == v && !claims
       case Unacceptable => false
  }

  /** How each result settles its requirement. */
  lemma StateIff(results: map<string, Result>, id: string)
    requires id in results ==> !results[id].Unacceptable?
    ensures StateOf(results, id) == StVerified <==> id in results && results[id] == Receipt(Verified, true, true)
    ensures StateOf(results, id) == StContradicted <==> id in results && Says(results[id], Contradicted)
    ensures StateOf(results, id) == StBlocked <==> id in results && Says(results[id], Blocked)
    ensures StateOf(results, id) == StNotRun <==> id !in results || Says(results[id], NotRun)
  {
  }

  function CountBehavioral(reqs: seq<Requirement>): nat
  {
    if reqs == [] then 0
    else CountBehavioral(reqs[..|reqs| - 1]) + if reqs[|reqs| - 1].nonBehavioral then 0 else 1
  }

  /** No overrides whatever bring the denominator below the behavioral requirements of the contract. */
  lemma {:induction false} DenominatorCovers(reqs: seq<Requirement>, results: map<string, Result>, c: Caller, facts: seq<Fact>)
    requires |facts| == |reqs|
    requires forall i :: 0 <= i < |reqs| ==> Settles(reqs[i], results, c) && facts[i] == FactOf(reqs[i], results, c)
    ensures CountBehavioral(reqs) <= CountEligible(facts) <= |reqs|
  {
    if reqs != [] {
      DenominatorCovers(reqs[..|reqs| - 1], results, c, facts[..|facts| - 1]);
      ExcludedIff(reqs[|reqs| - 1], c);
    }
  }

  /** Only a causally verified receipt under valid authority settles a requirement as verified. */
  lemma VerifiedIff(results: map<string, Result>, id: string)
    requires id in results ==> !results[id].Unacceptable?
    ensures StateOf(results, id) == StVerified
            <==> id in results && results[id] == Receipt(Verified, true, true)
  {
  }

  // ---- Rounding ----

  /** Rounding to the nearest, ties to the even neighbour: `n` is reached from exactly the half-unit
      around it, with the ends when `n` is even. */
  lemma RoundIff(x: real, n: int)
    ensures Round(x) == n
            <==> if n % 2 == 0 then n as real - 0.5 <= x <= n as real + 0.5 else n as real - 0.5 < x < n as real + 0.5
  {
    var f := x.Floor;
    var rest := x - f as real;
    assert 0.0 <= rest < 1.0;
    if n == f || n == f + 1 {
    } else if n < f {
      assert n as real <= f as real - 1.0;
    } else {
      assert n as real >= f as real + 2.0;
    }
  }

  /** A rounded figure is a whole number of units and at most half a unit from the exact one. */
  lemma RoundToNear(x: real, scale: real)
    requires scale > 0.0
    ensures RoundTo(x, scale) * scale == Round(x * scale) as real
    ensures -0.5 <= RoundTo(x, scale) * scale - x * scale <= 0.5
  {
    RoundIff(x * scale, Round(x * scale));
  }

  /** The positions of the requirements that count, and of those in one state. */
  function Counting(facts: seq<Fact>): set<nat>
  {
    set i: nat | i < |facts| && facts[i].eligibility == Eligible
  }

  function InState(facts: seq<Fact>, s: State): set<nat>
  {
    set i: nat | i < |facts| && facts[i].eligibility == Eligible && facts[i].state == s
  }

  lemma OneMoreFact(facts: seq<Fact>, f: Fact, s: State)
    ensures Counting(facts + [f]) == Counting(facts) + if f.eligibility == Eligible then {|facts|} else {}
    ensures InState(facts + [f], s) == InState(facts, s) + if f.eligibility == Eligible && f.state == s then {|facts|} else {}
  {
    var more := facts + [f];
    assert more[|facts|] == f;
    assert forall i: nat :: i < |facts| ==> more[i] == facts[i];
  }

  /** The counts are numbers of requirements. */
  lemma {:induction false} CountsAre(facts: seq<Fact>, s: State)
    ensures CountState(facts, s) == |InState(facts, s)|
    ensures CountEligible(facts) == |Counting(facts)|
  {
    if facts != [] {
      var init, f := facts[..|facts| - 1], facts[|facts| - 1];
      CountsAre(init, s);
      OneMoreFact(init, f, s);
      assert facts == init + [f];
      assert |init| !in Counting(init) && |init| !in InState(init, s);
    }
  }

  /** A quotient rounds up to one exactly when at most half a unit is missing. */
  lemma RoundsToOneIff(verified: nat, eligible: nat, scale: nat)
    requires eligible > 0 && verified <= eligible && scale > 0 && scale % 2 == 0
    ensures Round(Quotient(verified, eligible) * scale as real) == scale
            <==> 2 * scale * (eligible - verified) <= eligible
  {
    var missing := eligible - verified;
    RoundIff(Quotient(verified, eligible) * scale as real, scale);
    QuotientTimes(verified, eligible);
    Scaled(Quotient(verified, eligible), eligible as real, missing as real, scale as real);
    Fits(scale, missing, eligible);
  }

  lemma Fits(scale: nat, missing: nat, eligible: nat)
    ensures 2.0 * scale as real * missing as real <= eligible as real <==> 2 * scale * missing <= eligible
  {
    Cast(scale, missing);
  }

  lemma QuotientTimes(verified: nat, eligible: nat)
    requires eligible > 0
    ensures Quotient(verified, eligible) * eligible as real == verified as real
  {
  }

  lemma Cast(scale: int, missing: int)
    ensures (2 * scale * missing) as real == 2.0 * scale as real * missing as real
  {
    var product := scale * missing;
    assert 2 * scale * missing == 2 * product;
    assert product as real == scale as real * missing as real;
  }

  lemma Scaled(q: real, e: real, m: real, s: real)
    requires e > 0.0 && s > 0.0 && q * e == e - m && m >= 0.0
    ensures s - 0.5 <= q * s <= s + 0.5 <==> 2.0 * s * m <= e
  {
    var v := e - m;
    assert (1.0 - q) * e == e - v;
    FactorSign(1.0 - q, e);
    FactorSign(1.0 - q, s);
    assert (1.0 - q) * s == s - q * s;
    var gap := s - q * s;
    assert gap * e == s * (e - v) by {
      assert (q * s) * e == s * v;
    }
    FactorSign(0.5 - gap, e);
    assert (0.5 - gap) * e == 0.5 * e - gap * e;
  }

  lemma FactorSign(x: real, e: real)
    requires e > 0.0
    ensures x * e >= 0.0 <==> x >= 0.0
  {
    if x < 0.0 {
      assert (-x) * e > 0.0;
    }
  }

  /** A percentage of 100.00 means fully verified exactly when fewer than 20000 requirements count for
      each one missing. */
  lemma FullPercentageIff(verified: nat, eligible: nat)
    requires eligible > 0 && verified <= eligible
    ensures RoundTo(Quotient(verified, eligible) * 100.0, 100.0) == 100.0
            <==> 20000 * (eligible - verified) <= eligible
  {
    var q := Quotient(verified, eligible);
    assert q * 100.0 * 100.0 == q * 10000 as real;
    RoundsToOneIff(verified, eligible, 10000);
    var n := Round(q * 10000.0);
    assert n as real / 100.0 == 100.0 <==> n == 10000;
  }

  lemma FullRatioIff(verified: nat, eligible: nat)
    requires eligible > 0 && verified <= eligible
    ensures RoundTo(Quotient(verified, eligible), 1000000.0) == 1.0
            <==> 2000000 * (eligible - verified) <= eligible
  {
    var q := Quotient(verified, eligible);
    RoundsToOneIff(verified, eligible, 1000000);
    var n := Round(q * 1000000.0);
    assert n as real / 1000000.0 == 1.0 <==> n == 1000000;
  }

  /** Below 20000 eligible requirements 100.00 means fully verified; below 2000000 a ratio of 1.0 does. */
  lemma FullMeansVerified(s: Summary, reqs: seq<Requirement>, results: map<string, Result>, c: Caller)
    requires Accepted(reqs, results, c) && Summarises(s, reqs, results, c)
    ensures s.eligible < 20000 ==> (s.percentage == Some(100.0) <==> s.fullyVerified)
    ensures s.eligible < 2000000 ==> (s.ratio == Some(1.0) <==> s.fullyVerified)
  {
    if s.eligible > 0 {
      FullPercentageIff(s.verified, s.eligible);
      FullRatioIff(s.verified, s.eligible);
    }
  }

  /** The bounds are tight: one of 20000 missing still shows 100.00, one of 2000000 still shows 1.0. */
  lemma BoundsAreTight()
    ensures RoundTo(Quotient(19999, 20000) * 100.0, 100.0) == 100.0
    ensures RoundTo(Quotient(1999999, 2000000), 1000000.0) == 1.0
  {
    FullPercentageIff(19999, 20000);
    FullRatioIff(1999999, 2000000);
  }
}
