/** The fail-closed gate before and after a verification: preflight admission and exhaustion. */
module BudgetGate {
  import opened Options
  import opened RiskPipeline
  import opened BudgetModel
  import opened PyText

  datatype GateStatus = GateAdmitted | GateInsufficient | GateUnverifiable | GateExhausted | GateContradicted
  datatype Verdict = Inconclusive | Blocked | Contradicted

  datatype Missed = Missed(action: Action, mandatory: bool)

  datatype Gate = Gate(status: GateStatus, verdict: Verdict, unexecuted: seq<Missed>)

  /** What the caller says of the operation, and the wall-clock time since the ledger was made. */
  datatype Terms = Terms(minSeconds: real, authorization: bool, costConsuming: bool, clock: real)

  datatype Shortfall =
    | SandboxesUnconfigured | SandboxesShort | VerifiersUnconfigured | VerifiersShort | TimeShort
    | ExposureUnknown | CostFactsMissing | CostUnconfigured

  /** Every required action: those of the depth, and the two obligations beside it. */
  function Mandatory(depth: Depth, o: Obligations): seq<Action>
  {
    depth.mandatory
    + (if o.counterrun && Counterfactual !in depth.mandatory then [Counterfactual] else [])
    + (if o.slicing && Slicing !in depth.mandatory then [Slicing] else [])
  }

  function RequiredSandboxes(depth: Depth, o: Obligations): int { depth.minSandboxes + Extra(depth, o) }
  function RequiredExecutions(depth: Depth, o: Obligations): int { depth.minExecutions + Extra(depth, o) }

  /** What `validate` accepts. */
  predicate Valid(u: Consumption)
  {
    && u.input >= 0 && u.output >= 0 && NonNegative(u.used) && u.models >= 0 && u.creations >= 0
    && u.seconds >= 0.0 && u.cost.GetOr(0.0) >= 0.0
  }

  function Free(s: Ledger, k: Kind): int
    requires LimitOf(s.limits, k).Some?
  {
    LimitOf(s.limits, k).value - (Of(s.used.used, k) + Active(s.slots, k))
  }

  /** The ceiling is configured and leaves what is required. */
  predicate Covers(s: Ledger, k: Kind, required: int)
  {
    if LimitOf(s.limits, k).None? then required <= 0 else Free(s, k) >= required
  }

  predicate TimeCovers(s: Ledger, t: Terms)
  {
    s.limits.seconds.Some? ==> MaxReal(s.used.seconds, t.clock) + t.minSeconds <= s.limits.seconds.value
  }

  predicate CostsClear(s: Ledger, t: Terms)
  {
    !s.used.unknownCost && (t.authorization || t.costConsuming ==> s.limits.cost.Some?)
  }

  predicate Unconfigured(s: Ledger, k: Kind, required: int)
  {
    LimitOf(s.limits, k).None? && required > 0
  }

  /** What admission takes: both execution ceilings are configured and cover the requirement, the time
      fits, and no cost is unknown or uncapped. */
  predicate Passed(s: Ledger, depth: Depth, o: Obligations, t: Terms)
  {
    && Valid(s.used)
    && Covers(s, Sandboxes, RequiredSandboxes(depth, o)) && Covers(s, Verifiers, RequiredExecutions(depth, o))
    && TimeCovers(s, t) && CostsClear(s, t)
  }

  method CheckCapacity(s: Ledger, k: Kind, required: int, unset: Shortfall, tooFew: Shortfall)
    returns (shortfalls: seq<Shortfall>, unverifiable: bool)
    ensures shortfalls == [] <==> Covers(s, k, required)
    ensures unverifiable <==> Unconfigured(s, k, required)
  {
    shortfalls, unverifiable := [], false;
    var limit := LimitOf(s.limits, k);
    if limit.None? {
      if required > 0 {
        shortfalls, unverifiable := [unset], true;
      }
    } else if limit.value - (Of(s.used.used, k) + Active(s.slots, k)) < required {
      shortfalls := [tooFew];
    }
  }

  /** `preflight_budget_admission`. */
  method Preflight(s: Ledger, depth: Depth, o: Obligations, t: Terms) returns (g: Gate)
    ensures g.status == GateAdmitted <==> Passed(s, depth, o, t)
    ensures g.status == GateUnverifiable <==>
            || !Valid(s.used) || !CostsClear(s, t)
            || Unconfigured(s, Sandboxes, RequiredSandboxes(depth, o))
            || Unconfigured(s, Verifiers, RequiredExecutions(depth, o))
    ensures g.status == GateAdmitted || g.status == GateUnverifiable || g.status == GateInsufficient
    ensures g.verdict == if g.status == GateAdmitted then Inconclusive else Blocked
    ensures g.unexecuted == if g.status == GateAdmitted || !Valid(s.used) then [] else AllMissed(Mandatory(depth, o))
  {
    if !Valid(s.used) {
      return Gate(GateUnverifiable, Blocked, []);
    }
    var sandboxes, executions := MinimumResources(depth, o);
    var sandboxShort, sandboxUnset := CheckCapacity(s, Sandboxes, sandboxes, SandboxesUnconfigured, SandboxesShort);
    var verifierShort, verifierUnset := CheckCapacity(s, Verifiers, executions, VerifiersUnconfigured, VerifiersShort);
    var shortfalls := sandboxShort + verifierShort;
    var unverifiable := sandboxUnset || verifierUnset;
    if s.limits.seconds.Some? && MaxReal(s.used.seconds, t.clock) + t.minSeconds > s.limits.seconds.value {
      shortfalls := shortfalls + [TimeShort];
    }
    if s.used.unknownCost {
      shortfalls, unverifiable := shortfalls + [ExposureUnknown], true;
    }
    if t.authorization || t.costConsuming {
      if s.used.unknownCost {
        shortfalls, unverifiable := shortfalls + [CostFactsMissing], true;
      } else if s.limits.cost.None? {
        shortfalls, unverifiable := shortfalls + [CostUnconfigured], true;
      }
    }
    if shortfalls == [] {
      return Gate(GateAdmitted, Inconclusive, []);
    }
    var unexecuted := Collect(Mandatory(depth, o));
    g := Gate(if unverifiable then GateUnverifiable else GateInsufficient, Blocked, unexecuted);
  }

  function AllMissed(actions: seq<Action>): seq<Missed>
  {
    if actions == [] then [] else AllMissed(actions[..|actions| - 1]) + [Missed(actions[|actions| - 1], true)]
  }

  method Collect(actions: seq<Action>) returns (unexecuted: seq<Missed>)
    ensures unexecuted == AllMissed(actions)
  {
    unexecuted := [];
    for i := 0 to |actions|
      invariant unexecuted == AllMissed(actions[..i])
    {
      assert actions[..i + 1][..i] == actions[..i];
      unexecuted := unexecuted + [Missed(actions[i], true)];
    }
    assert actions[..|actions|] == actions;
  }

  predicate Distinct(actions: seq<Action>)
  {
    forall i, j :: 0 <= i < j < |actions| ==> actions[i] != actions[j]
  }

  predicate MandatoryOnce(list: seq<Missed>)
  {
    forall i, j :: 0 <= i < j < |list| && list[i].mandatory && list[j].mandatory ==> list[i].action != list[j].action
  }

  /** `handle_budget_exhaustion`: whatever was executed, the receipt lists as mandatory exactly the
      required actions that were not, each once, and never passes. */
  method HandleExhaustion(depth: Depth, o: Obligations, executed: set<Action>, witnessFailed: bool) returns (g: Gate)
    requires Distinct(depth.mandatory)
    ensures forall a :: Missed(a, true) in g.unexecuted <==> a in Mandatory(depth, o) && a !in executed
    ensures forall a :: Missed(a, false) in g.unexecuted <==> a in depth.budgeted && a !in executed
    ensures MandatoryOnce(g.unexecuted)
    ensures g.status == (if witnessFailed then GateContradicted else GateExhausted)
    ensures g.verdict == (if witnessFailed then Contradicted else Blocked)
  {
    var list: seq<Missed> := [];
    for i := 0 to |depth.mandatory|
      invariant forall a, m :: Missed(a, m) in list <==> m && a in depth.mandatory[..i] && a !in executed
      invariant MandatoryOnce(list)
    {
      assert depth.mandatory[..i + 1] == depth.mandatory[..i] + [depth.mandatory[i]];
      var a := depth.mandatory[i];
      if a !in executed {
        assert a !in depth.mandatory[..i];
        Extend(list, a);
        list := list + [Missed(a, true)];
      }
    }
    assert depth.mandatory[..|depth.mandatory|] == depth.mandatory;
    if o.counterrun && Counterfactual !in executed && Missed(Counterfactual, true) !in list {
      Extend(list, Counterfactual);
      list := list + [Missed(Counterfactual, true)];
    }
    if o.slicing && Slicing !in executed && Missed(Slicing, true) !in list {
      Extend(list, Slicing);
      list := list + [Missed(Slicing, true)];
    }
    for i := 0 to |depth.budgeted|
      invariant forall a :: Missed(a, true) in list <==> a in Mandatory(depth, o) && a !in executed
      invariant forall a :: Missed(a, false) in list <==> a in depth.budgeted[..i] && a !in executed
      invariant MandatoryOnce(list)
    {
      assert depth.budgeted[..i + 1] == depth.budgeted[..i] + [depth.budgeted[i]];
      if depth.budgeted[i] !in executed {
        list := list + [Missed(depth.budgeted[i], false)];
      }
    }
    assert depth.budgeted[..|depth.budgeted|] == depth.budgeted;
    g := Gate(if witnessFailed then GateContradicted else GateExhausted,
              if witnessFailed then Contradicted else Blocked, list);
  }

  lemma Extend(list: seq<Missed>, a: Action)
    requires MandatoryOnce(list) && Missed(a, true) !in list
    ensures MandatoryOnce(list + [Missed(a, true)])
  {
    forall i | 0 <= i < |list| && list[i].mandatory ensures list[i].action != a {
      assert list[i] == Missed(list[i].action, true);
      assert list[i] in list;
    }
  }
}

/** Preflight, reservation and spending together; and what synchronisation and time do not promise. */
module BudgetResults {
  import opened Options
  import opened RiskPipeline
  import opened BudgetModel
  import opened PyText
  import opened BudgetProofs
  import BudgetGate

  function Needs(depth: Depth, o: Obligations): Amounts
  {
    Amounts(0, BudgetGate.RequiredSandboxes(depth, o), BudgetGate.RequiredExecutions(depth, o), 0)
  }

  // ---- What the gate asks, on the fields ----

  /** One more sandbox and execution for a counterrun the depth does not include, two for slicing. */
  function Beside(depth: Depth, o: Obligations): int
  {
    (if o.counterrun && Counterfactual !in depth.mandatory then 1 else 0)
    + (if o.slicing && Slicing !in depth.mandatory then 2 else 0)
  }

  predicate Recorded(u: Consumption)
  {
    && u.input >= 0 && u.output >= 0 && u.models >= 0 && u.creations >= 0 && u.seconds >= 0.0
    && u.used.tokens >= 0 && u.used.sandboxes >= 0 && u.used.verifiers >= 0 && u.used.counterruns >= 0
    && (u.cost.Some? ==> u.cost.value >= 0.0)
  }

  /** Preflight admits exactly when nothing recorded is negative, both execution ceilings are configured
      and leave the minimum of the depth and what lies beside it, the time on record and on the clock
      leave the minimum asked, no cost is unknown, and a ceiling on cost is configured if the operation
      may cost. */
  lemma AdmittedIff(s: Ledger, depth: Depth, o: Obligations, t: BudgetGate.Terms)
    ensures BudgetGate.Passed(s, depth, o, t)
            <==> && Recorded(s.used)
                 && (if s.limits.sandboxes.None? then depth.minSandboxes + Beside(depth, o) <= 0
                     else s.used.used.sandboxes + Active(s.slots, Sandboxes) + depth.minSandboxes + Beside(depth, o)
                          <= s.limits.sandboxes.value)
                 && (if s.limits.verifiers.None? then depth.minExecutions + Beside(depth, o) <= 0
                     else s.used.used.verifiers + Active(s.slots, Verifiers) + depth.minExecutions + Beside(depth, o)
                          <= s.limits.verifiers.value)
                 && (s.limits.seconds.Some? ==>
                       && s.used.seconds + t.minSeconds <= s.limits.seconds.value
                       && t.clock + t.minSeconds <= s.limits.seconds.value)
                 && !s.used.unknownCost && (t.authorization || t.costConsuming ==> s.limits.cost.Some?)
  {
  }

  /** What preflight cannot verify, as opposed to what is merely too little. */
  lemma UnverifiableIff(s: Ledger, depth: Depth, o: Obligations, t: BudgetGate.Terms)
    ensures (|| !BudgetGate.Valid(s.used) || !BudgetGate.CostsClear(s, t)
             || BudgetGate.Unconfigured(s, Sandboxes, BudgetGate.RequiredSandboxes(depth, o))
             || BudgetGate.Unconfigured(s, Verifiers, BudgetGate.RequiredExecutions(depth, o)))
            <==> || !Recorded(s.used) || s.used.unknownCost
                 || ((t.authorization || t.costConsuming) && s.limits.cost.None?)
                 || (s.limits.sandboxes.None? && depth.minSandboxes + Beside(depth, o) > 0)
                 || (s.limits.verifiers.None? && depth.minExecutions + Beside(depth, o) > 0)
  {
  }

  /** The required actions are those of the depth and the two obligations; a refusal lists each of them,
      in order, as mandatory. */
  lemma RequiredActions(depth: Depth, o: Obligations, a: Action)
    ensures a in BudgetGate.Mandatory(depth, o)
            <==> a in depth.mandatory || (a == Counterfactual && o.counterrun) || (a == Slicing && o.slicing)
  {
  }

  lemma {:induction false} MissedInOrder(actions: seq<Action>)
    ensures |BudgetGate.AllMissed(actions)| == |actions|
    ensures forall i :: 0 <= i < |actions| ==> BudgetGate.AllMissed(actions)[i] == BudgetGate.Missed(actions[i], true)
  {
    if actions != [] {
      MissedInOrder(actions[..|actions| - 1]);
    }
  }

  // ---- Admission and reservation ----

  /** After preflight admits, reserving what it computed under a fresh identifier passes the sandbox and
      verifier checks. It can still be refused for time spent since, or by a token or counterrun
      ceiling that is already over-promised, which preflight does not look at. */
  lemma AdmissionReserves(s: Ledger, depth: Depth, o: Obligations, t: BudgetGate.Terms,
                          id: string, seconds: real, clock: real)
    requires BudgetGate.Passed(s, depth, o, t) && depth.minSandboxes >= 2 && depth.minExecutions >= 2
    requires Find(s.slots, id).None? && !Blank(id) && seconds >= 0.0
    ensures var no := Reserve(s, id, Needs(depth, o), seconds, clock).1;
            && no != Some(Ceiling(Sandboxes)) && no != Some(Ceiling(Verifiers)) && no != Some(InvalidValue)
            && (no == Some(Ceiling(Tokens)) <==> !Within(s, Tokens))
            && (no == Some(Ceiling(Counterruns)) <==> Within(s, Tokens) && !Within(s, Counterruns))
            && (no.None? <==> Within(s, Tokens) && Within(s, Counterruns)
                              && (s.limits.seconds.Some? ==>
                                    MaxReal(s.used.seconds, clock) + seconds <= s.limits.seconds.value))
  {
  }

  /** No time passed and no more time asked: the reservation is granted. */
  lemma AdmissionReservesAtOnce(s: Ledger, depth: Depth, o: Obligations, t: BudgetGate.Terms, id: string, seconds: real)
    requires BudgetGate.Passed(s, depth, o, t) && depth.minSandboxes >= 2 && depth.minExecutions >= 2
    requires Find(s.slots, id).None? && !Blank(id) && 0.0 <= seconds <= t.minSeconds
    requires Within(s, Tokens) && Within(s, Counterruns)
    ensures Reserve(s, id, Needs(depth, o), seconds, t.clock).1.None?
  {
    AdmissionReserves(s, depth, o, t, id, seconds, t.clock);
  }

  /** Preflight, reserve, then any history whose synchronisations fit: as long as the draws on the
      reservation add up to no more than preflight computed, neither the reservation nor the ledger
      refuses one for sandboxes or verifier executions. */
  lemma AdmissionIsAPromise(s: Ledger, depth: Depth, o: Obligations, t: BudgetGate.Terms,
                            id: string, seconds: real, clock: real, es: seq<Event>, op: Operation, k: Kind)
    requires Sound(s) && BudgetGate.Passed(s, depth, o, t) && depth.minSandboxes >= 2 && depth.minExecutions >= 2
    requires Reserve(s, id, Needs(depth, o), seconds, clock).1.None?
    requires SyncsFit(Reserve(s, id, Needs(depth, o), seconds, clock).0, es, k)
    requires op.reservation == Some(id) && (k == Sandboxes || k == Verifiers)
    requires var x := Reserve(s, id, Needs(depth, o), seconds, clock).0;
             BookedBy(Accepted(x, es), id, x.slots[|s.slots|].res, k) + Of(Draws(op), k) <= Of(Needs(depth, o), k)
    ensures var x := Reserve(s, id, Needs(depth, o), seconds, clock).0;
            && RecordRefusal(Run(x, es), op) != Some(OwnCapacity(k))
            && RecordRefusal(Run(x, es), op) != Some(Ceiling(k))
  {
    var e := EvReserve(id, Needs(depth, o), seconds, clock);
    var x := Reserve(s, id, Needs(depth, o), seconds, clock).0;
    var i := |s.slots|;
    assert Step(s, e).0 == x;
    StepSound(s, e);
    ReserveWithin(s, id, Needs(depth, o), seconds, clock, k);
    RemainderAddsUp(x, es, i, k);
    RunSound(x, es);
    FoundAt(Run(x, es), i);
    PromiseKeptAfter(x, es, op, k);
  }

  lemma FoundAt(s: Ledger, i: nat)
    requires Sound(s) && i < |s.slots|
    ensures Find(s.slots, s.slots[i].id) == Some(i)
  {
  }

  // ---- What is not promised ----

  const NoLimits := Limits(None, None, None, None, None, None, None, None, None, None)

  /** Synchronisation ignores reservations: a reservation of the whole ceiling, one counted execution
      elsewhere, and the holder's own draw is refused by the ceiling. */
  lemma SyncBreaksPromise(s: Ledger, id: string, all: nat, c: Counters, op: Operation)
    requires all > 0 && !Blank(id) && s.slots == [] && Sound(s) && s.used.used == Nothing
    requires s.limits == NoLimits.(sandboxes := Some(all)) && c.sandboxes == 1
    requires op.reservation == Some(id) && Draws(op) == Nothing.(sandboxes := all) && !Malformed(op)
    requires !Blank(op.id) && op.id !in s.used.operations
    ensures var x := Run(s, [EvReserve(id, Nothing.(sandboxes := all), 0.0, 0.0), EvSync(c)]);
            && Find(x.slots, id).Some? && Of(Draws(op), Sandboxes) <= Remaining(x.slots[Find(x.slots, id).value].res, Sandboxes)
            && RecordRefusal(x, op) == Some(Ceiling(Sandboxes))
  {
    var e, f := EvReserve(id, Nothing.(sandboxes := all), 0.0, 0.0), EvSync(c);
    var x := Step(s, e).0;
    assert x.slots == [Slot(id, Reservation(Nothing.(sandboxes := all), Nothing, 0.0, 0.0, Pending))];
    RunTwo(s, e, f);
    HolderRefused(Step(x, f).0, id, all, op);
  }

  lemma HolderRefused(y: Ledger, id: string, all: nat, op: Operation)
    requires all > 0 && y.limits == NoLimits.(sandboxes := Some(all)) && y.used.used.sandboxes == 1
    requires y.slots == [Slot(id, Reservation(Nothing.(sandboxes := all), Nothing, 0.0, 0.0, Pending))]
    requires op.reservation == Some(id) && Draws(op) == Nothing.(sandboxes := all) && !Malformed(op)
    requires !Blank(op.id) && op.id !in y.used.operations
    ensures Find(y.slots, id) == Some(0) && RecordRefusal(y, op) == Some(Ceiling(Sandboxes))
  {
    assert Active(y.slots, Sandboxes) == Active(y.slots[..0], Sandboxes) + Promised(y.slots[0], Sandboxes);
    assert ModelRefusal(y, op).None?;
    assert Blocked(y, op, Sandboxes);
  }

  lemma RunTwo(s: Ledger, e: Event, f: Event)
    ensures Run(s, [e, f]) == Step(Step(s, e).0, f).0
  {
    assert [e, f][..1] == [e] && [e][..0] == [];
    assert Run(s, [e]) == Step(Run(s, []), e).0;
  }
}
