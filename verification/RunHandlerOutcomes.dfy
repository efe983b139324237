/** What a handler's steps leave in the ledger's tables. */
module RunHandlerOutcomes {
  import opened Options
  import opened JsText
  import opened CanonicalJson
  import opened Receipts
  import opened LedgerModel
  import opened LedgerChanges
  import opened LedgerInvariant
  import opened LedgerHistory
  import opened LedgerEvolution
  import opened LedgerEffects
  import opened RunHandlers
  import opened RunHandlerProofs

  /** Handler `k` is in this phase with an admitted run, which is row `i`. */
  ghost predicate HasRun(s: System, k: nat, phase: Phase, i: nat)
  {
    && k < |s.handlers| && s.handlers[k].phase == phase
    && s.handlers[k].reply.Some? && s.handlers[k].reply.value.Admitted?
    && i < |s.world.db.runs| && s.world.db.runs[i].id == s.handlers[k].reply.value.id
  }

  predicate Closed(r: Run)
  {
    r.status != Reserved && r.status != InFlight
  }

  /** The row of an admitted handler, in every reachable state. */
  lemma RowOf(s: System, k: nat) returns (i: nat)
    requires SystemOk(s) && k < |s.handlers|
    requires s.handlers[k].reply.Some? && s.handlers[k].reply.value.Admitted?
    ensures HasRun(s, k, s.handlers[k].phase, i)
  {
    assert HandlerOk(s.world.db, s.handlers[k]);
    i := FindRun(s.world.db.runs, s.handlers[k].reply.value.id).value;
  }

  lemma RowIsFound(s: System, k: nat, phase: Phase, i: nat)
    requires SystemOk(s) && HasRun(s, k, phase, i)
    ensures FindRun(s.world.db.runs, s.handlers[k].reply.value.id) == Some(i)
    ensures At(s, k, phase) == Some(s.world.db.runs[i].id)
  {
  }

  /** A refused handler answers, one with a replay looks its run up, and an admitted one holds a new
      reserved run for its request. */
  lemma AskReaches(h: Host, s: System, k: nat, t: Clock, newId: Id)
    requires SystemOk(s) && k < |s.handlers| && s.handlers[k].phase == Arrived
    ensures var x := Next(h, s, AskLedger(k, t, newId));
            var q := s.handlers[k].request;
            && k < |x.handlers| && x.handlers[k].request == q && x.handlers[k].reply.Some?
            && x.handlers[k].phase == (match x.handlers[k].reply.value
                                       case Refused(_) => Answered
                                       case Replay(_, _) => Replaying
                                       case Admitted(_, _) => Holding)
            && (x.handlers[k].phase == Holding ==>
                  && |x.world.db.runs| == |s.world.db.runs| + 1
                  && HasRun(x, k, Holding, |s.world.db.runs|)
                  && var r := x.world.db.runs[|s.world.db.runs|];
                     && r.status == Reserved && r.id == newId && r.token == Trim(q.token) && r.startedAt == t.now
                     && r.reserved == x.handlers[k].reply.value.cost > 0.0)
  {
    var q := s.handlers[k].request;
    if Reserve(h, s.world.db, q, t, newId).1.Admitted? {
      AdmissionEffect(h, s.world.db, q, t, newId);
      SweepLength(s.world.db, t.sweep);
    }
  }

  /** Marking puts the handler's reserved run in flight, and no other run. */
  lemma MarkReaches(h: Host, s: System, k: nat, i: nat)
    requires SystemOk(s) && HasRun(s, k, Holding, i)
    ensures var runs, x := s.world.db.runs, Next(h, s, MarkRun(k));
            && HasRun(x, k, Marked, i)
            && x.world.db == s.world.db.(runs := x.world.db.runs)
            && x.world.db.runs == if runs[i].status == Reserved then runs[i := runs[i].(status := InFlight)] else runs
  {
    RowIsFound(s, k, Holding, i);
    MarkEffect(s.world.db, s.world.db.runs[i].id);
  }

  /** Calling the provider is logged, once, for the handler's own run, and changes no table. */
  lemma CallReaches(h: Host, s: System, k: nat, i: nat)
    requires SystemOk(s) && HasRun(s, k, Marked, i)
    ensures var x := Next(h, s, CallProvider(k));
            && HasRun(x, k, Calling, i) && x.world == s.world
            && |x.log| == |s.log| + 1 && s.log <= x.log && x.log[|s.log|] == Dispatch(k, s.world.db.runs[i].id)
  {
    RowIsFound(s, k, Marked, i);
  }

  /** A failing call closes the handler's run and takes its reservation; what is shown is the reported
      cost, or the reservation as unknown cost when the call may have been charged. */
  lemma FailureReaches(h: Host, s: System, k: nat, i: nat, observed: Option<real>, ambiguous: bool, dispatched: bool)
    requires SystemOk(s) && HasRun(s, k, Calling, i)
    ensures var r, x := s.world.db.runs[i], Next(h, s, Record(k, Failing(observed, ambiguous, dispatched)));
            var paid := observed.Some? && observed.value >= 0.0;
            && HasRun(x, k, Answered, i) && Closed(x.world.db.runs[i]) && x.world.db.runs[i].status != Completed
            && x.world.db.runs[i].reserved == 0.0
            && x.world.db.runs[i].observed == (if paid then observed.value else 0.0)
            && x.world.db.runs[i].unknown == (if !paid && (ambiguous || dispatched) then r.reserved else 0.0)
            && x.world.db.costs.unknown == s.world.db.costs.unknown + x.world.db.runs[i].unknown
            && x.world.db.costs.observed == s.world.db.costs.observed + x.world.db.runs[i].observed
  {
    RowIsFound(s, k, Calling, i);
    FailureEffect(s.world.db, s.world.db.runs[i].id, observed, ambiguous, dispatched);
  }

  /** A successful call with a storable receipt completes the handler's run and files the receipt; with
      any other receipt it leaves the tables as they were. Either way the handler is done. */
  lemma SuccessReaches(h: Host, s: System, k: nat, i: nat, observed: Option<real>, receipt: Json, secret: bool)
    requires SystemOk(s) && HasRun(s, k, Calling, i)
    ensures var r, x := s.world.db.runs[i], Next(h, s, Record(k, Succeeded(observed, receipt, secret)));
            var paid := observed.Some? && observed.value >= 0.0;
            && HasRun(x, k, Answered, i)
            && (!Storable(h, receipt, true, secret) ==> x.world.db == s.world.db)
            && (Storable(h, receipt, true, secret) ==>
                  && x.world.db.runs[i].status == Completed && x.world.db.runs[i].reserved == 0.0
                  && x.world.db.runs[i].observed == (if paid then observed.value else 0.0)
                  && x.world.db.runs[i].unknown == (if paid then 0.0 else r.reserved)
                  && Filed(s.world.db, x.world.db, r.id, receipt))
  {
    RowIsFound(s, k, Calling, i);
    SuccessEffect(h, s.world.db, s.world.db.runs[i].id, observed, receipt, true, secret);
  }

  // ---- Over histories ----

  /** The outcome leaves the tables as they were: a success whose receipt may not be stored. */
  predicate Unrecorded(h: Host, outcome: Outcome)
  {
    outcome.Succeeded? && !Storable(h, outcome.receipt, true, outcome.secret)
  }

  /** Step `n` of the history recorded the outcome of handler `k`. */
  predicate RecordedAt(h: Host, config: Config, steps: seq<Step>, k: nat, n: nat)
    requires n < |steps|
  {
    steps[n].Record? && steps[n].k == k && At(After(h, config, steps[..n]), k, Calling).Some?
  }

  /** Handler `k` has answered for an admitted run. */
  predicate Done(s: System, k: nat)
  {
    && k < |s.handlers| && s.handlers[k].phase == Answered
    && s.handlers[k].reply.Some? && s.handlers[k].reply.value.Admitted?
  }

  /** Only a record makes an admitted handler answer. */
  lemma OnlyRecordsAnswer(h: Host, s: System, step: Step, k: nat)
    requires SystemOk(s) && Done(Next(h, s, step), k) && !Done(s, k)
    ensures step.Record? && step.k == k && At(s, k, Calling).Some?
  {
    assert k < |s.handlers| ==> HandlerOk(s.world.db, s.handlers[k]);
  }

  /** The step that makes an admitted handler answer records its outcome, and closes its run unless the
      outcome cannot be recorded. */
  lemma DoneStep(h: Host, s: System, k: nat, outcome: Outcome)
    requires SystemOk(s) && At(s, k, Calling).Some?
    ensures Unrecorded(h, outcome) || RunClosed(Next(h, s, Record(k, outcome)), k)
  {
    assert HandlerOk(s.world.db, s.handlers[k]);
    var i := RowOf(s, k);
    match outcome
    case Failing(observed, ambiguous, dispatched) => FailureReaches(h, s, k, i, observed, ambiguous, dispatched);
    case Succeeded(observed, receipt, secret) => SuccessReaches(h, s, k, i, observed, receipt, secret);
  }

  ghost predicate RunClosed(s: System, k: nat)
  {
    exists i: nat :: HasRun(s, k, Answered, i) && Closed(s.world.db.runs[i])
  }

  /** A step leaves what is done as it is, and a closed run closed. */
  lemma DoneStays(h: Host, s: System, step: Step, k: nat)
    requires SystemOk(s) && Done(s, k)
    ensures Done(Next(h, s, step), k) && (RunClosed(s, k) ==> RunClosed(Next(h, s, step), k))
  {
    HandlerStays(h, s, step, k);
    if RunClosed(s, k) {
      StepEvolves(h, s, step);
      ClosedStays(s, Next(h, s, step), k);
    }
  }

  lemma HandlerStays(h: Host, s: System, step: Step, k: nat)
    requires Done(s, k)
    ensures k < |Next(h, s, step).handlers| && Next(h, s, step).handlers[k] == s.handlers[k]
  {
  }

  lemma ClosedStays(s: System, x: System, k: nat)
    requires RunClosed(s, k) && Evolves(s.world, x.world)
    requires k < |s.handlers| && k < |x.handlers| && x.handlers[k] == s.handlers[k]
    ensures RunClosed(x, k)
  {
    var i: nat :| HasRun(s, k, Answered, i) && Closed(s.world.db.runs[i]);
    assert RunEvolves(s.world.db.runs[i], x.world.db.runs[i]);
    assert HasRun(x, k, Answered, i);
  }

  lemma StepEvolves(h: Host, s: System, step: Step)
    requires SystemOk(s)
    ensures Evolves(s.world, Next(h, s, step).world)
  {
    WorldStep(h, s, step);
    LeadsHere(s.world);
    LeadsEvolves(s.world, s.world);
    EventLeads(h, s.world, EventOf(s, step));
    LeadsEvolves(s.world, Observe(h, s.world, EventOf(s, step)));
  }

  lemma WorldStep(h: Host, s: System, step: Step)
    ensures Next(h, s, step).world == s.world || Next(h, s, step).world == Observe(h, s.world, EventOf(s, step))
  {
  }

  /** The ledger call of a step that changes the ledger. */
  function EventOf(s: System, step: Step): Event
  {
    match step
    case AskLedger(k, t, newId) =>
      EvReserve(if k < |s.handlers| then s.handlers[k].request else Request([], [], [], None, None, false), t, newId)
    case MarkRun(k) => EvMark(At(s, k, Holding).GetOr([]))
    case Record(k, outcome) => OutcomeEvent(At(s, k, Calling).GetOr([]), outcome)
    case Elsewhere(e) => e
    case _ => EvSweep(0)
  }

  /** Step `n` recorded the outcome of handler `k`, whose run is closed unless that was impossible. */
  ghost predicate Accounted(h: Host, config: Config, steps: seq<Step>, k: nat, n: nat)
  {
    n < |steps| && RecordedAt(h, config, steps, k, n)
    && (RunClosed(After(h, config, steps), k) || Unrecorded(h, steps[n].outcome))
  }

  lemma AccountedStays(h: Host, config: Config, steps: seq<Step>, k: nat, n: nat, m: nat)
    requires |steps| == n + 1 && Accounted(h, config, steps[..n], k, m)
    requires RunClosed(After(h, config, steps[..n]), k) ==> RunClosed(After(h, config, steps), k)
    ensures Accounted(h, config, steps, k, m)
  {
    assert steps[..n][..m] == steps[..m];
  }

  /** An admitted handler answers only by recording an outcome, and its run is closed from then on, unless
      that outcome was a success whose receipt may not be stored. */
  lemma {:induction false} AnsweredMeansRecorded(h: Host, config: Config, steps: seq<Step>, k: nat)
    requires Done(After(h, config, steps), k)
    ensures exists n: nat :: Accounted(h, config, steps, k, n)
  {
    var n := |steps| - 1;
    var s := After(h, config, steps[..n]);
    AfterOk(h, config, steps[..n]);
    if Done(s, k) {
      AnsweredMeansRecorded(h, config, steps[..n], k);
      var m: nat :| Accounted(h, config, steps[..n], k, m);
      DoneStays(h, s, steps[n], k);
      AccountedStays(h, config, steps, k, n, m);
    } else {
      OnlyRecordsAnswer(h, s, steps[n], k);
      DoneStep(h, s, k, steps[n].outcome);
      assert Accounted(h, config, steps, k, n);
    }
  }
}
