/** Concurrent `POST /v1/runs` handlers over one ledger. A handler makes one ledger call at a time;
    between two of its calls anything may happen: other handlers, recovery, operators. */
module RunHandlers {
  import opened Options
  import opened JsText
  import opened CanonicalJson
  import opened LedgerModel
  import opened LedgerChanges
  import opened LedgerHistory

  /** Where a handler is: it has read its request, looks up the run it replays, holds an admitted run,
      has marked it in flight, awaits the provider, or has answered. */
  datatype Phase = Arrived | Replaying | Holding | Marked | Calling | Answered

  datatype Handler = Handler(request: Request, reply: Option<Reply>, phase: Phase)

  datatype Dispatch = Dispatch(handler: nat, run: Id)

  datatype System = System(world: World, handlers: seq<Handler>, log: seq<Dispatch>)

  datatype Outcome =
    | Succeeded(observed: Option<real>, receipt: Json, secret: bool)
    | Failing(observed: Option<real>, ambiguous: bool, dispatched: bool)

  datatype Step =
    | Arrive(request: Request)
    | AskLedger(k: nat, clock: Clock, newId: Id)
    | LookUp(k: nat)
    | MarkRun(k: nat)
    | CallProvider(k: nat)
    | Record(k: nat, outcome: Outcome)
    | Elsewhere(event: Event)

  function PhaseAfter(reply: Reply): Phase
  {
    match reply
    case Refused(_) => Answered
    case Replay(_, _) => Replaying
    case Admitted(_, _) => Holding
  }

  function RunOf(c: Handler): Option<Id>
  {
    match c.reply
    case Some(Replay(id, _)) => Some(id)
    case Some(Admitted(id, _)) => Some(id)
    case _ => None
  }

  function At(s: System, k: nat, phase: Phase): Option<Id>
  {
    if k < |s.handlers| && s.handlers[k].phase == phase then RunOf(s.handlers[k]) else None
  }

  function Move(s: System, k: nat, phase: Phase): System
    requires k < |s.handlers|
  {
    s.(handlers := s.handlers[k := s.handlers[k].(phase := phase)])
  }

  function OutcomeEvent(id: Id, outcome: Outcome): Event
  {
    match outcome
    case Succeeded(observed, receipt, secret) => EvSuccess(id, observed, receipt, true, secret)
    case Failing(observed, ambiguous, dispatched) => EvFailure(id, observed, ambiguous, dispatched)
  }

  /** One atomic step; a step whose handler is elsewhere does nothing. A replay whose run cannot be
      found goes on to dispatch, as the source has it. */
  function Next(h: Host, s: System, step: Step): System
  {
    match step
    case Arrive(q) => s.(handlers := s.handlers + [Handler(q, None, Arrived)])
    case AskLedger(k, t, newId) =>
      if k >= |s.handlers| || s.handlers[k].phase != Arrived then s
      else
        var q := s.handlers[k].request;
        var reply := Reserve(h, s.world.db, q, t, newId).1;
        System(Observe(h, s.world, EvReserve(q, t, newId)),
               s.handlers[k := Handler(q, Some(reply), PhaseAfter(reply))], s.log)
    case LookUp(k) =>
      var id := At(s, k, Replaying);
      if id.None? then s
      else if FindRun(s.world.db.runs, id.value).Some? then Move(s, k, Answered)
      else Move(s, k, Holding)
    case MarkRun(k) =>
      var id := At(s, k, Holding);
      if id.None? then s else Move(s, k, Marked).(world := Observe(h, s.world, EvMark(id.value)))
    case CallProvider(k) =>
      var id := At(s, k, Marked);
      if id.None? then s else Move(s, k, Calling).(log := s.log + [Dispatch(k, id.value)])
    case Record(k, outcome) =>
      var id := At(s, k, Calling);
      if id.None? then s
      else Move(s, k, Answered).(world := Observe(h, s.world, OutcomeEvent(id.value, outcome)))
    case Elsewhere(e) => s.(world := Observe(h, s.world, e))
  }

  function RunSteps(h: Host, s: System, steps: seq<Step>): System
  {
    if steps == [] then s else Next(h, RunSteps(h, s, steps[..|steps| - 1]), steps[|steps| - 1])
  }

  function Boot(config: Config): System
  {
    System(World(Empty(config), NoBooks), [], [])
  }

  function After(h: Host, config: Config, steps: seq<Step>): System
  {
    RunSteps(h, Boot(config), steps)
  }
}

module RunHandlerProofs {
  import opened Options
  import opened JsText
  import opened LedgerModel
  import opened LedgerChanges
  import opened LedgerInvariant
  import opened LedgerHistory
  import opened LedgerEvolution
  import opened RunHandlers

  predicate Known(db: Db, id: Id)
  {
    FindRun(db.runs, id).Some?
  }

  ghost predicate HandlerOk(db: Db, c: Handler)
  {
    && (c.reply.None? <==> c.phase == Arrived)
    && (RunOf(c).Some? ==> Known(db, RunOf(c).value))
    && (c.phase == Replaying ==> c.reply.Some? && c.reply.value.Replay?)
    && (c.phase == Holding || c.phase == Marked || c.phase == Calling ==> c.reply.Some? && c.reply.value.Admitted?)
  }

  /** Two handlers are never admitted with the same run. */
  predicate Apart(c: Handler, d: Handler)
  {
    c.reply.Some? && c.reply.value.Admitted? && d.reply.Some? && d.reply.value.Admitted?
    ==> c.reply.value.id != d.reply.value.id
  }

  /** The dispatching handler is the one whose reservation inserted the run. */
  predicate Owned(s: System, d: Dispatch)
  {
    && d.handler < |s.handlers|
    && s.handlers[d.handler].reply.Some? && s.handlers[d.handler].reply.value.Admitted?
    && s.handlers[d.handler].reply.value.id == d.run
    && (s.handlers[d.handler].phase == Calling || s.handlers[d.handler].phase == Answered)
  }

  ghost predicate SystemOk(s: System)
  {
    Inv(s.world) && HandlersOk(s.world.db, s.handlers) && LogOk(s)
  }

  ghost predicate HandlersOk(db: Db, handlers: seq<Handler>)
  {
    && (forall k :: 0 <= k < |handlers| ==> HandlerOk(db, handlers[k]))
    && (forall j, k :: 0 <= j < k < |handlers| ==> Apart(handlers[j], handlers[k]))
  }

  ghost predicate LogOk(s: System)
  {
    && (forall i :: 0 <= i < |s.log| ==> Owned(s, s.log[i]))
    && (forall i, j :: 0 <= i < j < |s.log| ==> s.log[i].handler != s.log[j].handler)
  }

  lemma KnownStays(h: Host, w: World, e: Event, id: Id)
    requires Inv(w) && Known(w.db, id)
    ensures Known(Apply(h, w.db, e), id)
  {
    EventLeads(h, w, e);
    LeadsEvolves(w, Observe(h, w, e));
    var i := FindRun(w.db.runs, id).value;
    assert RunEvolves(w.db.runs[i], Apply(h, w.db, e).runs[i]);
  }

  /** A ledger call leaves the other handlers as they were. */
  lemma LedgerStepKeeps(h: Host, s: System, e: Event)
    requires SystemOk(s)
    ensures SystemOk(s.(world := Observe(h, s.world, e)))
  {
    EventKeeps(h, s.world, e);
    var db := Apply(h, s.world.db, e);
    forall k | 0 <= k < |s.handlers| ensures HandlerOk(db, s.handlers[k]) {
      assert HandlerOk(s.world.db, s.handlers[k]);
      if RunOf(s.handlers[k]).Some? {
        KnownStays(h, s.world, e, RunOf(s.handlers[k]).value);
      }
    }
  }

  /** A reply names a run the ledger has: a new one when admitted, an old one when replayed. */
  lemma ReplyNamesRun(h: Host, w: World, q: Request, t: Clock, newId: Id)
    requires Inv(w)
    ensures Named(w.db, Reserve(h, w.db, q, t, newId).0, Reserve(h, w.db, q, t, newId).1, newId)
  {
    var x := World(Recover(w.db, t.sweep, t.deadline), w.books);
    LeadsHere(w);
    RecoverLeads(w, w, t.sweep, t.deadline);
    LeadsEvolves(w, x);
    if Known(w.db, newId) {
      var i := FindRun(w.db.runs, newId).value;
      assert RunEvolves(w.db.runs[i], x.db.runs[i]);
    }
    RecoveredReplyNamesRun(h, w.db, q, t, newId);
  }

  ghost predicate Named(db: Db, after: Db, reply: Reply, newId: Id)
  {
    && (reply.Admitted? ==> reply.id == newId && !Known(db, newId) && Known(after, newId))
    && (reply.Replay? ==> Known(after, reply.id))
  }

  lemma RecoveredReplyNamesRun(h: Host, db: Db, q: Request, t: Clock, newId: Id)
    ensures Named(Recover(db, t.sweep, t.deadline), Reserve(h, db, q, t, newId).0, Reserve(h, db, q, t, newId).1, newId)
  {
    var d := Recover(db, t.sweep, t.deadline);
    var g := FindGrant(d.grants, Trim(q.token));
    if g.Some? {
      GrantReplyNamesRun(d, q, Fingerprint(h, q), t, newId, g.value);
    }
  }

  lemma GrantReplyNamesRun(d: Db, q: Request, fingerprint: JsString, t: Clock, newId: Id, g: nat)
    requires g < |d.grants|
    ensures var (after, reply) := ReserveWithGrant(d, q, fingerprint, t, newId, g);
            && (reply.Admitted? ==> reply.id == newId && !Known(d, newId) && Known(after, newId))
            && !reply.Replay?
  {
    SweepLength(d, t.lookup);
    var (after, reply) := ReserveWithGrant(d, q, fingerprint, t, newId, g);
    if reply.Admitted? {
      assert after.runs[|d.runs|].id == newId;
    }
  }

  lemma AskKeeps(h: Host, s: System, k: nat, t: Clock, newId: Id)
    requires SystemOk(s) && k < |s.handlers| && s.handlers[k].phase == Arrived
    ensures SystemOk(Next(h, s, AskLedger(k, t, newId)))
  {
    var q := s.handlers[k].request;
    LedgerStepKeeps(h, s, EvReserve(q, t, newId));
    ReplyNamesRun(h, s.world, q, t, newId);
    var (d, reply) := Reserve(h, s.world.db, q, t, newId);
    AnswerKeeps(s, Observe(h, s.world, EvReserve(q, t, newId)), k, reply, newId);
  }

  /** Handler `k` gets its reply. */
  lemma AnswerKeeps(s: System, w: World, k: nat, reply: Reply, newId: Id)
    requires HandlersOk(s.world.db, s.handlers) && HandlersOk(w.db, s.handlers) && LogOk(s)
    requires k < |s.handlers| && s.handlers[k].phase == Arrived
    requires Named(s.world.db, w.db, reply, newId)
    ensures var x := System(w, s.handlers[k := Handler(s.handlers[k].request, Some(reply), PhaseAfter(reply))], s.log);
            HandlersOk(w.db, x.handlers) && LogOk(x)
  {
    var x := System(w, s.handlers[k := Handler(s.handlers[k].request, Some(reply), PhaseAfter(reply))], s.log);
    assert HandlerOk(s.world.db, s.handlers[k]);
    forall i, j | 0 <= i < j < |x.handlers| ensures Apart(x.handlers[i], x.handlers[j]) {
      assert HandlerOk(s.world.db, s.handlers[i]) && HandlerOk(s.world.db, s.handlers[j]);
      assert Apart(s.handlers[i], s.handlers[j]);
    }
    forall i | 0 <= i < |x.log| ensures Owned(x, x.log[i]) {
      assert Owned(s, s.log[i]);
    }
  }

  /** Moving one handler on, from a phase that precedes its dispatch or closes it. */
  lemma MoveKeeps(s: System, k: nat, phase: Phase)
    requires SystemOk(s) && k < |s.handlers|
    requires HandlerOk(s.world.db, s.handlers[k].(phase := phase))
    requires phase == Answered || (phase == Marked && s.handlers[k].phase == Holding)
             || (phase == Calling && s.handlers[k].phase == Marked)
    ensures SystemOk(Move(s, k, phase))
  {
    var x := Move(s, k, phase);
    forall i | 0 <= i < |x.log| ensures Owned(x, x.log[i]) {
      assert Owned(s, s.log[i]);
    }
    forall i, j | 0 <= i < j < |x.handlers| ensures Apart(x.handlers[i], x.handlers[j]) {
      assert Apart(s.handlers[i], s.handlers[j]);
    }
  }

  lemma CallKeeps(h: Host, s: System, k: nat)
    requires SystemOk(s)
    ensures SystemOk(Next(h, s, CallProvider(k)))
  {
    if At(s, k, Marked).Some? {
      assert HandlerOk(s.world.db, s.handlers[k]);
      var m := Move(s, k, Calling);
      var x := Next(h, s, CallProvider(k));
      MoveKeeps(s, k, Calling);
      forall i | 0 <= i < |x.log| ensures Owned(x, x.log[i]) {
        assert i < |s.log| ==> Owned(m, s.log[i]);
      }
      forall i | 0 <= i < |s.log| ensures s.log[i].handler != k {
        assert Owned(s, s.log[i]);
      }
    }
  }

  lemma NextKeeps(h: Host, s: System, step: Step)
    requires SystemOk(s)
    ensures SystemOk(Next(h, s, step))
  {
    match step
    case Arrive(q) => ArriveKeeps(h, s, q);
    case AskLedger(k, t, newId) =>
      if k < |s.handlers| && s.handlers[k].phase == Arrived {
        AskKeeps(h, s, k, t, newId);
      }
    case LookUp(k) =>
      if At(s, k, Replaying).Some? {
        assert HandlerOk(s.world.db, s.handlers[k]);
        MoveKeeps(s, k, Answered);
      }
    case MarkRun(k) =>
      if At(s, k, Holding).Some? {
        assert HandlerOk(s.world.db, s.handlers[k]);
        MoveKeeps(s, k, Marked);
        LedgerStepKeeps(h, Move(s, k, Marked), EvMark(RunOf(s.handlers[k]).value));
      }
    case CallProvider(k) => CallKeeps(h, s, k);
    case Record(k, outcome) =>
      if At(s, k, Calling).Some? {
        assert HandlerOk(s.world.db, s.handlers[k]);
        MoveKeeps(s, k, Answered);
        LedgerStepKeeps(h, Move(s, k, Answered), OutcomeEvent(RunOf(s.handlers[k]).value, outcome));
      }
    case Elsewhere(e) => LedgerStepKeeps(h, s, e);
  }

  lemma ArriveKeeps(h: Host, s: System, q: Request)
    requires SystemOk(s)
    ensures SystemOk(Next(h, s, Arrive(q)))
  {
    var x := Next(h, s, Arrive(q));
    forall i | 0 <= i < |x.log| ensures Owned(x, x.log[i]) {
      assert Owned(s, s.log[i]);
    }
  }

  lemma {:induction false} AfterOk(h: Host, config: Config, steps: seq<Step>)
    ensures SystemOk(After(h, config, steps))
  {
    if steps != [] {
      AfterOk(h, config, steps[..|steps| - 1]);
      NextKeeps(h, After(h, config, steps[..|steps| - 1]), steps[|steps| - 1]);
    } else {
      EmptyInv(config);
    }
  }

  lemma LogApart(s: System, i: nat, j: nat)
    requires SystemOk(s) && i < j < |s.log|
    ensures s.log[i].run != s.log[j].run
  {
    var a, b := s.log[i].handler, s.log[j].handler;
    assert Owned(s, s.log[i]) && Owned(s, s.log[j]);
    assert a != b;
    if a < b {
      assert Apart(s.handlers[a], s.handlers[b]);
    } else {
      assert Apart(s.handlers[b], s.handlers[a]);
    }
  }

  // ---- Main results ----

  /** However the handlers interleave, a run is dispatched at most once, by the handler whose
      reservation inserted it, and no other handler was ever admitted with that run. */
  lemma DispatchedOnce(h: Host, config: Config, steps: seq<Step>, i: nat, k: nat)
    requires i < |After(h, config, steps).log| && k < |After(h, config, steps).handlers|
    ensures var s := After(h, config, steps);
            var d := s.log[i];
            && (forall j :: 0 <= j < |s.log| && s.log[j].run == d.run ==> j == i)
            && d.handler < |s.handlers| && s.handlers[d.handler].reply.Some?
            && s.handlers[d.handler].reply.value.Admitted? && s.handlers[d.handler].reply.value.id == d.run
            && (k != d.handler && s.handlers[k].reply.Some? && s.handlers[k].reply.value.Admitted?
                ==> s.handlers[k].reply.value.id != d.run)
            && Known(s.world.db, d.run)
  {
    AfterOk(h, config, steps);
    var s := After(h, config, steps);
    var d := s.log[i];
    assert Owned(s, d);
    forall j | 0 <= j < |s.log| && j != i ensures s.log[j].run != d.run {
      assert Owned(s, s.log[j]);
      if j < i {
        LogApart(s, j, i);
      } else {
        LogApart(s, i, j);
      }
    }
    assert HandlerOk(s.world.db, s.handlers[d.handler]);
    assert k < d.handler ==> Apart(s.handlers[k], s.handlers[d.handler]);
    assert d.handler < k ==> Apart(s.handlers[d.handler], s.handlers[k]);
  }

  /** A replaying handler always finds its run: it never reaches the dispatch below the lookup. */
  lemma ReplayNeverDispatches(h: Host, config: Config, steps: seq<Step>, k: nat)
    requires k < |After(h, config, steps).handlers|
    requires var c := After(h, config, steps).handlers[k]; c.reply.Some? && c.reply.value.Replay?
    ensures var s := After(h, config, steps);
            && (s.handlers[k].phase == Replaying || s.handlers[k].phase == Answered)
            && (forall i :: 0 <= i < |s.log| ==> s.log[i].handler != k)
            && Next(h, s, LookUp(k)).handlers[k].phase == Answered
  {
    AfterOk(h, config, steps);
    var s := After(h, config, steps);
    assert HandlerOk(s.world.db, s.handlers[k]);
    forall i | 0 <= i < |s.log| ensures s.log[i].handler != k {
      assert Owned(s, s.log[i]);
    }
  }

  lemma {:induction false} DistinctFit(xs: seq<Id>, ys: seq<Id>)
    requires forall i, j :: 0 <= i < j < |xs| ==> xs[i] != xs[j]
    requires forall i :: 0 <= i < |xs| ==> xs[i] in ys
    ensures |xs| <= |ys|
  {
    if xs != [] {
      var n := |xs| - 1;
      var at :| 0 <= at < |ys| && ys[at] == xs[n];
      var rest := ys[..at] + ys[at + 1..];
      forall i | 0 <= i < n ensures xs[..n][i] in rest {
        var k :| 0 <= k < |ys| && ys[k] == xs[i];
        assert rest[if k < at then k else k - 1] == xs[i];
      }
      DistinctFit(xs[..n], rest);
    }
  }

  /** No more provider calls than uses of grants. */
  lemma DispatchesWithinGrants(h: Host, config: Config, steps: seq<Step>)
    ensures var s := After(h, config, steps);
            |s.log| <= |s.world.db.runs| == LedgerSums.Spendings(s.world.db.grants)
  {
    AfterOk(h, config, steps);
    var s := After(h, config, steps);
    var runs := s.world.db.runs;
    var called := seq(|s.log|, i requires 0 <= i < |s.log| => s.log[i].run);
    var known := seq(|runs|, i requires 0 <= i < |runs| => runs[i].id);
    forall i, j | 0 <= i < j < |called| ensures called[i] != called[j] {
      assert Owned(s, s.log[i]);
      DispatchedOnce(h, config, steps, i, s.log[i].handler);
    }
    forall i | 0 <= i < |called| ensures called[i] in known {
      assert Owned(s, s.log[i]);
      DispatchedOnce(h, config, steps, i, s.log[i].handler);
      assert known[FindRun(runs, called[i]).value] == called[i];
    }
    DistinctFit(called, known);
  }

  /** Two provider calls may be outstanding together, but at most one of their runs is still active. */
  lemma OneActiveCall(h: Host, config: Config, steps: seq<Step>, j: nat, k: nat)
    requires var s := After(h, config, steps);
             j < k < |s.handlers| && s.handlers[j].phase == Calling == s.handlers[k].phase
    ensures var s := After(h, config, steps);
            var runs := s.world.db.runs;
            var a, b := RunOf(s.handlers[j]), RunOf(s.handlers[k]);
            && a.Some? && b.Some? && a != b
            && FindRun(runs, a.value).Some? && FindRun(runs, b.value).Some?
            && !(Active(runs[FindRun(runs, a.value).value]) && Active(runs[FindRun(runs, b.value).value]))
  {
    AfterOk(h, config, steps);
    var s := After(h, config, steps);
    assert HandlerOk(s.world.db, s.handlers[j]) && HandlerOk(s.world.db, s.handlers[k]);
    assert Apart(s.handlers[j], s.handlers[k]);
    OneOfTwoActive(s.world, RunOf(s.handlers[j]).value, RunOf(s.handlers[k]).value);
  }

  lemma OneOfTwoActive(w: World, a: Id, b: Id)
    requires RunsOk(w) && a != b && Known(w.db, a) && Known(w.db, b)
    ensures var runs := w.db.runs;
            !(Active(runs[FindRun(runs, a).value]) && Active(runs[FindRun(runs, b).value]))
  {
  }
}

/** When a second run can start. A handler is under way from its admission until it has recorded its
    outcome. */
module RunHandlerTraffic {
  import opened Options
  import opened JsText
  import opened LedgerModel
  import opened LedgerChanges
  import opened LedgerInvariant
  import opened LedgerHistory
  import opened LedgerResults
  import opened LedgerSweeps
  import opened RunHandlers
  import opened RunHandlerProofs

  predicate UnderWay(c: Handler)
  {
    c.phase == Holding || c.phase == Marked || c.phase == Calling
  }

  /** Some handler under way holds run `id`. */
  ghost predicate Held(s: System, id: Id)
  {
    exists j :: 0 <= j < |s.handlers| && UnderWay(s.handlers[j]) && RunOf(s.handlers[j]) == Some(id)
  }

  /** Each run of a handler under way is finished, or older than recovery lets it get. */
  ghost predicate FlightsLapsed(s: System, threshold: int)
  {
    forall i :: 0 <= i < |s.world.db.runs| && Held(s, s.world.db.runs[i].id) ==> Lapsed(s.world.db.runs[i], threshold)
  }

  /** The same for the runs no handler under way holds: one is left active by a record that throws. */
  ghost predicate StraysLapsed(s: System, threshold: int)
  {
    forall i :: 0 <= i < |s.world.db.runs| && !Held(s, s.world.db.runs[i].id) ==> Lapsed(s.world.db.runs[i], threshold)
  }

  /** What must hold before the call for handler `k` to be admitted. */
  ghost predicate MayStart(h: Host, s: System, k: nat, t: Clock, newId: Id)
    requires k < |s.handlers|
  {
    && Cleared(h, Recover(s.world.db, t.sweep, t.deadline), s.handlers[k].request, t.now, newId)
    && FlightsLapsed(s, t.deadline - DEADLINE_MS) && StraysLapsed(s, t.deadline - DEADLINE_MS)
  }

  lemma ReservedIff(h: Host, db: Db, q: Request, t: Clock, newId: Id)
    ensures Reserve(h, db, q, t, newId).1.Admitted?
            <==> && Cleared(h, Recover(db, t.sweep, t.deadline), q, t.now, newId)
                 && forall i :: 0 <= i < |db.runs| ==> Lapsed(db.runs[i], t.deadline - DEADLINE_MS)
  {
    AdmittedIff(h, db, q, t, newId);
    IdleAfterRecovery(db, t.sweep, t.deadline);
  }

  /** A handler is admitted exactly when its request is cleared and every run, of the handlers under way
      and of none, is finished or past the deadline of recovery. */
  lemma AskAdmittedIff(h: Host, s: System, k: nat, t: Clock, newId: Id)
    requires k < |s.handlers| && s.handlers[k].phase == Arrived
    ensures Reserve(h, s.world.db, s.handlers[k].request, t, newId).1.Admitted? <==> MayStart(h, s, k, t, newId)
    ensures Next(h, s, AskLedger(k, t, newId)).handlers[k].phase == Holding <==> MayStart(h, s, k, t, newId)
  {
    ReservedIff(h, s.world.db, s.handlers[k].request, t, newId);
  }

  /** While a handler under way has an active run, the next is admitted exactly when its request is
      cleared and that run is past the deadline of recovery. */
  lemma SecondAdmittedIff(h: Host, s: System, j: nat, k: nat, t: Clock, newId: Id)
    requires SystemOk(s) && j < |s.handlers| && k < |s.handlers| && s.handlers[k].phase == Arrived
    requires UnderWay(s.handlers[j]) && RunOf(s.handlers[j]).Some?
    requires var i := FindRun(s.world.db.runs, RunOf(s.handlers[j]).value); i.Some? && Active(s.world.db.runs[i.value])
    ensures var i := FindRun(s.world.db.runs, RunOf(s.handlers[j]).value).value;
            Reserve(h, s.world.db, s.handlers[k].request, t, newId).1.Admitted?
            <==> && Cleared(h, Recover(s.world.db, t.sweep, t.deadline), s.handlers[k].request, t.now, newId)
                 && s.world.db.runs[i].startedAt < t.deadline - DEADLINE_MS
  {
    ReservedIff(h, s.world.db, s.handlers[k].request, t, newId);
    OnlyOneActive(s.world, FindRun(s.world.db.runs, RunOf(s.handlers[j]).value).value, t.deadline - DEADLINE_MS);
  }

  lemma OnlyOneActive(w: World, i: nat, threshold: int)
    requires RunsOk(w) && i < |w.db.runs| && Active(w.db.runs[i])
    ensures (forall n :: 0 <= n < |w.db.runs| ==> Lapsed(w.db.runs[n], threshold)) <==> w.db.runs[i].startedAt < threshold
  {
    assert forall n :: 0 <= n < |w.db.runs| && n != i ==> !Active(w.db.runs[n]);
  }

  /** A success whose receipt may not be stored throws: its handler is done and its run stays active. */
  lemma UnstorableLeavesRunActive(h: Host, s: System, k: nat, observed: Option<real>, receipt: CanonicalJson.Json, secret: bool)
    requires k < |s.handlers| && At(s, k, Calling).Some? && !Receipts.Storable(h, receipt, true, secret)
    ensures var x := Next(h, s, Record(k, Succeeded(observed, receipt, secret)));
            !UnderWay(x.handlers[k]) && x.world.db == s.world.db
  {
  }

  // ---- Over histories ----

  ghost predicate Lone(s: System)
  {
    forall j, k :: 0 <= j < k < |s.handlers| ==> !(UnderWay(s.handlers[j]) && UnderWay(s.handlers[k]))
  }

  ghost predicate AnyUnderWay(s: System)
  {
    exists j :: 0 <= j < |s.handlers| && UnderWay(s.handlers[j])
  }

  /** A reservation that will be admitted while another handler is under way. */
  ghost predicate Overtakes(h: Host, s: System, step: Step)
  {
    && step.AskLedger? && step.k < |s.handlers| && s.handlers[step.k].phase == Arrived
    && AnyUnderWay(s) && MayStart(h, s, step.k, step.clock, step.newId)
  }

  /** No step but an admission puts a handler under way. */
  lemma FlightsAfter(h: Host, s: System, step: Step, j: nat)
    requires SystemOk(s) && j < |Next(h, s, step).handlers|
    requires !(step.AskLedger? && step.k == j && s.handlers[j].phase == Arrived)
    ensures UnderWay(Next(h, s, step).handlers[j]) ==> j < |s.handlers| && UnderWay(s.handlers[j])
  {
    if j < |s.handlers| {
      assert HandlerOk(s.world.db, s.handlers[j]);
    }
  }

  lemma LoneStep(h: Host, s: System, step: Step)
    requires SystemOk(s) && Lone(s)
    ensures Lone(Next(h, s, step)) <==> !Overtakes(h, s, step)
  {
    var x := Next(h, s, step);
    if step.AskLedger? && step.k < |s.handlers| && s.handlers[step.k].phase == Arrived {
      AskAdmittedIff(h, s, step.k, step.clock, step.newId);
      assert UnderWay(x.handlers[step.k]) <==> MayStart(h, s, step.k, step.clock, step.newId);
      forall j | 0 <= j < |s.handlers| && j != step.k ensures x.handlers[j] == s.handlers[j] {}
      LoneAnswer(s, x, step.k);
    } else {
      forall j | 0 <= j < |x.handlers| ensures UnderWay(x.handlers[j]) ==> j < |s.handlers| && UnderWay(s.handlers[j]) {
        FlightsAfter(h, s, step, j);
      }
    }
  }

  lemma LoneAnswer(s: System, x: System, k: nat)
    requires Lone(s) && k < |s.handlers| == |x.handlers| && !UnderWay(s.handlers[k])
    requires forall j :: 0 <= j < |s.handlers| && j != k ==> x.handlers[j] == s.handlers[j]
    ensures Lone(x) <==> !(UnderWay(x.handlers[k]) && AnyUnderWay(s))
  {
    if UnderWay(x.handlers[k]) && AnyUnderWay(s) {
      var j :| 0 <= j < |s.handlers| && UnderWay(s.handlers[j]);
      assert UnderWay(x.handlers[j]) && j != k;
    }
  }

  ghost predicate AlwaysLone(h: Host, config: Config, steps: seq<Step>)
  {
    forall n :: 0 <= n <= |steps| ==> Lone(After(h, config, steps[..n]))
  }

  ghost predicate OvertakesAt(h: Host, config: Config, steps: seq<Step>, n: nat)
    requires n < |steps|
  {
    Overtakes(h, After(h, config, steps[..n]), steps[n])
  }

  ghost predicate NoneOvertakes(h: Host, config: Config, steps: seq<Step>)
  {
    forall n :: 0 <= n < |steps| ==> !OvertakesAt(h, config, steps, n)
  }

  lemma LoneUpTo(h: Host, config: Config, steps: seq<Step>, n: nat)
    requires |steps| == n + 1
    ensures AlwaysLone(h, config, steps) <==> AlwaysLone(h, config, steps[..n]) && Lone(After(h, config, steps))
    ensures NoneOvertakes(h, config, steps) <==> NoneOvertakes(h, config, steps[..n]) && !OvertakesAt(h, config, steps, n)
  {
    assert forall m :: 0 <= m <= n ==> steps[..n][..m] == steps[..m];
    assert steps[..n + 1] == steps;
    if AlwaysLone(h, config, steps) {
      forall m | 0 <= m <= n ensures Lone(After(h, config, steps[..n][..m])) {
        assert Lone(After(h, config, steps[..m]));
      }
    }
    if AlwaysLone(h, config, steps[..n]) && Lone(After(h, config, steps)) {
      forall m | 0 <= m <= n + 1 ensures Lone(After(h, config, steps[..m])) {
        assert m <= n ==> Lone(After(h, config, steps[..n][..m]));
      }
    }
    forall m | 0 <= m < n ensures OvertakesAt(h, config, steps[..n], m) <==> OvertakesAt(h, config, steps, m) {
      assert steps[..n][..m] == steps[..m];
    }
  }

  lemma LoneNext(h: Host, config: Config, steps: seq<Step>, n: nat)
    requires |steps| == n + 1 && Lone(After(h, config, steps[..n]))
    ensures Lone(After(h, config, steps)) <==> !OvertakesAt(h, config, steps, n)
  {
    AfterOk(h, config, steps[..n]);
    LoneStep(h, After(h, config, steps[..n]), steps[n]);
  }

  lemma LoneLast(h: Host, config: Config, steps: seq<Step>)
    requires AlwaysLone(h, config, steps)
    ensures Lone(After(h, config, steps))
  {
    assert steps[..|steps|] == steps;
  }

  /** At most one handler is ever under way exactly when no reservation of the history was made, while
      another handler was under way, under the conditions that admit it. */
  lemma {:induction false} OneAtATimeIff(h: Host, config: Config, steps: seq<Step>)
    ensures AlwaysLone(h, config, steps) <==> NoneOvertakes(h, config, steps)
  {
    if steps == [] {
      assert Lone(After(h, config, steps[..0]));
    } else {
      var n := |steps| - 1;
      OneAtATimeIff(h, config, steps[..n]);
      LoneUpTo(h, config, steps, n);
      if AlwaysLone(h, config, steps[..n]) {
        LoneLast(h, config, steps[..n]);
        LoneNext(h, config, steps, n);
      }
    }
  }
}

/** "One provider call at a time" fails: recovery closes a run after 60 seconds while its call may last
    180, and then another run is admitted. */
module RunHandlerOverlap {
  import opened Options
  import opened JsText
  import opened LedgerModel
  import opened LedgerChanges
  import opened LedgerHistory
  import opened LedgerSweeps
  import opened RunHandlers

  /** Nothing in the tables stands in the way of `q`. */
  ghost predicate Quiet(h: Host, db: Db, q: Request, grant: Id, run: Id)
  {
    Clear(db, q, grant, run) && Gate(h, db.config, q).None? && Trim(q.token) == q.token && q.key.None?
  }

  ghost predicate Clear(db: Db, q: Request, grant: Id, run: Id)
  {
    && db.holds == [] && !AnyActive(db.runs)
    && FindGrant(db.grants, q.token).None? && FindGrantId(db.grants, grant).None? && FindRun(db.runs, run).None?
  }

  function IssuedGrant(q: Request, grant: Id, now: int): Grant
  {
    NewGrant(grant, q.token, 3600, 1, now, None, None)
  }

  lemma SweepNothing(db: Db, now: int)
    requires db.holds == []
    ensures Sweep(db, now) == db
  {
  }

  lemma QuietRecover(db: Db, sweepAt: int, now: int)
    requires db.holds == [] && !AnyActive(db.runs)
    ensures Recover(db, sweepAt, now) == db
  {
    SweepNothing(db, sweepAt);
    RecoverToIdle(db, |db.runs|, now - DEADLINE_MS);
  }

  lemma QuietGrantAdmits(db: Db, q: Request, fingerprint: JsString, grant: Id, run: Id, now: int)
    requires db.holds == [] && !AnyActive(db.runs) && Trim(q.token) == q.token && q.key.None?
    requires FindRun(db.runs, run).None? && |db.grants| > 0 && db.grants[|db.grants| - 1] == IssuedGrant(q, grant, now)
    ensures var g := |db.grants| - 1;
            var (d, reply) := ReserveWithGrant(db, q, fingerprint, Clock(now, now, now, now), run, g);
            && reply == Admitted(run, Estimate(q))
            && d.runs == db.runs + [NewRun(q, fingerprint, q.token, now, run)]
            && d.grants == db.grants[g := db.grants[g].(useCount := 1, status := Consumed)]
            && d.holds == [] && d.config == db.config
  {
    SweepNothing(db, now);
  }

  lemma QuietReserveAdmits(h: Host, db: Db, q: Request, grant: Id, run: Id, now: int)
    requires Quiet(h, db, q, grant, run)
    ensures var issued := db.(grants := db.grants + [IssuedGrant(q, grant, now)]);
            var (d, reply) := Reserve(h, issued, q, Clock(now, now, now, now), run);
            && reply == Admitted(run, Estimate(q))
            && d.runs == db.runs + [NewRun(q, Fingerprint(h, q), q.token, now, run)]
            && d.grants == db.grants + [IssuedGrant(q, grant, now).(useCount := 1, status := Consumed)]
            && d.holds == [] && d.config == db.config
  {
    var issued := db.(grants := db.grants + [IssuedGrant(q, grant, now)]);
    QuietRecover(issued, now, now);
    assert FindGrant(issued.grants, q.token) == Some(|db.grants|) by {
      assert issued.grants[|db.grants|].token == q.token;
    }
    QuietGrantAdmits(issued, q, Fingerprint(h, q), grant, run, now);
  }

  /** Issue a grant; a new handler spends it and calls the provider. */
  function CallSteps(k: nat, q: Request, grant: Id, run: Id, now: int): seq<Step>
  {
    [Elsewhere(EvIssue(grant, q.token, 3600, 1, now, None, None)), Arrive(q),
     AskLedger(k, Clock(now, now, now, now), run), MarkRun(k), CallProvider(k)]
  }

  lemma StepLast(h: Host, s: System, steps: seq<Step>, step: Step)
    ensures RunSteps(h, s, steps + [step]) == Next(h, RunSteps(h, s, steps), step)
  {
    assert (steps + [step])[..|steps|] == steps;
  }

  lemma StepFive(h: Host, s: System, a: Step, b: Step, c: Step, d: Step, e: Step)
    ensures RunSteps(h, s, [a, b, c, d, e]) == Next(h, Next(h, Next(h, Next(h, Next(h, s, a), b), c), d), e)
  {
    assert [] + [a] == [a] && [a] + [b] == [a, b] && [a, b] + [c] == [a, b, c] && [a, b, c] + [d] == [a, b, c, d]
           && [a, b, c, d] + [e] == [a, b, c, d, e];
    StepLast(h, s, [], a);
    StepLast(h, s, [a], b);
    StepLast(h, s, [a, b], c);
    StepLast(h, s, [a, b, c], d);
    StepLast(h, s, [a, b, c, d], e);
  }

  /** `x` is `s` with one more handler, admitted with `run`, and the run and grant that go with it. */
  ghost predicate Joined(s: System, x: System, q: Request, fingerprint: JsString, grant: Id, run: Id, now: int, phase: Phase,
                         status: RunStatus)
  {
    && x.handlers == s.handlers + [Handler(q, Some(Admitted(run, Estimate(q))), phase)]
    && x.world.db.runs == s.world.db.runs + [NewRun(q, fingerprint, q.token, now, run).(status := status)]
    && x.world.db.grants == s.world.db.grants + [IssuedGrant(q, grant, now).(useCount := 1, status := Consumed)]
    && x.world.db.holds == [] && x.world.db.config == s.world.db.config
  }

  lemma HandlerAsks(h: Host, s: System, q: Request, grant: Id, run: Id, now: int)
    requires Quiet(h, s.world.db, q, grant, run)
    ensures var steps := CallSteps(|s.handlers|, q, grant, run, now);
            var x := Next(h, Next(h, Next(h, s, steps[0]), steps[1]), steps[2]);
            Joined(s, x, q, Fingerprint(h, q), grant, run, now, Holding, Reserved) && x.log == s.log
  {
    var s2 := Next(h, Next(h, s, Elsewhere(EvIssue(grant, q.token, 3600, 1, now, None, None))), Arrive(q));
    assert s2.world.db == s.world.db.(grants := s.world.db.grants + [IssuedGrant(q, grant, now)]);
    assert s2.handlers == s.handlers + [Handler(q, None, Arrived)];
    QuietReserveAdmits(h, s.world.db, q, grant, run, now);
  }

  lemma HandlerMarksAndCalls(h: Host, s: System, x: System, q: Request, fingerprint: JsString, grant: Id, run: Id, now: int)
    requires Joined(s, x, q, fingerprint, grant, run, now, Holding, Reserved) && FindRun(s.world.db.runs, run).None?
    ensures var k := |s.handlers|;
            var y := Next(h, Next(h, x, MarkRun(k)), CallProvider(k));
            Joined(s, y, q, fingerprint, grant, run, now, Calling, InFlight) && y.log == x.log + [Dispatch(k, run)]
  {
    var k := |s.handlers|;
    FindLast(s.world.db.runs, x.world.db.runs[|s.world.db.runs|]);
    var m := Next(h, x, MarkRun(k));
    assert Joined(s, m, q, fingerprint, grant, run, now, Marked, InFlight);
  }

  lemma HandlerCalls(h: Host, s: System, q: Request, grant: Id, run: Id, now: int)
    requires Quiet(h, s.world.db, q, grant, run)
    ensures var k := |s.handlers|;
            var x := RunSteps(h, s, CallSteps(k, q, grant, run, now));
            Joined(s, x, q, Fingerprint(h, q), grant, run, now, Calling, InFlight) && x.log == s.log + [Dispatch(k, run)]
  {
    var steps := CallSteps(|s.handlers|, q, grant, run, now);
    StepFive(h, s, steps[0], steps[1], steps[2], steps[3], steps[4]);
    HandlerAsks(h, s, q, grant, run, now);
    HandlerMarksAndCalls(h, s, Next(h, Next(h, Next(h, s, steps[0]), steps[1]), steps[2]), q, Fingerprint(h, q), grant, run, now);
  }

  lemma {:induction false} FindLast(runs: seq<Run>, r: Run)
    requires FindRun(runs, r.id).None?
    ensures FindRun(runs + [r], r.id) == Some(|runs|)
  {
    if runs != [] {
      FindLast(runs[1..], r);
      assert (runs + [r])[1..] == runs[1..] + [r];
    }
  }

  /** Any two requests that pass the gates can both be awaiting the provider: the second is admitted
      once recovery has closed the run of the first. */
  lemma TwoCallsOutstanding(h: Host, config: Config, p: Request, q: Request, grants: (Id, Id), runs: (Id, Id),
                            start: int, later: int)
    requires Gate(h, config, p).None? && Trim(p.token) == p.token && p.key.None?
    requires Gate(h, config, q).None? && Trim(q.token) == q.token && q.key.None?
    requires p.token != q.token && grants.0 != grants.1 && runs.0 != runs.1
    requires start < later - DEADLINE_MS
    ensures var s := After(h, config, CallSteps(0, p, grants.0, runs.0, start) + [Elsewhere(EvRecover(later, later))]
                                      + CallSteps(1, q, grants.1, runs.1, later));
            && |s.handlers| == 2 && s.handlers[0].phase == Calling == s.handlers[1].phase
            && s.log == [Dispatch(0, runs.0), Dispatch(1, runs.1)]
  {
    var first, recover, second :=
      CallSteps(0, p, grants.0, runs.0, start), Elsewhere(EvRecover(later, later)),
      CallSteps(1, q, grants.1, runs.1, later);
    var boot := Boot(config);
    var s1 := RunSteps(h, boot, first);
    HandlerCalls(h, boot, p, grants.0, runs.0, start);
    StepLast(h, boot, first, recover);
    SecondIsClear(h, boot, s1, p, Fingerprint(h, p), q, grants, runs, start, later);
    HandlerCalls(h, Next(h, s1, recover), q, grants.1, runs.1, later);
    assert |s1.handlers| == 1 && Next(h, s1, recover).handlers == s1.handlers;
    StepsThen(h, boot, first + [recover], second);
  }

  lemma SecondIsClear(h: Host, s: System, s1: System, p: Request, fingerprint: JsString, q: Request,
                      grants: (Id, Id), runs: (Id, Id), start: int, later: int)
    requires s.world.db == Empty(s.world.db.config) && start < later - DEADLINE_MS
    requires Joined(s, s1, p, fingerprint, grants.0, runs.0, start, Calling, InFlight)
    requires p.token != q.token && grants.0 != grants.1 && runs.0 != runs.1
    ensures var x := Next(h, s1, Elsewhere(EvRecover(later, later)));
            && Clear(x.world.db, q, grants.1, runs.1) && x.world.db.config == s.world.db.config
            && x.handlers == s1.handlers && x.log == s1.log
  {
    RecoverAlone(s1.world.db, later);
    var d := Recover(s1.world.db, later, later);
    assert |d.grants| == 1 && d.grants[0].token == p.token && d.grants[0].id == grants.0;
    assert |d.runs| == 1 && d.runs[0].id == runs.0;
  }

  lemma RecoverAlone(db: Db, now: int)
    requires db.holds == [] && |db.runs| == 1 && db.runs[0].startedAt < now - DEADLINE_MS
    ensures var d := Recover(db, now, now);
            && d.holds == [] && d.grants == db.grants && d.config == db.config
            && |d.runs| == 1 && d.runs[0].id == db.runs[0].id && !Active(d.runs[0])
  {
    SweepNothing(db, now);
    assert RecoverTo(db, 1, now - DEADLINE_MS) == RecoverRow(RecoverTo(db, 0, now - DEADLINE_MS), 0, now - DEADLINE_MS);
  }

  lemma {:induction false} StepsThen(h: Host, s: System, first: seq<Step>, then_: seq<Step>)
    ensures RunSteps(h, s, first + then_) == RunSteps(h, RunSteps(h, s, first), then_)
    decreases |then_|
  {
    if then_ == [] {
      assert first + then_ == first;
    } else {
      var init := then_[..|then_| - 1];
      StepsThen(h, s, first, init);
      assert (first + then_)[..|first + then_| - 1] == first + init;
    }
  }
}
