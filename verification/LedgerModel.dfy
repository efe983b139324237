/** The tables of the admission ledger and what each of its operations does to them.

    A table is the sequence of its rows in insertion order. An operation takes the clock readings it
    makes and the identifiers it draws as arguments; one that throws inside a transaction leaves the
    tables as they were when the transaction began. */
module LedgerModel {
  import opened Options
  import opened SeqSearch
  import opened JsText
  import opened CanonicalJson
  import opened Receipts

  type Id = JsString

  datatype GrantStatus = Issued | Consumed | Expired

  datatype Grant = Grant(id: Id, token: JsString, expiresAt: int, maxUses: int, useCount: int,
                         status: GrantStatus, balance: Option<real>, costCap: Option<real>)

  datatype RunStatus =
    | Reserved | InFlight
    | Completed | Failed | FailedUnreconciledCost | UnknownOutcome | TimedOut

  datatype Run = Run(id: Id, key: Option<JsString>, token: JsString, fingerprint: JsString,
                     status: RunStatus, startedAt: int, reserved: real, observed: real, unknown: real)

  datatype Costs = Costs(reserved: real, observed: real, unknown: real, metered: real)

  datatype Reconciliation = Reconciliation(runId: Id, released: real, remaining: real, observed: real)

  datatype HoldStatus = HoldAuthorized | HoldConsumed | HoldExpired

  /** A cost-hold exception with the figures it was authorised on. */
  datatype Hold = Hold(id: Id, grantId: Id, token: JsString, status: HoldStatus, run: Option<Id>,
                       exposure: real, cap: real, floor: Option<real>, balance: real)

  datatype Config = Config(killSwitch: bool, liveGate: bool, target: JsString, commit: JsString,
                           floor: Option<real>)

  datatype Db = Db(grants: seq<Grant>, runs: seq<Run>, costs: Costs,
                   reconciliations: seq<Reconciliation>, holds: seq<Hold>,
                   receipts: map<Id, StoredReceipt>, config: Config)

  function Empty(config: Config): Db
  {
    Db([], [], Costs(0.0, 0.0, 0.0, 0.0), [], [], map[], config)
  }

  // ---- Queries ----

  predicate Active(r: Run)
  {
    r.status == Reserved || r.status == InFlight
  }

  function FindGrant(grants: seq<Grant>, token: JsString): (r: Option<nat>)
    ensures r.Some? ==> r.value < |grants| && grants[r.value].token == token
    ensures r.None? ==> forall i :: 0 <= i < |grants| ==> grants[i].token != token
  {
    First(grants, (g: Grant) => g.token == token)
  }

  function FindGrantId(grants: seq<Grant>, id: Id): (r: Option<nat>)
    ensures r.Some? ==> r.value < |grants| && grants[r.value].id == id
    ensures r.None? ==> forall i :: 0 <= i < |grants| ==> grants[i].id != id
  {
    First(grants, (g: Grant) => g.id == id)
  }

  function FindRun(runs: seq<Run>, id: Id): (r: Option<nat>)
    ensures r.Some? ==> r.value < |runs| && runs[r.value].id == id
    ensures r.None? ==> forall i :: 0 <= i < |runs| ==> runs[i].id != id
  {
    First(runs, (r: Run) => r.id == id)
  }

  function FindKey(runs: seq<Run>, key: JsString): (r: Option<nat>)
    ensures r.Some? ==> r.value < |runs| && runs[r.value].key == Some(key)
    ensures r.None? ==> forall i :: 0 <= i < |runs| ==> runs[i].key != Some(key)
  {
    First(runs, (r: Run) => r.key == Some(key))
  }

  /** The first authorised exception bound to a grant token. */
  function FindHold(holds: seq<Hold>, token: JsString): (r: Option<nat>)
    ensures r.Some? ==> r.value < |holds| && holds[r.value].token == token && holds[r.value].status == HoldAuthorized
    ensures r.None? ==> forall i :: 0 <= i < |holds| ==> !(holds[i].token == token && holds[i].status == HoldAuthorized)
  {
    First(holds, (e: Hold) => e.token == token && e.status == HoldAuthorized)
  }

  predicate AnyActive(runs: seq<Run>)
  {
    exists i :: 0 <= i < |runs| && Active(runs[i])
  }

  predicate AnyAuthorized(holds: seq<Hold>)
  {
    exists i :: 0 <= i < |holds| && holds[i].status == HoldAuthorized
  }

  predicate AnyForToken(holds: seq<Hold>, token: JsString)
  {
    exists i :: 0 <= i < |holds| && holds[i].token == token
  }

  predicate AnyHoldId(holds: seq<Hold>, id: Id)
  {
    exists i :: 0 <= i < |holds| && holds[i].id == id
  }

  function Max0(x: real): real
  {
    if x < 0.0 then 0.0 else x
  }

  // ---- issueGrant ----

  /** The insertion fails when the identifier or the token is already present. */
  function IssueGrant(db: Db, g: Grant): (Db, bool)
  {
    if FindGrantId(db.grants, g.id).Some? || FindGrant(db.grants, g.token).Some? then (db, false)
    else (db.(grants := db.grants + [g]), true)
  }

  function NewGrant(id: Id, token: JsString, ttlSeconds: int, maxUses: int, now: int,
                    balance: Option<real>, costCap: Option<real>): Grant
  {
    Grant(id, token, now + ttlSeconds * 1000, maxUses, 0, Issued, balance, costCap)
  }

  // ---- expireStaleCostHoldExceptions ----

  datatype Staleness = GrantMissing | GrantExpired | GrantAlreadyConsumed | GrantInvalid

  function StaleReason(grants: seq<Grant>, e: Hold, now: int): Option<Staleness>
  {
    var g := FindGrantId(grants, e.grantId);
    if g.None? || grants[g.value].token != e.token then Some(GrantMissing)
    else if grants[g.value].status == Expired || grants[g.value].expiresAt < now then Some(GrantExpired)
    else if grants[g.value].status == Consumed || grants[g.value].useCount >= grants[g.value].maxUses then
      Some(GrantAlreadyConsumed)
    else if grants[g.value].status != Issued || grants[g.value].maxUses != 1 then Some(GrantInvalid)
    else None
  }

  /** The grant bound to `e` after its exception lapses: an issued grant past its time expires. */
  function ExpireBoundGrant(grants: seq<Grant>, e: Hold, now: int): (r: seq<Grant>)
    ensures |r| == |grants|
  {
    var g := FindGrantId(grants, e.grantId);
    if g.Some? && grants[g.value].token == e.token && grants[g.value].status == Issued
       && grants[g.value].expiresAt < now
    then grants[g.value := grants[g.value].(status := Expired)]
    else grants
  }

  function SweepRow(db: Db, i: nat, now: int): (d: Db)
    requires i < |db.holds|
    ensures |d.holds| == |db.holds|
  {
    var e := db.holds[i];
    if e.status != HoldAuthorized || StaleReason(db.grants, e, now).None? then db
    else db.(grants := ExpireBoundGrant(db.grants, e, now),
             holds := db.holds[i := e.(status := HoldExpired)])
  }

  function SweepTo(db: Db, n: nat, now: int): (d: Db)
    requires n <= |db.holds|
    ensures |d.holds| == |db.holds|
  {
    if n == 0 then db else SweepRow(SweepTo(db, n - 1, now), n - 1, now)
  }

  function Sweep(db: Db, now: int): Db
  {
    SweepTo(db, |db.holds|, now)
  }

  // ---- recoverDurableState ----

  const DEADLINE_MS := 60 * 1000

  predicate Orphan(r: Run, threshold: int)
  {
    Active(r) && r.startedAt < threshold
  }

  /** Move `held` from reserved to `unknown` and add `spent`, metering the sum of the new values. */
  function ShiftCosts(c: Costs, held: real, unknown: real, spent: real): Costs
  {
    Costs(Max0(c.reserved - held), c.observed + spent, c.unknown + unknown,
          (c.observed + spent) + (c.unknown + unknown))
  }

  function RecoverRow(db: Db, i: nat, threshold: int): (d: Db)
    requires i < |db.runs|
    ensures |d.runs| == |db.runs|
  {
    var r := db.runs[i];
    if !Orphan(r, threshold) then db
    else db.(runs := db.runs[i := r.(status := TimedOut, reserved := 0.0, unknown := r.reserved)],
             costs := ShiftCosts(db.costs, r.reserved, r.reserved, 0.0))
  }

  function RecoverTo(db: Db, n: nat, threshold: int): (d: Db)
    requires n <= |db.runs|
    ensures |d.runs| == |db.runs|
  {
    if n == 0 then db else RecoverRow(RecoverTo(db, n - 1, threshold), n - 1, threshold)
  }

  function Recover(db: Db, sweepAt: int, now: int): Db
  {
    var d := Sweep(db, sweepAt);
    RecoverTo(d, |d.runs|, now - DEADLINE_MS)
  }

  // ---- reserveAdmission ----

  datatype Request = Request(token: JsString, target: JsString, commit: JsString,
                             key: Option<JsString>, estimate: Option<real>, live: bool)

  /** The clock readings of one reservation, in the order they are made. */
  datatype Clock = Clock(sweep: int, deadline: int, now: int, lookup: int)

  datatype Refusal =
    | KillSwitch | GateClosed | NotLive | InvalidTarget | InvalidSource | MissingGrant | InvalidGrant
    | KeyContextMismatch | KeyConflict | ExpiredGrant | GrantAlreadyUsed | GrantNotActive
    | ConcurrencyLimit | HoldUnavailable | ConstraintViolation

  datatype Reply =
    | Refused(why: Refusal)
    | Replay(id: Id, status: RunStatus)
    | Admitted(id: Id, cost: real)

  function Estimate(q: Request): real
  {
    if q.estimate.Some? && q.estimate.value > 0.0 then q.estimate.value else 0.05
  }

  function Fingerprint(h: Host, q: Request): JsString
  {
    h.sha(Canonical(Obj([Entry(Lit("target"), Str(Trim(q.target))),
                         Entry(Lit("source_commit_id"), Str(Trim(q.commit)))])))
  }

  /** The gates passed before any grant is looked up. */
  function Gate(h: Host, config: Config, q: Request): Option<Refusal>
  {
    if config.killSwitch then Some(KillSwitch)
    else if !config.liveGate then Some(GateClosed)
    else if !q.live then Some(NotLive)
    else if Trim(q.target) != config.target || q.target == [] then Some(InvalidTarget)
    else if h.lower(Trim(q.commit)) != h.lower(config.commit) || q.commit == [] then Some(InvalidSource)
    else if Blank(q.token) then Some(MissingGrant)
    else None
  }

  /** The key a request stores: an absent or empty key is null, any other is trimmed. */
  function StoredKey(q: Request): Option<JsString>
  {
    if q.key.None? || q.key.value == [] then None else Some(Trim(q.key.value))
  }

  /** The key a request looks up: a blank key is not looked up. */
  function LookupKey(q: Request): Option<JsString>
  {
    if q.key.None? || Blank(q.key.value) then None else Some(Trim(q.key.value))
  }

  function Reserve(h: Host, db: Db, q: Request, t: Clock, newId: Id): (Db, Reply)
  {
    var d := Recover(db, t.sweep, t.deadline);
    var gate := Gate(h, d.config, q);
    if gate.Some? then (d, Refused(gate.value))
    else
      var g := FindGrant(d.grants, Trim(q.token));
      if g.None? then (d, Refused(InvalidGrant))
      else
        var found := if LookupKey(q).Some? then FindKey(d.runs, LookupKey(q).value) else None;
        if found.Some? then (d, ReplayReply(d.runs[found.value], d.grants[g.value], Fingerprint(h, q)))
        else ReserveWithGrant(d, q, Fingerprint(h, q), t, newId, g.value)
  }

  function ReplayReply(run: Run, grant: Grant, fingerprint: JsString): Reply
  {
    if run.token != grant.token then Refused(KeyContextMismatch)
    else if run.fingerprint == fingerprint then Replay(run.id, run.status)
    else Refused(KeyConflict)
  }

  function ReserveWithGrant(d: Db, q: Request, fingerprint: JsString, t: Clock, newId: Id, g: nat): (Db, Reply)
    requires g < |d.grants|
  {
    var grant := d.grants[g];
    if grant.status == Expired || grant.expiresAt < t.now then
      (Sweep(d.(grants := d.grants[g := grant.(status := Expired)]), t.now), Refused(ExpiredGrant))
    else if grant.status == Consumed || grant.useCount >= grant.maxUses then (d, Refused(GrantAlreadyUsed))
    else if grant.status != Issued then (d, Refused(GrantNotActive))
    else
      var s := Sweep(d, t.lookup);
      if AnyActive(s.runs) then (s, Refused(ConcurrencyLimit))
      else
        SweepLength(d, t.lookup);
        Admit(s, q, fingerprint, t.now, newId, g, FindHold(s.holds, Trim(grant.token)))
  }

  /** The reservation transaction. The update of the exception is conditional on its status; when no
      row changes, the refusal is returned with the grant already consumed. */
  function Admit(s: Db, q: Request, fingerprint: JsString, now: int, newId: Id, g: nat, hold: Option<nat>): (Db, Reply)
    requires g < |s.grants|
    requires hold.Some? ==> hold.value < |s.holds|
  {
    var grant := s.grants[g];
    var consumed := s.(grants := s.grants[g := grant.(useCount := grant.useCount + 1, status := Consumed)]);
    if hold.Some? && s.holds[hold.value].status != HoldAuthorized then (consumed, Refused(HoldUnavailable))
    else if FindRun(s.runs, newId).Some? then (s, Refused(ConstraintViolation))
    else if StoredKey(q).Some? && FindKey(s.runs, StoredKey(q).value).Some? then (s, Refused(ConstraintViolation))
    else
      (consumed.(holds := ConsumeHold(s.holds, hold, newId),
                 runs := s.runs + [NewRun(q, fingerprint, grant.token, now, newId)],
                 costs := s.costs.(reserved := s.costs.reserved + Estimate(q))),
       Admitted(newId, Estimate(q)))
  }

  function ConsumeHold(holds: seq<Hold>, hold: Option<nat>, run: Id): (r: seq<Hold>)
    requires hold.Some? ==> hold.value < |holds|
    ensures |r| == |holds|
  {
    if hold.None? then holds
    else holds[hold.value := holds[hold.value].(status := HoldConsumed, run := Some(run))]
  }

  function NewRun(q: Request, fingerprint: JsString, token: JsString, now: int, newId: Id): Run
  {
    Run(newId, StoredKey(q), token, fingerprint, Reserved, now, Estimate(q), 0.0, 0.0)
  }

  lemma {:induction false} SweepToLength(db: Db, n: nat, now: int)
    requires n <= |db.holds|
    ensures var d := SweepTo(db, n, now);
            |d.grants| == |db.grants| && d.runs == db.runs && d.costs == db.costs && d.config == db.config
            && d.reconciliations == db.reconciliations && d.receipts == db.receipts
  {
    if n > 0 {
      SweepToLength(db, n - 1, now);
    }
  }

  /** A sweep touches only grants and exceptions. */
  lemma SweepLength(db: Db, now: int)
    ensures var d := Sweep(db, now);
            |d.grants| == |db.grants| && d.runs == db.runs && d.costs == db.costs && d.config == db.config
            && d.reconciliations == db.reconciliations && d.receipts == db.receipts
  {
    SweepToLength(db, |db.holds|, now);
  }

  // ---- markInFlight ----

  function MarkInFlight(db: Db, id: Id): Db
  {
    var i := FindRun(db.runs, id);
    if i.Some? && db.runs[i.value].status == Reserved
    then db.(runs := db.runs[i.value := db.runs[i.value].(status := InFlight)])
    else db
  }

  // ---- recordExecutionSuccess and recordExecutionFailure ----

  /** A reported cost counts only when it is a finite, non-negative number. */
  predicate Known(observed: Option<real>)
  {
    observed.Some? && observed.value >= 0.0
  }

  function Spent(observed: Option<real>): real
  {
    if Known(observed) then observed.value else 0.0
  }

  /** Close a run: its reservation becomes unknown exposure or is let go, and its unknown cost is
      overwritten. */
  function Settle(db: Db, i: nat, status: RunStatus, hold: bool, spent: real): Db
    requires i < |db.runs|
  {
    var r := db.runs[i];
    var unknown := if hold then r.reserved else 0.0;
    db.(runs := db.runs[i := r.(status := status, reserved := 0.0, observed := spent, unknown := unknown)],
        costs := ShiftCosts(db.costs, r.reserved, unknown, spent))
  }

  function RecordSuccess(h: Host, db: Db, id: Id, observed: Option<real>, receipt: Json,
                         allowAuthoritative: bool, secret: bool): (Db, bool)
  {
    var i := FindRun(db.runs, id);
    if !Storable(h, receipt, allowAuthoritative, secret) || i.None? then (db, false)
    else
      (Settle(db, i.value, Completed, !Known(observed), Spent(observed))
       .(receipts := db.receipts[id := Stored(receipt)]), true)
  }

  predicate Retains(observed: Option<real>, ambiguous: bool, dispatched: bool)
  {
    !Known(observed) && (ambiguous || dispatched)
  }

  function FailureStatus(observed: Option<real>, ambiguous: bool, dispatched: bool): RunStatus
  {
    if ambiguous then UnknownOutcome
    else if Retains(observed, ambiguous, dispatched) then FailedUnreconciledCost
    else Failed
  }

  function RecordFailure(db: Db, id: Id, observed: Option<real>, ambiguous: bool, dispatched: bool): (Db, bool)
  {
    var i := FindRun(db.runs, id);
    if i.None? then (db, false)
    else (Settle(db, i.value, FailureStatus(observed, ambiguous, dispatched),
                 Retains(observed, ambiguous, dispatched), Spent(observed)), true)
  }

  // ---- reconcileUnknownCost ----

  datatype Decision = NoProviderCharge | ProviderChargeObserved | OtherDecision

  /** `release` is None for the default, and Some(None) for a number that is not finite. */
  datatype Attestation = Attestation(runId: JsString, operatorAttested: bool, decision: Decision,
                                     observation: JsString, evidence: JsString, observed: Option<real>,
                                     verifiedAt: Option<int>, operator: JsString,
                                     release: Option<Option<real>>)

  const SKEW_MS := 24 * 60 * 60 * 1000

  predicate Attested(a: Attestation, now: int)
  {
    && !Blank(a.runId)
    && a.operatorAttested
    && a.decision != OtherDecision
    && |Trim(a.observation)| >= 3
    && |Trim(a.evidence)| >= 3
    && a.observed.Some? && a.observed.value >= 0.0
    && !Blank(a.operator)
    && a.verifiedAt.Some? && 0 < a.verifiedAt.value <= now + SKEW_MS
    && (a.decision == NoProviderCharge ==> a.observed.value == 0.0)
    && (a.decision == ProviderChargeObserved ==> a.observed.value > 0.0)
  }

  /** The amount to release from a run, when the record allows one. */
  function ReleaseAmount(a: Attestation, r: Run): Option<real>
    requires a.observed.Some?
  {
    var amount := if a.release.None? then Some(r.unknown) else a.release.value;
    if r.unknown <= 0.0 || amount.None? || amount.value <= 0.0 || amount.value > r.unknown
       || a.observed.value > amount.value
    then None else amount
  }

  function Reconcile(db: Db, a: Attestation, now: int): (Db, bool)
  {
    if !Attested(a, now) then (db, false)
    else
      var i := FindRun(db.runs, Trim(a.runId));
      if i.None? || ReleaseAmount(a, db.runs[i.value]).None? then (db, false)
      else (Release(db, i.value, ReleaseAmount(a, db.runs[i.value]).value, a.observed.value), true)
  }

  function Release(db: Db, i: nat, amount: real, observed: real): Db
    requires i < |db.runs|
  {
    var r := db.runs[i];
    var c := db.costs;
    db.(runs := db.runs[i := r.(unknown := r.unknown - amount)],
        costs := c.(unknown := Max0(c.unknown - amount), metered := c.observed + Max0(c.unknown - amount)),
        reconciliations := db.reconciliations + [Reconciliation(r.id, amount, r.unknown - amount, observed)])
  }

  // ---- authorizeCostHoldException ----

  /** What the grant must be and carry for an exception of the present exposure. `Number(null)` is
      0, and a floor that is not a number never blocks. */
  predicate MayHold(g: Grant, exposure: real, floor: Option<real>, now: int)
  {
    && exposure > 0.0
    && g.status == Issued && g.expiresAt >= now && g.useCount < g.maxUses && g.maxUses == 1
    && g.costCap.GetOr(0.0) > 0.0
    && (floor.Some? ==> g.balance.GetOr(0.0) - (exposure + g.costCap.GetOr(0.0)) >= floor.value)
  }

  function NewHold(g: Grant, token: JsString, exposure: real, floor: Option<real>, newId: Id): Hold
  {
    Hold(newId, g.id, token, HoldAuthorized, None, exposure, g.costCap.GetOr(0.0), floor, g.balance.GetOr(0.0))
  }

  function Authorize(db: Db, token: JsString, operator: JsString, reason: JsString, now: int, newId: Id): (Db, bool)
  {
    if Blank(token) || Blank(operator) || |Trim(reason)| < 3 then (db, false)
    else
      var s := Sweep(db, now);
      var g := FindGrant(s.grants, Trim(token));
      if g.None? || !MayHold(s.grants[g.value], s.costs.unknown, s.config.floor, now)
         || AnyAuthorized(s.holds) || AnyForToken(s.holds, Trim(token)) || AnyHoldId(s.holds, newId)
      then (s, false)
      else
        (s.(holds := s.holds + [NewHold(s.grants[g.value], Trim(token), s.costs.unknown, s.config.floor, newId)]),
         true)
  }

  // ---- storeReceipt ----

  function StoreReceipt(h: Host, db: Db, id: Id, receipt: Json, allowAuthoritative: bool, secret: bool): (Db, bool)
  {
    if !Storable(h, receipt, allowAuthoritative, secret) then (db, false)
    else (db.(receipts := db.receipts[id := Stored(receipt)]), true)
  }

  // ---- Histories ----

  datatype Event =
    | EvIssue(id: Id, token: JsString, ttlSeconds: int, maxUses: int, now: int,
              balance: Option<real>, costCap: Option<real>)
    | EvReserve(request: Request, clock: Clock, newId: Id)
    | EvMark(id: Id)
    | EvSuccess(id: Id, observed: Option<real>, receipt: Json, allow: bool, secret: bool)
    | EvFailure(id: Id, observed: Option<real>, ambiguous: bool, dispatched: bool)
    | EvReconcile(attestation: Attestation, now: int)
    | EvSweep(now: int)
    | EvAuthorize(token: JsString, operator: JsString, reason: JsString, now: int, newId: Id)
    | EvRecover(sweepAt: int, now: int)
    | EvStore(id: Id, receipt: Json, allow: bool, secret: bool)
    | EvConfigure(config: Config)

  function Apply(h: Host, db: Db, e: Event): Db
  {
    match e
    case EvIssue(id, token, ttl, uses, now, balance, cap) =>
      IssueGrant(db, NewGrant(id, token, ttl, uses, now, balance, cap)).0
    case EvReserve(q, t, newId) => Reserve(h, db, q, t, newId).0
    case EvMark(id) => MarkInFlight(db, id)
    case EvSuccess(id, observed, receipt, allow, secret) => RecordSuccess(h, db, id, observed, receipt, allow, secret).0
    case EvFailure(id, observed, ambiguous, dispatched) => RecordFailure(db, id, observed, ambiguous, dispatched).0
    case EvReconcile(a, now) => Reconcile(db, a, now).0
    case EvSweep(now) => Sweep(db, now)
    case EvAuthorize(token, operator, reason, now, newId) => Authorize(db, token, operator, reason, now, newId).0
    case EvRecover(sweepAt, now) => Recover(db, sweepAt, now)
    case EvStore(id, receipt, allow, secret) => StoreReceipt(h, db, id, receipt, allow, secret).0
    case EvConfigure(config) => db.(config := config)
  }

  function ApplyAll(h: Host, db: Db, es: seq<Event>): Db
  {
    if es == [] then db else Apply(h, ApplyAll(h, db, es[..|es| - 1]), es[|es| - 1])
  }
}
