/** The admission ledger as the object of the source: its tables are fields that the methods update
    row by row, and each method is proved to take the step the model gives it. */
module AdmissionLedgerService {
  import opened Options
  import opened JsText
  import opened CanonicalJson
  import opened Receipts
  import opened LedgerModel

  function AuthorizedCount(holds: seq<Hold>): nat
  {
    if holds == [] then 0 else (if holds[0].status == HoldAuthorized then 1 else 0) + AuthorizedCount(holds[1..])
  }

  function ActiveCount(runs: seq<Run>): nat
  {
    if runs == [] then 0 else (if Active(runs[0]) then 1 else 0) + ActiveCount(runs[1..])
  }

  lemma {:induction false} AuthorizedCountUpdate(holds: seq<Hold>, i: nat, e: Hold)
    requires i < |holds|
    ensures AuthorizedCount(holds[i := e])
            == AuthorizedCount(holds) - (if holds[i].status == HoldAuthorized then 1 else 0)
                                      + (if e.status == HoldAuthorized then 1 else 0)
  {
    if i > 0 {
      AuthorizedCountUpdate(holds[1..], i - 1, e);
      assert holds[i := e][1..] == holds[1..][i - 1 := e];
    }
  }

  lemma {:induction false} ActiveCountUpdate(runs: seq<Run>, i: nat, r: Run)
    requires i < |runs|
    ensures ActiveCount(runs[i := r])
            == ActiveCount(runs) - (if Active(runs[i]) then 1 else 0) + (if Active(r) then 1 else 0)
  {
    if i > 0 {
      ActiveCountUpdate(runs[1..], i - 1, r);
      assert runs[i := r][1..] == runs[1..][i - 1 := r];
    }
  }

  lemma {:induction false} AnyActiveCounts(runs: seq<Run>)
    ensures AnyActive(runs) <==> ActiveCount(runs) >= 1
  {
    if runs != [] {
      AnyActiveCounts(runs[1..]);
      if i :| 0 <= i < |runs| && Active(runs[i]) {
        assert i > 0 ==> Active(runs[1..][i - 1]);
      }
      if i :| 0 <= i < |runs[1..]| && Active(runs[1..][i]) {
        assert Active(runs[i + 1]);
      }
    }
  }

  /** The tables a successful reservation leaves. */
  lemma AdmitSucceeds(s: Db, q: Request, fingerprint: JsString, now: int, newId: Id, g: nat, hold: Option<nat>, after: Db)
    requires g < |s.grants| && (hold.Some? ==> hold.value < |s.holds| && s.holds[hold.value].status == HoldAuthorized)
    requires FindRun(s.runs, newId).None?
    requires StoredKey(q).Some? ==> FindKey(s.runs, StoredKey(q).value).None?
    requires after.grants == s.grants[g := s.grants[g].(useCount := s.grants[g].useCount + 1, status := Consumed)]
    requires after.runs == s.runs + [NewRun(q, fingerprint, s.grants[g].token, now, newId)]
    requires after.costs == s.costs.(reserved := s.costs.reserved + Estimate(q))
    requires after.holds == ConsumeHold(s.holds, hold, newId)
    requires after.reconciliations == s.reconciliations && after.receipts == s.receipts && after.config == s.config
    ensures Admit(s, q, fingerprint, now, newId, g, hold) == (after, Admitted(newId, Estimate(q)))
  {
  }

  lemma AdmitViolates(s: Db, q: Request, fingerprint: JsString, now: int, newId: Id, g: nat, hold: Option<nat>)
    requires g < |s.grants| && (hold.Some? ==> hold.value < |s.holds| && s.holds[hold.value].status == HoldAuthorized)
    requires FindRun(s.runs, newId).Some? || (StoredKey(q).Some? && FindKey(s.runs, StoredKey(q).value).Some?)
    ensures Admit(s, q, fingerprint, now, newId, g, hold) == (s, Refused(ConstraintViolation))
  {
  }

  class AdmissionLedger {
    const host: Host
    var grants: seq<Grant>
    var runs: seq<Run>
    var costs: Costs
    var reconciliations: seq<Reconciliation>
    var holds: seq<Hold>
    var receipts: map<Id, StoredReceipt>
    var config: Config

    ghost function Tables(): Db
      reads this
    {
      Db(grants, runs, costs, reconciliations, holds, receipts, config)
    }

    constructor (host: Host, config: Config)
      ensures this.host == host && Tables() == Empty(config)
    {
      this.host := host;
      this.config := config;
      grants, runs, reconciliations, holds := [], [], [], [];
      costs := Costs(0.0, 0.0, 0.0, 0.0);
      receipts := map[];
    }

    method IssueGrant(id: Id, token: JsString, ttlSeconds: int, maxUses: int, now: int,
                      balance: Option<real>, costCap: Option<real>) returns (ok: bool)
      modifies this
      ensures var step := LedgerModel.IssueGrant(old(Tables()), NewGrant(id, token, ttlSeconds, maxUses, now, balance, costCap));
              Tables() == step.0 && ok == step.1
    {
      if FindGrantId(grants, id).Some? || FindGrant(grants, token).Some? {
        return false;
      }
      var expiresAt := now + ttlSeconds * 1000;
      grants := grants + [Grant(id, token, expiresAt, maxUses, 0, Issued, balance, costCap)];
      ok := true;
    }

    /** Counts the exceptions it expires. */
    method ExpireStaleCostHoldExceptions(now: int) returns (expired: nat)
      modifies this
      ensures Tables() == Sweep(old(Tables()), now)
      ensures expired == AuthorizedCount(old(holds)) - AuthorizedCount(holds)
    {
      expired := 0;
      var i := 0;
      while i < |holds|
        invariant 0 <= i <= |holds| == |old(holds)|
        invariant Tables() == SweepTo(old(Tables()), i, now)
        invariant expired == AuthorizedCount(old(holds)) - AuthorizedCount(holds)
      {
        ghost var before := holds;
        var lapsed := ExpireIfStale(i, now);
        if lapsed {
          AuthorizedCountUpdate(before, i, holds[i]);
          expired := expired + 1;
        }
        i := i + 1;
      }
    }

    method ExpireIfStale(i: nat, now: int) returns (lapsed: bool)
      requires i < |holds|
      modifies this
      ensures Tables() == SweepRow(old(Tables()), i, now)
      ensures lapsed ==> old(holds[i]).status == HoldAuthorized && holds == old(holds)[i := old(holds[i]).(status := HoldExpired)]
      ensures !lapsed ==> holds == old(holds)
    {
      var e := holds[i];
      lapsed := e.status == HoldAuthorized && StaleReason(grants, e, now).Some?;
      if lapsed {
        var g := FindGrantId(grants, e.grantId);
        if g.Some? && grants[g.value].token == e.token
           && grants[g.value].status == Issued && grants[g.value].expiresAt < now {
          grants := grants[g.value := grants[g.value].(status := Expired)];
        }
        holds := holds[i := e.(status := HoldExpired)];
      }
    }

    /** Counts the orphans it closes. */
    method RecoverDurableState(sweepAt: int, now: int) returns (recovered: nat)
      modifies this
      ensures Tables() == Recover(old(Tables()), sweepAt, now)
      ensures recovered == ActiveCount(old(runs)) - ActiveCount(runs)
    {
      var _ := ExpireStaleCostHoldExceptions(sweepAt);
      SweepLength(old(Tables()), sweepAt);
      ghost var swept := Tables();
      var threshold := now - DEADLINE_MS;
      recovered := 0;
      var i := 0;
      while i < |runs|
        invariant 0 <= i <= |runs| == |swept.runs|
        invariant Tables() == RecoverTo(swept, i, threshold)
        invariant recovered == ActiveCount(swept.runs) - ActiveCount(runs)
      {
        var r := runs[i];
        if Active(r) && r.startedAt < threshold {
          var reserved := r.reserved;
          ActiveCountUpdate(runs, i, r.(status := TimedOut, reserved := 0.0, unknown := reserved));
          runs := runs[i := r.(status := TimedOut, reserved := 0.0, unknown := reserved)];
          costs := costs.(reserved := Max0(costs.reserved - reserved),
                          unknown := costs.unknown + reserved,
                          metered := costs.observed + (costs.unknown + reserved));
          recovered := recovered + 1;
        }
        i := i + 1;
      }
    }

    method GetAuthorizedCostHoldException(token: JsString, now: int) returns (hold: Option<nat>)
      modifies this
      ensures Tables() == Sweep(old(Tables()), now)
      ensures hold == if Blank(token) then None else FindHold(holds, Trim(token))
      ensures hold.Some? ==> hold.value < |holds|
    {
      var _ := ExpireStaleCostHoldExceptions(now);
      if Blank(token) {
        return None;
      }
      hold := FindHold(holds, Trim(token));
    }

    method ReserveAdmission(q: Request, t: Clock, newId: Id) returns (reply: Reply)
      modifies this
      ensures Tables() == Reserve(host, old(Tables()), q, t, newId).0
      ensures reply == Reserve(host, old(Tables()), q, t, newId).1
    {
      var _ := RecoverDurableState(t.sweep, t.deadline);
      var gate := Gate(host, config, q);
      if gate.Some? {
        return Refused(gate.value);
      }
      var g := FindGrant(grants, Trim(q.token));
      if g.None? {
        return Refused(InvalidGrant);
      }
      var key := LookupKey(q);
      if key.Some? {
        var found := FindKey(runs, key.value);
        if found.Some? {
          var existing := runs[found.value];
          if existing.token != grants[g.value].token {
            return Refused(KeyContextMismatch);
          }
          if existing.fingerprint == Fingerprint(host, q) {
            return Replay(existing.id, existing.status);
          }
          return Refused(KeyConflict);
        }
      }
      reply := ReserveGrant(q, Fingerprint(host, q), t, newId, g.value);
    }

    /** The part of `reserveAdmission` after the replay check. */
    method ReserveGrant(q: Request, fingerprint: JsString, t: Clock, newId: Id, g: nat) returns (reply: Reply)
      requires g < |grants| && grants[g].token == Trim(q.token) && !Blank(q.token)
      modifies this
      ensures Tables() == ReserveWithGrant(old(Tables()), q, fingerprint, t, newId, g).0
      ensures reply == ReserveWithGrant(old(Tables()), q, fingerprint, t, newId, g).1
    {
      var grant := grants[g];
      if grant.status == Expired || grant.expiresAt < t.now {
        grants := grants[g := grant.(status := Expired)];
        var _ := ExpireStaleCostHoldExceptions(t.now);
        return Refused(ExpiredGrant);
      }
      if grant.status == Consumed || grant.useCount >= grant.maxUses {
        return Refused(GrantAlreadyUsed);
      }
      if grant.status != Issued {
        return Refused(GrantNotActive);
      }
      SweepLength(Tables(), t.lookup);
      TrimIdempotent(q.token);
      var hold := GetAuthorizedCostHoldException(grant.token, t.lookup);
      if AnyActive(runs) {
        return Refused(ConcurrencyLimit);
      }
      reply := AdmitInTransaction(q, fingerprint, t.now, newId, g, hold);
    }

    /** The reservation transaction: a violated constraint throws, and every table goes back to its
        value at the start. */
    method AdmitInTransaction(q: Request, fingerprint: JsString, now: int, newId: Id, g: nat, hold: Option<nat>) returns (reply: Reply)
      requires g < |grants|
      requires hold.Some? ==> hold.value < |holds|
      modifies this
      ensures Tables() == Admit(old(Tables()), q, fingerprint, now, newId, g, hold).0
      ensures reply == Admit(old(Tables()), q, fingerprint, now, newId, g, hold).1
    {
      ghost var was := Tables();
      var grantsBefore, holdsBefore := grants, holds;
      var grant := grants[g];
      grants := grants[g := grant.(useCount := grant.useCount + 1, status := Consumed)];
      if hold.Some? && holds[hold.value].status != HoldAuthorized {
        return Refused(HoldUnavailable);
      }
      TakeHold(hold, newId);
      if FindRun(runs, newId).Some? || (StoredKey(q).Some? && FindKey(runs, StoredKey(q).value).Some?) {
        grants, holds := grantsBefore, holdsBefore;
        AdmitViolates(was, q, fingerprint, now, newId, g, hold);
        return Refused(ConstraintViolation);
      }
      InsertRun(q, fingerprint, grant.token, now, newId);
      AdmitSucceeds(was, q, fingerprint, now, newId, g, hold, Tables());
      reply := Admitted(newId, Estimate(q));
    }

    method TakeHold(hold: Option<nat>, run: Id)
      requires hold.Some? ==> hold.value < |holds|
      modifies this`holds
      ensures holds == ConsumeHold(old(holds), hold, run)
    {
      if hold.Some? {
        holds := holds[hold.value := holds[hold.value].(status := HoldConsumed, run := Some(run))];
      }
    }

    method InsertRun(q: Request, fingerprint: JsString, token: JsString, now: int, newId: Id)
      modifies this`runs, this`costs
      ensures runs == old(runs) + [NewRun(q, fingerprint, token, now, newId)]
      ensures costs == old(costs).(reserved := old(costs).reserved + Estimate(q))
    {
      runs := runs + [Run(newId, StoredKey(q), token, fingerprint, Reserved, now, Estimate(q), 0.0, 0.0)];
      costs := costs.(reserved := costs.reserved + Estimate(q));
    }

    method MarkInFlight(id: Id)
      modifies this
      ensures Tables() == LedgerModel.MarkInFlight(old(Tables()), id)
    {
      var i := FindRun(runs, id);
      if i.Some? && runs[i.value].status == Reserved {
        runs := runs[i.value := runs[i.value].(status := InFlight)];
      }
    }

    method RecordExecutionSuccess(id: Id, observed: Option<real>, receipt: Json, allow: bool, secret: bool)
      returns (ok: bool)
      modifies this
      ensures Tables() == RecordSuccess(host, old(Tables()), id, observed, receipt, allow, secret).0
      ensures ok == RecordSuccess(host, old(Tables()), id, observed, receipt, allow, secret).1
    {
      if !Storable(host, receipt, allow, secret) {
        return false;
      }
      var i := FindRun(runs, id);
      if i.None? {
        return false;
      }
      ghost var was := Tables();
      SettleSuccess(i.value, Spent(observed), if Known(observed) then 0.0 else runs[i.value].reserved);
      assert Tables() == Settle(was, i.value, Completed, !Known(observed), Spent(observed));
      receipts := receipts[id := Stored(receipt)];
      ok := true;
    }

    method SettleSuccess(i: nat, spent: real, shift: real)
      requires i < |runs|
      modifies this`runs, this`costs
      ensures runs == old(runs)[i := old(runs[i]).(status := Completed, observed := spent, unknown := shift, reserved := 0.0)]
      ensures costs == ShiftCosts(old(costs), old(runs[i]).reserved, shift, spent)
    {
      var run := runs[i];
      var previous := run.reserved;
      runs := runs[i := run.(status := Completed, observed := spent, unknown := shift, reserved := 0.0)];
      costs := Costs(Max0(costs.reserved - previous), costs.observed + spent, costs.unknown + shift,
                     (costs.observed + spent) + (costs.unknown + shift));
    }

    method RecordExecutionFailure(id: Id, observed: Option<real>, ambiguous: bool, dispatched: bool)
      returns (ok: bool)
      modifies this
      ensures Tables() == RecordFailure(old(Tables()), id, observed, ambiguous, dispatched).0
      ensures ok == RecordFailure(old(Tables()), id, observed, ambiguous, dispatched).1
    {
      var retain := !Known(observed) && (ambiguous || dispatched);
      var i := FindRun(runs, id);
      if i.None? {
        return false;
      }
      var run := runs[i.value];
      var previous := run.reserved;
      var status := if ambiguous then UnknownOutcome else if retain then FailedUnreconciledCost else Failed;
      runs := runs[i.value := run.(status := status, reserved := 0.0,
                                   unknown := if retain then previous else 0.0, observed := Spent(observed))];
      if retain {
        costs := costs.(reserved := Max0(costs.reserved - previous), unknown := costs.unknown + previous,
                        metered := costs.observed + (costs.unknown + previous));
      } else {
        costs := costs.(reserved := Max0(costs.reserved - previous), observed := costs.observed + Spent(observed),
                        metered := (costs.observed + Spent(observed)) + costs.unknown);
      }
      ok := true;
    }

    method ReconcileUnknownCost(a: Attestation, now: int) returns (ok: bool)
      modifies this
      ensures Tables() == Reconcile(old(Tables()), a, now).0
      ensures ok == Reconcile(old(Tables()), a, now).1
    {
      if !Attested(a, now) {
        return false;
      }
      var i := FindRun(runs, Trim(a.runId));
      if i.None? {
        return false;
      }
      var run := runs[i.value];
      var amount := ReleaseAmount(a, run);
      if amount.None? {
        return false;
      }
      var remaining := run.unknown - amount.value;
      runs := runs[i.value := run.(unknown := remaining)];
      costs := costs.(unknown := Max0(costs.unknown - amount.value),
                      metered := costs.observed + Max0(costs.unknown - amount.value));
      reconciliations := reconciliations + [Reconciliation(run.id, amount.value, remaining, a.observed.value)];
      ok := true;
    }

    /** A refusal inside the transaction throws, so even the expiry of a lapsed grant is undone. */
    method AuthorizeCostHoldException(token: JsString, operator: JsString, reason: JsString, now: int, newId: Id)
      returns (ok: bool)
      modifies this
      ensures Tables() == Authorize(old(Tables()), token, operator, reason, now, newId).0
      ensures ok == Authorize(old(Tables()), token, operator, reason, now, newId).1
    {
      if Blank(token) || Blank(operator) || |Trim(reason)| < 3 {
        return false;
      }
      var _ := ExpireStaleCostHoldExceptions(now);
      var grantsBefore := grants;
      var exposure := costs.unknown;
      var g := FindGrant(grants, Trim(token));
      if exposure <= 0.0 || g.None? {
        return false;
      }
      var grant := grants[g.value];
      if grant.status == Expired || grant.expiresAt < now {
        if grant.status == Issued {
          grants := grants[g.value := grant.(status := Expired)];
        }
        grants := grantsBefore;
        return false;
      }
      if grant.status != Issued || grant.useCount >= grant.maxUses || grant.maxUses != 1 {
        return false;
      }
      var cap, balance := grant.costCap.GetOr(0.0), grant.balance.GetOr(0.0);
      if cap <= 0.0 || (config.floor.Some? && balance - (exposure + cap) < config.floor.value) {
        return false;
      }
      if AnyAuthorized(holds) || AnyForToken(holds, Trim(token)) || AnyHoldId(holds, newId) {
        return false;
      }
      holds := holds + [Hold(newId, grant.id, Trim(token), HoldAuthorized, None, exposure, cap, config.floor, balance)];
      ok := true;
    }

    method StoreReceipt(id: Id, receipt: Json, allow: bool, secret: bool) returns (ok: bool)
      modifies this
      ensures Tables() == LedgerModel.StoreReceipt(host, old(Tables()), id, receipt, allow, secret).0
      ensures ok == LedgerModel.StoreReceipt(host, old(Tables()), id, receipt, allow, secret).1
    {
      ok := Storable(host, receipt, allow, secret);
      if ok {
        receipts := receipts[id := Stored(receipt)];
      }
    }

    /** As long as stored rows read well, which every history keeps, a receipt is found exactly for a
        stored run, is verified, and carries the digest of its row. */
    method GetReceipt(id: Id) returns (reading: Option<Reading>)
      ensures reading == if id in receipts then Read(host, receipts[id]) else None
      ensures ReceiptsRead(host, receipts) ==>
                && (reading.Some? <==> id in receipts)
                && (reading.Some? ==>
                      && reading.value.verified && reading.value.digest == receipts[id].digest
                      && reading.value.receipt.Obj?
                      && Get(reading.value.receipt.fields, DIGEST_KEY) == Some(Str(receipts[id].digest)))
    {
      if id !in receipts {
        return None;
      }
      reading := Read(host, receipts[id]);
    }
  }
}
