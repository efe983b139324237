/** Sums over the run and reconciliation tables. */
module LedgerSums {
  import opened Options
  import opened JsText
  import opened LedgerModel

  function ReservedOf(r: Run): real { r.reserved }
  function UnknownOf(r: Run): real { r.unknown }
  function ObservedOf(r: Run): real { r.observed }

  function Sum(runs: seq<Run>, f: Run -> real): real
  {
    if runs == [] then 0.0 else Sum(runs[..|runs| - 1], f) + f(runs[|runs| - 1])
  }

  /** How many runs carry a grant token. */
  function Uses(runs: seq<Run>, token: JsString): nat
  {
    if runs == [] then 0
    else Uses(runs[..|runs| - 1], token) + if runs[|runs| - 1].token == token then 1 else 0
  }

  function Released(recs: seq<Reconciliation>): real
  {
    if recs == [] then 0.0 else Released(recs[..|recs| - 1]) + recs[|recs| - 1].released
  }

  /** What the reconciliations of one run released. */
  function ReleasedFor(recs: seq<Reconciliation>, id: Id): real
  {
    if recs == [] then 0.0
    else ReleasedFor(recs[..|recs| - 1], id) + if recs[|recs| - 1].runId == id then recs[|recs| - 1].released else 0.0
  }

  lemma SumAppend(runs: seq<Run>, r: Run, f: Run -> real)
    ensures Sum(runs + [r], f) == Sum(runs, f) + f(r)
  {
    assert (runs + [r])[..|runs|] == runs;
  }

  lemma {:induction false} SumUpdate(runs: seq<Run>, i: nat, r: Run, f: Run -> real)
    requires i < |runs|
    ensures Sum(runs[i := r], f) == Sum(runs, f) - f(runs[i]) + f(r)
  {
    var n := |runs| - 1;
    if i < n {
      SumUpdate(runs[..n], i, r, f);
      assert runs[i := r][..n] == runs[..n][i := r];
    } else {
      assert runs[i := r][..n] == runs[..n];
    }
  }

  lemma {:induction false} SumAtLeast(runs: seq<Run>, f: Run -> real)
    requires forall j :: 0 <= j < |runs| ==> f(runs[j]) >= 0.0
    ensures Sum(runs, f) >= 0.0
    ensures forall j :: 0 <= j < |runs| ==> Sum(runs, f) >= f(runs[j])
  {
    if runs != [] {
      var init := runs[..|runs| - 1];
      assert forall j :: 0 <= j < |init| ==> init[j] == runs[j];
      SumAtLeast(init, f);
    }
  }

  lemma UsesAppend(runs: seq<Run>, r: Run, token: JsString)
    ensures Uses(runs + [r], token) == Uses(runs, token) + if r.token == token then 1 else 0
  {
    assert (runs + [r])[..|runs|] == runs;
  }

  lemma {:induction false} UsesUpdate(runs: seq<Run>, i: nat, r: Run, token: JsString)
    requires i < |runs| && r.token == runs[i].token
    ensures Uses(runs[i := r], token) == Uses(runs, token)
  {
    var n := |runs| - 1;
    if i < n {
      UsesUpdate(runs[..n], i, r, token);
      assert runs[i := r][..n] == runs[..n][i := r];
    } else {
      assert runs[i := r][..n] == runs[..n];
    }
  }

  lemma {:induction false} UsesZero(runs: seq<Run>, token: JsString)
    ensures Uses(runs, token) == 0 <==> forall i :: 0 <= i < |runs| ==> runs[i].token != token
  {
    if runs != [] {
      var init := runs[..|runs| - 1];
      UsesZero(init, token);
      assert forall j :: 0 <= j < |init| ==> init[j] == runs[j];
    }
  }

  /** The uses of all grants together. */
  function Spendings(grants: seq<Grant>): int
  {
    if grants == [] then 0 else Spendings(grants[..|grants| - 1]) + grants[|grants| - 1].useCount
  }

  lemma SpendingsAppend(grants: seq<Grant>, g: Grant)
    ensures Spendings(grants + [g]) == Spendings(grants) + g.useCount
  {
    assert (grants + [g])[..|grants|] == grants;
  }

  lemma {:induction false} SpendingsUpdate(grants: seq<Grant>, i: nat, g: Grant)
    requires i < |grants|
    ensures Spendings(grants[i := g]) == Spendings(grants) - grants[i].useCount + g.useCount
  {
    var n := |grants| - 1;
    if i < n {
      SpendingsUpdate(grants[..n], i, g);
      assert grants[i := g][..n] == grants[..n][i := g];
    } else {
      assert grants[i := g][..n] == grants[..n];
    }
  }

  lemma ReleasedAppend(recs: seq<Reconciliation>, r: Reconciliation)
    ensures Released(recs + [r]) == Released(recs) + r.released
    ensures forall id :: ReleasedFor(recs + [r], id) == ReleasedFor(recs, id) + if r.runId == id then r.released else 0.0
  {
    assert (recs + [r])[..|recs|] == recs;
  }

  lemma {:induction false} ReleasedForNone(recs: seq<Reconciliation>, id: Id)
    requires forall k :: 0 <= k < |recs| ==> recs[k].runId != id
    ensures ReleasedFor(recs, id) == 0.0
  {
    if recs != [] {
      ReleasedForNone(recs[..|recs| - 1], id);
    }
  }
}

/** The elementary changes every ledger operation is made of, and the books kept beside the tables:
    the amounts that left the tables, which the tables themselves forget. */
module LedgerChanges {
  import opened Options
  import opened JsText
  import opened LedgerModel
  import opened Receipts

  /** `admitted`: estimates of all admitted runs. `known`: estimates of runs settled with a known cost
      while active. `freed`: estimates of runs that failed before dispatch while active. `stranded` and
      `replaced`: unknown and observed cost of a run that a later record overwrote. */
  datatype Books = Books(estimates: map<Id, real>, admitted: real, known: real, freed: real,
                         stranded: real, replaced: real)

  datatype World = World(db: Db, books: Books)

  /** What becomes of a reservation that a record closes: its cost is known, it is kept as unknown, or
      it is freed because nothing was dispatched. */
  datatype Fate = Paid | Kept | Freed

  const NoBooks := Books(map[], 0.0, 0.0, 0.0, 0.0, 0.0)

  datatype Change =
    | AddGrant(grant: Grant)
    | ExpireGrant(g: nat)
    | LapseHold(e: nat)
    | AddRun(run: Run, g: nat, hold: Option<nat>)
    | Mark(i: nat)
    | Close(i: nat, status: RunStatus, fate: Fate, spent: real)
    | Abandon(i: nat)
    | Free(i: nat, amount: real, observed: real)
    | AddHold(exception: Hold, g: nat)
    | Refile(receipts: map<Id, StoredReceipt>, config: Config)

  /** The figures an exception is authorised on. */
  predicate Covered(e: Hold)
  {
    && e.exposure > 0.0 && e.cap > 0.0
    && (e.floor.Some? ==> e.balance - (e.exposure + e.cap) >= e.floor.value)
  }

  predicate Allowed(db: Db, c: Change)
  {
    match c
    case AddGrant(g) =>
      FindGrantId(db.grants, g.id).None? && FindGrant(db.grants, g.token).None? && g.status == Issued && g.useCount == 0
    case ExpireGrant(g) => g < |db.grants|
    case LapseHold(e) => e < |db.holds| && db.holds[e].status == HoldAuthorized
    case AddRun(r, g, hold) =>
      && g < |db.grants| && db.grants[g].token == r.token && db.grants[g].useCount == 0
      && FindRun(db.runs, r.id).None? && (r.key.Some? ==> FindKey(db.runs, r.key.value).None?)
      && !AnyActive(db.runs) && r.status == Reserved && r.reserved > 0.0 && r.observed == 0.0 == r.unknown
      && hold == FindHold(db.holds, r.token)
    case Mark(i) => i < |db.runs| && db.runs[i].status == Reserved
    case Close(i, status, fate, spent) =>
      && i < |db.runs| && status != Reserved && status != InFlight && spent >= 0.0
      && (status == Failed ==> fate != Kept)
      && (status == FailedUnreconciledCost || status == TimedOut ==> spent == 0.0)
    case Abandon(i) => i < |db.runs| && Active(db.runs[i])
    case Free(i, amount, observed) => i < |db.runs| && 0.0 <= observed <= amount <= db.runs[i].unknown && amount > 0.0
    case AddHold(e, g) =>
      && e.status == HoldAuthorized && e.run.None? && Covered(e)
      && !AnyAuthorized(db.holds) && !AnyForToken(db.holds, e.token)
      && g < |db.grants| && db.grants[g].id == e.grantId && db.grants[g].token == e.token
      && db.grants[g].useCount == 0 && db.grants[g].status != Consumed && db.grants[g].maxUses == 1
    case Refile(_, _) => true
  }

  function Estimated(b: Books, id: Id): real
  {
    if id in b.estimates then b.estimates[id] else 0.0
  }

  /** The books after a run is closed by a record. */
  function BookClose(b: Books, r: Run, fate: Fate): Books
  {
    var estimate := if Active(r) then Estimated(b, r.id) else 0.0;
    b.(known := b.known + if fate == Paid then estimate else 0.0,
       freed := b.freed + if fate == Freed then estimate else 0.0,
       stranded := b.stranded + r.unknown,
       replaced := b.replaced + r.observed)
  }

  function BookRun(b: Books, id: Id, estimate: real): Books
  {
    b.(estimates := b.estimates[id := estimate], admitted := b.admitted + estimate)
  }

  function Turn(w: World, c: Change): World
    requires Allowed(w.db, c)
  {
    var db, b := w.db, w.books;
    match c
    case AddGrant(g) => World(db.(grants := db.grants + [g]), b)
    case ExpireGrant(g) => World(db.(grants := db.grants[g := db.grants[g].(status := Expired)]), b)
    case LapseHold(e) => World(db.(holds := db.holds[e := db.holds[e].(status := HoldExpired)]), b)
    case AddRun(r, g, hold) =>
      World(db.(grants := db.grants[g := db.grants[g].(useCount := db.grants[g].useCount + 1, status := Consumed)],
                holds := ConsumeHold(db.holds, hold, r.id),
                runs := db.runs + [r],
                costs := db.costs.(reserved := db.costs.reserved + r.reserved)),
            BookRun(b, r.id, r.reserved))
    case Mark(i) => World(db.(runs := db.runs[i := db.runs[i].(status := InFlight)]), b)
    case Close(i, status, fate, spent) =>
      World(Settle(db, i, status, fate == Kept, spent), BookClose(b, db.runs[i], fate))
    case Abandon(i) =>
      var r := db.runs[i];
      World(db.(runs := db.runs[i := r.(status := TimedOut, reserved := 0.0, unknown := r.reserved)],
                costs := ShiftCosts(db.costs, r.reserved, r.reserved, 0.0)), b)
    case Free(i, amount, observed) => World(Release(db, i, amount, observed), b)
    case AddHold(e, g) => World(db.(holds := db.holds + [e]), b)
    case Refile(receipts, config) => World(db.(receipts := receipts, config := config), b)
  }

  ghost predicate Legal(w: World, cs: seq<Change>)
    decreases |cs|, 0
  {
    cs == [] || (Legal(w, cs[..|cs| - 1]) && Allowed(Play(w, cs[..|cs| - 1]).db, cs[|cs| - 1]))
  }

  ghost function Play(w: World, cs: seq<Change>): World
    requires Legal(w, cs)
    decreases |cs|, 1
  {
    if cs == [] then w else Turn(Play(w, cs[..|cs| - 1]), cs[|cs| - 1])
  }

  lemma PlayOne(w: World, cs: seq<Change>, c: Change)
    requires Legal(w, cs) && Allowed(Play(w, cs).db, c)
    ensures Legal(w, cs + [c]) && Play(w, cs + [c]) == Turn(Play(w, cs), c)
  {
    assert (cs + [c])[..|cs|] == cs;
  }

  /** Some sequence of allowed changes turns `w` into `x`. */
  ghost predicate Leads(w: World, x: World)
  {
    exists cs :: Legal(w, cs) && Play(w, cs) == x
  }

  lemma LeadsHere(w: World)
    ensures Leads(w, w)
  {
    assert Legal(w, []) && Play(w, []) == w;
  }

  lemma LeadsOn(w: World, x: World, c: Change)
    requires Leads(w, x) && Allowed(x.db, c)
    ensures Leads(w, Turn(x, c))
  {
    var cs :| Legal(w, cs) && Play(w, cs) == x;
    PlayOne(w, cs, c);
  }
}
