/** What the budget ledger promises over every history. */
module BudgetProofs {
  import opened Options
  import opened BudgetModel

  // ---- Sums over reservations ----

  lemma ActiveAppend(slots: seq<Slot>, s: Slot, k: Kind)
    ensures Active(slots + [s], k) == Active(slots, k) + Promised(s, k)
  {
    assert (slots + [s])[..|slots|] == slots;
  }

  lemma {:induction false} ActiveUpdate(slots: seq<Slot>, i: nat, s: Slot, k: Kind)
    requires i < |slots|
    ensures Active(slots[i := s], k) == Active(slots, k) - Promised(slots[i], k) + Promised(s, k)
  {
    var n := |slots| - 1;
    if i < n {
      ActiveUpdate(slots[..n], i, s, k);
      assert slots[i := s][..n] == slots[..n][i := s];
    } else {
      assert slots[i := s][..n] == slots[..n];
    }
  }

  lemma {:induction false} ActiveCovers(slots: seq<Slot>, k: Kind)
    ensures Active(slots, k) >= 0
    ensures forall i :: 0 <= i < |slots| ==> Active(slots, k) >= Promised(slots[i], k)
  {
    if slots != [] {
      var init := slots[..|slots| - 1];
      ActiveCovers(init, k);
      assert forall i :: 0 <= i < |init| ==> init[i] == slots[i];
    }
  }

  /** What was booked on all reservations together. */
  function Drawn(slots: seq<Slot>, k: Kind): int
  {
    if slots == [] then 0 else Drawn(slots[..|slots| - 1], k) + Of(slots[|slots| - 1].res.consumed, k)
  }

  lemma DrawnAppend(slots: seq<Slot>, s: Slot, k: Kind)
    ensures Drawn(slots + [s], k) == Drawn(slots, k) + Of(s.res.consumed, k)
  {
    assert (slots + [s])[..|slots|] == slots;
  }

  lemma {:induction false} DrawnUpdate(slots: seq<Slot>, i: nat, s: Slot, k: Kind)
    requires i < |slots|
    ensures Drawn(slots[i := s], k) == Drawn(slots, k) - Of(slots[i].res.consumed, k) + Of(s.res.consumed, k)
  {
    var n := |slots| - 1;
    if i < n {
      DrawnUpdate(slots[..n], i, s, k);
      assert slots[i := s][..n] == slots[..n][i := s];
    } else {
      assert slots[i := s][..n] == slots[..n];
    }
  }

  // ---- The invariant ----

  /** The consumption plus everything promised fits the ceiling. */
  predicate Within(s: Ledger, k: Kind)
  {
    LimitOf(s.limits, k).Some? ==> Of(s.used.used, k) + Active(s.slots, k) <= LimitOf(s.limits, k).value
  }

  predicate ResOk(r: Reservation)
  {
    && NonNegative(r.reserved) && NonNegative(r.consumed)
    && r.consumed.tokens <= r.reserved.tokens && r.consumed.sandboxes <= r.reserved.sandboxes
    && r.consumed.verifiers <= r.reserved.verifiers && r.consumed.counterruns <= r.reserved.counterruns
    && 0.0 <= r.usedSeconds <= r.seconds
  }

  /** Reservations have distinct identifiers and draw no more than they hold; nothing consumed is negative. */
  ghost predicate Sound(s: Ledger)
  {
    && (forall i, j :: 0 <= i < j < |s.slots| ==> s.slots[i].id != s.slots[j].id)
    && (forall i :: 0 <= i < |s.slots| ==> ResOk(s.slots[i].res))
    && NonNegative(s.used.used)
  }

  lemma DrawsNonNegative(op: Operation)
    requires !Malformed(op)
    ensures NonNegative(Draws(op))
  {
  }

  /** What an accepted operation books fits its reservation. */
  lemma BookedFits(s: Ledger, op: Operation, i: nat)
    requires Sound(s) && !Malformed(op) && OwnRefusal(s, op).None?
    requires op.reservation.Some? && Find(s.slots, op.reservation.value) == Some(i)
    ensures ResOk(Draw(s.slots, op)[i].res)
    ensures forall k :: 0 <= Of(Booked(op, s.slots[i].res), k) <= Remaining(s.slots[i].res, k)
    ensures s.slots[i].res.status == Pending
  {
    DrawsNonNegative(op);
    var r := s.slots[i].res;
    assert ResOk(r);
    forall k ensures 0 <= Of(Booked(op, r), k) <= Remaining(r, k) {
      assert !Exceeds(op, r, k);
    }
    assert Of(Booked(op, r), Tokens) <= Remaining(r, Tokens) && Of(Booked(op, r), Sandboxes) <= Remaining(r, Sandboxes)
           && Of(Booked(op, r), Verifiers) <= Remaining(r, Verifiers)
           && Of(Booked(op, r), Counterruns) <= Remaining(r, Counterruns);
  }

  lemma RecordSound(s: Ledger, op: Operation)
    requires Sound(s)
    ensures Sound(Record(s, op).0)
  {
    if RecordRefusal(s, op).None? {
      DrawsNonNegative(op);
      if op.reservation.Some? {
        BookedFits(s, op, Find(s.slots, op.reservation.value).value);
      }
    }
  }

  lemma StepSound(s: Ledger, e: Event)
    requires Sound(s)
    ensures Sound(Step(s, e).0)
  {
    if e.EvRecord? {
      RecordSound(s, e.op);
    }
  }

  lemma {:induction false} RunSound(s: Ledger, es: seq<Event>)
    requires Sound(s)
    ensures Sound(Run(s, es))
  {
    if es != [] {
      RunSound(s, es[..|es| - 1]);
      StepSound(Run(s, es[..|es| - 1]), es[|es| - 1]);
    }
  }

  /** After an accepted operation what was promised shrinks by what was booked. */
  lemma ActiveAfter(s: Ledger, op: Operation, k: Kind)
    requires Sound(s) && !Malformed(op) && OwnRefusal(s, op).None?
    ensures Active(Draw(s.slots, op), k) == Active(s.slots, k) - OwnBooking(s, op, k)
  {
    if op.reservation.Some? {
      var i := Find(s.slots, op.reservation.value).value;
      BookedFits(s, op, i);
      ActiveUpdate(s.slots, i, Draw(s.slots, op)[i], k);
      assert 0 <= Of(Booked(op, s.slots[i].res), k) <= Remaining(s.slots[i].res, k);
    }
  }

  function OwnBooking(s: Ledger, op: Operation, k: Kind): int
  {
    if op.reservation.Some? && Find(s.slots, op.reservation.value).Some?
    then Of(Booked(op, s.slots[Find(s.slots, op.reservation.value).value].res), k) else 0
  }

  lemma PlusOf(a: Amounts, b: Amounts, k: Kind)
    ensures Of(Plus(a, b), k) == Of(a, k) + Of(b, k)
  {
  }

  /** The ceiling test of an operation refuses exactly what would break the ceiling. */
  lemma CeilingExact(s: Ledger, op: Operation, k: Kind)
    requires Sound(s) && Within(s, k) && !Malformed(op) && OwnRefusal(s, op).None? && Of(Draws(op), k) > 0
    ensures Blocked(s, op, k) <==> !Within(Book(s, op), k)
  {
    ActiveAfter(s, op, k);
    PlusOf(s.used.used, Draws(op), k);
    ActiveCovers(s.slots, k);
    if op.reservation.Some? {
      BookedFits(s, op, Find(s.slots, op.reservation.value).value);
    }
  }

  lemma RecordWithin(s: Ledger, op: Operation, k: Kind)
    requires Sound(s) && Within(s, k)
    ensures Within(Record(s, op).0, k)
  {
    if RecordRefusal(s, op).None? {
      DrawsNonNegative(op);
      if Of(Draws(op), k) > 0 {
        CeilingExact(s, op, k);
      } else {
        ActiveAfter(s, op, k);
        PlusOf(s.used.used, Draws(op), k);
      }
    }
  }

  lemma ReserveWithin(s: Ledger, id: string, want: Amounts, seconds: real, clock: real, k: Kind)
    requires Within(s, k)
    ensures Within(Reserve(s, id, want, seconds, clock).0, k)
  {
    if ReserveRefusal(s, id, want, seconds, clock).None? {
      ActiveAppend(s.slots, Slot(id, Reservation(want, Nothing, seconds, 0.0, Pending)), k);
      assert !Lacks(s, k, Of(want, k));
    }
  }

  lemma ConcludeWithin(s: Ledger, id: string, status: Status, k: Kind)
    requires status != Pending && Within(s, k)
    ensures Within(Conclude(s, id, status).0, k)
  {
    var i := Find(s.slots, id);
    if i.Some? && s.slots[i.value].res.status == Pending {
      ActiveUpdate(s.slots, i.value, Conclude(s, id, status).0.slots[i.value], k);
    }
  }

  /** The counter a synchronisation brings fits beside the active reservations. */
  predicate CounterFits(s: Ledger, c: Counters, k: Kind)
  {
    k != Counterruns && LimitOf(s.limits, k).Some? ==> Counter(c, k) + Active(s.slots, k) <= LimitOf(s.limits, k).value
  }

  function Counter(c: Counters, k: Kind): int
  {
    match k
    case Tokens => c.tokens
    case Sandboxes => c.sandboxes
    case Verifiers => c.verifiers
    case Counterruns => 0
  }

  /** Synchronising keeps the promise for a resource exactly when its counter fits beside it. */
  lemma SyncKeepsIff(s: Ledger, c: Counters, k: Kind)
    requires Within(s, k) && Sync(s, c).1.None?
    ensures Within(Sync(s, c).0, k) <==> CounterFits(s, c, k)
  {
  }

  /** A synchronisation that is accepted brings a counter that fits. */
  predicate SyncFits(s: Ledger, e: Event, k: Kind)
  {
    e.EvSync? && Sync(s, e.counters).1.None? ==> CounterFits(s, e.counters, k)
  }

  /** Only an accepted synchronisation whose counter does not fit breaks the promise for a resource. */
  lemma StepKeepsIff(s: Ledger, e: Event, k: Kind)
    requires Sound(s) && Within(s, k)
    ensures Within(Step(s, e).0, k) <==> SyncFits(s, e, k)
  {
    match e
    case EvReserve(id, want, seconds, clock) => ReserveWithin(s, id, want, seconds, clock, k);
    case EvCommit(id) => ConcludeWithin(s, id, Committed, k);
    case EvCancel(id) => ConcludeWithin(s, id, Cancelled, k);
    case EvRecord(op) => RecordWithin(s, op, k);
    case EvSync(c) =>
      if Sync(s, c).1.None? {
        SyncKeepsIff(s, c, k);
      }
  }

  // ---- Histories that meet a guard at every step ----

  /** The property holds before the first step and after each. */
  ghost predicate Always(s: Ledger, es: seq<Event>, property: Ledger -> bool)
  {
    forall n :: 0 <= n <= |es| ==> property(Run(s, es[..n]))
  }

  /** Each step meets the guard in the state it is taken from. */
  ghost predicate Guarded(s: Ledger, es: seq<Event>, guard: (Ledger, Event) -> bool)
  {
    forall n :: 0 <= n < |es| ==> GuardedAt(s, es, guard, n)
  }

  ghost predicate GuardedAt(s: Ledger, es: seq<Event>, guard: (Ledger, Event) -> bool, n: nat)
    requires n < |es|
  {
    guard(Run(s, es[..n]), es[n])
  }

  lemma AlwaysUpTo(s: Ledger, es: seq<Event>, property: Ledger -> bool, n: nat)
    requires |es| == n + 1
    ensures Always(s, es, property) <==> Always(s, es[..n], property) && property(Run(s, es))
  {
    assert forall m :: 0 <= m <= n ==> es[..n][..m] == es[..m];
    assert es[..n + 1] == es;
  }

  lemma GuardedUpTo(s: Ledger, es: seq<Event>, guard: (Ledger, Event) -> bool, n: nat)
    requires |es| == n + 1
    ensures Guarded(s, es, guard) <==> Guarded(s, es[..n], guard) && GuardedAt(s, es, guard, n)
  {
    forall m | 0 <= m < n ensures GuardedAt(s, es[..n], guard, m) <==> GuardedAt(s, es, guard, m) {
      assert es[..n][..m] == es[..m];
    }
  }

  lemma AlwaysNext(s: Ledger, es: seq<Event>, property: Ledger -> bool, guard: (Ledger, Event) -> bool, n: nat)
    requires |es| == n + 1 && Sound(s) && property(Run(s, es[..n]))
    requires forall x, e :: Sound(x) && property(x) ==> (property(Step(x, e).0) <==> guard(x, e))
    ensures property(Run(s, es)) <==> GuardedAt(s, es, guard, n)
  {
    RunSound(s, es[..n]);
    assert Run(s, es) == Step(Run(s, es[..n]), es[n]).0;
  }

  lemma AlwaysLast(s: Ledger, es: seq<Event>, property: Ledger -> bool)
    requires Always(s, es, property)
    ensures property(Run(s, es))
  {
    assert es[..|es|] == es;
  }

  /** A guard that decides for each step whether it keeps a property decides for each history whether
      the property holds throughout. */
  lemma {:induction false} AlwaysIffGuarded(s: Ledger, es: seq<Event>, property: Ledger -> bool,
                                            guard: (Ledger, Event) -> bool)
    requires Sound(s) && property(s)
    requires forall x, e :: Sound(x) && property(x) ==> (property(Step(x, e).0) <==> guard(x, e))
    ensures Always(s, es, property) <==> Guarded(s, es, guard)
  {
    if es != [] {
      var n := |es| - 1;
      AlwaysIffGuarded(s, es[..n], property, guard);
      AlwaysUpTo(s, es, property, n);
      GuardedUpTo(s, es, guard, n);
      if Always(s, es[..n], property) {
        AlwaysLast(s, es[..n], property);
        AlwaysNext(s, es, property, guard, n);
      }
    }
  }

  /** Consumption and promises fit the ceiling of a resource throughout. */
  ghost predicate AlwaysWithin(s: Ledger, es: seq<Event>, k: Kind)
  {
    Always(s, es, (x: Ledger) => Within(x, k))
  }

  /** Every accepted synchronisation of the history fits beside the reservations active at its step. */
  ghost predicate SyncsFit(s: Ledger, es: seq<Event>, k: Kind)
  {
    Guarded(s, es, (x: Ledger, e: Event) => SyncFits(x, e, k))
  }

  /** On every history, consumption plus promises stays within the ceiling throughout exactly when each
      accepted synchronisation fits. */
  lemma PromisesFitIff(s: Ledger, es: seq<Event>, k: Kind)
    requires Sound(s) && Within(s, k)
    ensures AlwaysWithin(s, es, k) <==> SyncsFit(s, es, k)
  {
    forall x, e | Sound(x) && Within(x, k) ensures Within(Step(x, e).0, k) <==> SyncFits(x, e, k) {
      StepKeepsIff(x, e, k);
    }
    AlwaysIffGuarded(s, es, (x: Ledger) => Within(x, k), (x: Ledger, e: Event) => SyncFits(x, e, k));
  }

  predicate SyncFree(es: seq<Event>)
  {
    forall i :: 0 <= i < |es| ==> !es[i].EvSync?
  }

  lemma SyncFreeFits(s: Ledger, es: seq<Event>, k: Kind)
    requires SyncFree(es)
    ensures SyncsFit(s, es, k)
  {
  }

  /** Without synchronisation, consumption plus promises stays within each ceiling. */
  lemma PromisesFit(s: Ledger, es: seq<Event>, k: Kind)
    requires Sound(s) && Within(s, k) && SyncFree(es)
    ensures Within(Run(s, es), k)
  {
    SyncFreeFits(s, es, k);
    PromisesFitIff(s, es, k);
    AlwaysLast(s, es, (x: Ledger) => Within(x, k));
  }

  /** A ledger without reservations meets the promise for a resource exactly when what it has consumed
      is within the ceiling; from there every history without synchronisation keeps it. */
  lemma PromisesFitFromStart(s: Ledger, es: seq<Event>, k: Kind)
    requires s.slots == [] && NonNegative(s.used.used) && SyncFree(es)
    ensures Within(s, k) <==> (LimitOf(s.limits, k).Some? ==> Of(s.used.used, k) <= LimitOf(s.limits, k).value)
    ensures Within(s, k) ==> Within(Run(s, es), k)
  {
    if Within(s, k) {
      PromisesFit(s, es, k);
    }
  }

  /** The ceiling refusals name the test that failed. */
  lemma CeilingMeans(s: Ledger, op: Operation, k: Kind)
    ensures CeilingRefusal(s, op) == Some(Ceiling(k)) ==> Blocked(s, op, k)
    ensures CeilingRefusal(s, op) != Some(OwnCapacity(k))
  {
  }

  lemma OwnMeans(s: Ledger, op: Operation, k: Kind)
    requires op.reservation.Some? && Find(s.slots, op.reservation.value).Some?
    ensures OwnRefusal(s, op) == Some(OwnCapacity(k))
            ==> Exceeds(op, s.slots[Find(s.slots, op.reservation.value).value].res, k)
    ensures OwnRefusal(s, op) != Some(Ceiling(k))
    ensures OwnRefusal(s, op).None? ==> s.slots[Find(s.slots, op.reservation.value).value].res.status == Pending
  {
  }

  /** An operation within what is left of its own reservation is not refused by that reservation's
      capacity for the resource, nor by the ledger's ceiling for it. */
  lemma PromiseKept(s: Ledger, op: Operation, k: Kind)
    requires Sound(s) && Within(s, k)
    requires op.reservation.Some? && Find(s.slots, op.reservation.value).Some?
    requires Of(Draws(op), k) <= Remaining(s.slots[Find(s.slots, op.reservation.value).value].res, k)
    ensures RecordRefusal(s, op) != Some(OwnCapacity(k)) && RecordRefusal(s, op) != Some(Ceiling(k))
  {
    var i := Find(s.slots, op.reservation.value).value;
    OwnMeans(s, op, k);
    CeilingMeans(s, op, k);
    assert !Exceeds(op, s.slots[i].res, k);
    if OwnRefusal(s, op).None? {
      PendingNeverBlocked(s, op, i, k);
    }
  }

  lemma PendingNeverBlocked(s: Ledger, op: Operation, i: nat, k: Kind)
    requires Within(s, k) && op.reservation.Some? && Find(s.slots, op.reservation.value) == Some(i)
    requires s.slots[i].res.status == Pending && Of(Draws(op), k) <= Remaining(s.slots[i].res, k)
    ensures !Blocked(s, op, k)
  {
    ActiveCovers(s.slots, k);
    assert Promised(s.slots[i], k) == Remaining(s.slots[i].res, k);
  }

  /** The same after every history whose synchronisations fit, whatever other holders did in between. */
  lemma PromiseKeptAfter(s: Ledger, es: seq<Event>, op: Operation, k: Kind)
    requires Sound(s) && Within(s, k) && SyncsFit(s, es, k)
    requires op.reservation.Some? && Find(Run(s, es).slots, op.reservation.value).Some?
    requires Of(Draws(op), k)
             <= Remaining(Run(s, es).slots[Find(Run(s, es).slots, op.reservation.value).value].res, k)
    ensures RecordRefusal(Run(s, es), op) != Some(OwnCapacity(k)) && RecordRefusal(Run(s, es), op) != Some(Ceiling(k))
  {
    PromisesFitIff(s, es, k);
    AlwaysLast(s, es, (x: Ledger) => Within(x, k));
    RunSound(s, es);
    PromiseKept(Run(s, es), op, k);
  }

  // ---- Ceilings on consumption, synchronisation included ----

  predicate AtMost(limit: Option<int>, used: int)
  {
    limit.Some? ==> used <= limit.value
  }

  predicate AtMostReal(limit: Option<real>, used: real)
  {
    limit.Some? ==> used <= limit.value
  }

  /** No ceiling is exceeded by what was consumed. */
  predicate Spent(s: Ledger)
  {
    var l, u := s.limits, s.used;
    && AtMost(l.input, u.input) && AtMost(l.output, u.output) && AtMost(l.models, u.models)
    && AtMost(l.creations, u.creations) && AtMost(l.tokens, u.used.tokens) && AtMost(l.sandboxes, u.used.sandboxes)
    && AtMost(l.verifiers, u.used.verifiers) && AtMost(l.counterruns, u.used.counterruns)
    && AtMostReal(l.seconds, u.seconds) && AtMostReal(l.cost, u.cost.GetOr(0.0))
  }

  lemma RecordSpent(s: Ledger, op: Operation)
    requires Spent(s)
    ensures Spent(Record(s, op).0)
  {
    if RecordRefusal(s, op).None? {
      DrawsNonNegative(op);
      assert !Blocked(s, op, Tokens) && !Blocked(s, op, Sandboxes) && !Blocked(s, op, Verifiers)
             && !Blocked(s, op, Counterruns);
    }
  }

  /** On every history, synchronisations included, consumption stays within all ten ceilings. */
  lemma {:induction false} NeverOverspent(s: Ledger, es: seq<Event>)
    requires Spent(s)
    ensures Spent(Run(s, es))
  {
    if es != [] {
      NeverOverspent(s, es[..|es| - 1]);
      StepSpent(Run(s, es[..|es| - 1]), es[|es| - 1]);
    }
  }

  lemma StepSpent(s: Ledger, e: Event)
    requires Spent(s)
    ensures Spent(Step(s, e).0)
  {
    match e
    case EvRecord(op) => RecordSpent(s, op);
    case EvSync(c) => SyncSpent(s, c);
    case _ =>
  }

  lemma SyncSpent(s: Ledger, c: Counters)
    requires Spent(s)
    ensures Spent(Sync(s, c).0)
  {
  }

  // ---- Accounting ----

  lemma StepDrawn(s: Ledger, e: Event, k: Kind)
    requires Sound(s)
    ensures Drawn(Step(s, e).0.slots, k) - Drawn(s.slots, k) <= Of(Step(s, e).0.used.used, k) - Of(s.used.used, k)
  {
    match e
    case EvReserve(id, want, seconds, clock) =>
      DrawnAppend(s.slots, Slot(id, Reservation(want, Nothing, seconds, 0.0, Pending)), k);
    case EvCommit(id) =>
      if Step(s, e).1.None? { DrawnUpdate(s.slots, Find(s.slots, id).value, Step(s, e).0.slots[Find(s.slots, id).value], k); }
    case EvCancel(id) =>
      if Step(s, e).1.None? { DrawnUpdate(s.slots, Find(s.slots, id).value, Step(s, e).0.slots[Find(s.slots, id).value], k); }
    case EvRecord(op) => RecordDrawn(s, op, k);
    case EvSync(c) =>
  }

  lemma RecordDrawn(s: Ledger, op: Operation, k: Kind)
    requires Sound(s)
    ensures Drawn(Record(s, op).0.slots, k) - Drawn(s.slots, k) <= Of(Record(s, op).0.used.used, k) - Of(s.used.used, k)
  {
    if RecordRefusal(s, op).None? {
      DrawsNonNegative(op);
      PlusOf(s.used.used, Draws(op), k);
      if op.reservation.Some? {
        var i := Find(s.slots, op.reservation.value).value;
        DrawnUpdate(s.slots, i, Draw(s.slots, op)[i], k);
        PlusOf(s.slots[i].res.consumed, Booked(op, s.slots[i].res), k);
      }
    }
  }

  /** What is booked on reservations was really consumed. */
  lemma {:induction false} DrawsWithinConsumption(s: Ledger, es: seq<Event>, k: Kind)
    requires Sound(s) && s.slots == []
    ensures Drawn(Run(s, es).slots, k) <= Of(Run(s, es).used.used, k) - Of(s.used.used, k)
  {
    if es != [] {
      var init := es[..|es| - 1];
      DrawsWithinConsumption(s, init, k);
      RunSound(s, init);
      StepDrawn(Run(s, init), es[|es| - 1], k);
    }
  }

  /** The operations a history accepted, in order. */
  function Accepted(s: Ledger, es: seq<Event>): seq<Operation>
  {
    if es == [] then []
    else
      var init, e := es[..|es| - 1], es[|es| - 1];
      if e.EvRecord? && RecordRefusal(Run(s, init), e.op).None? then Accepted(s, init) + [e.op] else Accepted(s, init)
  }

  function Total(ops: seq<Operation>, k: Kind): int
  {
    if ops == [] then 0 else Total(ops[..|ops| - 1], k) + Of(Draws(ops[|ops| - 1]), k)
  }

  function TotalSeconds(ops: seq<Operation>): real
  {
    if ops == [] then 0.0 else TotalSeconds(ops[..|ops| - 1]) + ops[|ops| - 1].seconds
  }

  function TotalCost(ops: seq<Operation>): real
  {
    if ops == [] then 0.0
    else TotalCost(ops[..|ops| - 1])
         + var c := ops[|ops| - 1].cost; if c.Some? && c.value.usd.Some? then c.value.usd.value else 0.0
  }

  /** The four other counters. */
  function TotalOthers(ops: seq<Operation>): (int, int, int, int)
  {
    if ops == [] then (0, 0, 0, 0)
    else
      var (input, output, models, creations) := TotalOthers(ops[..|ops| - 1]);
      var op := ops[|ops| - 1];
      (input + op.input, output + op.output, models + (if op.model then 1 else 0), creations + op.creations)
  }

  ghost predicate Adds(before: Consumption, ops: seq<Operation>, after: Consumption)
  {
    var others := TotalOthers(ops);
    && (forall k :: Of(after.used, k) == Of(before.used, k) + Total(ops, k))
    && after.seconds == before.seconds + TotalSeconds(ops)
    && after.cost.GetOr(0.0) == before.cost.GetOr(0.0) + TotalCost(ops)
    && after.input == before.input + others.0 && after.output == before.output + others.1
    && after.models == before.models + others.2 && after.creations == before.creations + others.3
  }

  lemma AddsOne(before: Consumption, ops: seq<Operation>, mid: Consumption, op: Operation)
    requires Adds(before, ops, mid)
    ensures Adds(before, ops + [op], Use(mid, op))
  {
    assert (ops + [op])[..|ops|] == ops;
    forall k ensures Of(Use(mid, op).used, k) == Of(before.used, k) + Total(ops + [op], k) {
      PlusOf(mid.used, Draws(op), k);
    }
  }

  /** Only an accepted operation consumes. */
  lemma StepUses(s: Ledger, e: Event)
    requires !e.EvSync?
    ensures Step(s, e).0.used == if e.EvRecord? && RecordRefusal(s, e.op).None? then Use(s.used, e.op) else s.used
  {
  }

  /** Without synchronisation every counter is its initial value plus the sum over the accepted
      operations. */
  lemma {:induction false} CountersAddUp(s: Ledger, es: seq<Event>)
    requires SyncFree(es)
    ensures Adds(s.used, Accepted(s, es), Run(s, es).used)
  {
    if es != [] {
      var init, e := es[..|es| - 1], es[|es| - 1];
      CountersAddUp(s, init);
      StepUses(Run(s, init), e);
      if e.EvRecord? && RecordRefusal(Run(s, init), e.op).None? {
        AddsOne(s.used, Accepted(s, init), Run(s, init).used, e.op);
      }
    }
  }

  /** Each identifier is accepted once, and never one that was already recorded; the recorded set is
      the initial one with the accepted ones added. */
  lemma {:induction false} AcceptedOnce(s: Ledger, es: seq<Event>)
    ensures var ops := Accepted(s, es);
            && (forall i, j :: 0 <= i < j < |ops| ==> ops[i].id != ops[j].id)
            && (forall i :: 0 <= i < |ops| ==> ops[i].id !in s.used.operations)
            && Run(s, es).used.operations == s.used.operations + set i | 0 <= i < |ops| :: ops[i].id
  {
    if es != [] {
      var init, e := es[..|es| - 1], es[|es| - 1];
      AcceptedOnce(s, init);
      var ops := Accepted(s, init);
      if e.EvRecord? && RecordRefusal(Run(s, init), e.op).None? {
        var more := ops + [e.op];
        assert (set i | 0 <= i < |more| :: more[i].id) == (set i | 0 <= i < |ops| :: ops[i].id) + {e.op.id} by {
          assert more[|ops|] == e.op;
          assert forall i :: 0 <= i < |ops| ==> more[i] == ops[i];
        }
      }
    }
  }

  /** An operation with a verified zero cost and no unknown flag. */
  predicate Free(op: Operation)
  {
    op.cost.Some? && op.cost.value.verifiedZero && !op.unknown
  }

  /** What `validate` establishes. */
  predicate ZeroIsZero(u: Consumption)
  {
    u.verifiedZero ==> !u.unknownCost && u.cost.GetOr(0.0) <= 0.0
  }

  ghost predicate AllFree(ops: seq<Operation>)
  {
    forall i :: 0 <= i < |ops| ==> Free(ops[i])
  }

  lemma AllFreeMore(ops: seq<Operation>, op: Operation)
    ensures AllFree(ops + [op]) <==> AllFree(ops) && Free(op)
  {
    assert (ops + [op])[|ops|] == op;
    assert forall i :: 0 <= i < |ops| ==> (ops + [op])[i] == ops[i];
  }

  /** The verified-zero flag stays true exactly as long as it was true and every accepted operation
      was free, synchronisations included. */
  lemma {:induction false} VerifiedZeroIff(s: Ledger, es: seq<Event>)
    requires ZeroIsZero(s.used)
    ensures ZeroIsZero(Run(s, es).used)
    ensures Run(s, es).used.verifiedZero <==> s.used.verifiedZero && AllFree(Accepted(s, es))
  {
    if es != [] {
      var init, e := es[..|es| - 1], es[|es| - 1];
      VerifiedZeroIff(s, init);
      StepFree(Run(s, init), e);
      if e.EvRecord? && RecordRefusal(Run(s, init), e.op).None? {
        AllFreeMore(Accepted(s, init), e.op);
      }
    }
  }

  lemma StepFree(s: Ledger, e: Event)
    requires ZeroIsZero(s.used)
    ensures ZeroIsZero(Step(s, e).0.used)
    ensures Step(s, e).0.used.verifiedZero
            <==> s.used.verifiedZero && (e.EvRecord? && RecordRefusal(s, e.op).None? ==> Free(e.op))
  {
    if e.EvRecord? && RecordRefusal(s, e.op).None? {
      FreeUse(s.used, e.op);
    }
  }

  lemma FreeUse(u: Consumption, op: Operation)
    requires ZeroIsZero(u)
    ensures ZeroIsZero(Use(u, op))
    ensures Use(u, op).verifiedZero <==> u.verifiedZero && Free(op)
  {
  }

  /** What a reservation has drawn is the sum of what the accepted operations that name it booked. */
  function BookedBy(ops: seq<Operation>, id: string, r: Reservation, k: Kind): int
  {
    if ops == [] then 0
    else
      var op := ops[|ops| - 1];
      BookedBy(ops[..|ops| - 1], id, r, k) + if op.reservation == Some(id) then Of(Booked(op, r), k) else 0
  }

  lemma BookedByMore(ops: seq<Operation>, op: Operation, id: string, r: Reservation, k: Kind)
    ensures BookedBy(ops + [op], id, r, k)
            == BookedBy(ops, id, r, k) + if op.reservation == Some(id) then Of(Booked(op, r), k) else 0
  {
    assert (ops + [op])[..|ops|] == ops;
  }

  /** A reservation keeps its size, and what is left of it is that size less its accepted draws. */
  lemma {:induction false} RemainderAddsUp(s: Ledger, es: seq<Event>, i: nat, k: Kind)
    requires Sound(s) && i < |s.slots|
    ensures var x := Run(s, es);
            && i < |x.slots| && x.slots[i].id == s.slots[i].id
            && x.slots[i].res.reserved == s.slots[i].res.reserved
            && Remaining(x.slots[i].res, k)
               == Remaining(s.slots[i].res, k) - BookedBy(Accepted(s, es), s.slots[i].id, s.slots[i].res, k)
  {
    if es != [] {
      var init, e := es[..|es| - 1], es[|es| - 1];
      RemainderAddsUp(s, init, i, k);
      RunSound(s, init);
      RunSound(s, es);
      StepRemainder(Run(s, init), e, i, k);
      if e.EvRecord? && RecordRefusal(Run(s, init), e.op).None? {
        BookedByMore(Accepted(s, init), e.op, s.slots[i].id, s.slots[i].res, k);
      }
    }
  }

  lemma StepRemainder(s: Ledger, e: Event, i: nat, k: Kind)
    requires Sound(s) && i < |s.slots|
    ensures var x := Step(s, e).0;
            && i < |x.slots| && x.slots[i].id == s.slots[i].id && x.slots[i].res.reserved == s.slots[i].res.reserved
            && Remaining(x.slots[i].res, k)
               == Remaining(s.slots[i].res, k)
                  - if e.EvRecord? && RecordRefusal(s, e.op).None? && e.op.reservation == Some(s.slots[i].id)
                    then Of(Booked(e.op, s.slots[i].res), k) else 0
  {
    if e.EvRecord? && RecordRefusal(s, e.op).None? && e.op.reservation.Some? {
      var j := Find(s.slots, e.op.reservation.value).value;
      BookedFits(s, e.op, j);
      PlusOf(s.slots[j].res.consumed, Booked(e.op, s.slots[j].res), k);
      assert ResOk(s.slots[i].res);
    }
  }
}
