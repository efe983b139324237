/** What reserved seconds promise. The ledger never adds them up, so the promise holds only as long as
    every step fits beside them. */
module BudgetTime {
  import opened Options
  import opened PyText
  import opened BudgetModel
  import opened BudgetProofs

  function RemainingSeconds(r: Reservation): real
  {
    MaxReal(0.0, r.seconds - r.usedSeconds)
  }

  function PromisedSeconds(s: Slot): real
  {
    if s.res.status == Pending then RemainingSeconds(s.res) else 0.0
  }

  /** The seconds all pending reservations still promise. */
  function ActiveSeconds(slots: seq<Slot>): real
  {
    if slots == [] then 0.0 else ActiveSeconds(slots[..|slots| - 1]) + PromisedSeconds(slots[|slots| - 1])
  }

  lemma SecondsAppend(slots: seq<Slot>, s: Slot)
    ensures ActiveSeconds(slots + [s]) == ActiveSeconds(slots) + PromisedSeconds(s)
  {
    assert (slots + [s])[..|slots|] == slots;
  }

  lemma {:induction false} SecondsUpdate(slots: seq<Slot>, i: nat, s: Slot)
    requires i < |slots|
    ensures ActiveSeconds(slots[i := s]) == ActiveSeconds(slots) - PromisedSeconds(slots[i]) + PromisedSeconds(s)
  {
    var n := |slots| - 1;
    if i < n {
      SecondsUpdate(slots[..n], i, s);
      assert slots[i := s][..n] == slots[..n][i := s];
    } else {
      assert slots[i := s][..n] == slots[..n];
    }
  }

  lemma {:induction false} SecondsCover(slots: seq<Slot>)
    ensures ActiveSeconds(slots) >= 0.0
    ensures forall i :: 0 <= i < |slots| ==> ActiveSeconds(slots) >= PromisedSeconds(slots[i])
  {
    if slots != [] {
      var init := slots[..|slots| - 1];
      SecondsCover(init);
      assert forall i :: 0 <= i < |init| ==> init[i] == slots[i];
    }
  }

  /** With `more` on top, the time used and the time promised fit the ceiling. */
  predicate Fits(s: Ledger, used: real, more: real)
  {
    s.limits.seconds.Some? ==> used + ActiveSeconds(s.slots) + more <= s.limits.seconds.value
  }

  /** The time used plus everything promised fits the ceiling. */
  predicate WithinTime(s: Ledger)
  {
    Fits(s, s.used.seconds, 0.0)
  }

  /** The part of an operation's time its own reservation accounts for. */
  function OwnTime(s: Ledger, op: Operation): real
  {
    if op.reservation.Some? && Find(s.slots, op.reservation.value).Some?
    then BookedSeconds(op, s.slots[Find(s.slots, op.reservation.value).value].res) else 0.0
  }

  /** The time a step adds fits beside what is promised: all of a new reservation, what an operation does
      not draw from its own, and the clock of the repair loop. */
  predicate StepFits(s: Ledger, e: Event)
  {
    Step(s, e).1.None? ==>
      match e
      case EvReserve(_, _, seconds, _) => Fits(s, s.used.seconds, seconds)
      case EvRecord(op) => Fits(s, s.used.seconds, op.seconds - OwnTime(s, op))
      case EvSync(c) => Fits(s, c.seconds, 0.0)
      case _ => true
  }

  lemma ReserveTimeIff(s: Ledger, id: string, want: Amounts, seconds: real, clock: real)
    requires Reserve(s, id, want, seconds, clock).1.None?
    ensures WithinTime(Reserve(s, id, want, seconds, clock).0) <==> Fits(s, s.used.seconds, seconds)
  {
    SecondsAppend(s.slots, Slot(id, Reservation(want, Nothing, seconds, 0.0, Pending)));
  }

  /** Closing a reservation gives its time back. */
  lemma ConcludeTime(s: Ledger, id: string, status: Status)
    requires status != Pending && WithinTime(s)
    ensures WithinTime(Conclude(s, id, status).0)
  {
    var i := Find(s.slots, id);
    if i.Some? && s.slots[i.value].res.status == Pending {
      SecondsUpdate(s.slots, i.value, Conclude(s, id, status).0.slots[i.value]);
    }
  }

  lemma ActiveSecondsAfter(s: Ledger, op: Operation)
    requires Sound(s) && !Malformed(op) && OwnRefusal(s, op).None?
    ensures ActiveSeconds(Draw(s.slots, op)) == ActiveSeconds(s.slots) - OwnTime(s, op)
  {
    if op.reservation.Some? {
      var i := Find(s.slots, op.reservation.value).value;
      BookedFits(s, op, i);
      assert ResOk(s.slots[i].res);
      SecondsUpdate(s.slots, i, Draw(s.slots, op)[i]);
    }
  }

  lemma RecordTimeIff(s: Ledger, op: Operation)
    requires Sound(s) && Record(s, op).1.None?
    ensures WithinTime(Record(s, op).0) <==> Fits(s, s.used.seconds, op.seconds - OwnTime(s, op))
  {
    ActiveSecondsAfter(s, op);
  }

  lemma SyncTimeIff(s: Ledger, c: Counters)
    requires WithinTime(s) && Sync(s, c).1.None?
    ensures WithinTime(Sync(s, c).0) <==> Fits(s, c.seconds, 0.0)
  {
  }

  /** A step keeps the promise of time exactly when what it adds fits. */
  lemma StepTimeIff(s: Ledger, e: Event)
    requires Sound(s) && WithinTime(s)
    ensures WithinTime(Step(s, e).0) <==> StepFits(s, e)
  {
    if Step(s, e).1.None? {
      match e
      case EvReserve(id, want, seconds, clock) => ReserveTimeIff(s, id, want, seconds, clock);
      case EvCommit(id) => ConcludeTime(s, id, Committed);
      case EvCancel(id) => ConcludeTime(s, id, Cancelled);
      case EvRecord(op) => RecordTimeIff(s, op);
      case EvSync(c) => SyncTimeIff(s, c);
    } else {
      assert Step(s, e).0 == s;
    }
  }

  /** On every history the time used and promised stays within the ceiling throughout exactly when each
      accepted step fits. */
  lemma TimeFitsIff(s: Ledger, es: seq<Event>)
    requires Sound(s) && WithinTime(s)
    ensures Always(s, es, WithinTime) <==> Guarded(s, es, StepFits)
  {
    forall x, e | Sound(x) && WithinTime(x) ensures WithinTime(Step(x, e).0) <==> StepFits(x, e) {
      StepTimeIff(x, e);
    }
    AlwaysIffGuarded(s, es, WithinTime, StepFits);
  }

  /** The refusals for time name the test that failed. */
  lemma TimeRefusalMeans(s: Ledger, op: Operation)
    ensures CeilingRefusal(s, op) == Some(OtherCeiling(Seconds))
            ==> s.limits.seconds.Some? && op.seconds > 0.0 && s.used.seconds + op.seconds > s.limits.seconds.value
    ensures CeilingRefusal(s, op) != Some(OwnSeconds)
    ensures OwnRefusal(s, op) != Some(OtherCeiling(Seconds))
  {
  }

  /** An operation within what is left of its own reservation's time is refused for time neither by that
      reservation nor by the ledger. */
  lemma TimePromiseKept(s: Ledger, op: Operation)
    requires WithinTime(s) && op.reservation.Some? && Find(s.slots, op.reservation.value).Some?
    requires op.seconds <= RemainingSeconds(s.slots[Find(s.slots, op.reservation.value).value].res)
    ensures RecordRefusal(s, op) != Some(OwnSeconds) && RecordRefusal(s, op) != Some(OtherCeiling(Seconds))
  {
    TimeRefusalMeans(s, op);
    OwnMeans(s, op, Tokens);
    SecondsCover(s.slots);
    var slot := s.slots[Find(s.slots, op.reservation.value).value];
    assert slot.res.status == Pending ==> PromisedSeconds(slot) == RemainingSeconds(slot.res);
  }

  /** The same after every history whose steps all fit, whatever other holders did in between. */
  lemma TimePromiseKeptAfter(s: Ledger, es: seq<Event>, op: Operation)
    requires Sound(s) && WithinTime(s) && Guarded(s, es, StepFits)
    requires op.reservation.Some? && Find(Run(s, es).slots, op.reservation.value).Some?
    requires op.seconds
             <= RemainingSeconds(Run(s, es).slots[Find(Run(s, es).slots, op.reservation.value).value].res)
    ensures RecordRefusal(Run(s, es), op) != Some(OwnSeconds)
    ensures RecordRefusal(Run(s, es), op) != Some(OtherCeiling(Seconds))
  {
    TimeFitsIff(s, es);
    AlwaysLast(s, es, WithinTime);
    TimePromiseKept(Run(s, es), op);
  }

  // ---- The promise can be broken ----

  /** An operation that only takes time. */
  predicate OnlyTime(op: Operation, id: string, seconds: real)
  {
    && op.reservation == Some(id) && op.seconds == seconds > 0.0 && !Malformed(op) && Draws(op) == Nothing
    && !op.model && op.creations == 0 && op.cost.None? && !Blank(op.id)
  }

  /** Reserving the whole rest of the time, under one more identifier. */
  function ReserveRest(s: Ledger, id: string): Event
    requires s.limits.seconds.Some?
  {
    EvReserve(id, Nothing, s.limits.seconds.value - s.used.seconds, 0.0)
  }

  lemma RestReserved(s: Ledger, id: string)
    requires Sound(s) && (forall k :: Within(s, k)) && s.limits.seconds.Some?
    requires 0.0 <= s.used.seconds < s.limits.seconds.value && Find(s.slots, id).None? && !Blank(id)
    ensures var (x, no) := Step(s, ReserveRest(s, id));
            var rest := s.limits.seconds.value - s.used.seconds;
            && no.None? && Sound(x) && (forall k :: Within(x, k))
            && x == s.(slots := s.slots + [Slot(id, Reservation(Nothing, Nothing, rest, 0.0, Pending))])
  {
    assert !Lacks(s, Tokens, 0) && !Lacks(s, Sandboxes, 0) && !Lacks(s, Verifiers, 0) && !Lacks(s, Counterruns, 0) by {
      assert Within(s, Tokens) && Within(s, Sandboxes) && Within(s, Verifiers) && Within(s, Counterruns);
    }
    StepSound(s, ReserveRest(s, id));
    forall k ensures Within(Step(s, ReserveRest(s, id)).0, k) {
      StepKeepsIff(s, ReserveRest(s, id), k);
    }
  }

  /** An operation that only takes time is refused for time or not at all. */
  lemma OnlyTimeRefusal(s: Ledger, op: Operation, id: string, seconds: real, i: nat)
    requires OnlyTime(op, id, seconds) && op.id !in s.used.operations
    requires Find(s.slots, id) == Some(i) && s.slots[i].res.status == Pending
    requires s.slots[i].res.seconds == seconds && s.slots[i].res.usedSeconds == 0.0
    ensures RecordRefusal(s, op)
            == if s.limits.seconds.Some? && s.used.seconds + seconds > s.limits.seconds.value
               then Some(OtherCeiling(Seconds)) else None
  {
    assert OwnRefusal(s, op).None?;
    assert ModelRefusal(s, op).None?;
  }

  /** From every ledger with time left: two reservations of all that is left are both accepted, the first
      holder draws its time, and the second is refused its own by the ceiling. The second reservation is
      the step that does not fit. */
  lemma TimeIsPromisedTwice(s: Ledger, a: string, b: string, first: Operation, second: Operation)
    requires Sound(s) && (forall k :: Within(s, k)) && s.limits.seconds.Some?
    requires 0.0 <= s.used.seconds < s.limits.seconds.value
    requires Find(s.slots, a).None? && Find(s.slots, b).None? && a != b && !Blank(a) && !Blank(b)
    requires OnlyTime(first, a, s.limits.seconds.value - s.used.seconds)
    requires OnlyTime(second, b, s.limits.seconds.value - s.used.seconds)
    requires first.id != second.id && first.id !in s.used.operations && second.id !in s.used.operations
    ensures var (x, na) := Step(s, ReserveRest(s, a));
            var (y, nb) := Step(x, ReserveRest(x, b));
            var (z, drawn) := Step(y, EvRecord(first));
            && na.None? && nb.None? && drawn.None?
            && !StepFits(x, ReserveRest(x, b))
            && Find(z.slots, b).Some? && second.seconds <= RemainingSeconds(z.slots[Find(z.slots, b).value].res)
            && RecordRefusal(z, second) == Some(OtherCeiling(Seconds))
  {
    var n := |s.slots|;
    RestReserved(s, a);
    var x := Step(s, ReserveRest(s, a)).0;
    FindNew(s.slots, x.slots[n], []);
    assert x.slots[..n] == s.slots;
    FindOther(s.slots, x.slots[n], b);
    RestReserved(x, b);
    var y := Step(x, ReserveRest(x, b)).0;
    RestDoesNotFit(s, x, a, b);
    assert y.slots == s.slots + [x.slots[n]] + [y.slots[n + 1]];
    FindNew(s.slots, x.slots[n], [y.slots[n + 1]]);
    FindNew(x.slots, y.slots[n + 1], []);
    OnlyTimeRefusal(y, first, a, first.seconds, n);
    SecondRefused(y, first, second, a, b, n);
  }

  lemma RestDoesNotFit(s: Ledger, x: Ledger, a: string, b: string)
    requires s.limits.seconds.Some? && s.used.seconds < s.limits.seconds.value && x.used == s.used && x.limits == s.limits
    requires var rest := s.limits.seconds.value - s.used.seconds;
             x.slots == s.slots + [Slot(a, Reservation(Nothing, Nothing, rest, 0.0, Pending))]
    requires Step(x, ReserveRest(x, b)).1.None?
    ensures !StepFits(x, ReserveRest(x, b))
  {
    SecondsAppend(s.slots, x.slots[|s.slots|]);
    SecondsCover(s.slots);
  }

  lemma SecondRefused(y: Ledger, first: Operation, second: Operation, a: string, b: string, n: nat)
    requires y.limits.seconds.Some? && first.seconds == second.seconds == y.limits.seconds.value - y.used.seconds
    requires OnlyTime(first, a, first.seconds) && OnlyTime(second, b, second.seconds) && a != b
    requires first.id != second.id && second.id !in y.used.operations
    requires RecordRefusal(y, first).None?
    requires |y.slots| == n + 2 && Find(y.slots, a) == Some(n) && Find(y.slots, b) == Some(n + 1)
    requires y.slots[n + 1].res == Reservation(Nothing, Nothing, second.seconds, 0.0, Pending)
    ensures var z := Step(y, EvRecord(first)).0;
            && Find(z.slots, b).Some? && second.seconds <= RemainingSeconds(z.slots[Find(z.slots, b).value].res)
            && RecordRefusal(z, second) == Some(OtherCeiling(Seconds))
  {
    var z := Step(y, EvRecord(first)).0;
    assert z.slots == y.slots[n := z.slots[n]] && z.slots[n].id == a;
    FindKept(y.slots, n, z.slots[n], b);
    OnlyTimeRefusal(z, second, b, second.seconds, n + 1);
  }

  lemma FindNew(before: seq<Slot>, slot: Slot, after: seq<Slot>)
    requires Find(before, slot.id).None?
    ensures Find(before + [slot] + after, slot.id) == Some(|before|)
  {
    var all := before + [slot] + after;
    assert all[|before|] == slot;
    assert forall i :: 0 <= i < |before| ==> all[i] == before[i];
  }

  lemma FindOther(before: seq<Slot>, slot: Slot, id: string)
    requires Find(before, id).None? && slot.id != id
    ensures Find(before + [slot], id).None?
  {
    assert forall i :: 0 <= i < |before| ==> (before + [slot])[i] == before[i];
  }

  lemma {:induction false} FindKept(slots: seq<Slot>, i: nat, slot: Slot, id: string)
    requires i < |slots| && slot.id == slots[i].id
    ensures Find(slots[i := slot], id) == Find(slots, id)
  {
    if i > 0 {
      FindKept(slots[1..], i - 1, slot, id);
      assert slots[i := slot][1..] == slots[1..][i - 1 := slot];
    }
  }
}
