/** What each operation of the budget ledger does, and when it is accepted, said of its fields. */
module BudgetEffects {
  import opened Options
  import opened PyText
  import opened BudgetModel
  import opened BudgetProofs

  // ---- Operations ----

  /** No amount is negative, and a token total that is given agrees with the parts that are given. */
  predicate Proper(op: Operation)
  {
    && op.input >= 0 && op.output >= 0 && op.total >= 0 && op.creations >= 0
    && op.sandboxes >= 0 && op.verifiers >= 0 && op.counterruns >= 0 && op.seconds >= 0.0
    && (op.total == 0 || op.input + op.output == 0 || op.total == op.input + op.output)
  }

  /** The tokens of an operation: its total, or its two parts when they are more. */
  function TokensOf(op: Operation): int
  {
    if op.total < op.input + op.output then op.input + op.output else op.total
  }

  lemma DrawsAre(op: Operation)
    ensures Malformed(op) <==> !Proper(op)
    ensures Proper(op) ==> Draws(op) == Amounts(TokensOf(op), op.sandboxes, op.verifiers, op.counterruns)
  {
  }

  /** The operation leaves it open what it cost: it says so, it used something chargeable without an
      estimate, or its estimate has no amount. */
  predicate LeavesCostOpen(op: Operation)
  {
    || op.unknown
    || (op.cost.None? && (op.model || op.total > 0 || op.input > 0 || op.output > 0 || op.sandboxes > 0 || op.creations > 0))
    || (op.cost.Some? && op.cost.value.usd.None?)
  }

  ghost predicate AnyOpen(ops: seq<Operation>)
  {
    exists i :: 0 <= i < |ops| && LeavesCostOpen(ops[i])
  }

  lemma OneMore(ops: seq<Operation>, op: Operation)
    ensures AnyOpen(ops + [op]) <==> AnyOpen(ops) || LeavesCostOpen(op)
  {
    assert (ops + [op])[|ops|] == op;
    assert forall i :: 0 <= i < |ops| ==> (ops + [op])[i] == ops[i];
  }

  lemma StepOpens(s: Ledger, e: Event)
    ensures Step(s, e).0.used.unknownCost
            <==> s.used.unknownCost || (e.EvRecord? && RecordRefusal(s, e.op).None? && LeavesCostOpen(e.op))
  {
    if e.EvRecord? {
      DrawsAre(e.op);
    }
  }

  /** The cost of a ledger is unknown exactly when it was to begin with or some accepted operation left it
      open, synchronisations included. */
  lemma {:induction false} UnknownCostIff(s: Ledger, es: seq<Event>)
    ensures Run(s, es).used.unknownCost <==> s.used.unknownCost || AnyOpen(Accepted(s, es))
  {
    if es != [] {
      var init, e := es[..|es| - 1], es[|es| - 1];
      UnknownCostIff(s, init);
      StepOpens(Run(s, init), e);
      if e.EvRecord? {
        OneMore(Accepted(s, init), e.op);
      }
    }
  }

  // ---- record_operation ----

  /** What pending reservations other than the operation's own still hold. */
  function OthersHold(slots: seq<Slot>, own: Option<string>, k: Kind): int
  {
    if slots == [] then 0
    else
      var last := slots[|slots| - 1];
      OthersHold(slots[..|slots| - 1], own, k)
      + if last.res.status == Pending && own != Some(last.id) then Of(last.res.reserved, k) - Of(last.res.consumed, k) else 0
  }

  lemma {:induction false} OthersWithout(slots: seq<Slot>, own: Option<string>, k: Kind)
    requires forall i :: 0 <= i < |slots| ==> own != Some(slots[i].id) && ResOk(slots[i].res)
    ensures OthersHold(slots, own, k) == Active(slots, k)
  {
    if slots != [] {
      OthersWithout(slots[..|slots| - 1], own, k);
    }
  }

  lemma {:induction false} OthersWith(slots: seq<Slot>, i: nat, k: Kind)
    requires i < |slots| && slots[i].res.status == Pending
    requires forall j :: 0 <= j < |slots| ==> ResOk(slots[j].res) && (j != i ==> slots[j].id != slots[i].id)
    ensures OthersHold(slots, Some(slots[i].id), k) == Active(slots, k) - Remaining(slots[i].res, k)
  {
    var n := |slots| - 1;
    var init := slots[..n];
    if i < n {
      OthersWith(init, i, k);
    } else {
      OthersWithout(init, Some(slots[i].id), k);
    }
    assert ResOk(slots[n].res);
  }

  /** The reservation an operation names is pending and holds what the operation draws; one without
      tokens or without time does not account for those. */
  predicate OwnHolds(s: Ledger, op: Operation)
  {
    op.reservation.Some? ==>
      exists i :: 0 <= i < |s.slots| && s.slots[i].id == op.reservation.value && Holds(s.slots[i].res, op)
  }

  predicate Holds(r: Reservation, op: Operation)
  {
    && r.status == Pending
    && op.sandboxes <= r.reserved.sandboxes - r.consumed.sandboxes
    && op.verifiers <= r.reserved.verifiers - r.consumed.verifiers
    && op.counterruns <= r.reserved.counterruns - r.consumed.counterruns
    && (r.reserved.tokens > 0 ==> TokensOf(op) <= r.reserved.tokens - r.consumed.tokens)
    && (r.seconds > 0.0 ==> op.seconds <= r.seconds - r.usedSeconds)
  }

  /** A ceiling that is configured admits a draw, if there is one. */
  predicate Admits(limit: Option<int>, used: int, draw: int)
  {
    limit.Some? && draw > 0 ==> used + draw <= limit.value
  }

  predicate CeilingsAdmit(s: Ledger, op: Operation)
  {
    var l, u := s.limits, s.used;
    && Admits(l.input, u.input, op.input) && Admits(l.output, u.output, op.output)
    && Admits(l.models, u.models, if op.model then 1 else 0) && Admits(l.creations, u.creations, op.creations)
    && Admits(l.tokens, u.used.tokens + OthersHold(s.slots, op.reservation, Tokens), TokensOf(op))
    && Admits(l.sandboxes, u.used.sandboxes + OthersHold(s.slots, op.reservation, Sandboxes), op.sandboxes)
    && Admits(l.verifiers, u.used.verifiers + OthersHold(s.slots, op.reservation, Verifiers), op.verifiers)
    && Admits(l.counterruns, u.used.counterruns + OthersHold(s.slots, op.reservation, Counterruns), op.counterruns)
    && (l.seconds.Some? && op.seconds > 0.0 ==> u.seconds + op.seconds <= l.seconds.value)
    && (l.cost.Some? && op.cost.Some? && op.cost.value.usd.Some? ==>
          (if u.cost.Some? then u.cost.value else 0.0) + op.cost.value.usd.value <= l.cost.value)
  }

  lemma OwnIff(s: Ledger, op: Operation)
    requires Sound(s) && Proper(op)
    ensures OwnRefusal(s, op).None? <==> OwnHolds(s, op)
  {
    DrawsAre(op);
    if op.reservation.Some? {
      var i := Find(s.slots, op.reservation.value);
      if i.Some? {
        assert ResOk(s.slots[i.value].res);
        HoldsIff(op, s.slots[i.value].res);
      }
    }
  }

  lemma HoldsIff(op: Operation, r: Reservation)
    requires Proper(op) && ResOk(r) && Draws(op) == Amounts(TokensOf(op), op.sandboxes, op.verifiers, op.counterruns)
    ensures Holds(r, op)
            <==> && r.status == Pending && !Exceeds(op, r, Sandboxes) && !Exceeds(op, r, Verifiers)
                 && !Exceeds(op, r, Counterruns) && !Exceeds(op, r, Tokens)
                 && !(op.seconds > 0.0 && r.seconds > 0.0 && op.seconds > MaxReal(0.0, r.seconds - r.usedSeconds))
  {
  }

  lemma BlockedIff(s: Ledger, op: Operation, k: Kind)
    requires Sound(s) && Proper(op) && OwnRefusal(s, op).None?
    ensures Blocked(s, op, k)
            <==> !Admits(LimitOf(s.limits, k), Of(s.used.used, k) + OthersHold(s.slots, op.reservation, k), Of(Draws(op), k))
  {
    ActiveCovers(s.slots, k);
    if op.reservation.Some? {
      OthersWith(s.slots, Find(s.slots, op.reservation.value).value, k);
      assert Promised(s.slots[Find(s.slots, op.reservation.value).value], k) == OwnRemainder(s, op, k);
    } else {
      OthersWithout(s.slots, None, k);
    }
  }

  lemma CeilingsIff(s: Ledger, op: Operation)
    requires Sound(s) && Proper(op) && OwnRefusal(s, op).None?
    ensures CeilingRefusal(s, op).None? <==> CeilingsAdmit(s, op)
  {
    DrawsAre(op);
    BlockedIff(s, op, Tokens);
    BlockedIff(s, op, Sandboxes);
    BlockedIff(s, op, Verifiers);
    BlockedIff(s, op, Counterruns);
  }

  /** An operation is accepted exactly when it is new and proper, its own reservation holds what it draws,
      and every ceiling admits it beside what the other reservations hold. */
  lemma RecordAcceptedIff(s: Ledger, op: Operation)
    requires Sound(s)
    ensures Record(s, op).1.None?
            <==> && !Blank(op.id) && op.id !in s.used.operations && Proper(op)
                 && OwnHolds(s, op) && CeilingsAdmit(s, op)
  {
    DrawsAre(op);
    if Proper(op) {
      OwnIff(s, op);
      if OwnRefusal(s, op).None? {
        CeilingsIff(s, op);
      }
    }
  }

  /** What an accepted operation adds to the consumption. */
  predicate Consumed(u: Consumption, v: Consumption, op: Operation)
  {
    && v.input == u.input + op.input && v.output == u.output + op.output
    && v.used.tokens == u.used.tokens + TokensOf(op) && v.used.sandboxes == u.used.sandboxes + op.sandboxes
    && v.used.verifiers == u.used.verifiers + op.verifiers && v.used.counterruns == u.used.counterruns + op.counterruns
    && v.models == u.models + (if op.model then 1 else 0) && v.creations == u.creations + op.creations
    && v.seconds == u.seconds + op.seconds && v.operations == u.operations + {op.id}
    && v.cost == (if op.cost.Some? && op.cost.value.usd.Some?
                  then Some((if u.cost.Some? then u.cost.value else 0.0) + op.cost.value.usd.value) else u.cost)
    && v.unknownCost == (u.unknownCost || LeavesCostOpen(op))
  }

  /** What it adds to its own reservation. */
  function Charged(r: Reservation, op: Operation): Reservation
  {
    var c := r.consumed;
    r.(consumed := Amounts(c.tokens + (if r.reserved.tokens > 0 then TokensOf(op) else 0), c.sandboxes + op.sandboxes,
                           c.verifiers + op.verifiers, c.counterruns + op.counterruns),
       usedSeconds := r.usedSeconds + (if r.seconds > 0.0 then op.seconds else 0.0))
  }

  /** An accepted operation is added to the consumption and to the reservation it names, and to no other; a
      refused one changes nothing. */
  lemma RecordEffect(s: Ledger, op: Operation)
    requires Sound(s)
    ensures var (x, no) := Record(s, op);
            && (no.Some? ==> x == s)
            && (no.None? ==>
                  && x.limits == s.limits && Consumed(s.used, x.used, op) && |x.slots| == |s.slots|
                  && forall i :: 0 <= i < |s.slots| ==>
                       x.slots[i] == if op.reservation == Some(s.slots[i].id)
                                     then Slot(s.slots[i].id, Charged(s.slots[i].res, op)) else s.slots[i])
  {
    DrawsAre(op);
  }

  // ---- reserve, commit_reservation, cancel_reservation ----

  predicate Leaves(limit: Option<int>, taken: int, want: int)
  {
    limit.Some? ==> taken + want <= limit.value
  }

  /** A reservation is accepted exactly under a new name, for amounts that are not negative and that every
      ceiling leaves beside consumption and promises, and for time that both the time recorded and the
      time on the clock leave. Then it is pending, with nothing drawn. */
  lemma ReserveEffect(s: Ledger, id: string, want: Amounts, seconds: real, clock: real)
    ensures var (x, no) := Reserve(s, id, want, seconds, clock);
            && (no.None? <==>
                  && (forall i :: 0 <= i < |s.slots| ==> s.slots[i].id != id) && !Blank(id)
                  && want.tokens >= 0 && want.sandboxes >= 0 && want.verifiers >= 0 && want.counterruns >= 0 && seconds >= 0.0
                  && Leaves(s.limits.tokens, s.used.used.tokens + Active(s.slots, Tokens), want.tokens)
                  && Leaves(s.limits.sandboxes, s.used.used.sandboxes + Active(s.slots, Sandboxes), want.sandboxes)
                  && Leaves(s.limits.verifiers, s.used.used.verifiers + Active(s.slots, Verifiers), want.verifiers)
                  && Leaves(s.limits.counterruns, s.used.used.counterruns + Active(s.slots, Counterruns), want.counterruns)
                  && (s.limits.seconds.Some? ==>
                        s.used.seconds + seconds <= s.limits.seconds.value && clock + seconds <= s.limits.seconds.value))
            && x == if no.Some? then s
                    else Ledger(s.limits, s.used,
                                s.slots + [Slot(id, Reservation(want, Amounts(0, 0, 0, 0), seconds, 0.0, Pending))])
  {
  }

  /** Only a pending reservation is committed or cancelled, and nothing else of it changes. */
  lemma ConcludeEffect(s: Ledger, e: Event)
    requires Sound(s) && (e.EvCommit? || e.EvCancel?)
    ensures var (x, no) := Step(s, e);
            && (no.None? <==> exists i :: 0 <= i < |s.slots| && s.slots[i].id == e.id && s.slots[i].res.status == Pending)
            && x.limits == s.limits && x.used == s.used && |x.slots| == |s.slots|
            && forall i :: 0 <= i < |s.slots| ==>
                 x.slots[i] == if s.slots[i].id == e.id && s.slots[i].res.status == Pending
                               then s.slots[i].(res := s.slots[i].res.(status := if e.EvCommit? then Committed else Cancelled))
                               else s.slots[i]
  {
    var i := Find(s.slots, e.id);
    assert i.Some? ==> forall j :: 0 <= j < |s.slots| && s.slots[j].id == e.id ==> j == i.value;
  }

  // ---- sync_from_repair_loop_counters ----

  predicate Larger(a: int, b: int, m: int)
  {
    m >= a && m >= b && (m == a || m == b)
  }

  /** A synchronisation is accepted exactly when the five ceilings cover both what was recorded and what
      the loop counted; then each of the five is the larger of the two, and the rest stays. */
  lemma SyncEffect(s: Ledger, c: Counters)
    ensures var (x, no) := Sync(s, c);
            var l, u := s.limits, s.used;
            && (no.None? <==>
                  && (l.models.Some? ==> u.models <= l.models.value && c.models <= l.models.value)
                  && (l.verifiers.Some? ==> u.used.verifiers <= l.verifiers.value && c.verifiers <= l.verifiers.value)
                  && (l.sandboxes.Some? ==> u.used.sandboxes <= l.sandboxes.value && c.sandboxes <= l.sandboxes.value)
                  && (l.tokens.Some? ==> u.used.tokens <= l.tokens.value && c.tokens <= l.tokens.value)
                  && (l.seconds.Some? ==> u.seconds <= l.seconds.value && c.seconds <= l.seconds.value))
            && (no.Some? ==> x == s)
            && (no.None? ==>
                  && x.slots == s.slots && x.limits == l && x.used.used.counterruns == u.used.counterruns
                  && Larger(u.models, c.models, x.used.models) && Larger(u.used.verifiers, c.verifiers, x.used.used.verifiers)
                  && Larger(u.used.sandboxes, c.sandboxes, x.used.used.sandboxes)
                  && Larger(u.used.tokens, c.tokens, x.used.used.tokens)
                  && x.used.seconds == (if u.seconds < c.seconds then c.seconds else u.seconds)
                  && x.used.input == u.input && x.used.output == u.output && x.used.creations == u.creations
                  && x.used.cost == u.cost && x.used.unknownCost == u.unknownCost && x.used.operations == u.operations)
  {
  }
}
