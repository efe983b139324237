/** The budget ledger as the object of the source. */
module BudgetService {
  import opened Options
  import opened BudgetModel
  import opened PyText

  class BudgetLedger {
    const limits: Limits
    var input: int
    var output: int
    var tokens: int
    var models: int
    var creations: int
    var sandboxes: int
    var verifiers: int
    var counterruns: int
    var seconds: real
    var cost: Option<real>
    var unknownCost: bool
    var verifiedZero: bool
    var operations: set<string>
    var slots: seq<Slot>

    ghost function Used(): Consumption
      reads this
    {
      Consumption(input, output, Amounts(tokens, sandboxes, verifiers, counterruns), models, creations, seconds, cost,
                  unknownCost, verifiedZero, operations)
    }

    ghost function State(): Ledger
      reads this
    {
      Ledger(limits, Used(), slots)
    }

    /** `validate` on the way in: a cost that is unknown or positive is not a verified zero. */
    constructor (limits: Limits, used: Consumption)
      ensures this.limits == limits && slots == []
      ensures Used() == used.(verifiedZero := used.verifiedZero && !used.unknownCost && used.cost.GetOr(0.0) <= 0.0)
    {
      this.limits := limits;
      input, output, models, creations := used.input, used.output, used.models, used.creations;
      tokens, sandboxes := used.used.tokens, used.used.sandboxes;
      verifiers, counterruns := used.used.verifiers, used.used.counterruns;
      seconds, cost, unknownCost, operations := used.seconds, used.cost, used.unknownCost, used.operations;
      verifiedZero := used.verifiedZero && !used.unknownCost && used.cost.GetOr(0.0) <= 0.0;
      slots := [];
    }

    /** The four active-reservation sums of the source, which differ only in the column they add. */
    method ActiveReserved(k: Kind) returns (sum: int)
      ensures sum == Active(slots, k)
    {
      sum := 0;
      for i := 0 to |slots|
        invariant sum == Active(slots[..i], k)
      {
        assert slots[..i + 1][..i] == slots[..i];
        if slots[i].res.status == Pending {
          sum := sum + Remaining(slots[i].res, k);
        }
      }
      assert slots[..|slots|] == slots;
    }

    method Available(k: Kind, want: int) returns (ok: bool)
      ensures ok == !Lacks(State(), k, want)
    {
      var limit := LimitOf(limits, k);
      if limit.None? {
        return true;
      }
      var active := ActiveReserved(k);
      var consumed := match k
        case Tokens => tokens
        case Sandboxes => sandboxes
        case Verifiers => verifiers
        case Counterruns => counterruns;
      ok := want <= limit.value - (consumed + active);
    }

    method Reserve(id: string, want: Amounts, time: real, clock: real) returns (no: Option<Refusal>)
      modifies this`slots
      ensures State() == BudgetModel.Reserve(old(State()), id, want, time, clock).0
      ensures no == BudgetModel.Reserve(old(State()), id, want, time, clock).1
    {
      if Find(slots, id).Some? {
        return Some(AlreadyReserved);
      }
      var ok := Available(Tokens, want.tokens);
      if !ok { return Some(Ceiling(Tokens)); }
      ok := Available(Sandboxes, want.sandboxes);
      if !ok { return Some(Ceiling(Sandboxes)); }
      ok := Available(Verifiers, want.verifiers);
      if !ok { return Some(Ceiling(Verifiers)); }
      ok := Available(Counterruns, want.counterruns);
      if !ok { return Some(Ceiling(Counterruns)); }
      if limits.seconds.Some? {
        var elapsed := MaxReal(seconds, clock);
        if elapsed + time > limits.seconds.value {
          return Some(OtherCeiling(Seconds));
        }
      }
      if Blank(id) || !NonNegative(want) || time < 0.0 {
        return Some(InvalidValue);
      }
      slots := slots + [Slot(id, Reservation(want, Nothing, time, 0.0, Pending))];
      no := None;
    }

    method CommitReservation(id: string) returns (no: Option<Refusal>)
      modifies this`slots
      ensures State() == Conclude(old(State()), id, Committed).0
      ensures no == Conclude(old(State()), id, Committed).1
    {
      no := Close(id, Committed);
    }

    method CancelReservation(id: string) returns (no: Option<Refusal>)
      modifies this`slots
      ensures State() == Conclude(old(State()), id, Cancelled).0
      ensures no == Conclude(old(State()), id, Cancelled).1
    {
      no := Close(id, Cancelled);
    }

    method Close(id: string, status: Status) returns (no: Option<Refusal>)
      modifies this`slots
      ensures State() == Conclude(old(State()), id, status).0
      ensures no == Conclude(old(State()), id, status).1
    {
      var i := Find(slots, id);
      if i.None? {
        return Some(NoReservation);
      }
      var res := slots[i.value].res;
      if res.status != Pending {
        return Some(NotPending);
      }
      slots := slots[i.value := Slot(slots[i.value].id, res.(status := status))];
      no := None;
    }

    /** Every check comes before the first assignment, so a refusal leaves the ledger as it was. */
    method RecordOperation(op: Operation) returns (no: Option<Refusal>)
      modifies this
      ensures State() == Record(old(State()), op).0
      ensures no == Record(old(State()), op).1
      ensures no.Some? ==> State() == old(State())
    {
      if Blank(op.id) {
        return Some(InvalidValue);
      }
      if op.id in operations {
        return Some(DuplicateOperation);
      }
      if Malformed(op) {
        return Some(InvalidValue);
      }
      var effective := op.total;
      if effective == 0 && (op.input > 0 || op.output > 0) {
        effective := op.input + op.output;
      }
      no := CheckReservation(op, effective);
      if no.Some? {
        return;
      }
      no := CheckCeilings(op, effective);
      if no.Some? {
        return;
      }
      BookReservation(op, effective);
      BookConsumption(op, effective);
    }

    /** The reservation's own capacity. */
    method CheckReservation(op: Operation, effective: int) returns (no: Option<Refusal>)
      requires effective == Draws(op).tokens
      ensures no == OwnRefusal(State(), op)
    {
      if op.reservation.None? {
        return None;
      }
      var i := Find(slots, op.reservation.value);
      if i.None? {
        return Some(NoReservation);
      }
      var res := slots[i.value].res;
      if res.status != Pending {
        return Some(NotPending);
      }
      if op.sandboxes > 0 && op.sandboxes > Remaining(res, Sandboxes) {
        return Some(OwnCapacity(Sandboxes));
      }
      if op.verifiers > 0 && op.verifiers > Remaining(res, Verifiers) {
        return Some(OwnCapacity(Verifiers));
      }
      if op.counterruns > 0 && op.counterruns > Remaining(res, Counterruns) {
        return Some(OwnCapacity(Counterruns));
      }
      if effective > 0 && res.reserved.tokens > 0 && effective > Remaining(res, Tokens) {
        return Some(OwnCapacity(Tokens));
      }
      if op.seconds > 0.0 && res.seconds > 0.0 && op.seconds > MaxReal(0.0, res.seconds - res.usedSeconds) {
        return Some(OwnSeconds);
      }
      no := None;
    }

    method OtherReserved(op: Operation, k: Kind) returns (kept: int)
      ensures kept == KeptBack(State(), op, k)
    {
      var active := ActiveReserved(k);
      var own := 0;
      if op.reservation.Some? {
        var i := Find(slots, op.reservation.value);
        if i.Some? {
          own := Remaining(slots[i.value].res, k);
        }
      }
      kept := MaxInt(0, active - own);
    }

    method ExceedsCeiling(op: Operation, k: Kind, consumed: int, draw: int) returns (blocked: bool)
      requires consumed == Of(Used().used, k) && draw == Of(Draws(op), k)
      ensures blocked == Blocked(State(), op, k)
    {
      var limit := LimitOf(limits, k);
      var other := OtherReserved(op, k);
      blocked := limit.Some? && draw > 0 && consumed + other + draw > limit.value;
    }

    method CheckCeilings(op: Operation, effective: int) returns (no: Option<Refusal>)
      requires effective == Draws(op).tokens
      ensures no == CeilingRefusal(State(), op)
    {
      no := CheckModelCeilings(op, effective);
      if no.None? {
        no := CheckExecutionCeilings(op);
      }
    }

    method CheckModelCeilings(op: Operation, effective: int) returns (no: Option<Refusal>)
      requires effective == Draws(op).tokens
      ensures no == ModelRefusal(State(), op)
    {
      if limits.input.Some? && op.input > 0 && input + op.input > limits.input.value {
        return Some(OtherCeiling(InputTokens));
      }
      if limits.output.Some? && op.output > 0 && output + op.output > limits.output.value {
        return Some(OtherCeiling(OutputTokens));
      }
      var blocked := ExceedsCeiling(op, Tokens, tokens, effective);
      if blocked {
        return Some(Ceiling(Tokens));
      }
      if limits.models.Some? && op.model && models + 1 > limits.models.value {
        return Some(OtherCeiling(Models));
      }
      if limits.creations.Some? && op.creations > 0 && creations + op.creations > limits.creations.value {
        return Some(OtherCeiling(Creations));
      }
      no := None;
    }

    method CheckExecutionCeilings(op: Operation) returns (no: Option<Refusal>)
      ensures no == ExecutionRefusal(State(), op)
    {
      var blocked := ExceedsCeiling(op, Sandboxes, sandboxes, op.sandboxes);
      if blocked { return Some(Ceiling(Sandboxes)); }
      blocked := ExceedsCeiling(op, Verifiers, verifiers, op.verifiers);
      if blocked { return Some(Ceiling(Verifiers)); }
      blocked := ExceedsCeiling(op, Counterruns, counterruns, op.counterruns);
      if blocked { return Some(Ceiling(Counterruns)); }
      if limits.seconds.Some? && op.seconds > 0.0 && seconds + op.seconds > limits.seconds.value {
        return Some(OtherCeiling(Seconds));
      }
      if op.cost.Some? && op.cost.value.usd.Some? {
        var projected := cost.GetOr(0.0) + op.cost.value.usd.value;
        if limits.cost.Some? && projected > limits.cost.value {
          return Some(OtherCeiling(Cost));
        }
      }
      no := None;
    }

    method BookReservation(op: Operation, effective: int)
      requires effective == Draws(op).tokens
      modifies this`slots
      ensures slots == Draw(old(slots), op)
    {
      if op.reservation.Some? {
        var i := Find(slots, op.reservation.value);
        if i.Some? {
          var res := slots[i.value].res;
          var consumed := Amounts(res.consumed.tokens + (if res.reserved.tokens > 0 then effective else 0),
                                  res.consumed.sandboxes + op.sandboxes,
                                  res.consumed.verifiers + op.verifiers,
                                  res.consumed.counterruns + op.counterruns);
          var time := res.usedSeconds + (if res.seconds > 0.0 then op.seconds else 0.0);
          slots := slots[i.value := Slot(slots[i.value].id, res.(consumed := consumed, usedSeconds := time))];
        }
      }
    }

    method BookConsumption(op: Operation, effective: int)
      requires effective == Draws(op).tokens
      modifies this
      ensures Used() == Use(old(Used()), op) && slots == old(slots)
    {
      var unknown := op.unknown;
      if op.cost.None? && (op.model || effective > 0 || op.input > 0 || op.output > 0 || op.sandboxes > 0
                           || op.creations > 0) {
        unknown := true;
      }
      if op.cost.Some? && op.cost.value.usd.None? && !op.cost.value.verifiedZero {
        unknown := true;
      }
      BookCounters(op, effective);
      BookCost(op, unknown);
      operations := operations + {op.id};
      Validate();
    }

    method BookCounters(op: Operation, effective: int)
      modifies this`input, this`output, this`tokens, this`models, this`creations, this`sandboxes, this`verifiers,
               this`counterruns, this`seconds
      ensures input == old(input) + op.input && output == old(output) + op.output
      ensures tokens == old(tokens) + effective && models == old(models) + (if op.model then 1 else 0)
      ensures creations == old(creations) + op.creations && sandboxes == old(sandboxes) + op.sandboxes
      ensures verifiers == old(verifiers) + op.verifiers && counterruns == old(counterruns) + op.counterruns
      ensures seconds == old(seconds) + op.seconds
    {
      input, output, tokens := input + op.input, output + op.output, tokens + effective;
      if op.model {
        models := models + 1;
      }
      creations, sandboxes := creations + op.creations, sandboxes + op.sandboxes;
      verifiers, counterruns := verifiers + op.verifiers, counterruns + op.counterruns;
      seconds := seconds + op.seconds;
    }

    method BookCost(op: Operation, unknown: bool)
      requires unknown == CostUnknown(op)
      modifies this`cost, this`unknownCost, this`verifiedZero
      ensures cost == CostAfter(old(Used()), op)
      ensures unknownCost == (old(unknownCost) || CostUnknown(op))
      ensures verifiedZero == (old(verifiedZero) && !CostUnknown(op) && op.cost.Some? && op.cost.value.verifiedZero)
    {
      if unknown {
        unknownCost, verifiedZero := true, false;
      }
      if op.cost.Some? {
        if op.cost.value.usd.Some? {
          cost := Some(cost.GetOr(0.0) + op.cost.value.usd.value);
          if !op.cost.value.verifiedZero {
            verifiedZero := false;
          }
        } else if !op.cost.value.verifiedZero {
          unknownCost, verifiedZero := true, false;
        }
      } else {
        verifiedZero := false;
      }
    }

    /** The part of `validate` that changes state. */
    method Validate()
      modifies this`verifiedZero
      ensures verifiedZero == (old(verifiedZero) && !unknownCost && cost.GetOr(0.0) <= 0.0)
    {
      if cost.Some? && cost.value > 0.0 {
        verifiedZero := false;
      }
      if unknownCost {
        verifiedZero := false;
      }
    }

    method SyncFromRepairLoopCounters(c: Counters) returns (no: Option<Refusal>)
      modifies this
      ensures State() == Sync(old(State()), c).0
      ensures no == Sync(old(State()), c).1
      ensures no.Some? ==> State() == old(State())
    {
      var projectedModels := MaxInt(models, c.models);
      var projectedVerifiers := MaxInt(verifiers, c.verifiers);
      var projectedSandboxes := MaxInt(sandboxes, c.sandboxes);
      var projectedTokens := MaxInt(tokens, c.tokens);
      var projectedSeconds := MaxReal(seconds, c.seconds);
      if limits.models.Some? && projectedModels > limits.models.value {
        return Some(OtherCeiling(Models));
      }
      if limits.verifiers.Some? && projectedVerifiers > limits.verifiers.value {
        return Some(Ceiling(Verifiers));
      }
      if limits.sandboxes.Some? && projectedSandboxes > limits.sandboxes.value {
        return Some(Ceiling(Sandboxes));
      }
      if limits.tokens.Some? && projectedTokens > limits.tokens.value {
        return Some(Ceiling(Tokens));
      }
      if limits.seconds.Some? && projectedSeconds > limits.seconds.value {
        return Some(OtherCeiling(Seconds));
      }
      Adopt(c);
      no := None;
    }

    method Adopt(c: Counters)
      modifies this
      ensures Used() == Synced(old(Used()), c) && slots == old(slots)
    {
      models, verifiers := MaxInt(models, c.models), MaxInt(verifiers, c.verifiers);
      sandboxes, tokens := MaxInt(sandboxes, c.sandboxes), MaxInt(tokens, c.tokens);
      seconds := MaxReal(seconds, c.seconds);
      Validate();
    }
  }
}
