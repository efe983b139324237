/** The budget ledger: ceilings, consumption, and reservations that promise part of what is left. */
module BudgetModel {
  import opened Options
  import opened SeqSearch
  import opened PyText

  /** The four resources that can be reserved. */
  datatype Kind = Tokens | Sandboxes | Verifiers | Counterruns

  datatype Amounts = Amounts(tokens: int, sandboxes: int, verifiers: int, counterruns: int)

  function Of(a: Amounts, k: Kind): int
  {
    match k
    case Tokens => a.tokens
    case Sandboxes => a.sandboxes
    case Verifiers => a.verifiers
    case Counterruns => a.counterruns
  }

  function Plus(a: Amounts, b: Amounts): Amounts
  {
    Amounts(a.tokens + b.tokens, a.sandboxes + b.sandboxes, a.verifiers + b.verifiers, a.counterruns + b.counterruns)
  }

  predicate NonNegative(a: Amounts)
  {
    a.tokens >= 0 && a.sandboxes >= 0 && a.verifiers >= 0 && a.counterruns >= 0
  }

  const Nothing := Amounts(0, 0, 0, 0)

  /** None is a ceiling that is not configured. */
  datatype Limits = Limits(input: Option<int>, output: Option<int>, tokens: Option<int>, models: Option<int>,
                           creations: Option<int>, sandboxes: Option<int>, verifiers: Option<int>,
                           counterruns: Option<int>, seconds: Option<real>, cost: Option<real>)

  function LimitOf(l: Limits, k: Kind): Option<int>
  {
    match k
    case Tokens => l.tokens
    case Sandboxes => l.sandboxes
    case Verifiers => l.verifiers
    case Counterruns => l.counterruns
  }

  /** A cost estimate; an unknown or positive cost cannot claim to be a verified zero. */
  datatype RawEstimate = RawEstimate(usd: Option<real>, verifiedZero: bool)

  type Estimate = e: RawEstimate | (e.usd.None? ==> !e.verifiedZero)
                                   && (e.usd.Some? ==> e.usd.value >= 0.0 && (e.usd.value > 0.0 ==> !e.verifiedZero))
    witness RawEstimate(None, false)

  datatype Consumption = Consumption(input: int, output: int, used: Amounts, models: int, creations: int,
                                     seconds: real, cost: Option<real>, unknownCost: bool, verifiedZero: bool,
                                     operations: set<string>)

  datatype Status = Pending | Committed | Cancelled

  datatype Reservation = Reservation(reserved: Amounts, consumed: Amounts, seconds: real, usedSeconds: real,
                                     status: Status)

  /** An entry of the reservation dictionary, which keeps insertion order. */
  datatype Slot = Slot(id: string, res: Reservation)

  datatype Ledger = Ledger(limits: Limits, used: Consumption, slots: seq<Slot>)

  datatype Other = InputTokens | OutputTokens | Models | Creations | Seconds | Cost

  datatype Refusal =
    | InvalidValue | DuplicateOperation | AlreadyReserved | NoReservation | NotPending
    | OwnCapacity(kind: Kind) | OwnSeconds
    | Ceiling(kind: Kind) | OtherCeiling(other: Other)

  function MaxInt(a: int, b: int): int { if a < b then b else a }
  function MaxReal(a: real, b: real): real { if a < b then b else a }

  function Find(slots: seq<Slot>, id: string): (r: Option<nat>)
    ensures r.Some? ==> r.value < |slots| && slots[r.value].id == id
    ensures r.None? ==> forall i :: 0 <= i < |slots| ==> slots[i].id != id
  {
    First(slots, (s: Slot) => s.id == id)
  }

  function Remaining(r: Reservation, k: Kind): int
  {
    MaxInt(0, Of(r.reserved, k) - Of(r.consumed, k))
  }

  /** What an entry still promises. */
  function Promised(s: Slot, k: Kind): int
  {
    if s.res.status == Pending then Remaining(s.res, k) else 0
  }

  /** The active reservations of a kind together. */
  function Active(slots: seq<Slot>, k: Kind): int
  {
    if slots == [] then 0 else Active(slots[..|slots| - 1], k) + Promised(slots[|slots| - 1], k)
  }

  // ---- reserve, commit_reservation, cancel_reservation ----

  predicate Lacks(s: Ledger, k: Kind, want: int)
  {
    LimitOf(s.limits, k).Some? && want > LimitOf(s.limits, k).value - (Of(s.used.used, k) + Active(s.slots, k))
  }

  /** `clock` is the wall-clock time since the ledger was made. The new record is validated last. */
  function ReserveRefusal(s: Ledger, id: string, want: Amounts, seconds: real, clock: real): Option<Refusal>
  {
    if Find(s.slots, id).Some? then Some(AlreadyReserved)
    else if Lacks(s, Tokens, want.tokens) then Some(Ceiling(Tokens))
    else if Lacks(s, Sandboxes, want.sandboxes) then Some(Ceiling(Sandboxes))
    else if Lacks(s, Verifiers, want.verifiers) then Some(Ceiling(Verifiers))
    else if Lacks(s, Counterruns, want.counterruns) then Some(Ceiling(Counterruns))
    else if s.limits.seconds.Some? && MaxReal(s.used.seconds, clock) + seconds > s.limits.seconds.value then
      Some(OtherCeiling(Seconds))
    else if Blank(id) || !NonNegative(want) || seconds < 0.0 then Some(InvalidValue)
    else None
  }

  function Reserve(s: Ledger, id: string, want: Amounts, seconds: real, clock: real): (Ledger, Option<Refusal>)
  {
    var no := ReserveRefusal(s, id, want, seconds, clock);
    if no.Some? then (s, no)
    else (s.(slots := s.slots + [Slot(id, Reservation(want, Nothing, seconds, 0.0, Pending))]), None)
  }

  /** Commit or cancel: only a pending reservation can be closed. */
  function Conclude(s: Ledger, id: string, status: Status): (Ledger, Option<Refusal>)
  {
    var i := Find(s.slots, id);
    if i.None? then (s, Some(NoReservation))
    else if s.slots[i.value].res.status != Pending then (s, Some(NotPending))
    else
      var slot := s.slots[i.value];
      (s.(slots := s.slots[i.value := slot.(res := slot.res.(status := status))]), None)
  }

  // ---- record_operation ----

  datatype Operation = Operation(id: string, input: int, output: int, total: int, model: bool, creations: int,
                                 sandboxes: int, verifiers: int, counterruns: int, seconds: real,
                                 cost: Option<Estimate>, unknown: bool, reservation: Option<string>)

  predicate Malformed(op: Operation)
  {
    || op.input < 0 || op.output < 0 || op.total < 0 || op.creations < 0
    || op.sandboxes < 0 || op.verifiers < 0 || op.counterruns < 0 || op.seconds < 0.0
    || (op.total > 0 && (op.input > 0 || op.output > 0) && op.total != op.input + op.output)
  }

  /** What an operation uses; its token total may be left to its two parts. */
  function Draws(op: Operation): Amounts
  {
    Amounts(if op.total == 0 && (op.input > 0 || op.output > 0) then op.input + op.output else op.total,
            op.sandboxes, op.verifiers, op.counterruns)
  }

  /** What an operation books on its reservation: a reservation of no tokens or no time does not
      account for them. */
  function Booked(op: Operation, r: Reservation): Amounts
  {
    if r.reserved.tokens > 0 then Draws(op) else Draws(op).(tokens := 0)
  }

  function BookedSeconds(op: Operation, r: Reservation): real
  {
    if r.seconds > 0.0 then op.seconds else 0.0
  }

  predicate Exceeds(op: Operation, r: Reservation, k: Kind)
  {
    Of(Draws(op), k) > 0 && (k == Tokens ==> r.reserved.tokens > 0) && Of(Draws(op), k) > Remaining(r, k)
  }

  function OwnRefusal(s: Ledger, op: Operation): Option<Refusal>
  {
    if op.reservation.None? then None
    else
      var i := Find(s.slots, op.reservation.value);
      if i.None? then Some(NoReservation)
      else
        var r := s.slots[i.value].res;
        if r.status != Pending then Some(NotPending)
        else if Exceeds(op, r, Sandboxes) then Some(OwnCapacity(Sandboxes))
        else if Exceeds(op, r, Verifiers) then Some(OwnCapacity(Verifiers))
        else if Exceeds(op, r, Counterruns) then Some(OwnCapacity(Counterruns))
        else if Exceeds(op, r, Tokens) then Some(OwnCapacity(Tokens))
        else if op.seconds > 0.0 && r.seconds > 0.0 && op.seconds > MaxReal(0.0, r.seconds - r.usedSeconds) then
          Some(OwnSeconds)
        else None
  }

  /** The remainder of the operation's own reservation. */
  function OwnRemainder(s: Ledger, op: Operation, k: Kind): int
  {
    if op.reservation.Some? && Find(s.slots, op.reservation.value).Some?
    then Remaining(s.slots[Find(s.slots, op.reservation.value).value].res, k) else 0
  }

  /** What the other reservations keep from this operation. */
  function KeptBack(s: Ledger, op: Operation, k: Kind): int
  {
    MaxInt(0, Active(s.slots, k) - OwnRemainder(s, op, k))
  }

  predicate Blocked(s: Ledger, op: Operation, k: Kind)
  {
    LimitOf(s.limits, k).Some? && Of(Draws(op), k) > 0
    && Of(s.used.used, k) + KeptBack(s, op, k) + Of(Draws(op), k) > LimitOf(s.limits, k).value
  }

  function CostAfter(u: Consumption, op: Operation): Option<real>
  {
    if op.cost.Some? && op.cost.value.usd.Some? then Some(u.cost.GetOr(0.0) + op.cost.value.usd.value) else u.cost
  }

  function ModelRefusal(s: Ledger, op: Operation): Option<Refusal>
  {
    var l, u := s.limits, s.used;
    if l.input.Some? && op.input > 0 && u.input + op.input > l.input.value then Some(OtherCeiling(InputTokens))
    else if l.output.Some? && op.output > 0 && u.output + op.output > l.output.value then Some(OtherCeiling(OutputTokens))
    else if Blocked(s, op, Tokens) then Some(Ceiling(Tokens))
    else if l.models.Some? && op.model && u.models + 1 > l.models.value then Some(OtherCeiling(Models))
    else if l.creations.Some? && op.creations > 0 && u.creations + op.creations > l.creations.value then
      Some(OtherCeiling(Creations))
    else None
  }

  function ExecutionRefusal(s: Ledger, op: Operation): Option<Refusal>
  {
    var l, u := s.limits, s.used;
    if Blocked(s, op, Sandboxes) then Some(Ceiling(Sandboxes))
    else if Blocked(s, op, Verifiers) then Some(Ceiling(Verifiers))
    else if Blocked(s, op, Counterruns) then Some(Ceiling(Counterruns))
    else if l.seconds.Some? && op.seconds > 0.0 && u.seconds + op.seconds > l.seconds.value then
      Some(OtherCeiling(Seconds))
    else if op.cost.Some? && op.cost.value.usd.Some? && l.cost.Some? && CostAfter(u, op).value > l.cost.value then
      Some(OtherCeiling(Cost))
    else None
  }

  /** Every ceiling, in the order of the source. */
  function CeilingRefusal(s: Ledger, op: Operation): Option<Refusal>
  {
    if ModelRefusal(s, op).Some? then ModelRefusal(s, op) else ExecutionRefusal(s, op)
  }

  function RecordRefusal(s: Ledger, op: Operation): Option<Refusal>
  {
    if Blank(op.id) then Some(InvalidValue)
    else if op.id in s.used.operations then Some(DuplicateOperation)
    else if Malformed(op) then Some(InvalidValue)
    else if OwnRefusal(s, op).Some? then OwnRefusal(s, op)
    else CeilingRefusal(s, op)
  }

  /** An operation that uses a chargeable resource without an estimate has an unknown cost. */
  predicate CostUnknown(op: Operation)
  {
    || op.unknown
    || (op.cost.None? && (op.model || Draws(op).tokens > 0 || op.input > 0 || op.output > 0 || op.sandboxes > 0
                          || op.creations > 0))
    || (op.cost.Some? && op.cost.value.usd.None? && !op.cost.value.verifiedZero)
  }

  function Use(u: Consumption, op: Operation): Consumption
  {
    var unknown := u.unknownCost || CostUnknown(op);
    var cost := CostAfter(u, op);
    Consumption(u.input + op.input, u.output + op.output, Plus(u.used, Draws(op)),
                u.models + (if op.model then 1 else 0), u.creations + op.creations, u.seconds + op.seconds,
                cost, unknown,
                u.verifiedZero && op.cost.Some? && op.cost.value.verifiedZero && !unknown && cost.GetOr(0.0) <= 0.0,
                u.operations + {op.id})
  }

  function Draw(slots: seq<Slot>, op: Operation): seq<Slot>
  {
    if op.reservation.None? || Find(slots, op.reservation.value).None? then slots
    else
      var i := Find(slots, op.reservation.value).value;
      var r := slots[i].res;
      slots[i := slots[i].(res := r.(consumed := Plus(r.consumed, Booked(op, r)),
                                     usedSeconds := r.usedSeconds + BookedSeconds(op, r)))]
  }

  function Book(s: Ledger, op: Operation): Ledger
  {
    s.(used := Use(s.used, op), slots := Draw(s.slots, op))
  }

  function Record(s: Ledger, op: Operation): (Ledger, Option<Refusal>)
  {
    var no := RecordRefusal(s, op);
    if no.Some? then (s, no) else (Book(s, op), None)
  }

  // ---- sync_from_repair_loop_counters ----

  datatype Counters = Counters(models: int, verifiers: int, sandboxes: int, tokens: int, seconds: real)

  function Synced(u: Consumption, c: Counters): Consumption
  {
    u.(models := MaxInt(u.models, c.models),
       used := Amounts(MaxInt(u.used.tokens, c.tokens), MaxInt(u.used.sandboxes, c.sandboxes),
                       MaxInt(u.used.verifiers, c.verifiers), u.used.counterruns),
       seconds := MaxReal(u.seconds, c.seconds),
       verifiedZero := u.verifiedZero && !u.unknownCost && u.cost.GetOr(0.0) <= 0.0)
  }

  /** Reservations are not consulted. */
  function Sync(s: Ledger, c: Counters): (Ledger, Option<Refusal>)
  {
    var l, u := s.limits, Synced(s.used, c);
    if l.models.Some? && u.models > l.models.value then (s, Some(OtherCeiling(Models)))
    else if l.verifiers.Some? && u.used.verifiers > l.verifiers.value then (s, Some(Ceiling(Verifiers)))
    else if l.sandboxes.Some? && u.used.sandboxes > l.sandboxes.value then (s, Some(Ceiling(Sandboxes)))
    else if l.tokens.Some? && u.used.tokens > l.tokens.value then (s, Some(Ceiling(Tokens)))
    else if l.seconds.Some? && u.seconds > l.seconds.value then (s, Some(OtherCeiling(Seconds)))
    else (s.(used := u), None)
  }

  // ---- Histories ----

  datatype Event =
    | EvReserve(id: string, want: Amounts, seconds: real, clock: real)
    | EvCommit(id: string)
    | EvCancel(id: string)
    | EvRecord(op: Operation)
    | EvSync(counters: Counters)

  function Step(s: Ledger, e: Event): (Ledger, Option<Refusal>)
  {
    match e
    case EvReserve(id, want, seconds, clock) => Reserve(s, id, want, seconds, clock)
    case EvCommit(id) => Conclude(s, id, Committed)
    case EvCancel(id) => Conclude(s, id, Cancelled)
    case EvRecord(op) => Record(s, op)
    case EvSync(c) => Sync(s, c)
  }

  function Run(s: Ledger, es: seq<Event>): Ledger
  {
    if es == [] then s else Step(Run(s, es[..|es| - 1]), es[|es| - 1]).0
  }
}
