/** The gas meter of the contracts pallet: a two-dimensional weight budget that nested calls
    borrow from and give back to, and the engine meter that converts between the budget's
    reference time and the fuel of the execution engine. */
module ReviveGas {
  import opened Wrappers
  import opened Ints

  /** `Weight`: reference time and proof size. */
  datatype Weight = Weight(refTime: U64, proofSize: U64)

  const ZERO: Weight := Weight(0, 0)

  /** `Weight::all_lte`: both components at most those of `b`. */
  predicate AllLe(a: Weight, b: Weight)
  {
    a.refTime <= b.refTime && a.proofSize <= b.proofSize
  }

  /** The sum does not overflow `u64` in either component. */
  predicate CanAdd(a: Weight, b: Weight)
  {
    a.refTime + b.refTime <= U64_MAX && a.proofSize + b.proofSize <= U64_MAX
  }

  /** `Weight + Weight`, where the sum fits. */
  function Add(a: Weight, b: Weight): (r: Weight)
    requires CanAdd(a, b)
    ensures AllLe(a, r) && AllLe(b, r)
  {
    Weight(a.refTime + b.refTime, a.proofSize + b.proofSize)
  }

  /** `Weight - Weight`, where it does not underflow. */
  function Sub(a: Weight, b: Weight): (r: Weight)
    requires AllLe(b, a)
    ensures AllLe(r, a) && CanAdd(r, b) && Add(r, b) == a
  {
    Weight(a.refTime - b.refTime, a.proofSize - b.proofSize)
  }

  /** `Weight::checked_sub` (and the test of `checked_reduce`): `None` when either
      component would underflow. */
  function CheckedSub(a: Weight, b: Weight): (r: Option<Weight>)
    ensures r.Some? <==> AllLe(b, a)
    ensures r.Some? ==> CanAdd(r.value, b) && Add(r.value, b) == a
  {
    if AllLe(b, a) then Some(Sub(a, b)) else None
  }

  /** `Weight::saturating_sub`, component-wise. */
  function SaturatingSub(a: Weight, b: Weight): (r: Weight)
    ensures AllLe(r, a)
    ensures AllLe(b, a) ==> r == Sub(a, b)
    ensures r.refTime == SaturatingSubU64(a.refTime, b.refTime)
    ensures r.proofSize == SaturatingSubU64(a.proofSize, b.proofSize)
  {
    Weight(SaturatingSubU64(a.refTime, b.refTime), SaturatingSubU64(a.proofSize, b.proofSize))
  }

  /** `Weight::saturating_add`, component-wise. */
  function SaturatingAdd(a: Weight, b: Weight): (r: Weight)
    ensures AllLe(a, r) && AllLe(b, r)
    ensures CanAdd(a, b) ==> r == Add(a, b)
  {
    Weight(SaturatingAddU64(a.refTime, b.refTime), SaturatingAddU64(a.proofSize, b.proofSize))
  }

  /** `Weight::min`, component-wise. */
  function WeightMin(a: Weight, b: Weight): (r: Weight)
    ensures AllLe(r, a) && AllLe(r, b)
    ensures r.refTime == Min(a.refTime, b.refTime) && r.proofSize == Min(a.proofSize, b.proofSize)
    ensures AllLe(a, b) ==> r == a
  {
    Weight(Min(a.refTime, b.refTime), Min(a.proofSize, b.proofSize))
  }

  datatype GasError = OutOfGas | InvalidSchedule

  /** A chargeable token: its weight, and whether an adjustment of it moves the lowest
      point of the budget (the trait's default is `true`). */
  datatype Token = Token(weight: Weight, influencesLowest: bool)

  /** `EngineMeter`: the last fuel level seen from the engine. The conversion rate
      `ref_time_per_fuel` is computed from benchmark weights in the runtime; here it is fixed
      at construction. */
  class EngineMeter {
    var fuel: U64
    const ratePerFuel: U64

    /** `EngineMeter::new`: the fuel the reference-time limit buys. The division panics on a
        zero rate, hence the precondition. */
    constructor (limit: Weight, ratePerFuel: U64)
      requires ratePerFuel > 0
      ensures this.ratePerFuel == ratePerFuel
      ensures fuel == limit.refTime / ratePerFuel
      ensures fuel * ratePerFuel <= limit.refTime < (fuel + 1) * ratePerFuel
    {
      this.ratePerFuel := ratePerFuel;
      fuel := limit.refTime / ratePerFuel;
    }

    /** `EngineMeter::set_fuel`: records the new level and returns the reference time
        consumed since the previous one (never negative, saturating). */
    method SetFuel(newFuel: U64) returns (consumed: Weight)
      modifies this
      ensures fuel == newFuel
      ensures consumed.proofSize == 0
      ensures consumed.refTime == SaturatingMulU64(SaturatingSubU64(old(fuel), newFuel), ratePerFuel)
      ensures newFuel >= old(fuel) ==> consumed == ZERO
    {
      consumed := Weight(SaturatingMulU64(SaturatingSubU64(fuel, newFuel), ratePerFuel), 0);
      fuel := newFuel;
    }

    /** `EngineMeter::charge_ref_time`: checks that the fuel covers `refTime` and returns the
        level to hand to the engine. The result of the subtraction is only checked, not
        stored, so the level returned is the recorded one. */
    method ChargeRefTime(refTime: U64) returns (r: Result<I64, GasError>)
      ensures ratePerFuel == 0 ==> r == Err(InvalidSchedule)
      ensures ratePerFuel > 0 && refTime / ratePerFuel > fuel ==> r == Err(OutOfGas)
      ensures ratePerFuel > 0 && refTime / ratePerFuel <= fuel ==>
                r == if fuel <= I64_MAX then Ok(fuel) else Err(OutOfGas)
    {
      if ratePerFuel == 0 {
        return Err(InvalidSchedule);
      }
      var amount := refTime / ratePerFuel;
      if amount > fuel {
        return Err(OutOfGas);
      }
      if fuel > I64_MAX {
        return Err(OutOfGas);
      }
      return Ok(fuel);
    }
  }

  /** The parent's budget after lending `amount` to a nested call, and the nested limit. */
  function NestedSplit(gasLeft: Weight, amount: Weight): (r: (Weight, Weight))
    ensures AllLe(r.1, amount) && AllLe(r.1, gasLeft)
    ensures CanAdd(r.0, r.1) && Add(r.0, r.1) == gasLeft
  {
    var lent := WeightMin(amount, gasLeft);
    (Sub(gasLeft, lent), lent)
  }

  /** The lowest point of the parent's budget after absorbing a nested meter: the parent's
      budget plus the nested limit, less what the nested call required, unless the previous
      lowest point was lower. */
  function AbsorbLowest(gasLeft: Weight, lowest: Weight, nestedLimit: Weight, nestedRequired: Weight): (r: Weight)
    requires CanAdd(gasLeft, nestedLimit)
    ensures AllLe(r, lowest)
    ensures AllLe(r, SaturatingSub(Add(gasLeft, nestedLimit), nestedRequired))
  {
    WeightMin(SaturatingSub(Add(gasLeft, nestedLimit), nestedRequired), lowest)
  }

  /** `GasMeter`: the budget of one call frame. */
  class GasMeter {
    const gasLimit: Weight
    var gasLeft: Weight
    /** Adjustments can lift `gasLeft` above an earlier low; this remembers that low. */
    var gasLeftLowest: Weight
    const engine: EngineMeter

    /** The meter can create nested meters (its engine's conversion rate is positive), and
        its budget never exceeds its limit. */
    ghost predicate Valid()
      reads this, engine
    {
      engine.ratePerFuel > 0 && AllLe(gasLeft, gasLimit)
    }

    /** `GasMeter::new`. */
    constructor New(limit: Weight, ratePerFuel: U64)
      requires ratePerFuel > 0
      ensures gasLimit == limit && gasLeft == limit && gasLeftLowest == limit
      ensures fresh(engine) && engine.ratePerFuel == ratePerFuel
      ensures engine.fuel == limit.refTime / ratePerFuel
      ensures Valid()
    {
      gasLimit := limit;
      gasLeft := limit;
      gasLeftLowest := limit;
      engine := new EngineMeter(limit, ratePerFuel);
    }

    /** `GasMeter::gas_left_lowest`: the lower of the recorded low and the current budget. */
    function GasLeftLowest(): (r: Weight)
      reads this
      ensures AllLe(r, gasLeft) && AllLe(r, gasLeftLowest)
      ensures r == gasLeft || r == gasLeftLowest || (r.refTime == gasLeft.refTime && r.proofSize == gasLeftLowest.proofSize)
                || (r.refTime == gasLeftLowest.refTime && r.proofSize == gasLeft.proofSize)
    {
      WeightMin(gasLeftLowest, gasLeft)
    }

    /** `GasMeter::gas_required`: the budget needed to run the same call again. */
    function GasRequired(): (r: Weight)
      reads this
      ensures AllLe(r, gasLimit)
      ensures AllLe(GasLeftLowest(), gasLimit) ==> r == Sub(gasLimit, GasLeftLowest())
    {
      SaturatingSub(gasLimit, GasLeftLowest())
    }

    /** `GasMeter::gas_consumed`. */
    function GasConsumed(): (r: Weight)
      reads this
      ensures AllLe(r, gasLimit)
      ensures AllLe(gasLeft, gasLimit) ==> r == Sub(gasLimit, gasLeft)
    {
      SaturatingSub(gasLimit, gasLeft)
    }

    /** `GasMeter::engine_fuel_left`: the engine's level as engine gas, an `i64`. */
    function EngineFuelLeft(): (r: Result<I64, GasError>)
      reads this, engine
      ensures r.Ok? <==> engine.fuel <= I64_MAX
      ensures r.Ok? ==> r.value == engine.fuel
      ensures r.Err? ==> r.error == OutOfGas
    {
      if engine.fuel <= I64_MAX then Ok(engine.fuel) else Err(OutOfGas)
    }

    /** `GasMeter::nested_take_all`: the nested meter gets the whole remaining budget. */
    method NestedTakeAll() returns (nested: GasMeter)
      requires Valid()
      modifies this
      ensures gasLeft == ZERO && gasLeftLowest == old(gasLeftLowest)
      ensures Valid()
      ensures fresh(nested) && fresh(nested.engine) && nested.Valid()
      ensures nested.gasLimit == old(gasLeft) && nested.gasLeft == old(gasLeft)
      ensures nested.gasLeftLowest == old(gasLeft)
      ensures nested.engine.ratePerFuel == engine.ratePerFuel
    {
      var left := gasLeft;
      gasLeft := Sub(gasLeft, left);
      nested := new GasMeter.New(left, engine.ratePerFuel);
    }

    /** `GasMeter::nested`: lends at most `amount`, and never more than is left. */
    method Nested(amount: Weight) returns (nested: GasMeter)
      requires Valid()
      modifies this
      ensures (gasLeft, nested.gasLimit) == NestedSplit(old(gasLeft), amount)
      ensures gasLeftLowest == old(gasLeftLowest)
      ensures Valid()
      ensures fresh(nested) && fresh(nested.engine) && nested.Valid()
      ensures nested.gasLeft == nested.gasLimit && nested.gasLeftLowest == nested.gasLimit
      ensures nested.engine.ratePerFuel == engine.ratePerFuel
    {
      var lent := WeightMin(amount, gasLeft);
      gasLeft := Sub(gasLeft, lent);
      nested := new GasMeter.New(lent, engine.ratePerFuel);
    }

    /** `GasMeter::absorb_nested`: takes back what the nested call left and lowers the
        recorded low by what it required. The `+` of `Weight` overflows outside the
        precondition. */
    method AbsorbNested(nested: GasMeter)
      requires nested != this
      requires CanAdd(gasLeft, nested.gasLimit) && CanAdd(gasLeft, nested.gasLeft)
      modifies this
      ensures gasLeftLowest == AbsorbLowest(old(gasLeft), old(gasLeftLowest), nested.gasLimit, nested.GasRequired())
      ensures gasLeft == Add(old(gasLeft), nested.gasLeft)
      ensures AllLe(gasLeftLowest, old(gasLeftLowest))
    {
      gasLeftLowest := WeightMin(SaturatingSub(Add(gasLeft, nested.gasLimit), nested.GasRequired()), gasLeftLowest);
      gasLeft := Add(gasLeft, nested.gasLeft);
    }

    /** `GasMeter::charge`: takes the token's weight, or fails with `OutOfGas` and takes
        nothing when either component is short. */
    method Charge(token: Token) returns (r: Result<Weight, GasError>)
      modifies this
      ensures r.Ok? <==> AllLe(token.weight, old(gasLeft))
      ensures r.Ok? ==> r.value == token.weight && gasLeft == Sub(old(gasLeft), token.weight)
      ensures r.Err? ==> r.error == OutOfGas && gasLeft == old(gasLeft)
      ensures gasLeftLowest == old(gasLeftLowest)
      ensures old(Valid()) ==> Valid()
    {
      var amount := token.weight;
      match CheckedSub(gasLeft, amount) {
        case None =>
          return Err(OutOfGas);
        case Some(left) =>
          gasLeft := left;
          return Ok(amount);
      }
    }

    /** `GasMeter::adjust_gas`: refunds the part of an earlier charge the token did not
        need, never above the limit; first records the current low if the token asks so. */
    method AdjustGas(charged: Weight, token: Token)
      modifies this
      ensures gasLeftLowest == if token.influencesLowest then old(GasLeftLowest()) else old(gasLeftLowest)
      ensures gasLeft == WeightMin(SaturatingAdd(old(gasLeft), SaturatingSub(charged, token.weight)), gasLimit)
      ensures AllLe(old(gasLeft), gasLimit) ==> AllLe(old(gasLeft), gasLeft)
      ensures AllLe(gasLeft, gasLimit)
      ensures AllLe(gasLeftLowest, old(gasLeftLowest))
      ensures token.influencesLowest ==> AllLe(GasLeftLowest(), old(GasLeftLowest()))
      ensures old(Valid()) ==> Valid()
    {
      if token.influencesLowest {
        gasLeftLowest := GasLeftLowest();
      }
      var adjustment := SaturatingSub(charged, token.weight);
      gasLeft := WeightMin(SaturatingAdd(gasLeft, adjustment), gasLimit);
    }

    /** `GasMeter::sync_from_executor`: charges the reference time the engine consumed since
        the last sync. A negative engine level fails at once; a shortfall fails after the new
        level has been recorded, with the budget unchanged. */
    method SyncFromExecutor(engineFuel: I64) returns (r: Result<U64, GasError>)
      modifies this, engine
      ensures engineFuel < 0 ==> r == Err(OutOfGas) && engine.fuel == old(engine.fuel) && gasLeft == old(gasLeft)
      ensures engineFuel >= 0 ==> engine.fuel == engineFuel
      ensures engineFuel >= 0 ==>
                var consumed := Weight(SaturatingMulU64(SaturatingSubU64(old(engine.fuel), engineFuel), engine.ratePerFuel), 0);
                match CheckedSub(old(gasLeft), consumed)
                case Some(left) => gasLeft == left && r == Ok(left.refTime)
                case None => gasLeft == old(gasLeft) && r == Err(OutOfGas)
      ensures gasLeftLowest == old(gasLeftLowest)
      ensures AllLe(gasLeft, old(gasLeft))
      ensures old(Valid()) ==> Valid()
    {
      if engineFuel < 0 {
        return Err(OutOfGas);
      }
      var consumed := engine.SetFuel(engineFuel);
      match CheckedSub(gasLeft, consumed) {
        case None =>
          return Err(OutOfGas);
        case Some(left) =>
          gasLeft := left;
          return Ok(gasLeft.refTime);
      }
    }

    /** `GasMeter::sync_to_executor`: converts the reference time charged since `before`
        (the value `sync_from_executor` returned) into engine fuel. */
    method SyncToExecutor(before: U64) returns (r: Result<I64, GasError>)
      ensures engine.ratePerFuel == 0 ==> r == Err(InvalidSchedule)
      ensures engine.ratePerFuel > 0 ==>
                var amount := SaturatingSubU64(before, gasLeft.refTime) / engine.ratePerFuel;
                r == if amount > engine.fuel || engine.fuel > I64_MAX then Err(OutOfGas) else Ok(engine.fuel)
    {
      var refTimeConsumed := SaturatingSubU64(before, gasLeft.refTime);
      r := engine.ChargeRefTime(refTimeConsumed);
    }
  }

  /** A meter as `GasMeter::new` leaves it has consumed nothing and requires nothing. */
  lemma FreshMeterConsumedNothing(m: GasMeter)
    requires m.gasLeft == m.gasLimit && m.gasLeftLowest == m.gasLimit
    ensures m.GasConsumed() == ZERO && m.GasRequired() == ZERO
  {
  }

  /** On a valid meter the saturating subtractions of `gas_consumed` and `gas_required`
      never clamp: consumed is the limit less what is left, required the limit less the low. */
  lemma ValidMeterAccounting(m: GasMeter)
    requires m.Valid()
    ensures m.GasConsumed() == Sub(m.gasLimit, m.gasLeft)
    ensures m.GasRequired() == Sub(m.gasLimit, m.GasLeftLowest())
    ensures Add(m.GasConsumed(), m.gasLeft) == m.gasLimit
  {
  }

  /** The budget needed to re-run a call is never below what it consumed. */
  lemma RequiredCoversConsumed(m: GasMeter)
    ensures AllLe(m.GasConsumed(), m.GasRequired())
  {
  }

  /** Lending to a nested call and absorbing it back: the parent ends with what it had less
      what the nested call consumed, and its low drops by at most what the nested call
      required. */
  lemma {:induction false} NestedThenAbsorb(gasLeft: Weight, lowest: Weight, amount: Weight,
                                            nestedLeft: Weight, nestedLowest: Weight)
    requires AllLe(nestedLeft, NestedSplit(gasLeft, amount).1)
    requires AllLe(nestedLowest, NestedSplit(gasLeft, amount).1)
    ensures var (parentLeft, limit) := NestedSplit(gasLeft, amount);
            var required := SaturatingSub(limit, WeightMin(nestedLowest, nestedLeft));
            && CanAdd(parentLeft, limit) && CanAdd(parentLeft, nestedLeft)
            && Add(parentLeft, nestedLeft) == Sub(gasLeft, Sub(limit, nestedLeft))
            && AbsorbLowest(parentLeft, lowest, limit, required) == WeightMin(Sub(gasLeft, required), lowest)
  {
    var (parentLeft, limit) := NestedSplit(gasLeft, amount);
    var required := SaturatingSub(limit, WeightMin(nestedLowest, nestedLeft));
    assert Add(parentLeft, limit) == gasLeft;
    assert AllLe(required, limit);
  }

  /** A nested call that consumed nothing leaves the parent as it was. */
  lemma UnusedNestedRestoresParent(gasLeft: Weight, lowest: Weight, amount: Weight)
    ensures var (parentLeft, limit) := NestedSplit(gasLeft, amount);
            && Add(parentLeft, limit) == gasLeft
            && AbsorbLowest(parentLeft, lowest, limit, SaturatingSub(limit, WeightMin(limit, limit))) == WeightMin(gasLeft, lowest)
  {
    NestedThenAbsorb(gasLeft, lowest, amount, NestedSplit(gasLeft, amount).1, NestedSplit(gasLeft, amount).1);
  }

  /** The scenarios of the unit tests: a zero budget refuses every charge. */
  method ZeroBudgetRefusesCharge(ratePerFuel: U64) returns (r: Result<Weight, GasError>)
    requires ratePerFuel > 0
    ensures r == Err(OutOfGas)
  {
    var meter := new GasMeter.New(ZERO, ratePerFuel);
    r := meter.Charge(Token(Weight(1, 0), true));
  }

  /** A failed charge takes nothing, so the full budget can still be charged afterwards. */
  method OverchargeDoesNotCharge(ratePerFuel: U64) returns (over: Result<Weight, GasError>, exact: Result<Weight, GasError>)
    requires ratePerFuel > 0
    ensures over == Err(OutOfGas)
    ensures exact == Ok(Weight(200, 0))
  {
    var meter := new GasMeter.New(Weight(200, 0), ratePerFuel);
    over := meter.Charge(Token(Weight(300, 0), true));
    assert over == Err(OutOfGas) && meter.gasLeft == Weight(200, 0);
    exact := meter.Charge(Token(Weight(200, 0), true));
  }

  /** A fresh meter with budget `limit` lending `amount`: the parent's remaining budget and
      the nested one. */
  method NestedRequest(limit: Weight, amount: Weight, ratePerFuel: U64) returns (parentLeft: Weight, nestedLeft: Weight)
    requires ratePerFuel > 0
    ensures (parentLeft, nestedLeft) == NestedSplit(limit, amount)
    ensures AllLe(limit, amount) ==> parentLeft == ZERO && nestedLeft == limit
  {
    var meter := new GasMeter.New(limit, ratePerFuel);
    var nested := meter.Nested(amount);
    parentLeft, nestedLeft := meter.gasLeft, nested.gasLeft;
  }

  /** A request the parent can cover is lent in full; a request that covers the parent's
      whole budget takes all of it. Mixed requests are capped component by component. */
  lemma NestedSplitCases(gasLeft: Weight, amount: Weight)
    ensures AllLe(amount, gasLeft) ==> NestedSplit(gasLeft, amount) == (Sub(gasLeft, amount), amount)
    ensures AllLe(gasLeft, amount) ==> NestedSplit(gasLeft, amount) == (ZERO, gasLeft)
    ensures NestedSplit(gasLeft, amount).1 == WeightMin(amount, gasLeft)
  {
  }
}
