/**
 * Position sizing (src/services/risk/lot-calculator.ts).
 *
 * Every limit is a whole number of "points" of 1e-4 lot, the finest size the
 * platform reports; the unrounded size is an exact real, in the same unit.
 */
module LotCalculator {
  import opened Common

  datatype LotMode = FIXED | MULTIPLIER | BALANCE_RATIO | RISK_PERCENT

  datatype LotInputs = LotInputs(
    mode: LotMode,
    masterVolume: int,
    fixedLot: int,
    multiplier: real,
    balanceRatio: real,
    riskPercent: real,
    minLot: int,
    maxLot: int,
    brokerMinLot: int,
    brokerMaxLot: int,
    brokerLotStep: int,
    allowMinLotRounding: bool,
    memberBalance: real,
    memberEquity: real,
    masterBalance: Option<real>,
    stopDistance: Option<real>,
    contractSize: real)

  datatype LotError = INVALID_VOLUME | MISSING_STOP | MISSING_MASTER_BALANCE | BELOW_BROKER_MINIMUM

  datatype LotResult =
    | Accepted(volume: int, rawVolume: int, clamped: bool)
    | Refused(code: LotError)

  datatype RawSize = Raw(size: real) | NoSize(code: LotError)

  /** One lot, in points. */
  const LOT: real := 10000.0

  /** The 1e-9 lot nudge added before flooring to a step, in points. */
  const NUDGE: real := 0.00001

  /** Nearest whole point, halves up: `toFixed(4)` of a positive size. */
  function ToPoints(size: real): int {
    (size + 0.5).Floor
  }

  function RoundToStep(volume: real, step: int): int {
    if step <= 0 then
      100 * (volume / 100.0 + 0.5).Floor
    else
      ((volume + NUDGE) / step as real).Floor * step
  }

  function RawOf(input: LotInputs): RawSize {
    match input.mode
    case FIXED => Raw(input.fixedLot as real)
    case MULTIPLIER => Raw(input.masterVolume as real * input.multiplier)
    case BALANCE_RATIO =>
      if input.masterBalance.None? || input.masterBalance.value <= 0.0 then
        NoSize(MISSING_MASTER_BALANCE)
      else
        Raw(input.masterVolume as real * (input.memberBalance / input.masterBalance.value) * input.balanceRatio)
    case RISK_PERCENT =>
      if input.stopDistance.None? || input.stopDistance.value <= 0.0 then
        NoSize(MISSING_STOP)
      else if LossPerLot(input) <= 0.0 then
        NoSize(INVALID_VOLUME)
      else
        Raw(RiskAmount(input) / LossPerLot(input) * LOT)
  }

  function RiskAmount(input: LotInputs): real {
    input.memberEquity * input.riskPercent / 100.0
  }

  /** What one lot loses between entry and stop. */
  function LossPerLot(input: LotInputs): real
    requires input.stopDistance.Some?
  {
    input.stopDistance.value * input.contractSize
  }

  /** Clamped to the member's bounds, then to the broker's maximum. */
  function Bounded(input: LotInputs, raw: real): real {
    var lifted := if raw >= input.minLot as real then raw else input.minLot as real;
    var ceiling := Min(input.maxLot, input.brokerMaxLot) as real;
    if lifted <= ceiling then lifted else ceiling
  }

  function CalculateLot(input: LotInputs): LotResult {
    match RawOf(input)
    case NoSize(code) => Refused(code)
    case Raw(raw) =>
      if raw <= 0.0 then
        Refused(INVALID_VOLUME)
      else
        var bounded := Bounded(input, raw);
        if bounded < input.brokerMinLot as real then
          if !input.allowMinLotRounding then
            Refused(BELOW_BROKER_MINIMUM)
          else
            Accepted(input.brokerMinLot, ToPoints(raw), true)
        else
          var volume := RoundToStep(bounded, input.brokerLotStep);
          if volume < input.brokerMinLot then
            if !input.allowMinLotRounding then
              Refused(BELOW_BROKER_MINIMUM)
            else
              Accepted(input.brokerMinLot, ToPoints(raw), true)
          else
            Accepted(volume, ToPoints(raw), volume as real - raw > NUDGE || raw - volume as real > NUDGE)
  }

  // ---- Step rounding -------------------------------------------------------

  /** A multiple of the step that the nudged volume still covers. */
  ghost predicate StepMultipleWithin(m: int, step: int, volume: real) {
    (m * step) as real <= volume + NUDGE
  }

  lemma QuotientFloor(x: real, step: int, m: int)
    requires step > 0
    ensures (m * step) as real <= x <==> m <= (x / step as real).Floor
  {
    var s := step as real;
    var q := x / s;
    assert q * s == x;
    assert (m * step) as real == m as real * s;
    if m as real <= q {
      assert (q - m as real) * s >= 0.0;
    } else {
      assert (m as real - q) * s > 0.0;
    }
  }

  /** Rounding to a step gives the greatest multiple of it not above the (nudged) volume. */
  lemma RoundToStepIsGreatest(volume: real, step: int) returns (steps: int)
    requires step > 0
    ensures RoundToStep(volume, step) == steps * step
    ensures StepMultipleWithin(steps, step, volume)
    ensures forall m: int :: StepMultipleWithin(m, step, volume) ==> m <= steps
  {
    steps := ((volume + NUDGE) / step as real).Floor;
    QuotientFloor(volume + NUDGE, step, steps);
    forall m: int | StepMultipleWithin(m, step, volume)
      ensures m <= steps
    {
      QuotientFloor(volume + NUDGE, step, m);
    }
  }

  /**
   * The doc comment promises rounding "toward less exposure". That holds of
   * every volume exactly when the step is positive; without a step the code
   * rounds to the nearest hundredth of a lot instead, which can go up.
   */
  lemma RoundsDownIffStep(step: int)
    ensures (forall v: real :: RoundToStep(v, step) as real <= v + NUDGE) <==> step > 0
  {
    if step > 0 {
      forall v: real
        ensures RoundToStep(v, step) as real <= v + NUDGE
      {
        var _ := RoundToStepIsGreatest(v, step);
      }
    } else {
      StepZeroGoesUp(step);
    }
  }

  lemma StepZeroGoesUp(step: int)
    requires step <= 0
    ensures RoundToStep(1260.0, step) as real > 1260.0 + NUDGE
  {
  }

  // ---- Raw size and clamping -----------------------------------------------

  /** With balance-ratio sizing the member risks the master's share of balance, times the ratio. */
  lemma BalanceRatioIsProportional(input: LotInputs)
    requires input.mode == BALANCE_RATIO && RawOf(input).Raw? && input.memberBalance > 0.0
    ensures RawOf(input).size / input.memberBalance
            == input.masterVolume as real / input.masterBalance.value * input.balanceRatio
  {
    var share := input.memberBalance / input.masterBalance.value;
    var v, master := input.masterVolume as real, input.masterBalance.value;
    assert share * master == input.memberBalance;
    var want := v / master * input.balanceRatio;
    assert v / master * master == v;
    assert want * input.memberBalance == (v / master * master) * share * input.balanceRatio;
    assert RawOf(input).size == want * input.memberBalance;
  }

  function Distance(a: real, b: real): real {
    if a >= b then a - b else b - a
  }

  /**
   * Clamping takes the allowed size nearest to the raw one; when the member's
   * minimum is above the maximum, the maximum wins.
   */
  lemma BoundedIsNearest(input: LotInputs, raw: real, size: real)
    requires size <= Min(input.maxLot, input.brokerMaxLot) as real
    requires size >= input.minLot as real || input.minLot > Min(input.maxLot, input.brokerMaxLot)
    ensures Bounded(input, raw) <= Min(input.maxLot, input.brokerMaxLot) as real
    ensures input.minLot <= Min(input.maxLot, input.brokerMaxLot) ==>
              Bounded(input, raw) >= input.minLot as real
              && Distance(Bounded(input, raw), raw) <= Distance(size, raw)
    ensures input.minLot > Min(input.maxLot, input.brokerMaxLot) ==>
              Bounded(input, raw) == Min(input.maxLot, input.brokerMaxLot) as real
  {
    var ceiling := Min(input.maxLot, input.brokerMaxLot);
    assert ceiling as real < input.minLot as real <==> ceiling < input.minLot;
  }

  // ---- What an accepted lot is ---------------------------------------------

  /** Minimum-lot rounding decides this trade: the sized volume is below what the broker can fill. */
  predicate MinLotRounded(input: LotInputs) {
    RawOf(input).Raw? &&
    var bounded := Bounded(input, RawOf(input).size);
    bounded < input.brokerMinLot as real || RoundToStep(bounded, input.brokerLotStep) < input.brokerMinLot
  }

  lemma ExactSteps(input: LotInputs) returns (steps: int)
    requires input.brokerLotStep > 0
    requires CalculateLot(input).Accepted? && !MinLotRounded(input)
    ensures CalculateLot(input).volume == steps * input.brokerLotStep
    ensures StepMultipleWithin(steps, input.brokerLotStep, Bounded(input, RawOf(input).size))
    ensures forall m: int :: StepMultipleWithin(m, input.brokerLotStep, Bounded(input, RawOf(input).size)) ==>
              m <= steps
    ensures input.brokerMinLot <= CalculateLot(input).volume <= Min(input.maxLot, input.brokerMaxLot)
  {
    var bounded := Bounded(input, RawOf(input).size);
    steps := RoundToStepIsGreatest(bounded, input.brokerLotStep);
    var v := steps * input.brokerLotStep;
    assert v as real <= Min(input.maxLot, input.brokerMaxLot) as real + NUDGE;
  }

  /** `m` steps of the broker's are fillable and within the bounded size. */
  ghost predicate FillableSteps(input: LotInputs, raw: real, m: int) {
    && input.brokerMinLot <= m * input.brokerLotStep
    && StepMultipleWithin(m, input.brokerLotStep, Bounded(input, raw))
  }

  /** Exactly when a trade is taken at all. */
  lemma AcceptedIff(input: LotInputs)
    requires input.brokerLotStep > 0
    ensures CalculateLot(input).Accepted? <==>
            && RawOf(input).Raw? && RawOf(input).size > 0.0
            && (|| input.allowMinLotRounding
                || (&& input.brokerMinLot as real <= Bounded(input, RawOf(input).size)
                    && exists m: int :: FillableSteps(input, RawOf(input).size, m)))
  {
    if RawOf(input).Raw? && RawOf(input).size > 0.0 {
      var raw := RawOf(input).size;
      var step := input.brokerLotStep;
      var steps := RoundToStepIsGreatest(Bounded(input, raw), step);
      if m: int :| FillableSteps(input, raw, m) {
        TimesMonotone(m, steps, step);
      }
      if steps * step >= input.brokerMinLot {
        assert FillableSteps(input, raw, steps);
      }
    }
  }

  /**
   * Whether the member's own maximum holds is decided before the trade, by the
   * limits alone: minimum-lot rounding breaks it exactly when the broker's
   * minimum is above the member's maximum.
   */
  lemma AcceptedWithinMemberMaximumIff(input: LotInputs)
    requires input.brokerLotStep > 0
    requires CalculateLot(input).Accepted?
    ensures CalculateLot(input).volume <= input.maxLot <==> input.brokerMinLot <= input.maxLot
  {
    if !MinLotRounded(input) {
      var _ := ExactSteps(input);
    }
  }

  /**
   * An accepted lot is fillable, between the broker's minimum and maximum, and
   * is a whole number of any unit the broker's step and minimum are whole in.
   */
  lemma AcceptedLotIsFillable(input: LotInputs, u: int)
    requires input.brokerLotStep > 0 && u > 0
    requires input.brokerMinLot <= input.brokerMaxLot
    requires input.brokerLotStep % u == 0 && input.brokerMinLot % u == 0
    requires CalculateLot(input).Accepted?
    ensures input.brokerMinLot <= CalculateLot(input).volume <= input.brokerMaxLot
    ensures CalculateLot(input).volume % u == 0
  {
    if !MinLotRounded(input) {
      var steps := ExactSteps(input);
      MultipleOfMultiple(input.brokerLotStep, steps, u);
    }
  }

  lemma MultipleOfMultiple(a: int, n: int, u: int)
    requires u > 0 && a % u == 0
    ensures (n * a) % u == 0
  {
    var k := a / u;
    assert n * a == (n * k) * u + 0;
    ModOfMultiple(n * k, u);
  }

  lemma {:induction false} ModOfMultiple(q: int, u: int)
    requires u > 0
    ensures (q * u) % u == 0
  {
    var r := (q * u) % u;
    var p := (q * u) / u;
    assert q * u == p * u + r;
    assert (q - p) * u == r;
    if q - p >= 1 {
      TimesMonotone(1, q - p, u);
    } else if q - p <= -1 {
      TimesMonotone(q - p, -1, u);
    }
  }

  // ---- What each mode sizes ------------------------------------------------

  /**
   * `size` is what the member's sizing mode asks for, before any limit: a fixed
   * size whatever the master trades, a multiple of the master's volume, the
   * master's volume per balance, or the size that loses the chosen share of
   * equity over the stop distance.
   */
  ghost predicate Asks(input: LotInputs, size: real) {
    match input.mode
    case FIXED => size == input.fixedLot as real
    case MULTIPLIER => size == input.masterVolume as real * input.multiplier
    case BALANCE_RATIO =>
      && input.masterBalance.Some? && input.masterBalance.value > 0.0
      && size * input.masterBalance.value == input.masterVolume as real * input.memberBalance * input.balanceRatio
    case RISK_PERCENT =>
      && input.stopDistance.Some? && input.stopDistance.value > 0.0 && input.contractSize > 0.0
      && size / LOT * (input.stopDistance.value * input.contractSize) * 100.0 == input.memberEquity * input.riskPercent
  }

  lemma QuotientIff(x: real, num: real, den: real)
    requires den > 0.0
    ensures x == num / den <==> x * den == num
  {
    assert num / den * den == num;
    if x * den == num {
      assert (x - num / den) * den == 0.0;
    }
  }

  lemma PositiveProduct(a: real, b: real)
    requires a > 0.0
    ensures a * b > 0.0 <==> b > 0.0
  {
    if b <= 0.0 {
      assert a * (0.0 - b) >= 0.0;
    }
  }

  lemma RawIsAsked(input: LotInputs, size: real)
    ensures RawOf(input) == Raw(size) <==> Asks(input, size)
  {
    match input.mode {
      case FIXED =>
      case MULTIPLIER =>
      case BALANCE_RATIO =>
        if input.masterBalance.Some? && input.masterBalance.value > 0.0 {
          var share := input.memberBalance / input.masterBalance.value;
          assert share * input.masterBalance.value == input.memberBalance;
          var raw := input.masterVolume as real * share * input.balanceRatio;
          assert raw * input.masterBalance.value == input.masterVolume as real * input.memberBalance
                                                    * input.balanceRatio;
          QuotientIff(size, raw * input.masterBalance.value, input.masterBalance.value);
        }
      case RISK_PERCENT =>
        if input.stopDistance.Some? && input.stopDistance.value > 0.0 {
          PositiveProduct(input.stopDistance.value, input.contractSize);
          if LossPerLot(input) > 0.0 {
            QuotientIff(size / LOT, RiskAmount(input), LossPerLot(input));
          }
        }
    }
  }

  /** The greatest whole number of steps not above `covered`. */
  ghost predicate Fits(lot: int, step: int, covered: real)
    requires step > 0
  {
    lot % step == 0 && lot as real <= covered < (lot + step) as real
  }

  lemma NextMultiple(k: int, steps: int, step: nat)
    ensures k < steps ==> k * step + step <= steps * step
  {
    if k < steps {
      TimesMonotone(k + 1, steps, step);
    }
  }

  lemma FitsIsRounding(lot: int, step: int, size: real)
    requires step > 0
    ensures Fits(lot, step, size + NUDGE) <==> lot == RoundToStep(size, step)
  {
    var steps := RoundToStepIsGreatest(size, step);
    ModOfMultiple(steps, step);
    assert (steps + 1) * step == steps * step + step;
    assert !StepMultipleWithin(steps + 1, step, size);
    if Fits(lot, step, size + NUDGE) {
      var k := lot / step;
      assert lot == k * step;
      assert StepMultipleWithin(k, step, size);
      NextMultiple(k, steps, step);
    }
  }

  /** `lot` fills a size that is large enough for the broker. */
  ghost predicate Fills(lot: int, step: int, least: int, size: real, nudge: real)
    requires step > 0
  {
    least as real <= size && least <= lot && Fits(lot, step, size + nudge)
  }

  ghost predicate NothingFills(step: int, least: int, size: real, nudge: real)
    requires step > 0
  {
    forall lot: int :: !Fills(lot, step, least, size, nudge)
  }

  /** What a size comes to: its steps, or else the broker's minimum where the member allows that. */
  ghost predicate ComesTo(lot: int, step: int, least: int, mayRoundUp: bool, size: real, nudge: real)
    requires step > 0
  {
    || Fills(lot, step, least, size, nudge)
    || (mayRoundUp && lot == least && NothingFills(step, least, size, nudge))
  }

  /**
   * What sizing accepts, in every mode: exactly the lot that the asked size,
   * when positive, comes to within the limits.
   */
  lemma AcceptedLotMeaning(input: LotInputs, lot: int)
    requires input.brokerLotStep > 0
    ensures CalculateLot(input).Accepted? && CalculateLot(input).volume == lot
            <==> exists size: real :: Asks(input, size) && size > 0.0 &&
                                      ComesTo(lot, input.brokerLotStep, input.brokerMinLot, input.allowMinLotRounding,
                                              Bounded(input, size), NUDGE)
  {
    if RawOf(input).Raw? {
      var raw := RawOf(input).size;
      RawIsAsked(input, raw);
      if raw > 0.0 {
        LotComesTo(input, raw, lot);
      }
      forall size: real | Asks(input, size)
        ensures size == raw
      {
        RawIsAsked(input, size);
      }
    } else {
      forall size: real
        ensures !Asks(input, size)
      {
        RawIsAsked(input, size);
      }
    }
  }

  /**
   * Sizing is exact: when the broker fills anything of the asked size, the
   * accepted lot is the greatest whole number of steps within the limits.
   */
  lemma AcceptedLotIsExact(input: LotInputs, size: real) returns (steps: int)
    requires input.brokerLotStep > 0 && CalculateLot(input).Accepted? && Asks(input, size)
    requires !NothingFills(input.brokerLotStep, input.brokerMinLot, Bounded(input, size), NUDGE)
    ensures CalculateLot(input).volume == steps * input.brokerLotStep
    ensures StepMultipleWithin(steps, input.brokerLotStep, Bounded(input, size))
    ensures forall m: int :: StepMultipleWithin(m, input.brokerLotStep, Bounded(input, size)) ==> m <= steps
    ensures input.brokerMinLot <= CalculateLot(input).volume <= Min(input.maxLot, input.brokerMaxLot)
  {
    RawIsAsked(input, size);
    var step, least, bounded := input.brokerLotStep, input.brokerMinLot, Bounded(input, size);
    var lot: int :| Fills(lot, step, least, bounded, NUDGE);
    FitsIsRounding(lot, step, bounded);
    steps := ExactSteps(input);
  }

  /**
   * What an accepted sizing reports beside the lot: the asked size to the
   * nearest point, and whether the lot is not that size.
   */
  lemma AcceptedTellsAdjustment(input: LotInputs) returns (size: real)
    requires input.brokerLotStep > 0 && CalculateLot(input).Accepted?
    ensures Asks(input, size) && size > 0.0
    ensures var result := CalculateLot(input);
            && -1.0 <= 2.0 * (result.rawVolume as real - size) <= 1.0
            && (result.clamped <==>
                  || Distance(result.volume as real, size) > NUDGE
                  || NothingFills(input.brokerLotStep, input.brokerMinLot, Bounded(input, size), NUDGE))
  {
    size := RawOf(input).size;
    RawIsAsked(input, size);
    var step, bounded := input.brokerLotStep, Bounded(input, size);
    var rounded := RoundToStep(bounded, step);
    FitsIsRounding(rounded, step, bounded);
    forall v: int | Fills(v, step, input.brokerMinLot, bounded, NUDGE)
      ensures v == rounded
    {
      FitsIsRounding(v, step, bounded);
    }
    assert bounded >= input.brokerMinLot as real && rounded >= input.brokerMinLot ==>
        Fills(rounded, step, input.brokerMinLot, bounded, NUDGE);
  }

  /** Why a sizing is refused: what the mode is missing, a size that is not positive, or nothing the broker fills. */
  lemma RefusedMeaning(input: LotInputs)
    requires input.brokerLotStep > 0 && CalculateLot(input).Refused?
    ensures CalculateLot(input).code ==
              if input.mode == BALANCE_RATIO && (input.masterBalance.None? || input.masterBalance.value <= 0.0) then
                MISSING_MASTER_BALANCE
              else if input.mode == RISK_PERCENT && (input.stopDistance.None? || input.stopDistance.value <= 0.0) then
                MISSING_STOP
              else if exists size: real :: Asks(input, size) && size > 0.0 then
                BELOW_BROKER_MINIMUM
              else
                INVALID_VOLUME
  {
    if RawOf(input).Raw? {
      RawIsAsked(input, RawOf(input).size);
    }
    forall size: real | Asks(input, size)
      ensures RawOf(input) == Raw(size)
    {
      RawIsAsked(input, size);
    }
    if input.mode == RISK_PERCENT && input.stopDistance.Some? && input.stopDistance.value > 0.0 {
      PositiveProduct(input.stopDistance.value, input.contractSize);
    }
  }

  lemma LotComesTo(input: LotInputs, raw: real, lot: int)
    requires input.brokerLotStep > 0 && RawOf(input) == Raw(raw) && raw > 0.0
    ensures CalculateLot(input).Accepted? && CalculateLot(input).volume == lot
            <==> ComesTo(lot, input.brokerLotStep, input.brokerMinLot, input.allowMinLotRounding,
                         Bounded(input, raw), NUDGE)
  {
    var step, least, bounded := input.brokerLotStep, input.brokerMinLot, Bounded(input, raw);
    FitsIsRounding(lot, step, bounded);
    var rounded := RoundToStep(bounded, step);
    FitsIsRounding(rounded, step, bounded);
    forall v: int | Fills(v, step, least, bounded, NUDGE)
      ensures v == rounded
    {
      FitsIsRounding(v, step, bounded);
    }
    assert bounded >= least as real && rounded >= least ==> Fills(rounded, step, least, bounded, NUDGE);
  }

  lemma WholeSizeFits(size: int, step: int)
    requires step > 0
    ensures RoundToStep(size as real, step) == size - size % step
  {
    var lot := size - size % step;
    assert lot == size / step * step;
    ModOfMultiple(size / step, step);
    FitsIsRounding(lot, step, size as real);
  }

  /** A fixed size is taken whatever the master trades: clamped, and rounded down to a whole number of steps. */
  lemma FixedLot(input: LotInputs)
    requires input.mode == FIXED && input.brokerLotStep > 0
    ensures var sized := Min(Max(input.fixedLot, input.minLot), Min(input.maxLot, input.brokerMaxLot));
            var lot := sized - sized % input.brokerLotStep;
            CalculateLot(input) ==
              if input.fixedLot <= 0 then Refused(INVALID_VOLUME)
              else if lot >= input.brokerMinLot then Accepted(lot, input.fixedLot, lot != input.fixedLot)
              else if input.allowMinLotRounding then Accepted(input.brokerMinLot, input.fixedLot, true)
              else Refused(BELOW_BROKER_MINIMUM)
  {
    var sized := Min(Max(input.fixedLot, input.minLot), Min(input.maxLot, input.brokerMaxLot));
    assert Bounded(input, input.fixedLot as real) == sized as real;
    WholeSizeFits(sized, input.brokerLotStep);
  }

  /** The lot a multiple of the master's volume comes to, between the member's and the broker's limits. */
  lemma MultiplierLot(input: LotInputs, lot: int)
    requires input.mode == MULTIPLIER && input.brokerLotStep > 0
    ensures var size := input.masterVolume as real * input.multiplier;
            var lifted := if size >= input.minLot as real then size else input.minLot as real;
            var ceiling := Min(input.maxLot, input.brokerMaxLot) as real;
            CalculateLot(input).Accepted? && CalculateLot(input).volume == lot
            <==> size > 0.0 && ComesTo(lot, input.brokerLotStep, input.brokerMinLot, input.allowMinLotRounding,
                                       if lifted <= ceiling then lifted else ceiling, NUDGE)
  {
    var size := input.masterVolume as real * input.multiplier;
    AcceptedLotMeaning(input, lot);
    assert Asks(input, size);
  }

  // ---- Risk-percent sizing -------------------------------------------------

  /** What an accepted trade loses at its stop, and the most it was meant to lose (up to the flooring nudge). */
  ghost predicate WithinRisk(input: LotInputs)
    requires CalculateLot(input).Accepted? && input.stopDistance.Some?
  {
    CalculateLot(input).volume as real / LOT * LossPerLot(input) <= RiskAmount(input) + NUDGE / LOT * LossPerLot(input)
  }

  /** The size a raw size below the member's minimum is lifted to, and rounded from. */
  function LiftedLot(input: LotInputs): int {
    RoundToStep(Min(input.minLot, Min(input.maxLot, input.brokerMaxLot)) as real, input.brokerLotStep)
  }

  /**
   * Nothing lifted the trade above its raw size: minimum-lot rounding did not
   * pass it, and neither did the member's own minimum after clamping and
   * rounding down.
   */
  ghost predicate NotLifted(input: LotInputs)
    requires RawOf(input).Raw?
  {
    var raw := RawOf(input).size;
    if MinLotRounded(input) then
      input.brokerMinLot as real <= raw + NUDGE
    else
      raw >= input.minLot as real || LiftedLot(input) as real <= raw + NUDGE
  }

  lemma ShareOfLoss(lots: real, nudge: real, amount: real, loss: real)
    requires loss > 0.0
    ensures lots * loss <= amount + nudge * loss <==> lots <= amount / loss + nudge
  {
    var share := amount / loss;
    assert share * loss == amount;
    var gap := share + nudge - lots;
    assert gap * loss == amount + nudge * loss - lots * loss;
    if gap >= 0.0 {
      MulMonotone(0.0, gap, loss);
    } else {
      assert (0.0 - gap) * loss > 0.0;
    }
  }

  lemma ShareInPoints(volume: real, amount: real, loss: real)
    requires loss > 0.0
    ensures volume / LOT * loss <= amount + NUDGE / LOT * loss <==> volume <= amount / loss * LOT + NUDGE
  {
    var share := amount / loss;
    ShareOfLoss(volume / LOT, NUDGE / LOT, amount, loss);
  }

  lemma RiskShare(input: LotInputs, volume: real)
    requires input.mode == RISK_PERCENT && RawOf(input).Raw?
    ensures input.stopDistance.Some?
    ensures volume / LOT * LossPerLot(input) <= RiskAmount(input) + NUDGE / LOT * LossPerLot(input)
            <==> volume <= RawOf(input).size + NUDGE
  {
    ShareInPoints(volume, RiskAmount(input), LossPerLot(input));
  }

  /** A risk-percent trade stays within its risk exactly when its volume stays within its raw size. */
  lemma WithinRiskIsWithinRaw(input: LotInputs)
    requires input.mode == RISK_PERCENT && CalculateLot(input).Accepted?
    ensures WithinRisk(input) <==> CalculateLot(input).volume as real <= RawOf(input).size + NUDGE
  {
    RiskShare(input, CalculateLot(input).volume as real);
  }

  lemma WithinRawIffNotLifted(input: LotInputs)
    requires input.brokerLotStep > 0 && CalculateLot(input).Accepted?
    ensures CalculateLot(input).volume as real <= RawOf(input).size + NUDGE <==> NotLifted(input)
  {
    var raw := RawOf(input).size;
    if !MinLotRounded(input) && raw >= input.minLot as real {
      var _ := RoundToStepIsGreatest(Bounded(input, raw), input.brokerLotStep);
    }
  }

  /**
   * A risk-percent trade loses at most the configured share of equity at its
   * stop (up to the flooring nudge) if and only if no minimum lifted it.
   */
  lemma RiskPercentLossBoundIff(input: LotInputs)
    requires input.mode == RISK_PERCENT && input.brokerLotStep > 0
    requires CalculateLot(input).Accepted?
    ensures WithinRisk(input) <==> NotLifted(input)
  {
    WithinRiskIsWithinRaw(input);
    WithinRawIffNotLifted(input);
  }

  /** In particular when the raw size reaches the member's minimum and minimum-lot rounding did not fire. */
  lemma RiskPercentLossBound(input: LotInputs)
    requires input.mode == RISK_PERCENT && input.brokerLotStep > 0
    requires CalculateLot(input).Accepted? && !MinLotRounded(input)
    requires RawOf(input).size >= input.minLot as real
    ensures CalculateLot(input).volume as real / LOT * LossPerLot(input)
            <= RiskAmount(input) + NUDGE / LOT * LossPerLot(input)
  {
    RiskPercentLossBoundIff(input);
  }

  lemma MulMonotone(a: real, b: real, c: real)
    requires a <= b && c >= 0.0
    ensures a * c <= b * c
  {
  }

  /** An input that breaks the bound: a raw size of 0.1 lifted to the member's minimum of 0.5. */
  lemma MemberMinimumBreaksLossBound() returns (input: LotInputs)
    ensures input.mode == RISK_PERCENT && input.brokerLotStep > 0
    ensures CalculateLot(input).Accepted? && !MinLotRounded(input)
    ensures RawOf(input).size < input.minLot as real
    ensures CalculateLot(input).volume as real / LOT * LossPerLot(input)
            > RiskAmount(input) + NUDGE / LOT * LossPerLot(input)
  {
    input := LotInputs(RISK_PERCENT, 10000, 0, 1.0, 1.0, 1.0, 5000, 100000, 100, 1000000, 100, false,
                       1000.0, 1000.0, None, Some(1.0), 100.0);
    assert RawOf(input).size == 1000.0;
    var steps := RoundToStepIsGreatest(5000.0, 100);
    assert StepMultipleWithin(50, 100, 5000.0);
    assert !StepMultipleWithin(51, 100, 5000.0);
  }

  // ---- Monotonicity --------------------------------------------------------

  lemma RoundToStepMonotone(a: real, b: real, step: int)
    requires a <= b && step > 0
    ensures RoundToStep(a, step) <= RoundToStep(b, step)
  {
    var m := RoundToStepIsGreatest(a, step);
    var n := RoundToStepIsGreatest(b, step);
    assert StepMultipleWithin(m, step, b);
    TimesMonotone(m, n, step);
  }

  lemma RawMonotone(input: LotInputs, larger: int)
    requires input.mode == MULTIPLIER || input.mode == BALANCE_RATIO
    requires 0 < input.masterVolume <= larger
    requires RawOf(input).Raw? && RawOf(input).size > 0.0
    ensures RawOf(input.(masterVolume := larger)).Raw?
    ensures RawOf(input.(masterVolume := larger)).size >= RawOf(input).size
  {
    var v, w := input.masterVolume as real, larger as real;
    var factor := if input.mode == MULTIPLIER then input.multiplier
                  else input.memberBalance / input.masterBalance.value * input.balanceRatio;
    if input.mode == BALANCE_RATIO {
      var share := input.memberBalance / input.masterBalance.value;
      assert v * share * input.balanceRatio == v * factor;
      assert w * share * input.balanceRatio == w * factor;
    }
    if factor <= 0.0 {
      MulMonotone(factor, 0.0, v);
    }
    MulMonotone(v, w, factor);
  }

  /**
   * A larger master trade never turns an accepted copy into a refused or a
   * smaller one, through clamping, flooring and both minimum-lot branches.
   */
  lemma LotMonotone(input: LotInputs, larger: int)
    requires input.mode == MULTIPLIER || input.mode == BALANCE_RATIO
    requires 0 < input.masterVolume <= larger
    requires input.brokerLotStep > 0
    requires CalculateLot(input).Accepted?
    ensures CalculateLot(input.(masterVolume := larger)).Accepted?
    ensures CalculateLot(input.(masterVolume := larger)).volume >= CalculateLot(input).volume
  {
    RawMonotone(input, larger);
    var more := input.(masterVolume := larger);
    RoundToStepMonotone(Bounded(input, RawOf(input).size), Bounded(more, RawOf(more).size), input.brokerLotStep);
  }
}
