/**
 * The integer arithmetic of the frequency controls card: a two-wheel picker
 * (whole MHz, then a decimal wheel in tuning steps) over the tuner's range.
 * All frequencies are integer kHz.
 */
module FrequencyPicker {
  import opened Wrappers
  import opened KotlinStd

  const DEFAULT_MIN_FREQUENCY_KHZ: int := 65000
  const DEFAULT_MAX_FREQUENCY_KHZ: int := 108_000
  const DEFAULT_FREQUENCY_STEP_KHZ: int := 100

  /** The step and the band the picker offers. */
  datatype TuningRange = TuningRange(stepKHz: int, minKHz: int, maxKHz: int) {
    predicate Valid() { stepKHz > 0 && 0 < minKHz <= maxKHz }

    function MinMhz(): int requires Valid() { minKHz / 1000 }

    function MaxMhz(): int requires Valid() { maxKHz / 1000 }

    /** Positions on the decimal wheel: how many steps fit in one MHz, at least one. */
    function DecimalSteps(): (n: int)
      requires Valid()
      ensures n >= 1
      ensures stepKHz <= 1000 ==> n * stepKHz <= 1000 < (n + 1) * stepKHz
      ensures stepKHz > 500 ==> n == 1
    {
      Max(1, 1000 / stepKHz)
    }

    /** The decimal index the lower band edge falls on within its MHz. */
    function MinEdgeIndex(): (i: int) requires Valid() ensures i >= 0 { (minKHz % 1000) / stepKHz }

    /** The decimal index the upper band edge falls on within its MHz. */
    function MaxEdgeIndex(): (i: int) requires Valid() ensures i >= 0 { (maxKHz % 1000) / stepKHz }
  }

  /**
   * The range the card works with, from the tuner's reported step, lower and
   * upper edge (each possibly absent): a step or lower edge that is not
   * positive, or an upper edge below the lower one, is replaced by its default.
   */
  function ResolveRange(stateStepKHz: Option<int>, stateMinKHz: Option<int>, stateMaxKHz: Option<int>): (r: TuningRange)
    ensures r.Valid()
    ensures stateStepKHz.Some? && stateStepKHz.value > 0 ==> r.stepKHz == stateStepKHz.value
    ensures !(stateStepKHz.Some? && stateStepKHz.value > 0) ==> r.stepKHz == DEFAULT_FREQUENCY_STEP_KHZ
    ensures stateMinKHz.Some? && stateMinKHz.value > 0 ==> r.minKHz == stateMinKHz.value
    ensures !(stateMinKHz.Some? && stateMinKHz.value > 0) ==> r.minKHz == DEFAULT_MIN_FREQUENCY_KHZ
    ensures stateMaxKHz.Some? && stateMaxKHz.value >= r.minKHz ==> r.maxKHz == stateMaxKHz.value
    ensures !(stateMaxKHz.Some? && stateMaxKHz.value >= r.minKHz) ==> r.maxKHz == Max(DEFAULT_MAX_FREQUENCY_KHZ, r.minKHz)
  {
    var step := if stateStepKHz.Some? && stateStepKHz.value > 0 then stateStepKHz.value else DEFAULT_FREQUENCY_STEP_KHZ;
    var minKHz := if stateMinKHz.Some? && stateMinKHz.value > 0 then stateMinKHz.value else DEFAULT_MIN_FREQUENCY_KHZ;
    var provisionalMax := if stateMaxKHz.Some? && stateMaxKHz.value >= minKHz then stateMaxKHz.value else DEFAULT_MAX_FREQUENCY_KHZ;
    TuningRange(step, minKHz, Max(provisionalMax, minKHz))
  }

  lemma MhzBoundsOrdered(rg: TuningRange)
    requires rg.Valid()
    ensures 0 <= rg.MinMhz() <= rg.MaxMhz()
  {
  }

  /** When the whole band lies inside one MHz, its lower edge's decimal index is not above its upper edge's. */
  lemma EdgeIndicesOrdered(rg: TuningRange)
    requires rg.Valid() && rg.MinMhz() == rg.MaxMhz()
    ensures rg.MinEdgeIndex() <= rg.MaxEdgeIndex()
  {
    assert rg.minKHz % 1000 <= rg.maxKHz % 1000;
    DivMonotone(rg.minKHz % 1000, rg.maxKHz % 1000, rg.stepKHz);
  }

  /** `minDecimalIndexFor(mhz)`: the lowest decimal position offered for `mhz`. */
  function MinDecimalIndexFor(rg: TuningRange, mhz: int): (r: int)
    requires rg.Valid()
    ensures 0 <= r <= rg.DecimalSteps() - 1
    ensures rg.DecimalSteps() <= 1 ==> r == 0
    ensures mhz != rg.MinMhz() ==> r == 0
    ensures mhz == rg.MinMhz() ==> r == Min(rg.MinEdgeIndex(), rg.DecimalSteps() - 1)
  {
    if rg.DecimalSteps() <= 1 then 0
    else if mhz == rg.MinMhz() && mhz == rg.MaxMhz() then
      EdgeIndicesOrdered(rg);
      CoerceIn(Min(rg.MinEdgeIndex(), rg.MaxEdgeIndex()), 0, rg.DecimalSteps() - 1)
    else
      var raw := if mhz == rg.MinMhz() then rg.MinEdgeIndex() else 0;
      CoerceIn(raw, 0, rg.DecimalSteps() - 1)
  }

  /** `maxDecimalIndexFor(mhz)`: the highest decimal position offered for `mhz`. */
  function MaxDecimalIndexFor(rg: TuningRange, mhz: int): (r: int)
    requires rg.Valid()
    ensures MinDecimalIndexFor(rg, mhz) <= r <= rg.DecimalSteps() - 1
    ensures rg.DecimalSteps() <= 1 ==> r == 0
    ensures mhz != rg.MaxMhz() ==> r == rg.DecimalSteps() - 1
    ensures mhz == rg.MaxMhz() ==> r == Min(rg.MaxEdgeIndex(), rg.DecimalSteps() - 1)
  {
    if rg.DecimalSteps() <= 1 then 0
    else if mhz == rg.MinMhz() && mhz == rg.MaxMhz() then
      EdgeIndicesOrdered(rg);
      CoerceIn(Max(rg.MinEdgeIndex(), rg.MaxEdgeIndex()), MinDecimalIndexFor(rg, mhz), rg.DecimalSteps() - 1)
    else
      var raw := if mhz == rg.MaxMhz() then rg.MaxEdgeIndex() else rg.DecimalSteps() - 1;
      CoerceIn(raw, MinDecimalIndexFor(rg, mhz), rg.DecimalSteps() - 1)
  }

  /** A wheel position the picker can show: a MHz of the band and a decimal index allowed for it. */
  predicate InPickerBounds(rg: TuningRange, mhz: int, index: int)
    requires rg.Valid()
  {
    rg.MinMhz() <= mhz <= rg.MaxMhz() && MinDecimalIndexFor(rg, mhz) <= index <= MaxDecimalIndexFor(rg, mhz)
  }

  /** The frequency a wheel position stands for, before clamping. */
  function RequestedKHz(rg: TuningRange, mhz: int, index: int): int
    requires rg.Valid()
  {
    mhz * 1000 + index * rg.stepKHz
  }

  /** The tune request sent once the wheels settle: the position's frequency, clamped into the band. */
  function TuneRequestKHz(rg: TuningRange, mhz: int, index: int): (kHz: int)
    requires rg.Valid()
    ensures rg.minKHz <= kHz <= rg.maxKHz
    ensures rg.minKHz <= RequestedKHz(rg, mhz, index) <= rg.maxKHz ==> kHz == RequestedKHz(rg, mhz, index)
    ensures RequestedKHz(rg, mhz, index) < rg.minKHz ==> kHz == rg.minKHz
    ensures RequestedKHz(rg, mhz, index) > rg.maxKHz ==> kHz == rg.maxKHz
  {
    CoerceIn(RequestedKHz(rg, mhz, index), rg.minKHz, rg.maxKHz)
  }

  /**
   * The wheels' position for the tuner's current frequency: its MHz clamped into
   * the band, and its decimal index clamped into what that MHz allows. Kotlin's
   * truncating `/` and `%` are kept, so a negative frequency is handled as the
   * code handles it.
   */
  function InitialSelection(rg: TuningRange, currentFreqKHz: int): (sel: (int, int))
    requires rg.Valid()
    ensures InPickerBounds(rg, sel.0, sel.1)
    ensures sel.0 == CoerceIn(TruncDiv(currentFreqKHz, 1000), rg.MinMhz(), rg.MaxMhz())
    ensures var raw := TruncDiv(TruncRem(currentFreqKHz, 1000), rg.stepKHz);
      && (MinDecimalIndexFor(rg, sel.0) <= raw <= MaxDecimalIndexFor(rg, sel.0) ==> sel.1 == raw)
      && (raw < MinDecimalIndexFor(rg, sel.0) ==> sel.1 == MinDecimalIndexFor(rg, sel.0))
      && (raw > MaxDecimalIndexFor(rg, sel.0) ==> sel.1 == MaxDecimalIndexFor(rg, sel.0))
  {
    MhzBoundsOrdered(rg);
    var mhz := CoerceIn(TruncDiv(currentFreqKHz, 1000), rg.MinMhz(), rg.MaxMhz());
    var index := CoerceIn(TruncDiv(TruncRem(currentFreqKHz, 1000), rg.stepKHz),
                          MinDecimalIndexFor(rg, mhz), MaxDecimalIndexFor(rg, mhz));
    (mhz, index)
  }

  lemma StepsBelowOneMhz(rg: TuningRange, index: int)
    requires rg.Valid() && rg.DecimalSteps() > 1 && 0 <= index <= rg.DecimalSteps() - 1
    ensures 0 <= index * rg.stepKHz <= 1000 - rg.stepKHz
  {
    var n, step := rg.DecimalSteps(), rg.stepKHz;
    assert step <= 500;
    assert n * step <= 1000;
    MulMonotone(index, n - 1, step);
    assert (n - 1) * step == n * step - step;
  }

  /**
   * Any position the picker can show asks for a frequency no higher than the
   * band's top and less than one MHz below its bottom, so the final clamp only
   * corrects a sub-step remainder at the lower edge.
   */
  lemma PickerPositionNearBand(rg: TuningRange, mhz: int, index: int)
    requires rg.Valid() && InPickerBounds(rg, mhz, index)
    ensures rg.minKHz - 1000 < RequestedKHz(rg, mhz, index) <= rg.maxKHz
  {
    var n, step := rg.DecimalSteps(), rg.stepKHz;
    assert mhz * 1000 <= rg.maxKHz - rg.maxKHz % 1000;
    if n <= 1 {
      assert index == 0;
    } else {
      StepsBelowOneMhz(rg, index);
      if mhz == rg.MaxMhz() {
        UpperEdgeIndexBound(rg, index);
      }
    }
  }

  /** On the band's top MHz, an offered decimal index never passes the upper edge. */
  lemma UpperEdgeIndexBound(rg: TuningRange, index: int)
    requires rg.Valid() && rg.DecimalSteps() > 1
    requires MinDecimalIndexFor(rg, rg.MaxMhz()) <= index <= MaxDecimalIndexFor(rg, rg.MaxMhz())
    ensures 0 <= index * rg.stepKHz <= rg.maxKHz % 1000
  {
    var step, edge := rg.stepKHz, rg.MaxEdgeIndex();
    assert index <= edge by {
      if rg.MaxMhz() == rg.MinMhz() {
        DivMonotone(rg.minKHz % 1000, rg.maxKHz % 1000, step);
      }
    }
    DivTimesDivisorBelow(rg.maxKHz % 1000, step);
    MulMonotone(index, edge, step);
  }

  lemma DivTimesDivisorBelow(a: int, d: int)
    requires 0 <= a && d > 0
    ensures (a / d) * d <= a
  {
    assert a == d * (a / d) + a % d;
  }

  lemma MulMonotone(x: int, y: int, d: int)
    requires 0 <= x <= y && d > 0
    ensures 0 <= x * d <= y * d
  {
    assert y * d - x * d == (y - x) * d;
  }

  lemma MulCancelLess(x: int, y: int, d: int)
    requires d > 0 && d * x < d * y
    ensures x < y
  {
    assert d * (y - x) == d * y - d * x;
  }

  /**
   * On a band and step that divide whole MHz evenly, a frequency of the band
   * that lies on the step grid survives the round trip: its initial wheel
   * position asks for exactly that frequency again.
   */
  lemma InitialSelectionRoundTrip(rg: TuningRange, currentFreqKHz: int)
    requires rg.Valid() && 1000 % rg.stepKHz == 0
    requires rg.minKHz <= currentFreqKHz <= rg.maxKHz && (currentFreqKHz % 1000) % rg.stepKHz == 0
    ensures var sel := InitialSelection(rg, currentFreqKHz);
      TuneRequestKHz(rg, sel.0, sel.1) == currentFreqKHz
  {
    var step := rg.stepKHz;
    var mhz := currentFreqKHz / 1000;
    var rem := currentFreqKHz % 1000;
    var raw := rem / step;
    assert raw * step == rem;
    var sel := InitialSelection(rg, currentFreqKHz);
    assert sel.0 == mhz;
    GridIndexInBounds(rg, currentFreqKHz);
    assert sel.1 == raw;
    assert RequestedKHz(rg, mhz, raw) == currentFreqKHz;
  }

  /** The step index of an in-band frequency on the grid is offered for its MHz. */
  lemma GridIndexInBounds(rg: TuningRange, kHz: int)
    requires rg.Valid() && 1000 % rg.stepKHz == 0
    requires rg.minKHz <= kHz <= rg.maxKHz && (kHz % 1000) % rg.stepKHz == 0
    ensures InPickerBounds(rg, kHz / 1000, (kHz % 1000) / rg.stepKHz)
  {
    var step, n := rg.stepKHz, rg.DecimalSteps();
    var mhz, rem := kHz / 1000, kHz % 1000;
    var raw := rem / step;
    assert raw * step == rem;
    assert rg.MinMhz() <= mhz <= rg.MaxMhz();
    if step > 500 {
      assert step == 1000;
      assert rem == 0 && raw == 0;
    } else {
      assert n * step == 1000;
      assert raw <= n - 1 by {
        assert raw * step < n * step;
      }
      assert MinDecimalIndexFor(rg, mhz) <= raw by {
        if mhz == rg.MinMhz() {
          assert rg.minKHz % 1000 <= rem;
          DivMonotone(rg.minKHz % 1000, rem, step);
        }
      }
      assert raw <= MaxDecimalIndexFor(rg, mhz) by {
        if mhz == rg.MaxMhz() {
          assert rem <= rg.maxKHz % 1000;
          DivMonotone(rem, rg.maxKHz % 1000, step);
          if mhz == rg.MinMhz() {
            DivMonotone(rg.minKHz % 1000, rg.maxKHz % 1000, step);
          }
        }
      }
    }
  }

  lemma DivMonotone(a: int, b: int, d: int)
    requires 0 <= a <= b && d > 0
    ensures a / d <= b / d
  {
    var qa, qb := a / d, b / d;
    assert d * qa <= a;
    assert b < d * qb + d;
    assert d * qb + d == d * (qb + 1);
    MulCancelLess(qa, qb + 1, d);
  }

  /**
   * The decimal wheel turned from `oldVal` to `newVal` while `selectedMHz` was
   * shown. On a wheel with more than one position, wrapping from the last
   * position to 0 moves up one MHz (not past the band's top) and wrapping from
   * 0 to the last moves down one MHz (not below its bottom); the new index is
   * then clamped into what the resulting MHz allows.
   */
  function DecimalWheelChange(rg: TuningRange, selectedMHz: int, oldVal: int, newVal: int): (sel: (int, int))
    requires rg.Valid()
    ensures var n := rg.DecimalSteps();
      && (n > 1 && oldVal == n - 1 && newVal == 0 ==> sel.0 == Min(selectedMHz + 1, rg.MaxMhz()))
      && (n > 1 && oldVal == 0 && newVal == n - 1 ==> sel.0 == Max(selectedMHz - 1, rg.MinMhz()))
      && (!(n > 1 && oldVal == n - 1 && newVal == 0) && !(n > 1 && oldVal == 0 && newVal == n - 1) ==> sel.0 == selectedMHz)
    ensures MinDecimalIndexFor(rg, sel.0) <= sel.1 <= MaxDecimalIndexFor(rg, sel.0)
    ensures MinDecimalIndexFor(rg, sel.0) <= newVal <= MaxDecimalIndexFor(rg, sel.0) ==> sel.1 == newVal
    ensures newVal < MinDecimalIndexFor(rg, sel.0) ==> sel.1 == MinDecimalIndexFor(rg, sel.0)
    ensures newVal > MaxDecimalIndexFor(rg, sel.0) ==> sel.1 == MaxDecimalIndexFor(rg, sel.0)
  {
    var n := rg.DecimalSteps();
    var mhz :=
      if n > 1 && oldVal == n - 1 && newVal == 0 then CoerceAtMost(selectedMHz + 1, rg.MaxMhz())
      else if n > 1 && oldVal == 0 && newVal == n - 1 then CoerceAtLeast(selectedMHz - 1, rg.MinMhz())
      else selectedMHz;
    (mhz, CoerceIn(newVal, MinDecimalIndexFor(rg, mhz), MaxDecimalIndexFor(rg, mhz)))
  }

  /** Turning the decimal wheel keeps a position inside the picker's bounds. */
  lemma DecimalWheelKeepsBounds(rg: TuningRange, mhz: int, index: int, newVal: int)
    requires rg.Valid() && InPickerBounds(rg, mhz, index)
    ensures var sel := DecimalWheelChange(rg, mhz, index, newVal); InPickerBounds(rg, sel.0, sel.1)
  {
    MhzBoundsOrdered(rg);
  }

  /**
   * Wrapping the decimal wheel forward below the top MHz moves to a strictly
   * higher frequency than the last decimal of the MHz it leaves.
   */
  lemma ForwardWrapRaisesFrequency(rg: TuningRange, mhz: int)
    requires rg.Valid() && rg.DecimalSteps() > 1 && rg.MinMhz() <= mhz < rg.MaxMhz()
    ensures var n := rg.DecimalSteps();
      var sel := DecimalWheelChange(rg, mhz, n - 1, 0);
      RequestedKHz(rg, sel.0, sel.1) > RequestedKHz(rg, mhz, n - 1)
  {
    var n := rg.DecimalSteps();
    StepsBelowOneMhz(rg, n - 1);
    var sel := DecimalWheelChange(rg, mhz, n - 1, 0);
    assert sel.0 == mhz + 1;
    assert sel.1 >= 0;
    assert sel.1 * rg.stepKHz >= 0;
  }

  /** The picker's two selected wheel values, as remembered across recompositions. */
  class FrequencySelection {
    var selectedMHz: int
    var selectedDecimalIndex: int

    constructor ()
      ensures selectedMHz == 0 && selectedDecimalIndex == 0
    {
      selectedMHz := 0;
      selectedDecimalIndex := 0;
    }

    /** The effect that follows the tuner's frequency: set both wheels for it. */
    method SyncToFrequency(rg: TuningRange, currentFreqKHz: int)
      requires rg.Valid()
      modifies this
      ensures (selectedMHz, selectedDecimalIndex) == InitialSelection(rg, currentFreqKHz)
      ensures InPickerBounds(rg, selectedMHz, selectedDecimalIndex)
    {
      var sel := InitialSelection(rg, currentFreqKHz);
      selectedMHz := sel.0;
      selectedDecimalIndex := sel.1;
    }

    /** The MHz wheel moved to position `newVal` (0 is the band's lowest MHz). */
    method OnMhzValueChanged(rg: TuningRange, newVal: int)
      requires rg.Valid()
      modifies this
      ensures selectedMHz == newVal + rg.MinMhz() && selectedDecimalIndex == old(selectedDecimalIndex)
    {
      selectedMHz := newVal + rg.MinMhz();
    }

    /** The two effects that pull the selection back into the band after the range changes. */
    method ClampToRange(rg: TuningRange)
      requires rg.Valid()
      modifies this
      ensures rg.MinMhz() <= selectedMHz <= rg.MaxMhz()
      ensures selectedMHz == CoerceIn(old(selectedMHz), rg.MinMhz(), rg.MaxMhz())
      ensures selectedDecimalIndex == CoerceIn(old(selectedDecimalIndex),
                MinDecimalIndexFor(rg, selectedMHz), MaxDecimalIndexFor(rg, selectedMHz))
      ensures InPickerBounds(rg, selectedMHz, selectedDecimalIndex)
    {
      MhzBoundsOrdered(rg);
      var clampedMhz := CoerceIn(selectedMHz, rg.MinMhz(), rg.MaxMhz());
      if clampedMhz != selectedMHz {
        selectedMHz := clampedMhz;
      }
      var clampedIndex := CoerceIn(selectedDecimalIndex,
        MinDecimalIndexFor(rg, selectedMHz), MaxDecimalIndexFor(rg, selectedMHz));
      if clampedIndex != selectedDecimalIndex {
        selectedDecimalIndex := clampedIndex;
      }
    }

    /** The decimal wheel's value-change listener. */
    method OnDecimalValueChanged(rg: TuningRange, oldVal: int, newVal: int)
      requires rg.Valid()
      modifies this
      ensures (selectedMHz, selectedDecimalIndex) == DecimalWheelChange(rg, old(selectedMHz), oldVal, newVal)
    {
      var n := rg.DecimalSteps();
      var adjustedNewVal := newVal;
      if n > 1 {
        if oldVal == n - 1 && newVal == 0 {
          selectedMHz := CoerceAtMost(selectedMHz + 1, rg.MaxMhz());
        } else if oldVal == 0 && newVal == n - 1 {
          selectedMHz := CoerceAtLeast(selectedMHz - 1, rg.MinMhz());
        }
      }
      var minIndex := MinDecimalIndexFor(rg, selectedMHz);
      var maxIndex := MaxDecimalIndexFor(rg, selectedMHz);
      adjustedNewVal := CoerceIn(adjustedNewVal, minIndex, maxIndex);
      selectedDecimalIndex := adjustedNewVal;
    }

    /** The frequency the settled wheels request. */
    function TuneRequest(rg: TuningRange): (kHz: int)
      requires rg.Valid()
      reads this
      ensures rg.minKHz <= kHz <= rg.maxKHz
    {
      TuneRequestKHz(rg, selectedMHz, selectedDecimalIndex)
    }
  }
}
