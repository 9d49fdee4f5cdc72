/** The numeric helpers of the collector: the "equipment running" reduction over
    run-duration samples and the two conversions of ecobee's tenths-of-a-degree
    Fahrenheit integers. Temperatures are exact reals, so `/ 10` and `* 5 / 9`
    carry no rounding. */
module Conversions {

  /** True when some sample of `values` is strictly positive. */
  ghost predicate AnyPositive(values: seq<int>) {
    exists i :: 0 <= i < |values| && values[i] > 0
  }

  /** The loop of `is_thing_running` from the accumulator `r` onwards: every
      positive sample sets the accumulator to 1.0, nothing ever resets it. */
  function RunningFrom(values: seq<int>, r: real): (out: real)
    ensures AnyPositive(values) ==> out == 1.0
    ensures !AnyPositive(values) ==> out == r
    decreases |values|
  {
    if values == [] then r
    else
      var next := if values[0] > 0 then 1.0 else r;
      var rest := RunningFrom(values[1..], next);
      assert AnyPositive(values) <==> values[0] > 0 || AnyPositive(values[1..]) by {
        if AnyPositive(values) {
          var i :| 0 <= i < |values| && values[i] > 0;
          if i > 0 { assert values[1..][i - 1] > 0; }
        }
        if AnyPositive(values[1..]) {
          var j :| 0 <= j < |values[1..]| && values[1..][j] > 0;
          assert values[j + 1] > 0;
        }
      }
      rest
  }

  /** `is_thing_running`: 1.0 when some run-duration sample is positive, else 0.0. */
  function IsThingRunning(values: seq<int>): (r: real)
    ensures r == (if AnyPositive(values) then 1.0 else 0.0)
  {
    RunningFrom(values, 0.0)
  }

  /** The flag is 1.0 exactly when a sample is positive and 0.0 exactly when
      none is; it is never anything else. */
  lemma RunningMeaning(values: seq<int>)
    ensures IsThingRunning(values) == 1.0 <==> (exists i :: 0 <= i < |values| && values[i] > 0)
    ensures IsThingRunning(values) == 0.0 <==> (forall i :: 0 <= i < |values| ==> values[i] <= 0)
  {
  }

  /** The distinct samples of a sequence. */
  function Values(s: seq<int>): set<int> {
    set x | x in s
  }

  /** A positive sample of `a` is a positive sample of any sequence holding
      at least the values of `a`. */
  lemma PositiveCarriesOver(a: seq<int>, b: seq<int>)
    requires Values(a) <= Values(b)
    requires AnyPositive(a)
    ensures AnyPositive(b)
  {
    var i :| 0 <= i < |a| && a[i] > 0;
    assert a[i] in Values(a);
    assert a[i] in b;
    var j :| 0 <= j < |b| && b[j] == a[i];
  }

  /** Neither the order nor the multiplicity of the samples matters: two
      sample sequences holding the same values give the same result. */
  lemma RunningIgnoresOrder(a: seq<int>, b: seq<int>)
    requires Values(a) == Values(b)
    ensures IsThingRunning(a) == IsThingRunning(b)
  {
    if AnyPositive(a) {
      PositiveCarriesOver(a, b);
    }
    if AnyPositive(b) {
      PositiveCarriesOver(b, a);
    }
  }

  /** `ecobee_temp_in_f`: tenths of a degree Fahrenheit to degrees Fahrenheit. */
  function TempInF(value: int): (r: real)
    ensures r * 10.0 == value as real
  {
    value as real / 10.0
  }

  /** `ecobee_temp_in_c`: tenths of a degree Fahrenheit to degrees Celsius. The
      result is the Celsius reading whose Fahrenheit equivalent is `TempInF`. */
  function TempInC(value: int): (r: real)
    ensures r * 9.0 / 5.0 + 32.0 == TempInF(value)
  {
    (value as real / 10.0 - 32.0) * 5.0 / 9.0
  }

  /** Known points: freezing and boiling water, and a room reading. */
  lemma ConversionSamples()
    ensures TempInC(320) == 0.0
    ensures TempInC(2120) == 100.0
    ensures TempInF(705) == 70.5
    ensures TempInF(-400) == TempInC(-400) == -40.0
  {
  }

  /** Both conversions are strictly increasing in the raw reading. */
  lemma ConversionsMonotone(a: int, b: int)
    requires a < b
    ensures TempInF(a) < TempInF(b)
    ensures TempInC(a) < TempInC(b)
  {
  }
}
