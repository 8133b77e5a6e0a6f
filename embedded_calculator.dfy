/** The rocket calculator that runs in an embedded Python interpreter: its
    constant tables, the total-weight and viable-distance formulas, and the
    fuel sweep that feeds the chart. Floating-point values are exact reals;
    a missing dictionary key is a KeyError, a division by zero a
    ZeroDivisionError. */
module EmbeddedCalculator {
  import opened Wrappers

  /** The exceptions the calculation can raise. */
  datatype Error = KeyError(key: string) | ZeroDivisionError

  /** The items of the component-quantity dictionary, in iteration order. */
  type Components = seq<(string, int)>

  /** Sampled fuel masses and the clamped distance at each of them. */
  datatype Chart = Chart(fuelRange: seq<int>, distances: seq<real>)

  // Constant tables

  const FuelEfficiency: map<string, real> :=
    map["steam" := 2.0, "petroleum" := 3.0, "liquid_hydrogen" := 8.0]

  /** Oxidizer mass needed per kg of fuel. */
  const OxidizerRatios: map<string, real> :=
    map["steam" := 0.0, "petroleum" := 2.33, "liquid_hydrogen" := 5.5]

  const OxidizerStorageWeight: int := 100
  const OxidizerStorageCapacity: int := 2700

  const EngineWeight: map<string, int> :=
    map["steam" := 200, "petroleum" := 200, "liquid_hydrogen" := 500]

  const CommandCapsuleWeight: int := 200

  const ComponentWeights: map<string, int> :=
    map["cargo_bay" := 2000, "liquid_cargo_bay" := 2000, "gas_cargo_bay" := 2000,
        "sightseeing" := 200, "research_station" := 200]

  // Arithmetic helpers

  /** Python's math.ceil on an exact real. */
  function Ceil(x: real): (n: int)
    ensures n as real - 1.0 < x <= n as real
  {
    -((-x).Floor)
  }

  /** Python's max(0, x). */
  function Max0(x: real): (r: real)
    ensures r >= 0.0 && r >= x
    ensures r == x || r == 0.0
  {
    if x > 0.0 then x else 0.0
  }

  /** Python's range(start, stop, step) for a positive step, as a list:
      as many elements as CPython computes, start + i*step for each i. */
  function Range(start: int, stop: int, step: int): (r: seq<int>)
    requires step > 0
    ensures r == [] <==> stop <= start
    ensures r != [] ==> r[0] == start
  {
    var length := if start < stop then (stop - start - 1) / step + 1 else 0;
    seq(length, i => start + i * step)
  }

  /** Euclidean division bounds the quotient's multiple of the divisor. */
  lemma DivisionBounds(x: int, step: int)
    requires x >= 0 && step > 0
    ensures x / step >= 0
    ensures (x / step) * step <= x < (x / step) * step + step
  {
    assert x == (x / step) * step + x % step;
  }

  /** Multiplying by a positive step keeps the order of two counts. */
  lemma ScaleMonotone(i: int, j: int, step: int)
    requires 0 <= i <= j && step > 0
    ensures 0 <= i * step <= j * step
  {
    assert j * step - i * step == (j - i) * step;
  }

  /** A multiple of a positive step leaves no remainder, and dividing it by
      the step gives back the multiplier. */
  lemma MultipleOfStep(i: int, step: int)
    requires i >= 0 && step > 0
    ensures (i * step) / step == i && (i * step) % step == 0
  {
    var q, m := (i * step) / step, (i * step) % step;
    assert i * step == q * step + m && 0 <= m < step;
    assert (i - q) * step == m;
    if i - q >= 1 {
      ScaleMonotone(1, i - q, step);
    } else if i - q <= -1 {
      ScaleMonotone(1, q - i, step);
    }
  }

  /** Every element of the range is start plus a multiple of step below stop. */
  lemma RangeMemberForm(start: int, stop: int, step: int, i: int)
    requires step > 0 && 0 <= i < |Range(start, stop, step)|
    ensures start <= Range(start, stop, step)[i] < stop
    ensures (Range(start, stop, step)[i] - start) % step == 0
  {
    var q := (stop - start - 1) / step;
    DivisionBounds(stop - start - 1, step);
    ScaleMonotone(i, q, step);
    MultipleOfStep(i, step);
  }

  /** Every value start plus a multiple of step below stop is in the range. */
  lemma RangeHasMember(start: int, stop: int, step: int, x: int)
    requires step > 0 && start <= x < stop && (x - start) % step == 0
    ensures x in Range(start, stop, step)
  {
    var r := Range(start, stop, step);
    var k := (x - start) / step;
    DivisionBounds(x - start, step);
    assert x - start == k * step;
    var q := (stop - start - 1) / step;
    DivisionBounds(stop - start - 1, step);
    if k > q {
      ScaleMonotone(q + 1, k, step);
    }
    assert k < |r| && r[k] == x;
  }

  /** The range holds exactly the values start, start + step, ... that lie
      below stop: it starts at start when not empty, each element is in
      [start, stop), they increase by step, one more step would reach stop,
      and a value is in it iff it is in [start, stop) and a whole number of
      steps from start. */
  lemma RangeSpec(start: int, stop: int, step: int)
    requires step > 0
    ensures start < stop ==> |Range(start, stop, step)| > 0 && Range(start, stop, step)[0] == start
    ensures forall x :: x in Range(start, stop, step) <==> start <= x < stop && (x - start) % step == 0
    ensures forall i :: 0 <= i < |Range(start, stop, step)| ==> start <= Range(start, stop, step)[i] < stop
    ensures forall i :: 0 < i < |Range(start, stop, step)| ==>
              Range(start, stop, step)[i] == Range(start, stop, step)[i - 1] + step
    ensures start + |Range(start, stop, step)| * step >= stop
  {
    var r := Range(start, stop, step);
    if start < stop {
      var q := (stop - start - 1) / step;
      DivisionBounds(stop - start - 1, step);
      assert |r| == q + 1;
      forall i | 0 <= i < |r|
        ensures start <= r[i] < stop
      {
        ScaleMonotone(i, q, step);
      }
      forall i | 0 < i < |r|
        ensures r[i] == r[i - 1] + step
      {
        assert i * step == (i - 1) * step + step;
      }
      assert |r| * step == q * step + step;
    }
    forall x | x in r
      ensures start <= x < stop && (x - start) % step == 0
    {
      var i :| 0 <= i < |r| && r[i] == x;
      RangeMemberForm(start, stop, step, i);
    }
    forall x | start <= x < stop && (x - start) % step == 0
      ensures x in r
    {
      RangeHasMember(start, stop, step, x);
    }
  }

  // Total weight

  /** Number of oxidizer tanks for a given oxidizer mass: none unless some
      oxidizer is needed, else the least count whose capacity holds it. */
  function OxidizerTanks(oxidizerNeeded: real): (n: nat)
    ensures oxidizerNeeded <= 0.0 ==> n == 0
    ensures oxidizerNeeded > 0.0 ==>
      ((n - 1) * OxidizerStorageCapacity) as real < oxidizerNeeded <= (n * OxidizerStorageCapacity) as real
  {
    if oxidizerNeeded > 0.0 then Ceil(oxidizerNeeded / OxidizerStorageCapacity as real) else 0
  }

  /** More oxidizer never needs fewer tanks. */
  lemma OxidizerTanksMonotone(a: real, b: real)
    requires a <= b
    ensures OxidizerTanks(a) <= OxidizerTanks(b)
  {
  }

  /** Every component key of the items is in the weight table. */
  predicate AllKnown(items: Components) {
    forall i :: 0 <= i < |items| ==> items[i].0 in ComponentWeights
  }

  /** Every quantity of the items is non-negative. */
  predicate NonNegativeQuantities(items: Components) {
    forall i :: 0 <= i < |items| ==> items[i].1 >= 0
  }

  /** The generator sum of weight times quantity over the dictionary items;
      the first key missing from the table raises. */
  function ComponentWeight(items: Components): (r: Result<int, Error>)
    ensures r.Ok? <==> AllKnown(items)
    ensures r.Err? ==> exists i :: 0 <= i < |items| && items[i].0 !in ComponentWeights
                          && r.error == KeyError(items[i].0)
                          && AllKnown(items[..i])
    ensures r.Ok? && NonNegativeQuantities(items) ==> r.value >= 0
    ensures items == [] ==> r == Ok(0)
  {
    if items == [] then Ok(0)
    else if items[0].0 !in ComponentWeights then
      assert AllKnown(items[..0]);
      Err(KeyError(items[0].0))
    else
      match ComponentWeight(items[1..])
      case Err(e) =>
        assert forall i :: 0 <= i < |items| - 1 && AllKnown(items[1..][..i]) ==> AllKnown(items[..i + 1]) by {
          forall i | 0 <= i < |items| - 1 && AllKnown(items[1..][..i])
            ensures AllKnown(items[..i + 1])
          {
            assert items[..i + 1] == [items[0]] + items[1..][..i];
          }
        }
        assert forall i :: 0 <= i < |items| - 1 ==> items[1..][i] == items[i + 1];
        Err(e)
      case Ok(rest) =>
        assert NonNegativeQuantities(items) ==> NonNegativeQuantities(items[1..]);
        assert forall i :: 1 <= i < |items| ==> items[i] == items[1..][i - 1];
        Ok(ComponentWeights[items[0].0] * items[0].1 + rest)
  }

  /** Items whose keys agree position by position and whose quantities are
      pointwise no smaller. */
  predicate QuantitiesAtLeast(small: Components, large: Components) {
    |small| == |large| &&
    forall i :: 0 <= i < |small| ==> small[i].0 == large[i].0 && small[i].1 <= large[i].1
  }

  /** Raising component quantities never lowers the component weight. */
  lemma {:induction false} ComponentWeightMonotone(small: Components, large: Components)
    requires QuantitiesAtLeast(small, large)
    requires AllKnown(small)
    ensures AllKnown(large)
    ensures ComponentWeight(small).value <= ComponentWeight(large).value
  {
    if small != [] {
      assert QuantitiesAtLeast(small[1..], large[1..]);
      assert AllKnown(small[1..]);
      ComponentWeightMonotone(small[1..], large[1..]);
      var w := ComponentWeights[small[0].0];
      assert w >= 0;
      assert w * small[0].1 <= w * large[0].1;
    }
  }

  /** calculate_total_weight: twice the fuel mass, the oxidizer tanks, the
      engine, the command capsule and the components. */
  function TotalWeight(fuelType: string, fuelWeight: real, items: Components): (r: Result<real, Error>)
    ensures fuelType !in OxidizerRatios ==> r == Err(KeyError(fuelType))
    ensures fuelType in OxidizerRatios ==> r.Ok? == AllKnown(items)
    ensures fuelType in OxidizerRatios && r.Err? ==> r.error == ComponentWeight(items).error
  {
    if fuelType !in OxidizerRatios then Err(KeyError(fuelType))
    else
      var fuelAndOxidizerWeight := fuelWeight * 2.0;
      var oxidizerNeeded := fuelWeight * OxidizerRatios[fuelType];
      var oxidizerTankWeight := OxidizerTanks(oxidizerNeeded) * OxidizerStorageWeight;
      if fuelType !in EngineWeight then Err(KeyError(fuelType))
      else
        var engineWeight := EngineWeight[fuelType];
        match ComponentWeight(items)
        case Err(e) => Err(e)
        case Ok(componentWeight) =>
          Ok(fuelAndOxidizerWeight + oxidizerTankWeight as real + engineWeight as real
             + CommandCapsuleWeight as real + componentWeight as real)
  }

  /** The weight formula term by term, with the tank count characterised by
      OxidizerTanks. */
  lemma TotalWeightBreakdown(fuelType: string, fuelWeight: real, items: Components)
    requires TotalWeight(fuelType, fuelWeight, items).Ok?
    ensures fuelType in OxidizerRatios && fuelType in EngineWeight && AllKnown(items)
    ensures TotalWeight(fuelType, fuelWeight, items).value
            == 2.0 * fuelWeight
               + (OxidizerStorageWeight * OxidizerTanks(fuelWeight * OxidizerRatios[fuelType])) as real
               + EngineWeight[fuelType] as real + CommandCapsuleWeight as real
               + ComponentWeight(items).value as real
  {
  }

  /** Steam needs no oxidizer, and no fuel needs no oxidizer tank: the weight
      is then twice the fuel plus engine, capsule and components. */
  lemma NoOxidizerTanks(fuelType: string, fuelWeight: real, items: Components)
    requires fuelType in OxidizerRatios && AllKnown(items)
    requires fuelType == "steam" || fuelWeight == 0.0
    ensures TotalWeight(fuelType, fuelWeight, items).value
            == 2.0 * fuelWeight + EngineWeight[fuelType] as real + CommandCapsuleWeight as real
               + ComponentWeight(items).value as real
  {
    assert fuelWeight * OxidizerRatios[fuelType] == 0.0;
  }

  /** With non-negative fuel and quantities the rocket weighs at least its
      engine and capsule, so the distance division is always defined. */
  lemma TotalWeightLowerBound(fuelType: string, fuelWeight: real, items: Components)
    requires fuelType in OxidizerRatios && AllKnown(items)
    requires fuelWeight >= 0.0 && NonNegativeQuantities(items)
    ensures TotalWeight(fuelType, fuelWeight, items).value
            >= (EngineWeight[fuelType] + CommandCapsuleWeight) as real > 0.0
  {
  }

  /** Scaling a larger fuel mass by the same non-negative ratio never needs
      fewer oxidizer tanks. */
  lemma ScaledTanksMonotone(ratio: real, f1: real, f2: real)
    requires ratio >= 0.0 && f1 <= f2
    ensures OxidizerTanks(f1 * ratio) <= OxidizerTanks(f2 * ratio)
  {
    assert f1 * ratio <= f2 * ratio by {
      assert (f2 - f1) * ratio >= 0.0;
    }
    OxidizerTanksMonotone(f1 * ratio, f2 * ratio);
  }

  /** More fuel never makes the rocket lighter. */
  lemma TotalWeightMonotoneInFuel(fuelType: string, f1: real, f2: real, items: Components)
    requires fuelType in OxidizerRatios && AllKnown(items)
    requires 0.0 <= f1 <= f2
    ensures TotalWeight(fuelType, f1, items).value <= TotalWeight(fuelType, f2, items).value
  {
    ScaledTanksMonotone(OxidizerRatios[fuelType], f1, f2);
    TotalWeightBreakdown(fuelType, f1, items);
    TotalWeightBreakdown(fuelType, f2, items);
  }

  /** More of any component never makes the rocket lighter. */
  lemma TotalWeightMonotoneInComponents(fuelType: string, fuelWeight: real, small: Components, large: Components)
    requires fuelType in OxidizerRatios && AllKnown(small)
    requires QuantitiesAtLeast(small, large)
    ensures AllKnown(large)
    ensures TotalWeight(fuelType, fuelWeight, small).value <= TotalWeight(fuelType, fuelWeight, large).value
  {
    ComponentWeightMonotone(small, large);
  }

  // Viable distance

  /** calculate_viable_distance: the fuel fraction of the total weight,
      divided by the fuel efficiency and scaled by 10000. The oxidizer type
      is accepted and not used. */
  function ViableDistance(fuelType: string, oxidizerType: string, totalWeight: real, fuelWeight: real): (r: Result<real, Error>)
    ensures fuelType !in FuelEfficiency ==> r == Err(KeyError(fuelType))
    ensures fuelType in FuelEfficiency && totalWeight == 0.0 ==> r == Err(ZeroDivisionError)
    ensures r.Ok? <==> fuelType in FuelEfficiency && totalWeight != 0.0
    ensures r.Ok? ==> r.value == fuelWeight * 10000.0 / (totalWeight * FuelEfficiency[fuelType])
    ensures r.Ok? && fuelWeight == 0.0 ==> r.value == 0.0
    ensures r.Ok? && fuelWeight >= 0.0 && totalWeight > 0.0 ==> r.value >= 0.0
  {
    if fuelType !in FuelEfficiency then Err(KeyError(fuelType))
    else
      var efficiency := FuelEfficiency[fuelType];
      if totalWeight == 0.0 then Err(ZeroDivisionError)
      else
        var deltaV := (fuelWeight / totalWeight) / efficiency;
        Ok(deltaV * 10000.0)
  }

  /** The distance does not depend on the oxidizer type. */
  lemma ViableDistanceIgnoresOxidizer(fuelType: string, ox1: string, ox2: string, totalWeight: real, fuelWeight: real)
    ensures ViableDistance(fuelType, ox1, totalWeight, fuelWeight) == ViableDistance(fuelType, ox2, totalWeight, fuelWeight)
  {
  }

  /** One sample of the sweep: the weight at this fuel mass, then the
      distance for that weight. */
  function DistanceForFuel(fuelType: string, oxidizerType: string, items: Components, fuel: int): (r: Result<real, Error>)
    ensures fuelType !in FuelEfficiency ==> r == Err(KeyError(fuelType))
  {
    match TotalWeight(fuelType, fuel as real, items)
    case Err(e) => Err(e)
    case Ok(weight) => ViableDistance(fuelType, oxidizerType, weight, fuel as real)
  }

  /** A known fuel type, known components with non-negative quantities and a
      non-negative fuel mass always give a non-negative distance, and zero
      fuel gives zero distance. */
  lemma DistanceForFuelDefined(fuelType: string, oxidizerType: string, items: Components, fuel: int)
    requires fuelType in FuelEfficiency && AllKnown(items) && NonNegativeQuantities(items)
    requires fuel >= 0
    ensures DistanceForFuel(fuelType, oxidizerType, items, fuel).Ok?
    ensures DistanceForFuel(fuelType, oxidizerType, items, fuel).value >= 0.0
    ensures fuel == 0 ==> DistanceForFuel(fuelType, oxidizerType, items, fuel).value == 0.0
  {
    TotalWeightLowerBound(fuelType, fuel as real, items);
  }

  // The chart sweep

  /** The i-th fuel mass of the sweep. */
  function SweepFuel(i: int): int {
    100 * (i + 1)
  }

  /** The loop of generate_chart over already computed samples: the
      clamped values in order, or the exception of the first sample that
      raises. */
  function Collect(points: seq<Result<real, Error>>): (r: Result<seq<real>, Error>)
    ensures r.Ok? ==> |r.value| == |points|
    ensures r.Ok? ==> forall i :: 0 <= i < |r.value| ==> r.value[i] >= 0.0
    ensures r.Err? ==> exists i :: 0 <= i < |points| && points[i] == Err(r.error)
  {
    if points == [] then Ok([])
    else
      match Collect(points[..|points| - 1])
      case Err(e) => Err(e)
      case Ok(distances) =>
        match points[|points| - 1]
        case Err(e) => Err(e)
        case Ok(d) => Ok(distances + [Max0(d)])
  }

  /** Collect succeeds iff every sample does; entry i is the clamped sample
      i; a failure is that of the first failing sample. */
  lemma {:induction false} CollectSpec(points: seq<Result<real, Error>>)
    ensures Collect(points).Ok? <==> forall i :: 0 <= i < |points| ==> points[i].Ok?
    ensures Collect(points).Ok? ==>
              |Collect(points).value| == |points|
              && forall i :: 0 <= i < |points| ==> Collect(points).value[i] == Max0(points[i].value)
    ensures Collect(points).Err? ==> exists i :: (0 <= i < |points| && points[i] == Err(Collect(points).error)
              && forall j :: 0 <= j < i ==> points[j].Ok?)
  {
    if points != [] {
      var init := points[..|points| - 1];
      CollectSpec(init);
      assert forall i :: 0 <= i < |init| ==> init[i] == points[i];
    }
  }

  /** One more step of the loop: a failing sample ends the run with its
      exception, a successful one appends its clamped value. */
  lemma CollectStep(points: seq<Result<real, Error>>, i: nat, distances: seq<real>, point: Result<real, Error>)
    requires i < |points| && points[i] == point
    requires Collect(points[..i]) == Ok(distances)
    ensures Collect(points[..i + 1]) == (if point.Err? then Err(point.error) else Ok(distances + [Max0(point.value)]))
  {
    assert points[..i + 1][..i] == points[..i];
  }

  /** Once a prefix of the samples fails, the whole run fails the same way. */
  lemma {:induction false} CollectPrefixFails(points: seq<Result<real, Error>>, n: nat)
    requires n <= |points|
    requires Collect(points[..n]).Err?
    ensures Collect(points) == Collect(points[..n])
    decreases |points| - n
  {
    if n < |points| {
      var init := points[..|points| - 1];
      assert init[..n] == points[..n];
      CollectPrefixFails(init, n);
    } else {
      assert points[..n] == points;
    }
  }

  /** The samples of the sweep: the distance at each fuel mass in turn. */
  function Samples(fuelType: string, oxidizerType: string, items: Components, fuels: seq<int>): (points: seq<Result<real, Error>>)
    ensures |points| == |fuels|
    ensures fuelType !in OxidizerRatios ==> forall i :: 0 <= i < |points| ==> points[i] == Err(KeyError(fuelType))
  {
    seq(|fuels|, i requires 0 <= i < |fuels| => DistanceForFuel(fuelType, oxidizerType, items, fuels[i]))
  }

  /** What the sweep of generate_chart returns: the fuel range with the
      clamped distances, or the exception of the first failing sample. */
  function Sweep(fuelType: string, oxidizerType: string, items: Components): (r: Result<Chart, Error>)
    ensures r.Ok? ==> |r.value.fuelRange| == |r.value.distances| == 50
    ensures r.Ok? ==> forall i :: 0 <= i < 50 ==> r.value.distances[i] >= 0.0
    ensures fuelType !in OxidizerRatios ==> r == Err(KeyError(fuelType))
  {
    var fuels := Range(100, 5001, 100);
    match Collect(Samples(fuelType, oxidizerType, items, fuels))
    case Err(e) => Err(e)
    case Ok(distances) => Ok(Chart(fuels, distances))
  }

  /** The sweep has exactly 50 points, at fuel 100*(i+1) in increasing
      order, each the clamped distance at that fuel; it fails exactly when
      a sample raises, with the exception of the first one that does. */
  lemma SweepSpec(fuelType: string, oxidizerType: string, items: Components)
    ensures Sweep(fuelType, oxidizerType, items).Ok?
            <==> forall i :: 0 <= i < 50 ==> DistanceForFuel(fuelType, oxidizerType, items, SweepFuel(i)).Ok?
    ensures Sweep(fuelType, oxidizerType, items).Ok? ==>
              var chart := Sweep(fuelType, oxidizerType, items).value;
              |chart.fuelRange| == 50 && |chart.distances| == 50
              && (forall i :: 0 <= i < 50 ==> chart.fuelRange[i] == SweepFuel(i))
              && (forall i, j :: 0 <= i < j < 50 ==> chart.fuelRange[i] < chart.fuelRange[j])
              && (forall i :: 0 <= i < 50 ==>
                    chart.distances[i] == Max0(DistanceForFuel(fuelType, oxidizerType, items, SweepFuel(i)).value))
              && (forall i :: 0 <= i < 50 ==> chart.distances[i] >= 0.0)
    ensures Sweep(fuelType, oxidizerType, items).Err? ==> exists i :: (0 <= i < 50
              && DistanceForFuel(fuelType, oxidizerType, items, SweepFuel(i))
                 == Err(Sweep(fuelType, oxidizerType, items).error)
              && forall j :: 0 <= j < i ==> DistanceForFuel(fuelType, oxidizerType, items, SweepFuel(j)).Ok?)
  {
    var fuels := Range(100, 5001, 100);
    assert |fuels| == 50;
    assert forall i :: 0 <= i < 50 ==> fuels[i] == SweepFuel(i);
    var points := Samples(fuelType, oxidizerType, items, fuels);
    CollectSpec(points);
    assert forall i :: 0 <= i < 50 ==> points[i] == DistanceForFuel(fuelType, oxidizerType, items, SweepFuel(i));
  }

  /** With a known fuel type, known components, and non-negative
      quantities, the sweep never fails. */
  lemma SweepDefined(fuelType: string, oxidizerType: string, items: Components)
    requires fuelType in FuelEfficiency && AllKnown(items) && NonNegativeQuantities(items)
    ensures Sweep(fuelType, oxidizerType, items).Ok?
  {
    var fuels := Range(100, 5001, 100);
    var points := Samples(fuelType, oxidizerType, items, fuels);
    forall k | 0 <= k < |points|
      ensures points[k].Ok?
    {
      DistanceForFuelDefined(fuelType, oxidizerType, items, fuels[k]);
    }
    CollectSpec(points);
  }

  /** generate_chart's loop: for each fuel of range(100, 5001, 100), the
      weight and distance at that fuel, and max(0, distance) appended to
      the list. */
  method GenerateChartData(fuelType: string, oxidizerType: string, items: Components) returns (r: Result<Chart, Error>)
    ensures r == Sweep(fuelType, oxidizerType, items)
  {
    var fuelRange := Range(100, 5001, 100);
    ghost var points := Samples(fuelType, oxidizerType, items, fuelRange);
    var distances: seq<real> := [];
    var i := 0;
    while i < |fuelRange|
      invariant 0 <= i <= |fuelRange|
      invariant Collect(points[..i]) == Ok(distances)
    {
      var point := DistanceForFuel(fuelType, oxidizerType, items, fuelRange[i]);
      CollectStep(points, i, distances, point);
      if point.Err? {
        CollectPrefixFails(points, i + 1);
        return Err(point.error);
      }
      distances := distances + [Max0(point.value)];
      i := i + 1;
    }
    assert points[..i] == points;
    r := Ok(Chart(fuelRange, distances));
  }
}
