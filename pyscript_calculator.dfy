/** The rocket calculator loaded as a PyScript module: lookup tables with
    defaults, guard clauses that return 0.0, the steam special case of the
    entry point, and rounding to two decimals. Floating-point values are
    exact reals. */
module PyScriptCalculator {
  import opened Wrappers

  /** The one exception the entry point can raise: calling .lower() on a
      None oxidizer type. */
  datatype Error = AttributeError

  // Constant tables

  const FuelEfficiency: map<string, real> := map["petroleum" := 22.2, "hydrogen" := 66.6]

  const OxidizerEfficiency: map<string, real> := map["oxylite" := 1.0, "fertilizer" := 0.6]

  const RocketEngineMass: map<string, real> :=
    map["steam" := 200.0, "petroleum" := 200.0, "hydrogen" := 200.0]

  /** The engine mass used for an engine name missing from the table. */
  const DefaultEngineMass: real := 200.0

  const FuelTankMass: real := 100.0
  const OxidizerTankMass: real := 100.0

  /** Water mass to range factor of the steam engine. */
  const SteamRangeFactor: real := 240.0

  // Strings and rounding

  /** Lower-casing of one character (ASCII letters only). */
  function LowerChar(c: char): (d: char)
    ensures !('A' <= d <= 'Z')
    ensures 'A' <= c <= 'Z' ==> d as int == c as int + 32
    ensures !('A' <= c <= 'Z') ==> d == c
  {
    if 'A' <= c <= 'Z' then (c as int + 32) as char else c
  }

  /** str.lower(), character by character. */
  function Lower(s: string): (t: string)
    ensures |t| == |s|
    ensures forall i :: 0 <= i < |s| ==> t[i] == LowerChar(s[i])
  {
    if s == [] then [] else [LowerChar(s[0])] + Lower(s[1..])
  }

  /** Lower-casing twice is lower-casing once. */
  lemma LowerIdempotent(s: string)
    ensures Lower(Lower(s)) == Lower(s)
  {
    assert forall i :: 0 <= i < |s| ==> LowerChar(LowerChar(s[i])) == LowerChar(s[i]);
  }

  /** round(x, 2) on an exact value: the nearest multiple of 0.01, ties to
      the even multiple. */
  function Round2(x: real): (r: real)
    ensures -0.005 <= r - x <= 0.005
    ensures (r * 100.0).Floor as real == r * 100.0
    ensures x * 100.0 - (x * 100.0).Floor as real == 0.5 ==> (r * 100.0).Floor % 2 == 0
    ensures x >= 0.0 ==> r >= 0.0
  {
    var scaled := x * 100.0;
    var below := scaled.Floor;
    var fraction := scaled - below as real;
    var n := if fraction < 0.5 then below
             else if fraction > 0.5 then below + 1
             else if below % 2 == 0 then below
             else below + 1;
    n as real / 100.0
  }

  /** Rounding keeps the order of its arguments. */
  lemma Round2Monotone(x: real, y: real)
    requires x <= y
    ensures Round2(x) <= Round2(y)
  {
    var fx, fy := (x * 100.0).Floor, (y * 100.0).Floor;
    assert x * 100.0 <= y * 100.0;
    assert fx <= fy;
  }

  // Total weight

  /** The engine mass: the table entry for the lower-cased name, or the
      default for a name that is not there. */
  function EngineMass(engineType: string): (m: real)
    ensures m == 200.0
  {
    var key := Lower(engineType);
    if key in RocketEngineMass then RocketEngineMass[key] else DefaultEngineMass
  }

  /** calculate_total_weight: engine, fuel tank, fuel and extra components,
      plus the oxidizer tank when there is one. */
  function TotalWeight(engineType: string, fuelMass: real, extraComponentsMass: real, hasOxidizerTank: bool): (r: real)
    ensures r == 300.0 + fuelMass + extraComponentsMass + (if hasOxidizerTank then 100.0 else 0.0)
  {
    var totalMass := EngineMass(engineType) + FuelTankMass + fuelMass + extraComponentsMass;
    if hasOxidizerTank then totalMass + OxidizerTankMass else totalMass
  }

  // Viable distance

  /** Both lower-cased names are keys of the efficiency tables. */
  predicate KnownKeys(fuelKey: string, oxidizerKey: string) {
    fuelKey in FuelEfficiency && oxidizerKey in OxidizerEfficiency
  }

  /** The distance formula before rounding. */
  function UnroundedDistance(fuelKey: string, oxidizerKey: string, totalRocketMass: real): (d: real)
    requires KnownKeys(fuelKey, oxidizerKey) && totalRocketMass > 0.0
    ensures d > 0.0
  {
    FuelEfficiency[fuelKey] * OxidizerEfficiency[oxidizerKey] * 100.0 / totalRocketMass
  }

  /** A heavier rocket goes strictly less far, before rounding. */
  lemma UnroundedDistanceDecreasing(fuelKey: string, oxidizerKey: string, m1: real, m2: real)
    requires KnownKeys(fuelKey, oxidizerKey)
    requires 0.0 < m1 < m2
    ensures UnroundedDistance(fuelKey, oxidizerKey, m1) > UnroundedDistance(fuelKey, oxidizerKey, m2)
  {
    var k := FuelEfficiency[fuelKey] * OxidizerEfficiency[oxidizerKey] * 100.0;
    assert k > 0.0;
    assert k / m1 > k / m2 by {
      assert k / m1 * m1 == k;
      assert k / m2 * m2 == k;
      assert k / m2 * m1 < k / m2 * m2;
    }
  }

  /** The guards of calculate_viable_distance once both names are
      lower-cased: steam, an unknown fuel or an unknown oxidizer give 0.0,
      and known keys give the rounded formula. */
  function DistanceForKeys(fuelKey: string, oxidizerKey: string, totalRocketMass: real): (d: real)
    requires totalRocketMass > 0.0
    ensures fuelKey == "steam" || !KnownKeys(fuelKey, oxidizerKey) ==> d == 0.0
    ensures KnownKeys(fuelKey, oxidizerKey) ==> d == Round2(UnroundedDistance(fuelKey, oxidizerKey, totalRocketMass))
    ensures d >= 0.0
  {
    if fuelKey == "steam" then 0.0
    else if fuelKey !in FuelEfficiency then 0.0
    else if oxidizerKey !in OxidizerEfficiency then 0.0
    else Round2(UnroundedDistance(fuelKey, oxidizerKey, totalRocketMass))
  }

  /** calculate_viable_distance: no mass gives 0.0; the names are
      lower-cased, which raises for a None oxidizer; then the guards and the
      formula of DistanceForKeys. */
  function ViableDistance(fuelType: string, oxidizerType: Option<string>, totalRocketMass: real): (r: Result<real, Error>)
    ensures totalRocketMass <= 0.0 ==> r == Ok(0.0)
    ensures r.Err? <==> totalRocketMass > 0.0 && oxidizerType.None?
    ensures totalRocketMass > 0.0 && oxidizerType.Some? && Lower(fuelType) == "steam" ==> r == Ok(0.0)
    ensures totalRocketMass > 0.0 && oxidizerType.Some? && !KnownKeys(Lower(fuelType), Lower(oxidizerType.value)) ==>
              r == Ok(0.0)
    ensures totalRocketMass > 0.0 && oxidizerType.Some? && KnownKeys(Lower(fuelType), Lower(oxidizerType.value)) ==>
              r == Ok(Round2(UnroundedDistance(Lower(fuelType), Lower(oxidizerType.value), totalRocketMass)))
    ensures r.Ok? ==> r.value >= 0.0
  {
    if totalRocketMass <= 0.0 then Ok(0.0)
    else
      var fuelTypeLower := Lower(fuelType);
      match oxidizerType
      case None => Err(AttributeError)
      case Some(oxidizer) => Ok(DistanceForKeys(fuelTypeLower, Lower(oxidizer), totalRocketMass))
  }

  // Entry point

  /** The oxidizer name the entry point works with: lower-cased, with None
      and the empty string read as "none". */
  function NormalizedOxidizer(oxidizerType: Option<string>): (o: string)
    ensures oxidizerType.None? || oxidizerType.value == "" ==> o == "none"
    ensures oxidizerType.Some? && oxidizerType.value != "" ==> o == Lower(oxidizerType.value)
  {
    if oxidizerType.Some? && oxidizerType.value != "" then Lower(oxidizerType.value) else "none"
  }

  /** Whether the rocket carries an oxidizer tank: not for steam, and not
      without an oxidizer. */
  function HasOxidizerTank(fuelType: string, oxidizerType: Option<string>): (b: bool)
    ensures b <==> Lower(fuelType) != "steam" && oxidizerType.Some? && oxidizerType.value != ""
                   && Lower(oxidizerType.value) != "none"
  {
    !(Lower(fuelType) == "steam" || NormalizedOxidizer(oxidizerType) == "none")
  }

  /** The total mass the entry point computes. */
  function RocketMass(engineType: string, fuelType: string, oxidizerType: Option<string>,
                      fuelMass: real, extraComponentsMass: real): (m: real)
    ensures m == 300.0 + fuelMass + extraComponentsMass
                 + (if HasOxidizerTank(fuelType, oxidizerType) then 100.0 else 0.0)
  {
    TotalWeight(Lower(engineType), fuelMass, extraComponentsMass, HasOxidizerTank(fuelType, oxidizerType))
  }

  /** calculate_rocket_distance_for_pyscript: the rounded range, by the
      steam formula for steam and by calculate_viable_distance otherwise. */
  function CalculateRocketDistance(engineType: string, fuelType: string, oxidizerType: Option<string>,
                                   fuelMass: real, extraComponentsMass: real): (r: Result<real, Error>)
    ensures RocketMass(engineType, fuelType, oxidizerType, fuelMass, extraComponentsMass) <= 0.0 ==> r == Ok(0.0)
    ensures r.Err? <==> Lower(fuelType) != "steam" && oxidizerType.None?
                        && 300.0 + fuelMass + extraComponentsMass > 0.0
    ensures Lower(fuelType) == "steam" ==>
              var m := 300.0 + fuelMass + extraComponentsMass;
              r == Ok(if m <= 0.0 then 0.0 else Round2(SteamRangeFactor * fuelMass / m))
    ensures var m := RocketMass(engineType, fuelType, oxidizerType, fuelMass, extraComponentsMass);
            m > 0.0 && oxidizerType.Some? && KnownKeys(Lower(fuelType), Lower(oxidizerType.value)) ==>
              m == 400.0 + fuelMass + extraComponentsMass
              && r == Ok(Round2(UnroundedDistance(Lower(fuelType), Lower(oxidizerType.value), m)))
    ensures var m := RocketMass(engineType, fuelType, oxidizerType, fuelMass, extraComponentsMass);
            m > 0.0 && Lower(fuelType) != "steam" && oxidizerType.Some?
            && !KnownKeys(Lower(fuelType), Lower(oxidizerType.value)) ==>
              r == Ok(0.0)
    ensures fuelMass >= 0.0 && extraComponentsMass >= 0.0 && r.Ok? ==> r.value >= 0.0
  {
    var fuelTypeLower := Lower(fuelType);
    var totalRocketMass := RocketMass(engineType, fuelType, oxidizerType, fuelMass, extraComponentsMass);
    if totalRocketMass <= 0.0 then Ok(0.0)
    else if fuelTypeLower == "steam" then
      var distance := SteamRangeFactor * fuelMass / totalRocketMass;
      Ok(Round2(distance))
    else ViableDistance(fuelType, oxidizerType, totalRocketMass)
  }

  // Properties of the entry point

  /** The helper reads the fuel and oxidizer names only through their
      lower-cased forms. */
  lemma ViableDistanceCaseInsensitive(f1: string, f2: string, o1: Option<string>, o2: Option<string>, m: real)
    requires Lower(f1) == Lower(f2)
    requires (o1.None? && o2.None?) || (o1.Some? && o2.Some? && Lower(o1.value) == Lower(o2.value))
    ensures ViableDistance(f1, o1, m) == ViableDistance(f2, o2, m)
  {
  }

  /** Names that differ only in ASCII case give the same result; the engine
      name does not matter at all. */
  lemma CaseInsensitive(e1: string, e2: string, f1: string, f2: string, o1: Option<string>, o2: Option<string>,
                        fuelMass: real, extraComponentsMass: real)
    requires Lower(f1) == Lower(f2)
    requires (o1.None? && o2.None?) || (o1.Some? && o2.Some? && Lower(o1.value) == Lower(o2.value))
    ensures CalculateRocketDistance(e1, f1, o1, fuelMass, extraComponentsMass)
            == CalculateRocketDistance(e2, f2, o2, fuelMass, extraComponentsMass)
  {
    if o1.Some? {
      assert o1.value == "" <==> o2.value == "" by {
        assert |Lower(o1.value)| == |o1.value| && |Lower(o2.value)| == |o2.value|;
      }
    }
    assert HasOxidizerTank(f1, o1) == HasOxidizerTank(f2, o2);
    var m := RocketMass(e1, f1, o1, fuelMass, extraComponentsMass);
    assert m == RocketMass(e2, f2, o2, fuelMass, extraComponentsMass);
    ViableDistanceCaseInsensitive(f1, f2, o1, o2, m);
  }

  /** For steam the oxidizer is ignored. */
  lemma SteamIgnoresOxidizer(engineType: string, fuelType: string, o1: Option<string>, o2: Option<string>,
                             fuelMass: real, extraComponentsMass: real)
    requires Lower(fuelType) == "steam"
    ensures CalculateRocketDistance(engineType, fuelType, o1, fuelMass, extraComponentsMass)
            == CalculateRocketDistance(engineType, fuelType, o2, fuelMass, extraComponentsMass)
  {
  }

  /** Away from steam, fuel and extra mass matter only through the total
      mass. */
  lemma MassOnlyThroughTotal(engineType: string, fuelType: string, oxidizerType: Option<string>,
                             fuel1: real, extra1: real, fuel2: real, extra2: real)
    requires Lower(fuelType) != "steam"
    requires fuel1 + extra1 == fuel2 + extra2
    ensures CalculateRocketDistance(engineType, fuelType, oxidizerType, fuel1, extra1)
            == CalculateRocketDistance(engineType, fuelType, oxidizerType, fuel2, extra2)
  {
    var m := RocketMass(engineType, fuelType, oxidizerType, fuel1, extra1);
    assert m == RocketMass(engineType, fuelType, oxidizerType, fuel2, extra2);
    if m > 0.0 {
      assert CalculateRocketDistance(engineType, fuelType, oxidizerType, fuel1, extra1)
             == ViableDistance(fuelType, oxidizerType, m);
      assert CalculateRocketDistance(engineType, fuelType, oxidizerType, fuel2, extra2)
             == ViableDistance(fuelType, oxidizerType, m);
    }
  }

  /** With known fuel and oxidizer, a heavier rocket never goes further
      after rounding. */
  lemma DistanceNonIncreasingInMass(engineType: string, fuelType: string, oxidizer: string,
                                    fuel1: real, extra1: real, fuel2: real, extra2: real)
    requires KnownKeys(Lower(fuelType), Lower(oxidizer))
    requires 0.0 < 400.0 + fuel1 + extra1 <= 400.0 + fuel2 + extra2
    ensures CalculateRocketDistance(engineType, fuelType, Some(oxidizer), fuel1, extra1).value
            >= CalculateRocketDistance(engineType, fuelType, Some(oxidizer), fuel2, extra2).value
  {
    var fuelKey, oxidizerKey := Lower(fuelType), Lower(oxidizer);
    var m1, m2 := 400.0 + fuel1 + extra1, 400.0 + fuel2 + extra2;
    assert |oxidizer| == |oxidizerKey| && oxidizerKey != "none";
    assert HasOxidizerTank(fuelType, Some(oxidizer));
    if m1 < m2 {
      UnroundedDistanceDecreasing(fuelKey, oxidizerKey, m1, m2);
    }
    Round2Monotone(UnroundedDistance(fuelKey, oxidizerKey, m2), UnroundedDistance(fuelKey, oxidizerKey, m1));
  }
}
