/** The tyre rolling-resistance fuel-cost calculator: for a vehicle's fuel economy
    (UK miles per gallon), its annual mileage (miles) and a fuel price (pence), the
    extra annual fuel cost, and that extra as a percentage of the grade-A cost, of
    fitting tyres of each rolling-resistance grade A to E instead of grade A.
    Arithmetic is over exact reals. */
module FuelCosts {
  import opened Dicts

  /** Litres per 100 km at 1 UK mile per gallon. */
  const MpgToLPer100Km: real := 282.48
  const MilesToKm: real := 1.60934
  /** Fractional fuel-consumption increase per 10% increase in rolling resistance. */
  const FuelSavingsRate: real := 0.015

  /** Tyre grades and their rolling-resistance coefficients (kg/t), in order. */
  const TyreGrades: Dict := [("A", 6.5), ("B", 7.2), ("C", 8.4), ("D", 9.8), ("E", 11.0)]

  /** The grade labels both result dictionaries carry, in their order. */
  const GradeLabels: seq<string> := ["A", "B", "C", "D", "E"]

  /** The only error the calculation can raise: a float division by zero. */
  datatype Error = ZeroDivisionError

  datatype Result<T> = Success(value: T) | Failure(error: Error)

  /** The two dictionaries the calculation returns. */
  datatype Estimate = Estimate(costDifferences: Dict, percentageIncrease: Dict)

  lemma GradeTableShape()
    ensures UniqueKeys(TyreGrades) && Keys(TyreGrades) == GradeLabels
    ensures "A" in Keys(TyreGrades) && Get(TyreGrades, "A") == 6.5
    ensures forall i, j :: 0 <= i < j < |TyreGrades| ==> TyreGrades[i].1 < TyreGrades[j].1
  {
  }

  /** The grade-A coefficient, `tyre_grades["A"]`. */
  function BaselineRrc(): (r: real)
    ensures r == 6.5
  {
    GradeTableShape();
    Get(TyreGrades, "A")
  }

  /** Fuel consumption in L/100km for a fuel economy in UK MPG. */
  function ConsumptionLPer100Km(mpg: real): (r: real)
    requires mpg != 0.0
    ensures r * mpg == MpgToLPer100Km
    ensures mpg > 0.0 ==> r > 0.0
  {
    MpgToLPer100Km / mpg
  }

  /** The price in pounds for a price given in pence. */
  function PenceToPounds(price: real): (r: real)
    ensures 100.0 * r == price
  {
    price / 100.0
  }

  /** Annual fuel cost in pounds at a consumption in L/100km, a mileage in miles
      and a price in pounds per litre. */
  function AnnualFuelCost(consumption: real, mileage: real, pricePounds: real): (r: real)
    ensures r != 0.0 <==> consumption != 0.0 && mileage != 0.0 && pricePounds != 0.0
    ensures consumption > 0.0 && mileage > 0.0 && pricePounds > 0.0 ==> r > 0.0
  {
    (consumption / 100.0) * (mileage * MilesToKm) * pricePounds
  }

  /** The annual fuel cost with grade-A tyres. */
  function BaseFuelCost(mpg: real, mileage: real, price: real): (r: real)
    requires mpg != 0.0
    ensures r != 0.0 <==> mileage != 0.0 && price != 0.0
    ensures mpg > 0.0 && mileage > 0.0 && price > 0.0 ==> r > 0.0
  {
    AnnualFuelCost(ConsumptionLPer100Km(mpg), mileage, PenceToPounds(price))
  }

  /** Fractional increase in fuel consumption for tyres of coefficient `rrc`
      relative to grade A. */
  function FuelIncreasePercentage(rrc: real): (r: real)
    ensures r == 0.0 <==> rrc == BaselineRrc()
    ensures r > 0.0 <==> rrc > BaselineRrc()
  {
    var rrcIncreasePercentage := (rrc - BaselineRrc()) / BaselineRrc() * 100.0;
    FuelSavingsRate * (rrcIncreasePercentage / 10.0)
  }

  /** The extra annual cost of tyres of coefficient `rrc` over grade A: the grade-A
      cost scaled by the fuel-consumption increase. */
  function CostDifference(mpg: real, mileage: real, price: real, rrc: real): (r: real)
    requires mpg != 0.0
    ensures r == BaseFuelCost(mpg, mileage, price) * FuelIncreasePercentage(rrc)
  {
    var base := ConsumptionLPer100Km(mpg);
    var newConsumption := base * (1.0 + FuelIncreasePercentage(rrc));
    var newFuelCost := AnnualFuelCost(newConsumption, mileage, PenceToPounds(price));
    newFuelCost - BaseFuelCost(mpg, mileage, price)
  }

  /** The extra annual cost of tyres of coefficient `rrc` as a percentage of the
      grade-A cost: the consumption increase alone, whatever the inputs. */
  function PercentageIncrease(mpg: real, mileage: real, price: real, rrc: real): (r: real)
    requires mpg != 0.0 && BaseFuelCost(mpg, mileage, price) != 0.0
    ensures r == 100.0 * FuelIncreasePercentage(rrc)
  {
    CostDifference(mpg, mileage, price, rrc) / BaseFuelCost(mpg, mileage, price) * 100.0
  }

  /** The `cost_differences` dictionary the calculation returns. */
  function CostDifferences(mpg: real, mileage: real, price: real): (r: Dict)
    requires mpg != 0.0
    ensures UniqueKeys(r) && Keys(r) == GradeLabels
    ensures r[0].1 == 0.0
    ensures forall i :: 1 <= i < |r| ==>
      r[i].1 == BaseFuelCost(mpg, mileage, price) * FuelIncreasePercentage(TyreGrades[i].1)
  {
    var r := seq(|TyreGrades|, i requires 0 <= i < |TyreGrades| =>
      (TyreGrades[i].0,
       if TyreGrades[i].0 == "A" then 0.0 else CostDifference(mpg, mileage, price, TyreGrades[i].1)));
    assert Keys(r) == GradeLabels;
    r
  }

  /** The `percentage_increase` dictionary the calculation returns. */
  function PercentageIncreases(mpg: real, mileage: real, price: real): (r: Dict)
    requires mpg != 0.0 && BaseFuelCost(mpg, mileage, price) != 0.0
    ensures UniqueKeys(r) && Keys(r) == GradeLabels
    ensures r[0].1 == 0.0
    ensures forall i :: 1 <= i < |r| ==> r[i].1 == 100.0 * FuelIncreasePercentage(TyreGrades[i].1)
  {
    var r := seq(|TyreGrades|, i requires 0 <= i < |TyreGrades| =>
      (TyreGrades[i].0,
       if TyreGrades[i].0 == "A" then 0.0 else PercentageIncrease(mpg, mileage, price, TyreGrades[i].1)));
    assert Keys(r) == GradeLabels;
    r
  }

  /** `calculate_fuel_costs_by_grade`: fills the two dictionaries grade by grade,
      starting from the grade-A baseline, and fails exactly where a division by
      zero would be raised. */
  method CalculateFuelCostsByGrade(mpg: real, mileage: real, price: real) returns (r: Result<Estimate>)
    ensures r.Failure? <==> mpg == 0.0 || mileage == 0.0 || price == 0.0
    ensures r.Success? ==>
      mpg != 0.0 && BaseFuelCost(mpg, mileage, price) != 0.0 &&
      r.value == Estimate(CostDifferences(mpg, mileage, price), PercentageIncreases(mpg, mileage, price))
  {
    if mpg == 0.0 {
      return Failure(ZeroDivisionError);
    }
    var baseFuelCost := BaseFuelCost(mpg, mileage, price);
    var costDifferences: Dict := [("A", 0.0)];
    var percentageIncrease: Dict := [("A", 0.0)];
    GradeTableShape();
    for i := 0 to |TyreGrades|
      invariant costDifferences == CostDifferences(mpg, mileage, price)[..if i == 0 then 1 else i]
      invariant i > 1 ==> baseFuelCost != 0.0
      invariant i > 1 ==> percentageIncrease == PercentageIncreases(mpg, mileage, price)[..i]
      invariant i <= 1 ==> percentageIncrease == [("A", 0.0)]
    {
      var (grade, rrc) := TyreGrades[i];
      if grade == "A" {
        continue;
      }
      var costDifference := CostDifference(mpg, mileage, price, rrc);
      costDifferences := Put(costDifferences, grade, costDifference);
      if baseFuelCost == 0.0 {
        return Failure(ZeroDivisionError);
      }
      percentageIncrease := Put(percentageIncrease, grade, PercentageIncrease(mpg, mileage, price, rrc));
    }
    return Success(Estimate(costDifferences, percentageIncrease));
  }

  /** Every value of `d` multiplied by `k`, keys and order unchanged. */
  function Scaled(d: Dict, k: real): (r: Dict)
    ensures Keys(r) == Keys(d)
  {
    var r := seq(|d|, i requires 0 <= i < |d| => (d[i].0, k * d[i].1));
    assert Keys(r) == Keys(d);
    r
  }

  /** The grade-A cost difference is exactly zero. */
  lemma BaselineCostIsZero(mpg: real, mileage: real, price: real)
    requires mpg != 0.0
    ensures "A" in Keys(CostDifferences(mpg, mileage, price))
    ensures Get(CostDifferences(mpg, mileage, price), "A") == 0.0
  {
  }

  /** The grade-A percentage is exactly zero. */
  lemma BaselinePercentageIsZero(mpg: real, mileage: real, price: real)
    requires mpg != 0.0 && BaseFuelCost(mpg, mileage, price) != 0.0
    ensures "A" in Keys(PercentageIncreases(mpg, mileage, price))
    ensures Get(PercentageIncreases(mpg, mileage, price), "A") == 0.0
  {
  }

  /** A grade's fuel-consumption increase grows strictly with its coefficient and
      is zero at the grade-A coefficient. */
  lemma FuelIncreaseMonotone(rrc1: real, rrc2: real)
    ensures FuelIncreasePercentage(BaselineRrc()) == 0.0
    ensures rrc1 < rrc2 <==> FuelIncreasePercentage(rrc1) < FuelIncreasePercentage(rrc2)
  {
  }

  /** The percentages do not depend on fuel economy, mileage or price. */
  lemma PercentagesIndependentOfInputs(mpg1: real, mileage1: real, price1: real,
                                       mpg2: real, mileage2: real, price2: real)
    requires mpg1 != 0.0 && BaseFuelCost(mpg1, mileage1, price1) != 0.0
    requires mpg2 != 0.0 && BaseFuelCost(mpg2, mileage2, price2) != 0.0
    ensures PercentageIncreases(mpg1, mileage1, price1) == PercentageIncreases(mpg2, mileage2, price2)
  {
  }

  /** The exact percentages, grade by grade. */
  lemma PercentageValues(mpg: real, mileage: real, price: real)
    requires mpg != 0.0 && BaseFuelCost(mpg, mileage, price) != 0.0
    ensures PercentageIncreases(mpg, mileage, price) ==
      [("A", 0.0), ("B", 21.0 / 13.0), ("C", 57.0 / 13.0), ("D", 99.0 / 13.0), ("E", 135.0 / 13.0)]
  {
  }

  /** With positive inputs the cost differences rise strictly from grade A (zero)
      to grade E, so every grade other than A costs strictly more. */
  lemma CostDifferencesIncreasing(mpg: real, mileage: real, price: real)
    requires mpg > 0.0 && mileage > 0.0 && price > 0.0
    ensures forall i, j :: 0 <= i < j < |GradeLabels| ==>
      CostDifferences(mpg, mileage, price)[i].1 < CostDifferences(mpg, mileage, price)[j].1
  {
  }

  /** The percentages rise strictly from grade A to grade E. */
  lemma PercentagesIncreasing(mpg: real, mileage: real, price: real)
    requires mpg != 0.0 && BaseFuelCost(mpg, mileage, price) != 0.0
    ensures forall i, j :: 0 <= i < j < |GradeLabels| ==>
      PercentageIncreases(mpg, mileage, price)[i].1 < PercentageIncreases(mpg, mileage, price)[j].1
  {
  }

  /** Multiplying the price by `k` multiplies every cost difference by `k`. */
  lemma CostDifferencesLinearInPrice(mpg: real, mileage: real, price: real, k: real)
    requires mpg != 0.0
    ensures CostDifferences(mpg, mileage, k * price) == Scaled(CostDifferences(mpg, mileage, price), k)
  {
    var c := ConsumptionLPer100Km(mpg) / 100.0;
    var km := mileage * MilesToKm;
    calc {
      BaseFuelCost(mpg, mileage, k * price);
      c * km * ((k * price) / 100.0);
      k * (c * km * (price / 100.0));
      k * BaseFuelCost(mpg, mileage, price);
    }
    ScaledTables(CostDifferences(mpg, mileage, k * price), CostDifferences(mpg, mileage, price), k);
  }

  /** Multiplying the mileage by `k` multiplies every cost difference by `k`. */
  lemma CostDifferencesLinearInMileage(mpg: real, mileage: real, price: real, k: real)
    requires mpg != 0.0
    ensures CostDifferences(mpg, k * mileage, price) == Scaled(CostDifferences(mpg, mileage, price), k)
  {
    var c := ConsumptionLPer100Km(mpg) / 100.0;
    var p := price / 100.0;
    calc {
      BaseFuelCost(mpg, k * mileage, price);
      c * ((k * mileage) * MilesToKm) * p;
      k * (c * (mileage * MilesToKm) * p);
      k * BaseFuelCost(mpg, mileage, price);
    }
    ScaledTables(CostDifferences(mpg, k * mileage, price), CostDifferences(mpg, mileage, price), k);
  }

  /** Two cost tables over the grade table whose grade-A entries are zero and whose
      other entries are proportional with factor `k` are related by `Scaled`. */
  lemma ScaledTables(scaled: Dict, d: Dict, k: real)
    requires Keys(scaled) == Keys(d) == GradeLabels
    requires scaled[0].1 == 0.0 && d[0].1 == 0.0
    requires forall i :: 1 <= i < |d| ==> scaled[i].1 == k * d[i].1
    ensures scaled == Scaled(d, k)
  {
    var r := Scaled(d, k);
    assert |scaled| == |Keys(scaled)| == |Keys(d)| == |d| == |r|;
    forall i | 0 <= i < |d| ensures scaled[i] == r[i] {
      assert scaled[i].0 == Keys(scaled)[i] == Keys(d)[i] == d[i].0;
      assert r[i].0 == d[i].0 && r[i].1 == k * d[i].1;
    }
  }
}
