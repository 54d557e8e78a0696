# Tyre rolling-resistance fuel-cost calculator, modelled in Dafny

The system estimates, for a car's fuel economy (UK miles per gallon), its annual
mileage (miles) and a fuel price (pence per litre), how much more fuel would cost
per year with tyres of rolling-resistance grade B, C, D or E than with grade A.
It gives each grade's extra cost in pounds and as a percentage of the grade-A
cost. The whole calculation is one function, `calculate_fuel_costs_by_grade`
(`app.py:3-70`). The rest of `app.py` is a Streamlit form that calls it.

The model has two modules:

- `Dicts` (`dicts.dfy`) models the Python `dict` the function builds and reads.
  A dict is an insertion-ordered sequence of `(key, value)` pairs with unique keys.
  `Put` is `d[k] = v`: it replaces the value of a key that is present, where it
  stands, and appends a new key at the end. `Get` is `d[k]` for a key that is
  present.
- `FuelCosts` (`fuel_costs.dfy`) holds the constants 282.48, 1.60934 and 0.015
  and the grade table A=6.5 … E=11.0. It also holds the per-grade arithmetic as
  pure functions over exact `real`s. `CalculateFuelCostsByGrade` is the function
  itself. It starts both dicts at `{"A": 0.0}`, walks the grade table in a loop,
  skips grade A, and `Put`s each other grade's cost difference and percentage.
  Its contract ties its result to the reference tables `CostDifferences` and
  `PercentageIncreases`. The lemmas beside them prove the calculation's promises:
  - the keys are A..E in that order;
  - the grade-A entries are zero;
  - the percentages do not depend on the inputs;
  - the values rise strictly with grade;
  - the cost differences are linear in price and in mileage.

Python raises `ZeroDivisionError` in two places. At line 22 it raises when the
fuel economy is 0. At line 68 it raises when the grade-A cost is 0, which
happens exactly when the mileage or the price is 0. The model returns
`Failure(ZeroDivisionError)` in those cases and at those points. The code
validates nothing else: negative inputs are accepted, and the model accepts them
too. The positivity that the form's minimum values guarantee (`app.py:80-82`)
appears only as a precondition of the lemmas that need it.

Under the code's formula, grade E's percentage is exactly 135/13 ≈ 10.38%. The
lemma `PercentageValues` gives the exact percentages of all five grades:
0, 21/13, 57/13, 99/13 and 135/13.

The form labels its price input "£ per litre" (`app.py:82`). The function
divides that number by 100, treating it as pence (`app.py:25`). The model
follows the function as written.

## Model

| member | source | states |
|---|---|---|
| `Dicts.Put` | app.py:65-68 | dict assignment keeps keys unique; a new key is appended after the existing entries; a present key has its value replaced in place, with key order and every other entry unchanged |
| `Dicts.Get` | app.py:51 | in a dictionary with unique keys, looking a present key up yields the value stored under that key |
| `FuelCosts.GradeTableShape` | app.py:28-34 | the grade table has unique keys A..E in that order, `tyre_grades["A"]` is 6.5, and the coefficients are strictly ascending |
| `FuelCosts.BaselineRrc` | app.py:51 | the grade-A coefficient read from the table is 6.5 |
| `FuelCosts.ConsumptionLPer100Km` | app.py:22 | the consumption in L/100km times the fuel economy gives back 282.48, so it converts MPG to L/100km exactly; it is positive for a positive fuel economy |
| `FuelCosts.PenceToPounds` | app.py:25 | the price in pounds is the price in pence divided by 100: one hundred times the result gives back the input |
| `FuelCosts.AnnualFuelCost` | app.py:40-41 | an annual cost (used for the base cost at lines 40-41 and for each grade's new cost at lines 60-61) is non-zero exactly when consumption, mileage and price are all non-zero, and positive when all three are positive |
| `FuelCosts.FuelIncreasePercentage` | app.py:51-54 | a grade's fuel-consumption increase is zero exactly at the grade-A coefficient and positive exactly above it; its partner `FuelCosts.FuelIncreaseMonotone` proves it rises strictly with the coefficient |
| `FuelCosts.BaseFuelCost` | app.py:40-41 | the grade-A annual cost is non-zero exactly when mileage and price are non-zero, and positive when all three inputs are positive |
| `FuelCosts.CostDifference` | app.py:56-64 | a grade's new cost minus the base cost equals the base cost times that grade's fuel-consumption increase |
| `FuelCosts.PercentageIncrease` | app.py:67-68 | a grade's percentage is 100 times its fuel-consumption increase, so it does not depend on fuel economy, mileage or price |
| `FuelCosts.CostDifferences` | app.py:43-65 | the cost dict has keys A..E in order, exactly 0 for A, and base cost × fuel increase for every other grade |
| `FuelCosts.PercentageIncreases` | app.py:44-68 | the percentage dict has keys A..E in order, exactly 0 for A, and 100 × fuel increase for every other grade |
| `FuelCosts.CalculateFuelCostsByGrade` | app.py:3-70 | fails with a division by zero exactly when fuel economy, mileage or price is zero; otherwise the dicts the loop fills are the two reference tables |
| `FuelCosts.BaselineCostIsZero` | app.py:43-48 | `cost_differences["A"]` is exactly 0.0 whenever the fuel economy is non-zero |
| `FuelCosts.BaselinePercentageIsZero` | app.py:44-48 | `percentage_increase["A"]` is exactly 0.0 whenever no division by zero occurs |
| `FuelCosts.FuelIncreaseMonotone` | app.py:50-54 | the fuel-consumption increase is zero at the grade-A coefficient and grows strictly with the coefficient, in both directions |
| `FuelCosts.PercentagesIndependentOfInputs` | app.py:51-68 | any two valid input triples give the same percentage dict |
| `FuelCosts.PercentageValues` | app.py:28-68 | the percentage dict is exactly A 0, B 21/13, C 57/13, D 99/13, E 135/13 |
| `FuelCosts.CostDifferencesIncreasing` | app.py:28-64 | with positive inputs the cost differences rise strictly from A (0) to E, so every non-A difference is positive |
| `FuelCosts.PercentagesIncreasing` | app.py:28-68 | the percentages rise strictly from A (0) to E for every valid input |
| `FuelCosts.CostDifferencesLinearInPrice` | app.py:25-64 | multiplying the price by k multiplies every cost difference by k, keys and order unchanged |
| `FuelCosts.CostDifferencesLinearInMileage` | app.py:40-64 | multiplying the mileage by k multiplies every cost difference by k, keys and order unchanged |

## Left out

- The Streamlit form (`app.py:1`, `app.py:72-97`) is left out: the page set-up, the
  columns, the three number inputs with their minimums and defaults, the button,
  the two-decimal "£…(+…%)" rendering and the static text. None of it computes
  anything beyond calling the function.
- IEEE-754 double arithmetic is not modelled. The model computes over exact reals,
  so it does not capture rounding, overflow to infinity, or underflow to zero. For
  example, a tiny non-zero mileage whose cost underflows to 0.0 would raise in
  Python but does not fail in the model. No golden floating-point values are
  stated.
- Idempotence needs no statement: every member is a deterministic function of its
  inputs, and the method reads and writes no state.
