# Loan default risk scoring, modelled in Dafny

The loan risk predictor feeds a customer's loan attributes to a pre-trained
binary classifier. It turns the classifier's probability of default into a
risk score and a risk category in `predict_risk` (utils.py:35-44):

- the score is the probability times 100, rounded to two decimals;
- the category is "High" from 70 up, "Medium" from 40 up to below 70, and
  "Low" below 40. Both lower bounds are inclusive.

This project models that rule and proves its properties:

- the category bands are exact, including what happens at 40 and 70;
- the mapping is total and monotone;
- the score lies in the range 0 to 100 and is within 0.005 of the exact
  percentage;
- the category depends only on the score.

Modules:

- `Rounding` (rounding.dfy) models `round(x, 2)` on a NumPy scalar, over exact
  reals. It rounds to the nearest hundredth and breaks ties towards the even
  neighbour.
  Its lemmas show this is the only such rounding, and that it is monotone and
  idempotent.
- `RiskScoring` (risk_scoring.dfy) holds the categories, the thresholds, the
  score, and `PredictRisk` itself. The classifier is a parameter
  `model: Row -> Probability`. Here `Probability` is a real in [0, 1] and
  `Row` is any type of input row. Being a plain function, `PredictRisk` can
  read the classifier but cannot change it or have any other effect.

The score is a `real` holding an exact decimal, so the thresholds are the
source's own 70 and 40. `RiskScoreHundredths` gives the same score as a
count of hundredths of a percent. On that scale the thresholds are 7000 and
4000.

## Model

| member | source | states |
|---|---|---|
| `Rounding.RoundHalfEven` | utils.py:37 | the result is a nearest integer to `x`; on an exact tie it is the even one; it is `floor(x)` or `floor(x) + 1` |
| `Rounding.NearestHalfEvenUnique` | utils.py:37 | at most one integer is nearest-with-ties-to-even, so that property fully specifies the rounding |
| `Rounding.RoundHalfEvenOfInteger` | utils.py:37 | rounding an integer returns the integer unchanged |
| `Rounding.RoundHalfEvenMonotone` | utils.py:37 | `x <= y` implies `round(x) <= round(y)` |
| `Rounding.RoundToHundredthsCount` | utils.py:37 | `round(x, 2)` as a count of hundredths: the nearest integer to `100 x`, ties to even |
| `Rounding.RoundToHundredths` | utils.py:37 | `round(x, 2)` is a whole number of hundredths; it lies within 0.005 of `x`; its count of hundredths is the nearest one to `100 x`, ties to even |
| `Rounding.RoundToHundredthsMonotone` | utils.py:37 | `round(·, 2)` preserves order |
| `Rounding.RoundToHundredthsOfHundredths` | utils.py:37 | a number that already has two decimals is returned unchanged |
| `Rounding.RoundToHundredthsIdempotent` | utils.py:37 | rounding to two decimals twice gives the same result as once |
| `RiskScoring.Categorize` | utils.py:38-43 | the category's rank (Low 0, Medium 1, High 2) equals the number of thresholds (40, 70) the score reaches |
| `RiskScoring.CategoryBands` | utils.py:38-43 | High holds exactly when score >= 70; Medium exactly when 40 <= score < 70; Low exactly when score < 40. So every score gets exactly one category |
| `RiskScoring.CategorizeMonotone` | utils.py:38-43 | `s1 <= s2` implies category(s1) <= category(s2) in the order Low < Medium < High |
| `RiskScoring.CategorizeBoundaries` | utils.py:38-43 | 100 and 70.00 give High; 69.99 and 40.00 give Medium; 39.99 and 0 give Low |
| `RiskScoring.RiskScore` | utils.py:37 | for a probability in [0, 1], the score lies in [0, 100], has two decimals, and is within 0.005 of `p × 100` |
| `RiskScoring.RiskScoreHundredths` | utils.py:37 | the score in hundredths is the integer nearest to `p × 10000`, ties to even, and lies in [0, 10000] |
| `RiskScoring.RiskScoreMonotone` | utils.py:36-37 | a higher probability never gets a lower score |
| `RiskScoring.ProbabilityBands` | utils.py:36-43 | in terms of the probability p, over exact reals: High exactly when p >= 0.69995, Medium exactly when 0.39995 <= p < 0.69995, Low exactly when p < 0.39995. Rounding comes before the comparison, and a tie goes to the even hundredth |
| `RiskScoring.EveryCategoryReachable` | utils.py:38-43 | each of the three categories is the category of some probability, so no branch is dead |
| `RiskScoring.PredictRisk` | utils.py:35-44 | the returned score lies in [0, 100], has two decimals, and is within 0.005 of the classifier's probability × 100; the returned category is High, Medium or Low exactly when that score is in the matching band; the category is High exactly when the probability is >= 0.69995, and Low exactly when it is < 0.39995; the score's count of hundredths is the nearest integer to the probability × 10000, ties to even, which fixes the score on a tie |
| `RiskScoring.CategoryDependsOnlyOnScore` | utils.py:37-44 | two rows that get the same score get the same category |
| `RiskScoring.AssessmentDependsOnlyOnProbability` | utils.py:35-44 | two rows with the same classifier probability get the same (score, category) pair |
| `RiskScoring.PredictRiskMonotone` | utils.py:35-44 | if the classifier gives one row a probability no higher than another's, that row's category is no higher |
| `RiskScoring.RoundingDecidesCategory` | utils.py:37-41 | over exact reals, the category is picked after rounding: 0.69995 scores 70.0 (High), 0.69994 scores 69.99 (Medium), 0.39995 scores 40.0 (Medium), and 0.39985 scores 39.98 (Low; a tie that goes to the even neighbour) |
| `RiskScoring.RiskScoreTies` | utils.py:37 | ties a float can hold go to the even hundredth: 0.40625 scores 40.62, 0.03125 scores 3.12, and 0.09375 scores 9.38 |
| `RiskScoring.StubClassifierExample` | utils.py:35-44 | a classifier that answers 0.55 for every row gives the pair (55.0, Medium) |

## Left out

- The classifier: `joblib.load("xgb_model.pkl")` (utils.py:5) and `model.predict_proba(input_df)[0][1]` (utils.py:36) are a trained XGBoost artifact from outside this code. The model replaces them with an unknown function from a row to a probability in [0, 1]. This also drops the selection of the first row and the second class from the returned matrix.
- Classifier failures: an exception from `predict_proba` just propagates out of `predict_risk`. The source has no handling for it, so the model has no error path.
- Floating point: `predict_proba` returns a NumPy array, so `pred_prob` (utils.py:36) is a NumPy scalar (float32 for XGBoost). `round(pred_prob * 100, 2)` (utils.py:37) is therefore NumPy's rounding. It multiplies by 100 in float arithmetic, rounds half to even, and divides by 100. The model rounds the exact real `p × 100` to hundredths, ties to even. It leaves out the binary representation and the rounding error of both float products (`pred_prob * 100` and NumPy's scaling by 100), which can move a value across a tie. Because 40 and 70 are exact floats, comparing the float score with them gives the same answer as comparing the exact decimal.
- Database plumbing: `init_db`, `save_to_db` and `load_csvs_to_db` (utils.py:8-32, 46-61) drop, create and append SQLite tables and read CSV files. They are I/O with no decision logic.
- The Streamlit interface in app.py: widgets, session state, the customer lookup query and the display. This includes its `debt_to_income = loan_amount / annual_income` (app.py:45, 77), a float division in UI code. Nothing there guards against a zero annual income.
- Feature derivation: the credit utilisation, payment ratio, loan age and gender/marital-status encodings are only table columns (utils.py:24-28). No code here computes them, so they are not modelled. Rejecting unknown gender or marital-status values is not modelled for the same reason.
