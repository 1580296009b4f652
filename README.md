# CHA2DS2-VASc score in Dafny

This project models the scoring core of a small CHA2DS2-VASc calculator: the
function that turns a patient's age and six yes/no risk factors (female sex,
congestive heart failure, hypertension, prior stroke or TIA, vascular disease,
diabetes) into the integer stroke-risk score used for atrial fibrillation.

`chads_vasc.dfy` holds one module, `ChadsVasc`:

- `RiskFactors`: the seven inputs as one value. Age is an unbounded `int`,
  like a Python `int`.
- `ChadsVascScore`: the Python function `chads_vasc_score` (model.py) as an
  imperative method. It starts a local accumulator at zero and adds each
  contribution through the same chain of conditionals. It is proved equal to `Score`.
- `Score`: the closed-form sum. It is age points, plus one for each of the
  five one-point factors, plus two for a prior stroke or TIA.
- `TableScore`: an independent reference definition. It sums the points of
  every row of the criteria table that the patient meets.
- Lemmas: the two definitions agree; the range is 0..9 and every value in it
  is reached; the age bands; monotonicity in age; equal scores within a band;
  the exact weight of each factor; when the extremes 0 and 9 occur; worked
  examples.

The function does not validate age. Any age below 65, negative ones included,
gives no age points, and there is no upper bound. The model does the same.
Callers that want to reject negative ages must do so before calling. The only
bound in the repository is the 0..120 range of the form's number widget
(app.py:27), which is outside the scoring function.

## Model

| member | source | states |
|---|---|---|
| `ChadsVasc.ChadsVascScore` | model.py:14-46 | the step-by-step accumulation returns exactly the closed-form score of its seven inputs, and that score lies in 0..9 |
| `ChadsVasc.Score` | model.py:14-46 | for every integer age and all boolean combinations the score is a natural number of at most 9 |
| `ChadsVasc.AgePoints` | model.py:17-20 | the age band contributes at most 2 points |
| `ChadsVasc.ScoreMatchesTable` | model.py:14-46 | the closed-form sum equals the sum of points over the criteria-table rows the patient meets, for every input |
| `ChadsVasc.AgeBands` | model.py:17-20 | age points are 0 exactly when age < 65 (negative ages included), 1 exactly when 65 <= age < 75, 2 exactly when age >= 75 |
| `ChadsVasc.ScoreMonotoneInAge` | model.py:17-20 | with the six booleans fixed, raising the age never lowers the score |
| `ChadsVasc.SameBandSameScore` | model.py:17-20 | two ages in the same band give the same score when the booleans match |
| `ChadsVasc.StrokeTiaWeighsTwo` | model.py:35-36 | turning stroke/TIA on raises the score by exactly 2, whatever the other inputs |
| `ChadsVasc.OnePointFactors` | model.py:23-44 | turning on female, CHF, hypertension, vascular disease or diabetes raises the score by exactly 1 each, whatever the other inputs |
| `ChadsVasc.ScoreExtremes` | model.py:14-46 | the score is 0 if and only if age < 65 and no factor is present; it is 9 if and only if age >= 75 and every factor is present |
| `ChadsVasc.EveryScoreAttained` | model.py:14-46 | every value 0..9 is the score of some patient, so the bounds are tight |
| `ChadsVasc.Scenarios` | model.py:14-46 | worked examples: 65 with nothing gives 1; 80, female, CHF and stroke gives 6; 40 with nothing gives 0; 74 and female gives 2; a negative age with nothing gives 0 |

## Left out

- The Streamlit form, its layout, the CSV table and chart (app.py). These are presentation and file I/O.
- The LLM prompt chain and the CSV agent (app.py). They call a remote service and are not deterministic. The anticoagulation thresholds there are prose inside a prompt, not a rule the code runs.
- The FastAPI route (main.py). It forwards its query parameters to the scoring function and formats the result as text.
- Arguments that are not of the annotated types. Python would accept a float age or a truthy non-boolean flag; the model takes an `int` and `bool`s.
- Idempotence needs no lemma. A Dafny function or method without state gives the same result for the same inputs.
