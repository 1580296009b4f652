/**
 The CHA2DS2-VASc stroke-risk score for atrial fibrillation.

 The score is an additive index over the patient's age band and six yes/no
 risk factors. `ChadsVascScore` is the imperative computation, adding each
 contribution into a local accumulator in turn; `Score` is the closed-form
 sum that specifies it; `TableScore` is an independent reference definition
 that reads the score off the published criteria table. The lemmas state the
 score's range, its age bands, the exact weight of each factor and its
 monotonicity in age.
 */
module ChadsVasc {

  /** The seven attributes the score is computed from. Age is any integer:
      the computation neither rejects nor clamps negative or very large ages. */
  datatype RiskFactors = RiskFactors(
    age: int,
    female: bool,
    chf: bool,
    hypertension: bool,
    strokeTia: bool,
    vascularDisease: bool,
    diabetes: bool)

  /** 1 when the factor is present, 0 when it is not. */
  function Indicator(b: bool): (n: nat)
    ensures n <= 1
    ensures n == 1 <==> b
  {
    if b then 1 else 0
  }

  /** Points contributed by the age band: below 65, 65 to 74, 75 and over. */
  function AgePoints(age: int): (p: nat)
    ensures p <= 2
  {
    if 65 <= age < 75 then 1
    else if age >= 75 then 2
    else 0
  }

  /** The closed-form score: age points plus each factor times its weight. */
  function Score(f: RiskFactors): (s: nat)
    ensures s <= 9
  {
    AgePoints(f.age)
    + Indicator(f.female)
    + Indicator(f.chf)
    + Indicator(f.hypertension)
    + 2 * Indicator(f.strokeTia)
    + Indicator(f.vascularDisease)
    + Indicator(f.diabetes)
  }

  /** The score computed as the Python function `chads_vasc_score` (model.py)
      does it: start from zero and add each contribution to the accumulator,
      one conditional at a time. */
  method ChadsVascScore(age: int, female: bool, chf: bool, hypertension: bool,
                        strokeTia: bool, vascularDisease: bool, diabetes: bool)
    returns (score: int)
    ensures score == Score(RiskFactors(age, female, chf, hypertension,
                                       strokeTia, vascularDisease, diabetes))
    ensures 0 <= score <= 9
  {
    score := 0;

    if age >= 65 && age < 75 {
      score := score + 1;
    } else if age >= 75 {
      score := score + 2;
    }

    if female {
      score := score + 1;
    }

    if chf {
      score := score + 1;
    }

    if hypertension {
      score := score + 1;
    }

    if strokeTia {
      score := score + 2;
    }

    if vascularDisease {
      score := score + 1;
    }

    if diabetes {
      score := score + 1;
    }
  }

  // ---------------------------------------------------------------------------
  // Reference definition: the criteria table

  /** The criteria of the published CHA2DS2-VASc table, one per row. */
  datatype Criterion =
    | Age65To74
    | Age75OrOver
    | Female
    | CongestiveHeartFailure
    | Hypertension
    | StrokeOrTia
    | VascularDisease
    | Diabetes

  /** Every row of the table, in the order the letters of the name give. */
  const AllCriteria: seq<Criterion> :=
    [CongestiveHeartFailure, Hypertension, Age75OrOver, Diabetes,
     StrokeOrTia, VascularDisease, Age65To74, Female]

  /** The points the table assigns to each criterion. */
  function Points(c: Criterion): nat
  {
    match c
    case Age75OrOver => 2
    case StrokeOrTia => 2
    case _ => 1
  }

  /** Whether the patient meets a criterion. */
  predicate Meets(f: RiskFactors, c: Criterion)
  {
    match c
    case Age65To74 => 65 <= f.age < 75
    case Age75OrOver => 75 <= f.age
    case Female => f.female
    case CongestiveHeartFailure => f.chf
    case Hypertension => f.hypertension
    case StrokeOrTia => f.strokeTia
    case VascularDisease => f.vascularDisease
    case Diabetes => f.diabetes
  }

  /** The points of the criteria in `cs` that the patient meets. */
  function PointsMet(f: RiskFactors, cs: seq<Criterion>): nat
  {
    if cs == [] then 0
    else PointsIfMet(f, cs[0]) + PointsMet(f, cs[1..])
  }

  /** The score read off the table: the points of every criterion met. */
  function TableScore(f: RiskFactors): nat
  {
    PointsMet(f, AllCriteria)
  }

  /** The points of a criterion the patient meets, 0 for one they do not. */
  function PointsIfMet(f: RiskFactors, c: Criterion): nat
  {
    if Meets(f, c) then Points(c) else 0
  }

  /** Prefixing one criterion adds exactly its points when it is met. */
  lemma PointsMetCons(f: RiskFactors, c: Criterion, rest: seq<Criterion>)
    ensures PointsMet(f, [c] + rest) == PointsIfMet(f, c) + PointsMet(f, rest)
  {
  }

  /** The table score is the sum of the eight rows' contributions. */
  lemma TableScoreByRow(f: RiskFactors)
    ensures TableScore(f)
         == PointsIfMet(f, CongestiveHeartFailure) + PointsIfMet(f, Hypertension)
          + PointsIfMet(f, Age75OrOver) + PointsIfMet(f, Diabetes)
          + PointsIfMet(f, StrokeOrTia) + PointsIfMet(f, VascularDisease)
          + PointsIfMet(f, Age65To74) + PointsIfMet(f, Female)
  {
    var t7 := [Female];
    var t6 := [Age65To74] + t7;
    var t5 := [VascularDisease] + t6;
    var t4 := [StrokeOrTia] + t5;
    var t3 := [Diabetes] + t4;
    var t2 := [Age75OrOver] + t3;
    var t1 := [Hypertension] + t2;
    var t0 := [CongestiveHeartFailure] + t1;
    assert AllCriteria == t0;
    PointsMetCons(f, Female, []);
    PointsMetCons(f, Age65To74, t7);
    PointsMetCons(f, VascularDisease, t6);
    PointsMetCons(f, StrokeOrTia, t5);
    PointsMetCons(f, Diabetes, t4);
    PointsMetCons(f, Age75OrOver, t3);
    PointsMetCons(f, Hypertension, t2);
    PointsMetCons(f, CongestiveHeartFailure, t1);
  }

  /** The closed-form sum agrees with the criteria table on every input. */
  lemma ScoreMatchesTable(f: RiskFactors)
    ensures Score(f) == TableScore(f)
  {
    TableScoreByRow(f);
  }

  // ---------------------------------------------------------------------------
  // Properties of the score

  /** The age bands, stated as if-and-only-ifs; negative ages fall in the
      lowest band like any other age below 65. */
  lemma AgeBands(age: int)
    ensures AgePoints(age) == 0 <==> age < 65
    ensures AgePoints(age) == 1 <==> 65 <= age < 75
    ensures AgePoints(age) == 2 <==> age >= 75
  {
  }

  /** With the six booleans fixed, an older patient never scores lower. */
  lemma ScoreMonotoneInAge(f: RiskFactors, olderAge: int)
    requires f.age <= olderAge
    ensures Score(f) <= Score(f.(age := olderAge))
  {
  }

  /** Two ages in the same band give the same score when the booleans agree. */
  lemma SameBandSameScore(f: RiskFactors, otherAge: int)
    requires (f.age < 65 && otherAge < 65)
          || (65 <= f.age < 75 && 65 <= otherAge < 75)
          || (f.age >= 75 && otherAge >= 75)
    ensures Score(f) == Score(f.(age := otherAge))
  {
  }

  /** A prior stroke or TIA adds exactly 2, whatever the other inputs. */
  lemma StrokeTiaWeighsTwo(f: RiskFactors)
    ensures Score(f.(strokeTia := true)) == Score(f.(strokeTia := false)) + 2
  {
  }

  /** Each of the other five factors adds exactly 1, whatever the other inputs. */
  lemma OnePointFactors(f: RiskFactors)
    ensures Score(f.(female := true)) == Score(f.(female := false)) + 1
    ensures Score(f.(chf := true)) == Score(f.(chf := false)) + 1
    ensures Score(f.(hypertension := true)) == Score(f.(hypertension := false)) + 1
    ensures Score(f.(vascularDisease := true)) == Score(f.(vascularDisease := false)) + 1
    ensures Score(f.(diabetes := true)) == Score(f.(diabetes := false)) + 1
  {
  }

  /** Does the patient have none of the six yes/no factors? */
  predicate NoFactors(f: RiskFactors)
  {
    !f.female && !f.chf && !f.hypertension && !f.strokeTia
    && !f.vascularDisease && !f.diabetes
  }

  /** Does the patient have all six yes/no factors? */
  predicate AllFactors(f: RiskFactors)
  {
    f.female && f.chf && f.hypertension && f.strokeTia
    && f.vascularDisease && f.diabetes
  }

  /** The score is 0 exactly for a patient under 65 with no factor, and 9
      exactly for a patient 75 or over with every factor. */
  lemma ScoreExtremes(f: RiskFactors)
    ensures Score(f) == 0 <==> f.age < 65 && NoFactors(f)
    ensures Score(f) == 9 <==> f.age >= 75 && AllFactors(f)
  {
  }

  /** Every value of the range 0..9 is the score of some patient, so the
      bounds of `Score` are tight. */
  lemma EveryScoreAttained(n: int)
    requires 0 <= n <= 9
    ensures exists f :: Score(f) == n
  {
    var none := RiskFactors(40, false, false, false, false, false, false);
    var f :=
      if n == 0 then none
      else if n == 1 then none.(age := 65)
      else if n == 2 then none.(age := 75)
      else if n == 3 then none.(age := 75, female := true)
      else if n == 4 then none.(age := 75, female := true, chf := true)
      else if n == 5 then none.(age := 75, strokeTia := true, female := true)
      else if n == 6 then none.(age := 75, strokeTia := true, female := true, chf := true)
      else if n == 7 then none.(age := 75, strokeTia := true, female := true, chf := true,
                                hypertension := true)
      else if n == 8 then none.(age := 75, strokeTia := true, female := true, chf := true,
                                hypertension := true, diabetes := true)
      else RiskFactors(75, true, true, true, true, true, true);
    assert Score(f) == n;
  }

  /** Worked examples: age band only, a mixed case, nothing, and the top of
      the middle band with one factor. */
  lemma Scenarios()
    ensures Score(RiskFactors(65, false, false, false, false, false, false)) == 1
    ensures Score(RiskFactors(80, true, true, false, true, false, false)) == 6
    ensures Score(RiskFactors(40, false, false, false, false, false, false)) == 0
    ensures Score(RiskFactors(74, true, false, false, false, false, false)) == 2
    ensures Score(RiskFactors(-5, false, false, false, false, false, false)) == 0
  {
  }
}
