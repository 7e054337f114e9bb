/*
 * A model of the logic of the "ideal weight calculator" form: the encoding of
 * the categorical inputs handed to the regression model, the healthy-weight
 * range derived from the BMI bounds 18.5 and 24.9, the three-way
 * recommendation chosen from the gap between the current and the predicted
 * weight, and the width of the gauge that displays that gap.
 *
 * All arithmetic is exact, over `real`; the regression model is opaque and its
 * prediction enters as a parameter.
 */

/** The optional and fallible values used by the modules below. */
module Wrappers {

  datatype Option<+T> = None | Some(value: T)

  datatype Result<+T, +E> = Ok(value: T) | Err(error: E)
}

/** Encoding of the form's categorical fields into the model's feature codes. */
module Encoding {
  import opened Wrappers

  /** The failure of the activity lookup: the label is not a key of the table. */
  datatype Error = UnknownActivity(key: string)

  /** The labels offered by the sex selector, in display order. */
  const SexOptions: seq<string> := ["Femme", "Homme"]

  /** The labels offered by the activity selector, in display order. */
  const ActivityOptions: seq<string> := ["Sédentaire", "Modéré", "Actif"]

  /** The lookup table used for the activity level. */
  const ActivityCodes: map<string, int> := map["Sédentaire" := 0, "Modéré" := 1, "Actif" := 2]

  /** Sex code: 0 for "Femme", 1 for every other label. */
  function EncodeSex(key: string): (code: int)
    ensures code == 0 || code == 1
    ensures code == 0 <==> key == "Femme"
  {
    if key == "Femme" then 0 else 1
  }

  /** Activity code by dictionary lookup; a label that is not a key fails. */
  function EncodeActivity(key: string): (r: Result<int, Error>)
    ensures r.Ok? <==> key in ActivityOptions
    ensures r.Ok? ==> 0 <= r.value <= 2 && ActivityOptions[r.value] == key
    ensures r.Err? ==> r.error == UnknownActivity(key)
  {
    if key in ActivityCodes then Ok(ActivityCodes[key]) else Err(UnknownActivity(key))
  }

  /** The selector label a sex code stands for (the inverse of EncodeSex). */
  function SexLabel(code: int): (key: string)
    requires 0 <= code <= 1
    ensures key in SexOptions
    ensures EncodeSex(key) == code
  {
    SexOptions[code]
  }

  /** The selector label an activity code stands for (the inverse of EncodeActivity). */
  function ActivityLabel(code: int): (key: string)
    requires 0 <= code <= 2
    ensures key in ActivityOptions
    ensures EncodeActivity(key) == Ok(code)
  {
    ActivityOptions[code]
  }

  /** Decoding a selector label's code gives the label back. */
  lemma SexRoundTrip(key: string)
    requires key in SexOptions
    ensures SexLabel(EncodeSex(key)) == key
  {
  }

  /** Decoding an activity label's code gives the label back. */
  lemma ActivityRoundTrip(key: string)
    requires key in ActivityOptions
    ensures EncodeActivity(key).Ok? && ActivityLabel(EncodeActivity(key).value) == key
  {
  }

  /** Distinct activity labels get distinct codes. */
  lemma ActivityInjective(a: string, b: string)
    requires EncodeActivity(a).Ok? && EncodeActivity(b).Ok?
    requires EncodeActivity(a) == EncodeActivity(b)
    ensures a == b
  {
  }

  /** The row handed to the regression model. */
  datatype Features = Features(age: int, taille: int, sexe: int, niveauActivite: int)

  /** Builds the model's input row; fails exactly when the activity lookup fails. */
  function EncodeFeatures(age: int, taille: int, sexe: string, niveau: string): (r: Result<Features, Error>)
    ensures r.Ok? <==> niveau in ActivityOptions
    ensures r.Err? ==> r.error == UnknownActivity(niveau)
    ensures r.Ok? ==> r.value.age == age && r.value.taille == taille
    ensures r.Ok? ==> 0 <= r.value.sexe <= 1 && SexLabel(r.value.sexe) == (if sexe == "Femme" then "Femme" else "Homme")
    ensures r.Ok? ==> 0 <= r.value.niveauActivite <= 2 && ActivityLabel(r.value.niveauActivite) == niveau
  {
    var sexeEnc := EncodeSex(sexe);
    match EncodeActivity(niveau)
    case Err(e) => Err(e)
    case Ok(niveauEnc) => Ok(Features(age, taille, sexeEnc, niveauEnc))
  }
}

/** The healthy-weight range: the weights whose BMI lies between 18.5 and 24.9. */
module HealthyWeight {

  const BmiLow: real := 18.5
  const BmiHigh: real := 24.9

  datatype WeightRange = WeightRange(poidsMin: real, poidsMax: real)

  /** The square of the height in metres. */
  function HeightSquared(taille: int): (s: real)
    requires taille > 0
    ensures s > 0.0
    ensures s * 10000.0 == (taille * taille) as real
  {
    var m := taille as real / 100.0;
    m * m
  }

  /** The bounds, BMI 18.5 and 24.9 times the squared height in metres. */
  function HealthyRange(taille: int): (r: WeightRange)
    requires taille > 0
    ensures 0.0 < r.poidsMin < r.poidsMax
    ensures r.poidsMin * 10000.0 == BmiLow * (taille * taille) as real
    ensures r.poidsMax * 10000.0 == BmiHigh * (taille * taille) as real
  {
    WeightRange(BmiLow * HeightSquared(taille), BmiHigh * HeightSquared(taille))
  }

  /** The body-mass index of a weight in kilograms at a height in centimetres. */
  function Bmi(poids: real, taille: int): (b: real)
    requires taille > 0
    ensures b * HeightSquared(taille) == poids
  {
    poids / HeightSquared(taille)
  }

  /** For a positive divisor s, a / s >= c exactly when a >= c * s (and likewise for <=). */
  lemma DivisionBounds(a: real, s: real, c: real)
    requires s > 0.0
    ensures a / s >= c <==> a >= c * s
    ensures a / s <= c <==> a <= c * s
  {
  }

  /** A weight lies in the healthy range exactly when its BMI lies in [18.5, 24.9]. */
  lemma RangeIsBmiBand(poids: real, taille: int)
    requires taille > 0
    ensures HealthyRange(taille).poidsMin <= poids <= HealthyRange(taille).poidsMax
            <==> BmiLow <= Bmi(poids, taille) <= BmiHigh
  {
    DivisionBounds(poids, HeightSquared(taille), BmiLow);
    DivisionBounds(poids, HeightSquared(taille), BmiHigh);
  }

  /** The bounds themselves have BMI 18.5 and 24.9. */
  lemma BoundsHaveBoundBmi(taille: int)
    requires taille > 0
    ensures Bmi(HealthyRange(taille).poidsMin, taille) == BmiLow
    ensures Bmi(HealthyRange(taille).poidsMax, taille) == BmiHigh
  {
  }

  /** A taller person gets a strictly higher lower bound and a strictly higher upper bound. */
  lemma RangeMonotone(t1: int, t2: int)
    requires 0 < t1 < t2
    ensures HealthyRange(t1).poidsMin < HealthyRange(t2).poidsMin
    ensures HealthyRange(t1).poidsMax < HealthyRange(t2).poidsMax
  {
    assert t1 * t1 < t1 * t2 < t2 * t2;
    assert (t1 * t1) as real < (t2 * t2) as real;
  }

  /** Over the heights the form accepts (140 to 210 cm), the bounds stay within these limits. */
  lemma RangeOverWidgetHeights(taille: int)
    requires 140 <= taille <= 210
    ensures 36.26 <= HealthyRange(taille).poidsMin <= 81.585
    ensures 48.804 <= HealthyRange(taille).poidsMax <= 109.809
  {
    if taille > 140 {
      RangeMonotone(140, taille);
    }
    if taille < 210 {
      RangeMonotone(taille, 210);
    }
  }
}

/** The three-way recommendation chosen from the weight gap. */
module Recommendation {
  import opened Wrappers

  datatype Category = Loss | Gain | Stable

  /** The four values every branch sets together: label, colour, sport plan, diet plan. */
  datatype Advice = Advice(reco: string, color: string, sport: string, alim: string)

  const Threshold: real := 3.0

  /** The guarded cases, in order: gap > 3, then gap < -3, else stable (ties at +-3 are stable). */
  function Classify(delta: real): (c: Category)
    ensures c == Loss <==> delta > Threshold
    ensures c == Gain <==> delta < -Threshold
    ensures c == Stable <==> -Threshold <= delta <= Threshold
  {
    if delta > Threshold then Loss
    else if delta < -Threshold then Gain
    else Stable
  }

  /** The advice texts and colour of each category. */
  function AdviceFor(c: Category): (a: Advice)
    ensures c == Loss ==> a.color == "#E74C3C" && a.reco == "Perte de poids"
    ensures c == Gain ==> a.color == "#3498DB" && a.reco == "Prise de masse"
    ensures c == Stable ==> a.color == "#2ECC71" && a.reco == "Poids stable"
  {
    match c
    case Loss =>
      Advice("Perte de poids", "#E74C3C",
             "Cardio 4–5x/semaine + renforcement",
             "Réduire sucres, augmenter protéines et fibres")
    case Gain =>
      Advice("Prise de masse", "#3498DB",
             "Musculation 4–5x/semaine",
             "Augmenter calories saines et protéines")
    case Stable =>
      Advice("Poids stable", "#2ECC71",
             "Activité régulière modérée",
             "Alimentation équilibrée")
  }

  /** The category a displayed colour belongs to, if any (the inverse of AdviceFor's colour). */
  function CategoryOfColor(color: string): (r: Option<Category>)
    ensures r.Some? ==> AdviceFor(r.value).color == color
    ensures r.None? ==> forall c: Category :: AdviceFor(c).color != color
  {
    if color == "#E74C3C" then Some(Loss)
    else if color == "#3498DB" then Some(Gain)
    else if color == "#2ECC71" then Some(Stable)
    else None
  }

  /** The recommendation for a gap between current and predicted weight. */
  function Recommend(delta: real): (a: Advice)
    ensures CategoryOfColor(a.color) == Some(Classify(delta))
    ensures a == AdviceFor(CategoryOfColor(a.color).value)
    ensures delta > Threshold ==> a.reco == "Perte de poids"
    ensures delta < -Threshold ==> a.reco == "Prise de masse"
    ensures -Threshold <= delta <= Threshold ==> a.reco == "Poids stable"
  {
    AdviceFor(Classify(delta))
  }

  /** The colour alone determines the category, so no two branches share any colour. */
  lemma ColorDeterminesCategory(c1: Category, c2: Category)
    requires AdviceFor(c1).color == AdviceFor(c2).color
    ensures c1 == c2
  {
  }

  /** Each field of the advice determines the category on its own. */
  lemma AdviceFieldsDetermineCategory(c1: Category, c2: Category)
    requires c1 != c2
    ensures AdviceFor(c1).reco != AdviceFor(c2).reco
    ensures AdviceFor(c1).sport != AdviceFor(c2).sport
    ensures AdviceFor(c1).alim != AdviceFor(c2).alim
  {
  }

  /** Ordering Gain < Stable < Loss. */
  function Rank(c: Category): int
  {
    match c
    case Gain => 0
    case Stable => 1
    case Loss => 2
  }

  /** A larger gap never moves the recommendation toward gaining weight. */
  lemma ClassifyMonotone(d1: real, d2: real)
    requires d1 <= d2
    ensures Rank(Classify(d1)) <= Rank(Classify(d2))
  {
  }

  /** Exactly at the thresholds the recommendation is "stable"; just beyond, it is not. */
  lemma TiesAreStable()
    ensures Classify(3.0) == Stable && Classify(-3.0) == Stable
    ensures Classify(3.01) == Loss && Classify(-3.01) == Gain
  {
  }
}

/** The gauge of the result card: the gap's magnitude times ten, clamped at 100 percent. */
module Gauge {

  /** Python's abs: the magnitude of x. */
  function Abs(x: real): (r: real)
    ensures r >= 0.0 && (r == x || r == -x)
  {
    if x < 0.0 then -x else x
  }

  /** Python's min(a, b): the first argument unless the second is strictly smaller. */
  function Min(a: real, b: real): (r: real)
    ensures r <= a && r <= b && (r == a || r == b)
  {
    if b < a then b else a
  }

  /** The bar width, in percent, for a weight gap. */
  function BarWidth(delta: real): (w: real)
    ensures 0.0 <= w <= 100.0
    ensures Abs(delta) <= 10.0 ==> w == Abs(delta) * 10.0
    ensures Abs(delta) >= 10.0 ==> w == 100.0
  {
    Min(Abs(delta) * 10.0, 100.0)
  }

  /** The width depends only on the gap's magnitude and grows with it. */
  lemma BarWidthMonotone(d1: real, d2: real)
    requires Abs(d1) <= Abs(d2)
    ensures BarWidth(d1) <= BarWidth(d2)
    ensures BarWidth(-d1) == BarWidth(d1)
  {
  }
}

/** One press of the button: encoding, range, gap, recommendation and gauge together. */
module Calculator {
  import opened Wrappers
  import opened Encoding
  import opened HealthyWeight
  import opened Recommendation
  import opened Gauge

  datatype Report = Report(
    features: Features,
    range: WeightRange,
    poidsCible: real,
    delta: real,
    category: Category,
    advice: Advice,
    width: real)

  /**
   * The result card for the form's inputs and the model's prediction.
   * The requires are the bounds of the form's numeric widgets.
   */
  function Evaluate(age: int, taille: int, sexe: string, niveau: string,
                    poidsActuel: real, poidsCible: real): (r: Result<Report, Error>)
    requires 10 <= age <= 80
    requires 140 <= taille <= 210
    requires 30.0 <= poidsActuel <= 200.0
    ensures r.Err? <==> niveau !in ActivityOptions
    ensures r.Err? ==> r.error == UnknownActivity(niveau)
    ensures r.Ok? ==> r.value.delta == poidsActuel - poidsCible
    ensures r.Ok? ==> (r.value.category == Loss <==> poidsActuel > poidsCible + 3.0)
    ensures r.Ok? ==> (r.value.category == Gain <==> poidsActuel < poidsCible - 3.0)
    ensures r.Ok? ==> CategoryOfColor(r.value.advice.color) == Some(r.value.category)
    ensures r.Ok? ==> 0.0 < r.value.range.poidsMin < r.value.range.poidsMax
    ensures r.Ok? ==> 0.0 <= r.value.width <= 100.0
    ensures r.Ok? ==> (r.value.width <= 30.0 <==> r.value.category == Stable)
    ensures r.Ok? ==> EncodeFeatures(age, taille, sexe, niveau) == Ok(r.value.features)
    ensures r.Ok? ==> r.value.poidsCible == poidsCible
    ensures r.Ok? ==> r.value.range == HealthyRange(taille)
    ensures r.Ok? ==> r.value.category == Classify(r.value.delta)
    ensures r.Ok? ==> r.value.advice == AdviceFor(r.value.category)
    ensures r.Ok? ==> r.value.width == BarWidth(r.value.delta)
  {
    match EncodeFeatures(age, taille, sexe, niveau)
    case Err(e) => Err(e)
    case Ok(features) =>
      var delta := poidsActuel - poidsCible;
      Ok(Report(features, HealthyRange(taille), poidsCible, delta,
                Classify(delta), Recommend(delta), BarWidth(delta)))
  }

  /** The bar reaches beyond 30 percent exactly when the advice is to lose or gain. */
  lemma StableExactlyWhenShortBar(delta: real)
    ensures BarWidth(delta) <= 30.0 <==> Classify(delta) == Stable
  {
  }

  /** The worked examples: 170 cm; 70 kg against a 66 kg target; 60 kg against 60 kg. */
  lemma Scenarios()
    ensures HealthyRange(170) == WeightRange(53.465, 71.961)
    ensures Evaluate(30, 170, "Homme", "Modéré", 70.0, 66.0).Ok?
    ensures Evaluate(30, 170, "Homme", "Modéré", 70.0, 66.0).value.category == Loss
    ensures Evaluate(30, 170, "Homme", "Modéré", 70.0, 66.0).value.width == 40.0
    ensures Evaluate(30, 170, "Femme", "Actif", 60.0, 60.0).value.category == Stable
    ensures Evaluate(30, 170, "Femme", "Actif", 60.0, 60.0).value.width == 0.0
  {
  }
}
