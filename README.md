# Ideal-weight calculator: a Dafny model of its decision logic

The application is a single Streamlit form. It asks for age, height (`taille`,
cm), sex (`sexe`), activity level (`niveau_activite`) and current weight
(`poids_actuel`, kg). It encodes the two categorical fields into integer codes
and asks a pre-trained regression model for a personalised target weight
(`poids_cible`). It then shows:

- the healthy-weight range for BMI 18.5 to 24.9 at that height;
- the gap `delta = poids_actuel - poids_cible`;
- one of three recommendations ("Perte de poids", "Prise de masse",
  "Poids stable"), each with its colour, sport plan and diet plan;
- a bar whose width is `min(|delta| * 10, 100)` percent.

This project models that logic in `weight_advisor.dfy`, one module per part:

- `Encoding`: the sex code, the activity lookup (its `KeyError` becomes
  `Err(UnknownActivity(label))`), their inverses and the row handed to the
  model.
- `HealthyWeight`: the range, the body-mass index, and the proof that the
  range is exactly the set of weights with BMI in [18.5, 24.9].
- `Recommendation`: the `Category` partition of the gap and the four-field
  advice each category fixes.
- `Gauge`: the clamped bar width.
- `Calculator`: one press of the button, composing all of the above. The
  model's prediction is a plain `real` parameter.

All arithmetic is exact over `real`. The bounds of the numeric widgets
(age 10 to 80, height 140 to 210, current weight 30 to 200) are the
preconditions of `Calculator.Evaluate`.

Three facts about the code shape the model:

- The advice texts are the code's French strings.
- Every sex label other than "Femme" encodes to 1; only the activity lookup
  can fail.
- There is no error path around loading or calling the model.

## Model

| member | source | states |
|---|---|---|
| `Encoding.EncodeSex` | main.py:55 | the code is 0 or 1, and it is 0 exactly when the label is "Femme" |
| `Encoding.EncodeActivity` | main.py:56 | the lookup succeeds exactly for the three selector labels; the code is in 0..2 and is the label's position in the selector; any other label fails with that label |
| `Encoding.SexLabel` | main.py:48-55 | decoding a sex code gives a selector label whose encoding is that code |
| `Encoding.ActivityLabel` | main.py:49-56 | decoding an activity code gives a selector label whose lookup yields that code |
| `Encoding.SexRoundTrip` | main.py:48-55 | encoding then decoding gives back each sex label of the selector |
| `Encoding.ActivityRoundTrip` | main.py:49-56 | encoding then decoding gives back each activity label of the selector |
| `Encoding.ActivityInjective` | main.py:56 | two labels with the same activity code are the same label |
| `Encoding.EncodeFeatures` | main.py:54-73 | the model's input row is built exactly when the activity lookup succeeds; it carries age and height unchanged, the sex code of "Femme"/"Homme" and the activity label's code |
| `HealthyWeight.HeightSquared` | main.py:79-80 | for a positive height in cm the value is (taille/100)², i.e. times 10000 it equals taille², and it is positive |
| `HealthyWeight.HealthyRange` | main.py:79-80 | for a positive height, the bounds are 18.5·(taille/100)² and 24.9·(taille/100)²; both are positive and the lower is strictly below the upper |
| `HealthyWeight.Bmi` | main.py:78 | the BMI times the squared height in metres gives back the weight |
| `HealthyWeight.RangeIsBmiBand` | main.py:78-80 | a weight lies between the bounds exactly when its BMI lies between 18.5 and 24.9 |
| `HealthyWeight.BoundsHaveBoundBmi` | main.py:78-80 | the lower bound has BMI 18.5 and the upper bound BMI 24.9 |
| `HealthyWeight.RangeMonotone` | main.py:79-80 | a greater height gives a strictly greater lower bound and a strictly greater upper bound |
| `HealthyWeight.RangeOverWidgetHeights` | main.py:79-80 | for the heights the widget allows (140 to 210 cm) the lower bound lies in [36.26, 81.585] and the upper in [48.804, 109.809] |
| `Recommendation.Classify` | main.py:85-99 | Loss exactly when the gap is above 3, Gain exactly when it is below -3, Stable exactly when it is in [-3, 3]; the three cases partition the reals |
| `Recommendation.AdviceFor` | main.py:85-99 | each category fixes its label and colour: red "Perte de poids", blue "Prise de masse", green "Poids stable" |
| `Recommendation.CategoryOfColor` | main.py:87-97 | a colour maps back to the category whose advice shows it, and an unknown colour to no category |
| `Recommendation.Recommend` | main.py:82-99 | the advice for a gap has the colour of the gap's category and the label its branch sets, and the whole record (label, colour, sport plan, diet plan) is the one its colour stands for |
| `Recommendation.ColorDeterminesCategory` | main.py:85-99 | two categories showing the same colour are the same category |
| `Recommendation.AdviceFieldsDetermineCategory` | main.py:85-99 | distinct categories have distinct labels, distinct sport plans and distinct diet plans |
| `Recommendation.ClassifyMonotone` | main.py:85-99 | a larger gap never gives a category lower in the order Gain < Stable < Loss |
| `Recommendation.TiesAreStable` | main.py:85-95 | gaps of exactly 3 and -3 are Stable, and gaps of 3.01 and -3.01 are Loss and Gain |
| `Gauge.Abs` | main.py:122 | the result is non-negative and is either x or -x |
| `Gauge.Min` | main.py:122 | the result is at most both arguments and is one of them |
| `Gauge.BarWidth` | main.py:122 | the width is in [0, 100]; it is ten times the gap's magnitude up to a magnitude of 10 and 100 from there on |
| `Gauge.BarWidthMonotone` | main.py:122 | the width grows with the gap's magnitude and ignores its sign |
| `Calculator.Evaluate` | main.py:54-122 | with the widget bounds met, the result fails exactly on an unknown activity label. Otherwise the gap is current minus target, Loss holds exactly when current exceeds target by more than 3, and Gain exactly when it falls short by more than 3. The colour belongs to the category, the range is positive and ordered, and the width is in [0, 100] and at most 30 exactly when the category is Stable. The row is the encoder's output, the target is the prediction passed in, and the range, category, advice and width are HealthyRange of the height, Classify, AdviceFor and BarWidth of the gap |
| `Calculator.StableExactlyWhenShortBar` | main.py:82-122 | the bar is at most 30 percent wide exactly when the recommendation is Stable |
| `Calculator.Scenarios` | main.py:79-122 | 170 cm gives the range 53.465 to 71.961 kg; 70 kg against a 66 kg target gives Loss with width 40; 60 kg against 60 kg gives Stable with width 0 |

## Left out

- All page layout and widgets: page configuration, sidebar, title, columns, inputs, the button and the HTML result card (main.py:10-52, 58-65, 104-132). The numeric widgets' bounds appear only as preconditions of `Calculator.Evaluate`.
- Loading the pickled model (main.py:19) and calling `model.predict` on a one-row data frame (main.py:68-76). Both are calls into foreign code. `Calculator.Evaluate` takes the prediction as a `real` parameter, and the encoded row is part of its result.
- IEEE floating-point behaviour, including rounding, NaN and infinity (a NaN prediction would give "Poids stable" and a NaN bar width), and the one-decimal display formatting (main.py:116-117, 128). The arithmetic is modelled exactly over `real`.
- The imports of `numpy` and `lzma` (main.py:3, 5), which the code does not use.
- `Encoding.SexLabel`, `Encoding.ActivityLabel`, `Recommendation.CategoryOfColor`: the code has no decoding and never maps a colour back to a category; these inverses exist only to state round trips and injectivity.
