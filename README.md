# Image classifier demo: analysis core in Dafny

The application is a Streamlit page that runs uploaded or camera-captured
images through a pretrained image classifier. For each image it:

- shows the top label with an emoji tag and its score as a percentage;
- shows a bar chart of all returned labels, with scores scaled to percentages.

The logic the application owns is in `analyze_image` (app.py:30-67) and in the
two places that call it: the upload loop (app.py:80-89) and the camera path
(app.py:93-97). This project models that logic:

- `strings.dfy` (module `Strings`) models Python's `in` on strings:
  exact, case-sensitive substring containment. `Contains` is the executable
  test. `OccursAt` is the index-based reference definition.
- `emoji.dfy` (module `Emojis`) models the emoji decision chain of
  app.py:45-55. Five keyword groups are tested in order: dog, cat, vehicle,
  beverage, food. The first group that matches wins; otherwise the tag stays
  the default robot face. The same decision is restated as an ordered rule
  table (`Rules`, `FirstMatch`), and a lemma proves the two agree.
- `analysis.dfy` (module `Analysis`) models the rest of one analysis:
  - The classifier's output is an input sequence of `Prediction(className, score)`.
  - The top entry is element 0, with no search for a maximum.
  - The chart's data frame is a class `ScoreTable` whose score column, an
    array, is multiplied by 100 in place.
  - An empty output makes `results[0]` raise, so `Analyze` returns `Err(NoPredictions)`.
- `batch.dfy` (module `Batch`) models the callers:
  - `AnalyzeUploads` loops over the uploaded images in order. It does nothing
    for an empty list or before the start button is pressed.
  - An analysis that raises on an empty output ends the run (`Aborted`), so
    later images are not analysed.
  - `AnalyzeCapture` runs at most one analysis.
  - The classifier is a function parameter from an opaque image type to
    ranked outputs.

Scores are `real`. The classifier is trusted to rank its output; the model
states the "top score is the maximum" property only under an explicit
sorted-descending precondition (`TopIsMaximumWhenSorted`).

Behaviour of the code that a reader might not expect:

- Keyword matching is case-sensitive, so `"Dog"` gets the robot face.
- `"espresso"` contains neither `"coffee"` nor `"cup"`, so it gets the robot
  face.
- The top entry is `results[0]`, the first entry of the output, with no
  search for the highest score.
- A failed analysis is not isolated per image. It ends the batch.

## Model

| member | source | states |
|---|---|---|
| `Strings.ContainsIff` | app.py:46-55 | the containment test used by every `in` holds exactly when the keyword occurs at some index of the label (both directions) |
| `Emojis.GroupsAreKeywordTests` | app.py:46-55 | each group's chain of `or`-ed `in` tests is true exactly when some keyword of that group occurs in the label |
| `Emojis.EmojiIsFirstMatchingRule` | app.py:45-55 | the if/elif chain picks the same tag as an ordered rule table in which the first group whose keywords occur wins and the robot face is the default |
| `Emojis.FirstMatchPicksFirst` | app.py:46-55 | in an ordered rule table, the first applicable rule decides whatever later rules would say |
| `Emojis.FirstMatchDefault` | app.py:45 | with no applicable rule the ordered rule table yields its default |
| `Emojis.DogGroupWins` | app.py:46-47 | the dog face is chosen exactly when "dog", "retriever" or "terrier" occurs, whatever other keywords the label also holds |
| `Emojis.CatGroupSecond` | app.py:48-49 | the cat face is chosen exactly when "cat" or "tabby" occurs and no dog keyword does |
| `Emojis.VehicleGroupThird` | app.py:50-51 | the automobile is chosen exactly when "car" or "vehicle" occurs and no dog or cat keyword does |
| `Emojis.BeverageGroupFourth` | app.py:52-53 | the hot beverage is chosen exactly when "coffee" or "cup" occurs and no earlier group's keyword does, so it beats the food group |
| `Emojis.FoodGroupLast` | app.py:54-55 | the hamburger is chosen exactly when "food", "burger" or "pizza" occurs and no keyword of the four earlier groups does |
| `Emojis.DefaultWhenNoKeyword` | app.py:45-55 | the robot face stays exactly when none of the twelve keywords occurs |
| `Emojis.EmojiIsOneOfSix` | app.py:45-55 | the tag is always one of the six glyphs |
| `Emojis.GoldenRetrieverIsDog` | app.py:46-47 | "golden retriever" gets the dog face |
| `Emojis.DogBeatsFood` | app.py:46-55 | "dog food" holds a food keyword but gets the dog face, because the dog group is tested first |
| `Emojis.CupBeatsPizza` | app.py:52-55 | "pizza cup" holds a food keyword but gets the hot beverage, because the beverage group is tested before the food group |
| `Emojis.EgyptianCatIsCat` | app.py:48-49 | "Egyptian cat" gets the cat face |
| `Emojis.SportsCarIsAutomobile` | app.py:50-51 | "sports car" gets the automobile |
| `Emojis.EspressoIsDefault` | app.py:52-55 | "espresso" gets the robot face: it contains neither "coffee" nor "cup" |
| `Emojis.SpaceShuttleIsDefault` | app.py:45-55 | "space shuttle" matches no keyword and gets the robot face |
| `Emojis.CapitalisedDogIsDefault` | app.py:46 | matching is case-sensitive: "Dog" gets the robot face |
| `Analysis.AsPercentagesRowByRow` | app.py:60-61 | the chart table has the output's length and, row by row, the same label with the score multiplied by exactly 100 |
| `Analysis.PercentagesRoundTrip` | app.py:60-61 | over exact reals, dividing the chart's scores by 100 gives back the classifier's output: scaling loses nothing |
| `Analysis.ChartKeepsClassNames` | app.py:60-61 | the chart keeps the output's labels in the output's order |
| `Analysis.AnalyzeShowsFirstEntry` | app.py:39-55 | an analysis fails exactly when the output is empty; otherwise the banner shows the label and score of `results[0]` and the emoji of that label |
| `Analysis.AnalyzeChartIsScaledOutput` | app.py:60-61 | the record's chart has the output's length, labels and order, each score multiplied by exactly 100 |
| `Analysis.HeadlineIsFirstBar` | app.py:57-61 | the first bar of the chart is the banner's label with the banner's score as a percentage |
| `Analysis.EmojiDependsOnlyOnTopLabel` | app.py:40-55 | two outputs whose first entries carry the same label get the same tag |
| `Analysis.TopIsMaximumWhenSorted` | app.py:39-42 | when the output is sorted descending, the banner's score is the largest and the chart stays sorted; without that premise the code promises neither |
| `Analysis.ProbabilitiesBecomePercentages` | app.py:60-61 | scores in [0, 1] become chart values in [0, 100] |
| `Analysis.ScoreTable.constructor` | app.py:60 | the data frame built from the output holds its rows, in order |
| `Analysis.ScoreTable.ScaleScoresBy100` | app.py:61 | multiplying the score column by 100 in place turns the table's rows into their percentages and keeps the labels |
| `Analysis.AnalyzeImage` | app.py:30-67 | one analysis yields exactly `Analyze` of the classifier's output: first entry, its tag, the rescaled table, or the error for an empty output |
| `Batch.AnalyzeUploads` | app.py:80-89 | nothing runs for an empty upload list or without the button; otherwise records are shown in upload order, one per image, all of them when the run completes, and a run stops at the first failing image |
| `Batch.AnalyzeCapture` | app.py:93-97 | at most one analysis runs, exactly when a capture exists, and its record or error is the run's outcome |
| `Batch.UploadRunOutcome` | app.py:86-89 | a run completes exactly when every image's output is non-empty; a completed run shows each image's record once, in order; an aborted run stopped at an image with empty output |

## Left out

- Page layout, tabs, columns, dividers, `st.image`, `st.success`, `st.write` and `st.bar_chart` rendering (app.py:7-18, 32-35, 57, 63-67, 70-87): UI side effects. The model returns the data these calls would show.
- Model loading, caching and the classifier itself (app.py:21-27, 39): a foreign library plus weights I/O. The classifier is a function parameter whose output is taken as given.
- Image decoding with `Image.open`, the file uploader and the camera widget (app.py:74-78, 88, 93-96): I/O. An image is an opaque type parameter, a capture an `Option`, and the button press a boolean parameter.
- The `{score*100:.1f}%` banner formatting and floating-point arithmetic (app.py:57, 61): scores are exact reals, so float rounding of the `* 100` product is not modelled.
- One script run executes the upload tab and then the camera tab, and an exception in the first stops the second: the model states each tab's run on its own.
- How Streamlit shows an uncaught exception: the model reports it as the `Aborted` status with the error.
- AnalyzeUploads: an exception from `Image.open` (app.py:88) or from the classifier call (app.py:39) also ends the run. The classifier is a total function here, so the only modelled cause of `Aborted` is an empty output.
- AnalyzeCapture: the same holds for the camera path (app.py:96-97). Decode and inference failures are not modelled.
- UploadRunOutcome: "a run completes exactly when every output is non-empty" holds under that abstraction only. A decode or inference exception would also stop a real run.
