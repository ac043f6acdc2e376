# Prediction adapter of the ML portfolio client

This project models the prediction adapter of a browser client, found in
`src/services/api.ts`. The adapter sends inputs to four trained models:
a Titanic survival classifier, an MNIST digit recogniser, an Iris k-NN
classifier and an LSTM sentiment classifier. Each `predict*` function does
three things in order:

1. **Request shaping.** This pure step turns the view's input into the JSON
   request body. Titanic builds an 8-feature vector. Iris builds a vector of
   4 features. MNIST forwards the image string and LSTM forwards the review.
2. **Transport.** The body is POSTed. The call rejects unless `response.ok`,
   and only then is the body decoded.
3. **Response normalisation.** This pure step turns the decoded body into
   the typed result. It uses placeholder probabilities and confidences where
   the backend sends none.

Modules:

- `Results` holds `Option`, `Result` and `Failure`, the reasons a call rejects.
- `Js` models decoded JSON values. It also models `value.prediction` and
  `value.probability` as JavaScript evaluates them: a `TypeError` on
  `null`/`undefined`, `undefined` for a missing member, and the last member
  when a name repeats in the JSON text. It also models `parseFloat` on
  such a value: the ToString step, which throws a TypeError on an object
  with its own `toString` member, and then the numeric string grammar,
  which is a parameter.
- `Transport` abstracts `fetch` plus the status check into an `Exchange`.
- `Titanic`, `Mnist`, `Iris` and `Lstm` each hold one domain's shaping,
  normalisation and whole call. In the whole call, the backend is a function
  from the shaped body to an `Exchange`.
- `Scenarios` holds worked calls, each from request to result.

The code decides the behaviour, not its comments:

- The port comes from `data.embarked` (lines 46-47). The comment at lines
  42-45 says Southampton is assumed.
- Any Titanic label other than `'생존'` yields "died", not an error.
- A probability that `parseFloat` cannot read yields `'Negative'` with a NaN
  probability, not an error.
- The MNIST and Iris `prediction` values pass through unchecked.

## Model

| member | source | states |
|---|---|---|
| Js.Get | src/services/api.ts:84-87 | a decoded object's property is its last member of that name, or `undefined` when there is none |
| Js.Read | src/services/api.ts:87 | reading `prediction`/`probability` throws a TypeError exactly on `null`/`undefined`, looks the name up in an object, and gives `undefined` on any other value |
| Js.GetAfterAppend | src/services/api.ts:84 | a later member overrides earlier ones of its name and leaves other names' values unchanged |
| Js.ToStringThrows | src/services/api.ts:235 | ToString throws only on objects and arrays: exactly on an object with its own `toString` member, or on an array holding such a value at any depth |
| Js.ParseFloat | src/services/api.ts:235 | `parseFloat` gives a number back as itself; `undefined`, `null`, booleans, plain objects and the empty array give NaN; a string goes to the string grammar |
| Transport.IsOk | src/services/api.ts:80 | `response.ok` holds exactly for the 2xx status class |
| Transport.Receive | src/services/api.ts:74-84 | the body is returned exactly when the status is 200-299 and the body decodes; a non-ok status rejects with that status and the body is never read; a failed fetch and an undecodable body reject |
| Titanic.SexEncoded | src/services/api.ts:40 | sex_encoded is 0 or 1, and 1 iff the sex is female |
| Titanic.EmbarkedQ | src/services/api.ts:46 | embarked_Q is 0 or 1, and 1 iff the port is Q |
| Titanic.EmbarkedS | src/services/api.ts:47 | embarked_S is 0 or 1, and 1 iff the port is S; it is never set together with embarked_Q |
| Titanic.FamilySize | src/services/api.ts:50 | with non-negative counts the family size is at least 1, and exactly 1 iff sibsp and parch are both 0 |
| Titanic.IsAlone | src/services/api.ts:51 | isAlone is 0 or 1, and 1 iff sibsp + parch is 0 (the family size is 1) |
| Titanic.Features | src/services/api.ts:54-71 | the feature vector has exactly 8 entries |
| Titanic.ShapeTitanic | src/services/api.ts:73 | the request body's `features` has 8 entries |
| Titanic.DecodeFeatures | src/services/api.ts:54-71 | reading a vector back by slot name only succeeds on vectors of length 8 |
| Titanic.FeatureLayout | src/services/api.ts:40-71 | reading the shaped vector back by slot name gives pclass, sex, age, fare, port and family size of the request, so the order is [pclass, sex_encoded, age, fare, embarked_Q, embarked_S, familySize, isAlone] |
| Titanic.FeaturesDetermineProfile | src/services/api.ts:40-71 | two requests shape to the same vector iff they agree on everything except the split of sibsp + parch |
| Titanic.DecodedIsShaped | src/services/api.ts:54-71 | every vector that reads back is the shaping of some request |
| Titanic.Indicators | src/services/api.ts:40-47 | each indicator is 0 or 1; sex_encoded is 1 iff female, embarked_Q is 1 iff Q, embarked_S is 1 iff S; never both port flags; both 0 iff C |
| Titanic.FamilyFeatures | src/services/api.ts:50-51 | familySize = sibsp + parch + 1 and isAlone is 1 iff familySize is 1; with non-negative counts familySize >= 1 and isAlone is 1 iff sibsp = parch = 0 |
| Titanic.SurvivedCode | src/services/api.ts:87 | the outcome is 1 iff the label is exactly the string `'생존'` |
| Titanic.PlaceholderProbability | src/services/api.ts:91 | the placeholder is 0.75 iff survived and 0.25 iff died, always in [0, 1] |
| Titanic.NormaliseTitanic | src/services/api.ts:84-96 | rejects only on a null/undefined body; otherwise survived is 1 iff `prediction` is exactly `'생존'`, and probability is 0.75 or 0.25 by that outcome |
| Titanic.OtherLabelIsDied | src/services/api.ts:87-96 | any other label resolves to died with 0.25 instead of rejecting |
| Titanic.ProbabilityFollowsOutcome | src/services/api.ts:89-96 | two results with the same outcome are equal: the probability depends on the outcome only |
| Titanic.PredictTitanic | src/services/api.ts:38-97 | a transport failure is the call's failure; an ok response whose body decodes resolves or rejects exactly as NormaliseTitanic does on that body; a result exists only for such a response |
| Titanic.NotOkRejects | src/services/api.ts:80-82 | a non-ok status rejects with HttpError carrying that status |
| Mnist.ShapeMnist | src/services/api.ts:116 | the body carries the image string unchanged under `image_base64` |
| Mnist.NormaliseMnist | src/services/api.ts:128-142 | rejects only on a null/undefined body; otherwise the backend's `prediction` passes through and confidence is 1.0 |
| Mnist.OnlyPredictionMatters | src/services/api.ts:136-142 | members with other names do not change the result |
| Mnist.MissingPredictionPassesThrough | src/services/api.ts:136-142 | a body without `prediction` resolves with `undefined` and confidence 1.0 instead of rejecting |
| Mnist.PredictMnist | src/services/api.ts:114-143 | a transport failure is the call's failure; an ok response whose body decodes resolves or rejects exactly as NormaliseMnist does on that body; a result exists only for such a response |
| Mnist.NotOkRejects | src/services/api.ts:124-126 | a non-ok status rejects with HttpError carrying that status |
| Iris.IrisFeatures | src/services/api.ts:171-176 | the feature vector has exactly 4 entries |
| Iris.ShapeIris | src/services/api.ts:178 | the request body's `features` has 4 entries |
| Iris.DecodeIris | src/services/api.ts:171-176 | a vector reads back as measurements iff it has 4 entries |
| Iris.IrisRoundTrip | src/services/api.ts:171-176 | shaping and positional reading are inverse: the vector is exactly [sepal_length, sepal_width, petal_length, petal_width] |
| Iris.NormaliseIris | src/services/api.ts:190-199 | rejects only on a null/undefined body; otherwise the backend's `prediction` passes through and confidence is 1.0 |
| Iris.OnlyPredictionMatters | src/services/api.ts:193-199 | members with other names do not change the result |
| Iris.PredictIris | src/services/api.ts:168-200 | a transport failure is the call's failure; an ok response whose body decodes resolves or rejects exactly as NormaliseIris does on that body; a result exists only for such a response |
| Iris.NotOkRejects | src/services/api.ts:186-188 | a non-ok status rejects with HttpError carrying that status |
| Lstm.ShapeLstm | src/services/api.ts:219 | the body carries the review text unchanged under `review` |
| Lstm.AtLeast | src/services/api.ts:236 | `>=` is never true of NaN |
| Lstm.Classify | src/services/api.ts:236 | the label is never empty; Positive iff the probability is a number >= 0.5; Negative iff it is NaN or below 0.5 |
| Lstm.ClassifyMonotone | src/services/api.ts:236 | raising the probability never turns Positive into Negative |
| Lstm.NormaliseLstm | src/services/api.ts:231-241 | rejects with a TypeError exactly on a null/undefined body or a `probability` whose ToString throws; otherwise the probability is `parseFloat` of the member, the label is never empty, and it is Positive iff that value is >= 0.5 |
| Lstm.UnparseableIsNegative | src/services/api.ts:235-241 | an unparseable probability resolves to Negative with NaN instead of rejecting |
| Lstm.MissingProbabilityIsNegative | src/services/api.ts:235-241 | a body without `probability` resolves to Negative with NaN, whatever the string grammar |
| Lstm.NumericProbability | src/services/api.ts:235-241 | a numeric `probability` is kept as it is and thresholded at 0.5 |
| Lstm.ThrowingProbabilityRejects | src/services/api.ts:235 | a body whose `probability` is an object with its own `toString` member rejects with a TypeError, whatever its other members |
| Lstm.ThrowingElementRejects | src/services/api.ts:235 | a body whose `probability` is an array with an element whose ToString throws rejects with a TypeError |
| Lstm.PredictLstm | src/services/api.ts:217-242 | a transport failure is the call's failure; an ok response whose body decodes resolves or rejects exactly as NormaliseLstm does on that body; a result exists only for such a response |
| Lstm.NotOkRejects | src/services/api.ts:227-229 | a non-ok status rejects with HttpError carrying that status |
| Scenarios.TitanicScenario | src/services/api.ts:38-97 | a third-class man from port S aged 22 with one sibling and fare 7.25 shapes to [3, 0, 22, 7.25, 0, 1, 2, 0]; the label `'사망'` gives survived 0, probability 0.25 |
| Scenarios.IrisScenario | src/services/api.ts:168-200 | [5.1, 3.5, 1.4, 0.2] goes out in order; `'setosa'` comes back with confidence 1.0 |
| Scenarios.LstmScenario | src/services/api.ts:217-242 | "0.82" gives Positive with 0.82 and "0.10" gives Negative with 0.10 |
| Scenarios.ServerErrorScenario | src/services/api.ts:80-82 | status 500 rejects each of the four calls with HttpError(500) |

## Left out

- The network, `JSON.stringify` and `response.json()` are not modelled. What `fetch` answers to a shaped body is a parameter (`backend`). The answer is no response, or a status with a decoded body. A body that is not valid JSON is `None`.
- `parseFloat`'s numeric string grammar is a parameter from a string to `Option<real>`, with `None` for NaN. How its ToString step treats each kind of value is modelled.
- Js.ParseFloat: reads a non-empty array as its first element. That holds because no decimal literal contains a comma. This is a fact about the string grammar, which is a parameter, so it is not proved.
- Numbers are exact `real`s. IEEE rounding in `sibsp + parch + 1` is not modelled, and neither are infinities.
- FamilyFeatures: states the family features with exact arithmetic. It does not cover rounding of very large or fractional counts.
- Js.Read: property lookup on numbers, strings, booleans and arrays gives `undefined`. This holds for the two names the adapter reads, not for names such as `length`.
- Decoded bodies may hold `undefined` in the model. Real JSON never does, so the model allows more bodies than can occur.
- URL construction from the fixed ngrok origin is not modelled. Note that the Titanic path resolves to `/api/api/titanic/predict`.
- Request headers, the text of the thrown error message, `async`/`await` scheduling and the shared `ApiResponse<T>` interface are not modelled. `ApiResponse<T>` is never used.
- `src/router/index.ts` is a route table and `vite.config.ts` is build configuration. Neither holds adapter logic.
