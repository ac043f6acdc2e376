/** Sentiment analysis: `predictLstm`. The review text is forwarded as is;
    the response's probability is parsed and thresholded. */
module Lstm {
  import opened Results
  import opened Js
  import opened Transport

  /** The JSON request body `{ review }`. */
  datatype LstmBody = LstmBody(review: string)

  /** `Unset` is the empty label the response type also admits. */
  datatype Sentiment = Positive | Negative | Unset

  /** `probability` is `None` where `parseFloat` gives NaN. */
  datatype LstmResponse = LstmResponse(sentiment: Sentiment, probability: Option<real>)

  const Threshold: real := 0.5

  function ShapeLstm(reviewText: string): (body: LstmBody)
    ensures body.review == reviewText
  {
    LstmBody(reviewText)
  }

  /** JavaScript's `p >= c` on a number that may be NaN: false for NaN. */
  predicate AtLeast(p: Option<real>, c: real)
    ensures AtLeast(p, c) ==> p.Some?
  {
    p.Some? && p.value >= c
  }

  /** `probability >= 0.5 ? 'Positive' : 'Negative'`. */
  function Classify(probability: Option<real>): (s: Sentiment)
    ensures s != Unset
    ensures s == Positive <==> probability.Some? && probability.value >= Threshold
    ensures s == Negative <==> probability.None? || probability.value < Threshold
  {
    if AtLeast(probability, Threshold) then Positive else Negative
  }

  /** A higher probability never turns a positive label negative. */
  lemma ClassifyMonotone(p: real, q: real)
    requires p <= q
    requires Classify(Some(p)) == Positive
    ensures Classify(Some(q)) == Positive
  {
  }

  /** The `probability` member as `parseFloat` reads it, then thresholded.
      `parseString` is the numeric string grammar; `None` stands for NaN. A
      value that does not parse is not an error, but one whose ToString
      throws rejects with a TypeError. */
  function NormaliseLstm(apiResult: JsValue, parseString: string -> Option<real>): (r: Result<LstmResponse>)
    ensures r.Err? <==> apiResult.Null? || apiResult.Undefined? || ToStringThrows(Read(apiResult, Probability).value)
    ensures r.Err? ==> r.failure == TypeError
    ensures r.Ok? ==> r.value.probability == ParseFloat(Read(apiResult, Probability).value, parseString)
    ensures r.Ok? ==> r.value.sentiment != Unset
    ensures r.Ok? ==> (r.value.sentiment == Positive <==> AtLeast(r.value.probability, Threshold))
  {
    var raw :- Read(apiResult, Probability);
    if ToStringThrows(raw) then Err(TypeError)
    else
      var probability := ParseFloat(raw, parseString);
      Ok(LstmResponse(Classify(probability), probability))
  }

  /** A probability that does not parse yields a negative result carrying
      NaN, not a rejection. */
  lemma UnparseableIsNegative(apiResult: JsValue, parseString: string -> Option<real>)
    requires !apiResult.Null? && !apiResult.Undefined?
    requires !ToStringThrows(Read(apiResult, Probability).value)
    requires ParseFloat(Read(apiResult, Probability).value, parseString).None?
    ensures NormaliseLstm(apiResult, parseString) == Ok(LstmResponse(Negative, None))
  {
  }

  /** A body without a `probability` member resolves as Negative with NaN,
      whatever the string grammar: `parseFloat(undefined)` is NaN. */
  lemma MissingProbabilityIsNegative(members: seq<(string, JsValue)>, parseString: string -> Option<real>)
    requires forall i :: 0 <= i < |members| ==> members[i].0 != Name(Probability)
    ensures NormaliseLstm(Obj(members), parseString) == Ok(LstmResponse(Negative, None))
  {
  }

  /** A numeric probability is used as it is. */
  lemma NumericProbability(members: seq<(string, JsValue)>, p: real, parseString: string -> Option<real>)
    ensures NormaliseLstm(Obj(members + [(Name(Probability), Num(p))]), parseString)
      == Ok(LstmResponse(if p >= Threshold then Positive else Negative, Some(p)))
  {
  }

  /** A probability object with its own `toString` member makes
      `parseFloat` throw, so the call rejects, whatever else the body holds. */
  lemma ThrowingProbabilityRejects(members: seq<(string, JsValue)>, own: seq<(string, JsValue)>, parseString: string -> Option<real>)
    requires Get(members, Name(Probability)) == Obj(own)
    requires exists i :: 0 <= i < |own| && own[i].0 == "toString"
    ensures NormaliseLstm(Obj(members), parseString) == Err(TypeError)
  {
  }

  /** An array `probability` is joined by ToString element by element, so
      one element that throws makes the whole call reject. */
  lemma ThrowingElementRejects(members: seq<(string, JsValue)>, items: seq<JsValue>, k: int, parseString: string -> Option<real>)
    requires Get(members, Name(Probability)) == Arr(items)
    requires 0 <= k < |items| && ToStringThrows(items[k])
    ensures NormaliseLstm(Obj(members), parseString) == Err(TypeError)
  {
  }

  /** `predictLstm`: `backend` is what the network answers to a body. */
  function PredictLstm(reviewText: string, backend: LstmBody -> Exchange, parseString: string -> Option<real>): (r: Result<LstmResponse>)
    ensures Receive(backend(ShapeLstm(reviewText))).Err? ==> r == Err(Receive(backend(ShapeLstm(reviewText))).failure)
    ensures Delivered(backend(ShapeLstm(reviewText))) ==> r == NormaliseLstm(backend(ShapeLstm(reviewText)).body.value, parseString)
    ensures r.Ok? ==> Delivered(backend(ShapeLstm(reviewText)))
  {
    var apiResult :- Receive(backend(ShapeLstm(reviewText)));
    NormaliseLstm(apiResult, parseString)
  }

  /** A non-ok status rejects with that status and never gives a result. */
  lemma NotOkRejects(reviewText: string, backend: LstmBody -> Exchange, parseString: string -> Option<real>, status: int, body: Option<JsValue>)
    requires backend(ShapeLstm(reviewText)) == Response(status, body)
    requires !IsOk(status)
    ensures PredictLstm(reviewText, backend, parseString) == Err(HttpError(status))
  {
  }
}
