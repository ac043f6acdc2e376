/** Digit recognition: `predictMnist`. The request forwards the captured
    image string; the response passes the backend's prediction through. */
module Mnist {
  import opened Results
  import opened Js
  import opened Transport

  /** The JSON request body `{ image_base64 }`. */
  datatype MnistBody = MnistBody(imageBase64: string)

  /** `prediction` is whatever the backend put under that name (declared a
      number, but never checked); `confidence` is a placeholder. */
  datatype MnistResponse = MnistResponse(prediction: JsValue, confidence: real)

  /** The backend returns no confidence; this stands in for one. */
  const PlaceholderConfidence: real := 1.0

  function ShapeMnist(base64Image: string): (body: MnistBody)
    ensures body.imageBase64 == base64Image
  {
    MnistBody(base64Image)
  }

  function NormaliseMnist(apiResult: JsValue): (r: Result<MnistResponse>)
    ensures r.Err? <==> apiResult.Null? || apiResult.Undefined?
    ensures r.Err? ==> r.failure == TypeError
    ensures r.Ok? ==> Read(apiResult, Prediction) == Ok(r.value.prediction)
    ensures r.Ok? ==> r.value.confidence == 1.0
  {
    var prediction :- Read(apiResult, Prediction);
    Ok(MnistResponse(prediction, PlaceholderConfidence))
  }

  /** Only the `prediction` member of the body matters: members of other
      names change nothing. */
  lemma OnlyPredictionMatters(members: seq<(string, JsValue)>, key: string, v: JsValue)
    requires key != Name(Prediction)
    ensures NormaliseMnist(Obj(members + [(key, v)])) == NormaliseMnist(Obj(members))
  {
  }

  /** A body without a `prediction` member is not rejected: the result
      carries `undefined`. */
  lemma MissingPredictionPassesThrough(members: seq<(string, JsValue)>)
    requires forall i :: 0 <= i < |members| ==> members[i].0 != Name(Prediction)
    ensures NormaliseMnist(Obj(members)) == Ok(MnistResponse(Undefined, PlaceholderConfidence))
  {
  }

  /** `predictMnist`: `backend` is what the network answers to a body. */
  function PredictMnist(base64Image: string, backend: MnistBody -> Exchange): (r: Result<MnistResponse>)
    ensures Receive(backend(ShapeMnist(base64Image))).Err? ==> r == Err(Receive(backend(ShapeMnist(base64Image))).failure)
    ensures Delivered(backend(ShapeMnist(base64Image))) ==> r == NormaliseMnist(backend(ShapeMnist(base64Image)).body.value)
    ensures r.Ok? ==> Delivered(backend(ShapeMnist(base64Image)))
  {
    var apiResult :- Receive(backend(ShapeMnist(base64Image)));
    NormaliseMnist(apiResult)
  }

  /** A non-ok status rejects with that status and never gives a result. */
  lemma NotOkRejects(base64Image: string, backend: MnistBody -> Exchange, status: int, body: Option<JsValue>)
    requires backend(ShapeMnist(base64Image)) == Response(status, body)
    requires !IsOk(status)
    ensures PredictMnist(base64Image, backend) == Err(HttpError(status))
  {
  }
}
