/** Flower classification: `predictIris`. The request is the four
    measurements in a fixed order; the response passes the backend's
    species through. */
module Iris {
  import opened Results
  import opened Js
  import opened Transport

  datatype IrisRequest = IrisRequest(
    sepalLength: real, sepalWidth: real, petalLength: real, petalWidth: real)

  /** The JSON request body `{ features }`. */
  datatype IrisBody = IrisBody(features: seq<real>)

  /** `prediction` is whatever the backend put under that name (declared a
      string, but never checked); `confidence` is a placeholder. */
  datatype IrisResponse = IrisResponse(prediction: JsValue, confidence: real)

  /** The backend returns no confidence; this stands in for one. */
  const PlaceholderConfidence: real := 1.0

  /** The order the classifier was trained on. */
  function IrisFeatures(data: IrisRequest): (v: seq<real>)
    ensures |v| == 4
  {
    [data.sepalLength, data.sepalWidth, data.petalLength, data.petalWidth]
  }

  function ShapeIris(data: IrisRequest): (body: IrisBody)
    ensures |body.features| == 4
  {
    IrisBody(IrisFeatures(data))
  }

  /** Reads a vector of four measurements back, by position. */
  function DecodeIris(v: seq<real>): (r: Option<IrisRequest>)
    ensures r.Some? <==> |v| == 4
  {
    if |v| == 4 then Some(IrisRequest(v[0], v[1], v[2], v[3])) else None
  }

  /** Shaping and reading back are inverse to each other: each measurement
      sits in its own slot, and every vector of four is some request's. */
  lemma IrisRoundTrip(data: IrisRequest, v: seq<real>)
    ensures DecodeIris(IrisFeatures(data)) == Some(data)
    ensures DecodeIris(v) == Some(data) <==> IrisFeatures(data) == v
  {
  }

  function NormaliseIris(apiResult: JsValue): (r: Result<IrisResponse>)
    ensures r.Err? <==> apiResult.Null? || apiResult.Undefined?
    ensures r.Err? ==> r.failure == TypeError
    ensures r.Ok? ==> Read(apiResult, Prediction) == Ok(r.value.prediction)
    ensures r.Ok? ==> r.value.confidence == 1.0
  {
    var prediction :- Read(apiResult, Prediction);
    Ok(IrisResponse(prediction, PlaceholderConfidence))
  }

  /** Only the `prediction` member of the body matters: members of other
      names change nothing. */
  lemma OnlyPredictionMatters(members: seq<(string, JsValue)>, key: string, v: JsValue)
    requires key != Name(Prediction)
    ensures NormaliseIris(Obj(members + [(key, v)])) == NormaliseIris(Obj(members))
  {
  }

  /** `predictIris`: `backend` is what the network answers to a body. */
  function PredictIris(data: IrisRequest, backend: IrisBody -> Exchange): (r: Result<IrisResponse>)
    ensures Receive(backend(ShapeIris(data))).Err? ==> r == Err(Receive(backend(ShapeIris(data))).failure)
    ensures Delivered(backend(ShapeIris(data))) ==> r == NormaliseIris(backend(ShapeIris(data)).body.value)
    ensures r.Ok? ==> Delivered(backend(ShapeIris(data)))
  {
    var apiResult :- Receive(backend(ShapeIris(data)));
    NormaliseIris(apiResult)
  }

  /** A non-ok status rejects with that status and never gives a result. */
  lemma NotOkRejects(data: IrisRequest, backend: IrisBody -> Exchange, status: int, body: Option<JsValue>)
    requires backend(ShapeIris(data)) == Response(status, body)
    requires !IsOk(status)
    ensures PredictIris(data, backend) == Err(HttpError(status))
  {
  }
}
