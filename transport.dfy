/** The transport step shared by the four prediction operations: POST the
    shaped body, reject unless the response is ok, then decode its body.

    The network is not modelled. What `fetch` and `response.json()` come
    back with for a given request is an `Exchange`, supplied from outside. */
module Transport {
  import opened Results
  import opened Js

  datatype Exchange =
    | NoResponse                                 // `fetch` rejects
    | Response(status: int, body: Option<JsValue>) // `None`: the body is not JSON

  /** `response.ok`: the status is in the range 200-299. */
  predicate IsOk(status: int)
    ensures IsOk(status) <==> status / 100 == 2
  {
    200 <= status <= 299
  }

  /** An exchange that gets past the status check and whose body decodes. */
  predicate Delivered(x: Exchange) {
    x.Response? && IsOk(x.status) && x.body.Some?
  }

  /** Await the response, throw on a non-ok status, then await the decoded
      body. The body is only decoded once the status check has passed. */
  function Receive(x: Exchange): (r: Result<JsValue>)
    ensures r.Ok? <==> Delivered(x)
    ensures r.Ok? ==> r.value == x.body.value
    ensures x.NoResponse? ==> r == Err(NetworkError)
    ensures x.Response? && !IsOk(x.status) ==> r == Err(HttpError(x.status))
    ensures x.Response? && IsOk(x.status) && x.body.None? ==> r == Err(InvalidJson)
  {
    match x
    case NoResponse => Err(NetworkError)
    case Response(status, body) =>
      if !IsOk(status) then Err(HttpError(status))
      else if body.None? then Err(InvalidJson)
      else Ok(body.value)
  }
}
