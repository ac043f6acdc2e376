/** Worked end-to-end calls: a request, what the backend answers, and the
    result the adapter resolves or rejects with. */
module Scenarios {
  import opened Results
  import opened Js
  import opened Transport
  import Titanic
  import Mnist
  import Iris
  import Lstm

  function Answer(prediction: JsValue): Exchange {
    Response(200, Some(Obj([("prediction", prediction)])))
  }

  /** A third-class male from Southampton with one sibling: the vector
      carries a family of two, not alone; a "died" label gives 0 and 0.25. */
  lemma TitanicScenario()
    ensures var data := Titanic.TitanicRequest(Titanic.S, 3.0, Titanic.Male, 22.0, 1.0, 0.0, 7.25);
      Titanic.ShapeTitanic(data).features == [3.0, 0.0, 22.0, 7.25, 0.0, 1.0, 2.0, 0.0] &&
      Titanic.PredictTitanic(data, _ => Answer(Str("사망"))) == Ok(Titanic.TitanicResponse(0, 0.25))
  {
  }

  /** The measurements go out in order; the species comes back with a
      confidence of one. */
  lemma IrisScenario()
    ensures var data := Iris.IrisRequest(5.1, 3.5, 1.4, 0.2);
      Iris.ShapeIris(data).features == [5.1, 3.5, 1.4, 0.2] &&
      Iris.PredictIris(data, _ => Answer(Str("setosa"))) == Ok(Iris.IrisResponse(Str("setosa"), 1.0))
  {
  }

  /** "0.82" parses to a positive result and "0.10" to a negative one,
      each carrying the parsed probability. */
  lemma LstmScenario(parseString: string -> Option<real>, review: string)
    requires parseString("0.82") == Some(0.82)
    requires parseString("0.10") == Some(0.10)
    ensures Lstm.PredictLstm(review, _ => Response(200, Some(Obj([("probability", Str("0.82"))]))), parseString)
      == Ok(Lstm.LstmResponse(Lstm.Positive, Some(0.82)))
    ensures Lstm.PredictLstm(review, _ => Response(200, Some(Obj([("probability", Str("0.10"))]))), parseString)
      == Ok(Lstm.LstmResponse(Lstm.Negative, Some(0.10)))
  {
  }

  /** Status 500 rejects every one of the four calls with that status. */
  lemma ServerErrorScenario(
    titanic: Titanic.TitanicRequest, image: string, iris: Iris.IrisRequest, review: string,
    parseString: string -> Option<real>, body: Option<JsValue>)
    ensures Titanic.PredictTitanic(titanic, _ => Response(500, body)) == Err(HttpError(500))
    ensures Mnist.PredictMnist(image, _ => Response(500, body)) == Err(HttpError(500))
    ensures Iris.PredictIris(iris, _ => Response(500, body)) == Err(HttpError(500))
    ensures Lstm.PredictLstm(review, _ => Response(500, body), parseString) == Err(HttpError(500))
  {
  }
}
