/** Survival prediction: `predictTitanic` split into request shaping, the
    transport step and response normalisation. */
module Titanic {
  import opened Results
  import opened Js
  import opened Transport

  datatype Sex = Male | Female

  /** Port of embarkation: Southampton, Cherbourg, Queenstown. */
  datatype Port = S | C | Q

  /** The passenger profile the view supplies. Every `number` is a `real`. */
  datatype TitanicRequest = TitanicRequest(
    embarked: Port, pclass: real, sex: Sex, age: real,
    sibsp: real, parch: real, fare: real)

  /** The JSON request body `{ features }`. */
  datatype TitanicBody = TitanicBody(features: seq<real>)

  type Bit = b: int | 0 <= b <= 1

  datatype TitanicResponse = TitanicResponse(survived: Bit, probability: real)

  /** The label the backend uses for "survived". Any other label means died. */
  const SurvivedLabel: string := "생존"

  /** Placeholder probabilities, standing in for one the backend never sends. */
  const SurvivedProbability: real := 0.75
  const DiedProbability: real := 0.25

  // ---------------------------------------------------------------------
  // Request shaping
  // ---------------------------------------------------------------------

  /** A boolean as a 0/1 feature. */
  function Indicator(b: bool): real {
    if b then 1.0 else 0.0
  }

  function SexEncoded(sex: Sex): (x: real)
    ensures IsBit(x)
    ensures x == 1.0 <==> sex == Female
  {
    Indicator(sex == Female)
  }

  function EmbarkedQ(port: Port): (x: real)
    ensures IsBit(x)
    ensures x == 1.0 <==> port == Q
  {
    Indicator(port == Q)
  }

  function EmbarkedS(port: Port): (x: real)
    ensures IsBit(x)
    ensures x == 1.0 <==> port == S
    ensures x == 1.0 ==> EmbarkedQ(port) == 0.0
  {
    Indicator(port == S)
  }

  /** The passenger plus siblings, spouses, parents and children. */
  function FamilySize(data: TitanicRequest): (n: real)
    ensures data.sibsp >= 0.0 && data.parch >= 0.0 ==> n >= 1.0
    ensures data.sibsp >= 0.0 && data.parch >= 0.0 ==> (n == 1.0 <==> data.sibsp == 0.0 && data.parch == 0.0)
  {
    data.sibsp + data.parch + 1.0
  }

  function IsAlone(data: TitanicRequest): (x: real)
    ensures IsBit(x)
    ensures x == 1.0 <==> data.sibsp + data.parch == 0.0
  {
    Indicator(FamilySize(data) == 1.0)
  }

  /** Slot positions of the feature vector the backend was trained on. */
  const PclassSlot := 0
  const SexSlot := 1
  const AgeSlot := 2
  const FareSlot := 3
  const EmbarkedQSlot := 4
  const EmbarkedSSlot := 5
  const FamilySizeSlot := 6
  const IsAloneSlot := 7
  const FeatureCount := 8

  /** The eight features, in the order the backend expects. */
  function Features(data: TitanicRequest): (v: seq<real>)
    ensures |v| == FeatureCount
  {
    [data.pclass, SexEncoded(data.sex), data.age, data.fare,
     EmbarkedQ(data.embarked), EmbarkedS(data.embarked),
     FamilySize(data), IsAlone(data)]
  }

  function ShapeTitanic(data: TitanicRequest): (body: TitanicBody)
    ensures |body.features| == FeatureCount
  {
    TitanicBody(Features(data))
  }

  // ---------------------------------------------------------------------
  // What the feature vector carries, and reading it back
  // ---------------------------------------------------------------------

  /** The information the backend receives about a passenger: everything in
      the request except how the family splits into siblings/spouses and
      parents/children. */
  datatype Profile = Profile(
    pclass: real, sex: Sex, age: real, fare: real,
    embarked: Port, familySize: real)

  function ProfileOf(data: TitanicRequest): Profile {
    Profile(data.pclass, data.sex, data.age, data.fare, data.embarked, FamilySize(data))
  }

  predicate IsBit(x: real) {
    x == 0.0 || x == 1.0
  }

  /** An independent reading of a feature vector by slot name: `None` for a
      vector no request could have produced. */
  function DecodeFeatures(v: seq<real>): (p: Option<Profile>)
    ensures p.Some? ==> |v| == FeatureCount
  {
    if |v| != FeatureCount then None
    else if !IsBit(v[SexSlot]) || !IsBit(v[EmbarkedQSlot]) || !IsBit(v[EmbarkedSSlot]) then None
    else if v[EmbarkedQSlot] == 1.0 && v[EmbarkedSSlot] == 1.0 then None
    else if v[IsAloneSlot] != Indicator(v[FamilySizeSlot] == 1.0) then None
    else
      var sex := if v[SexSlot] == 1.0 then Female else Male;
      var port := if v[EmbarkedQSlot] == 1.0 then Q else if v[EmbarkedSSlot] == 1.0 then S else C;
      Some(Profile(v[PclassSlot], sex, v[AgeSlot], v[FareSlot], port, v[FamilySizeSlot]))
  }

  /** Every slot holds the field or derived value it is named after. */
  lemma FeatureLayout(data: TitanicRequest)
    ensures DecodeFeatures(Features(data)) == Some(ProfileOf(data))
  {
  }

  /** Two requests give the same feature vector exactly when they agree on
      every field except the split of `sibsp + parch`. */
  lemma FeaturesDetermineProfile(a: TitanicRequest, b: TitanicRequest)
    ensures Features(a) == Features(b) <==> ProfileOf(a) == ProfileOf(b)
  {
  }

  /** Every vector that decodes is the shaping of a request with that
      profile: shaping reaches all of them, and nothing else. */
  lemma DecodedIsShaped(v: seq<real>)
    requires DecodeFeatures(v).Some?
    ensures var p := DecodeFeatures(v).value;
      Features(TitanicRequest(p.embarked, p.pclass, p.sex, p.age, p.familySize - 1.0, 0.0, p.fare)) == v
  {
  }

  /** The indicators are 0/1 and encode exactly what they are named after;
      the two port indicators are never both set, and both are clear for
      Cherbourg. */
  lemma Indicators(data: TitanicRequest)
    ensures var v := Features(data);
      IsBit(v[SexSlot]) && IsBit(v[EmbarkedQSlot]) && IsBit(v[EmbarkedSSlot]) && IsBit(v[IsAloneSlot]) &&
      (v[SexSlot] == 1.0 <==> data.sex == Female) &&
      (v[EmbarkedQSlot] == 1.0 <==> data.embarked == Q) &&
      (v[EmbarkedSSlot] == 1.0 <==> data.embarked == S) &&
      !(v[EmbarkedQSlot] == 1.0 && v[EmbarkedSSlot] == 1.0) &&
      (v[EmbarkedQSlot] == 0.0 && v[EmbarkedSSlot] == 0.0 <==> data.embarked == C)
  {
  }

  /** The family features: a size of siblings, spouses, parents, children
      and the passenger; "alone" exactly when that size is one. With counts
      that are not negative, the size is at least one and "alone" means no
      relatives at all. */
  lemma FamilyFeatures(data: TitanicRequest)
    ensures var v := Features(data);
      v[FamilySizeSlot] == data.sibsp + data.parch + 1.0 &&
      (v[IsAloneSlot] == 1.0 <==> v[FamilySizeSlot] == 1.0) &&
      (data.sibsp >= 0.0 && data.parch >= 0.0 ==>
        v[FamilySizeSlot] >= 1.0 &&
        (v[IsAloneSlot] == 1.0 <==> data.sibsp == 0.0 && data.parch == 0.0))
  {
  }

  // ---------------------------------------------------------------------
  // Response normalisation
  // ---------------------------------------------------------------------

  /** `prediction === '생존' ? 1 : 0`: strict equality, so only that exact
      string counts as survived. */
  function SurvivedCode(prediction: JsValue): (code: Bit)
    ensures code == 1 <==> prediction == Str(SurvivedLabel)
  {
    if prediction == Str(SurvivedLabel) then 1 else 0
  }

  function PlaceholderProbability(code: Bit): (p: real)
    ensures 0.0 <= p <= 1.0
    ensures p == SurvivedProbability <==> code == 1
    ensures p == DiedProbability <==> code == 0
  {
    if code == 1 then SurvivedProbability else DiedProbability
  }

  function NormaliseTitanic(apiResult: JsValue): (r: Result<TitanicResponse>)
    ensures r.Err? <==> apiResult.Null? || apiResult.Undefined?
    ensures r.Err? ==> r.failure == TypeError
    ensures r.Ok? ==> (r.value.survived == 1 <==> Read(apiResult, Prediction) == Ok(Str(SurvivedLabel)))
    ensures r.Ok? ==> 0.0 <= r.value.probability <= 1.0
    ensures r.Ok? ==> r.value.probability == (if r.value.survived == 1 then SurvivedProbability else DiedProbability)
  {
    var prediction :- Read(apiResult, Prediction);
    var code := SurvivedCode(prediction);
    Ok(TitanicResponse(code, PlaceholderProbability(code)))
  }

  /** A label other than the survived one is not an error: it reads as died. */
  lemma OtherLabelIsDied(members: seq<(string, JsValue)>)
    requires Get(members, Name(Prediction)) != Str(SurvivedLabel)
    ensures NormaliseTitanic(Obj(members)) == Ok(TitanicResponse(0, DiedProbability))
  {
  }

  /** The probability is a function of the outcome alone, whatever the body. */
  lemma ProbabilityFollowsOutcome(x: JsValue, y: JsValue)
    ensures var rx, ry := NormaliseTitanic(x), NormaliseTitanic(y);
      rx.Ok? && ry.Ok? && rx.value.survived == ry.value.survived ==> rx == ry
  {
  }

  // ---------------------------------------------------------------------
  // The whole call
  // ---------------------------------------------------------------------

  /** `predictTitanic`: `backend` is what the network answers to a body. */
  function PredictTitanic(data: TitanicRequest, backend: TitanicBody -> Exchange): (r: Result<TitanicResponse>)
    ensures Receive(backend(ShapeTitanic(data))).Err? ==> r == Err(Receive(backend(ShapeTitanic(data))).failure)
    ensures Delivered(backend(ShapeTitanic(data))) ==> r == NormaliseTitanic(backend(ShapeTitanic(data)).body.value)
    ensures r.Ok? ==> Delivered(backend(ShapeTitanic(data)))
  {
    var apiResult :- Receive(backend(ShapeTitanic(data)));
    NormaliseTitanic(apiResult)
  }

  /** A non-ok status rejects with that status and never gives a result. */
  lemma NotOkRejects(data: TitanicRequest, backend: TitanicBody -> Exchange, status: int, body: Option<JsValue>)
    requires backend(ShapeTitanic(data)) == Response(status, body)
    requires !IsOk(status)
    ensures PredictTitanic(data, backend) == Err(HttpError(status))
  {
  }
}
