/** What the two asset controllers share: the service they bind to, the
    results they return, the JSON body of the range actions, and the way
    they report an `ArgumentException`. */
module ActionResults {
  import opened Common
  import opened Text
  import opened Models
  import opened Store
  import opened RequestHandlers

  /** `nameof(MongoDB)`: the name of the data services the controllers use. */
  const ServiceName: string := "MongoDB"

  /** The service name passes the requests' name guard. */
  lemma ServiceNameIsNotBlank()
    ensures !IsNullOrWhiteSpace(Some(ServiceName))
  {
    assert !IsWhiteSpace(ServiceName[0]);
  }

  /** The position of the first occurrence of `name`. */
  function IndexOf(names: seq<string>, name: string): (i: int)
    requires name in names
    ensures 0 <= i < |names| && names[i] == name
    ensures forall j :: 0 <= j < i ==> names[j] != name
  {
    if names[0] == name then 0 else 1 + IndexOf(names[1..], name)
  }

  /** `Single(x => x.Name == name)`, with ordinal comparison: the position of
      the one element with that name, or the exception. */
  function SingleNamed(names: seq<string>, name: string): (r: Result<int>)
    ensures r.Success? ==>
              0 <= r.value < |names| && names[r.value] == name &&
              forall j :: 0 <= j < |names| && names[j] == name ==> j == r.value
    ensures r == Failure(InvalidOperationException(NoMatch)) <==> name !in names
    ensures r == Failure(InvalidOperationException(MoreThanOneMatch)) <==>
              exists j, k :: 0 <= j < k < |names| && names[j] == name && names[k] == name
    ensures r.Success? || r == Failure(InvalidOperationException(NoMatch)) ||
            r == Failure(InvalidOperationException(MoreThanOneMatch))
  {
    assert NoMatch[18] != MoreThanOneMatch[18];
    if name !in names then
      Failure(InvalidOperationException(NoMatch))
    else
      var i := IndexOf(names, name);
      var rest := names[i + 1..];
      if name in rest then
        var k :| 0 <= k < |rest| && rest[k] == name;
        assert names[i + 1 + k] == name;
        Failure(InvalidOperationException(MoreThanOneMatch))
      else
        assert forall j :: i < j < |names| ==> names[j] == rest[j - i - 1];
        Success(i)
  }

  /** The kind of a `JsonElement`. */
  datatype JsonValueKind = Undefined | Object | Array | String | Number | True | False | Null

  /** What `Asset.FromJsonElement` makes of one element: the asset, or the
      `ArgumentException` it throws. */
  datatype Decoded = Decodes(asset: Asset) | Rejects(message: string, paramName: Option<string>)

  /** A request body: its kind and, for an array, what each of its elements
      decodes to. */
  datatype JsonElement = JsonElement(kind: JsonValueKind, items: seq<Decoded>)

  /** `EnumerateArray().Select(FromJsonElement)` materialised: every
      element decoded in order, or the exception of the first one that
      cannot be. */
  function DecodeAll(items: seq<Decoded>): (r: Result<seq<Asset>>)
    ensures r.Success? <==> forall i :: 0 <= i < |items| ==> items[i].Decodes?
    ensures r.Success? ==> |r.value| == |items| && forall i :: 0 <= i < |items| ==> r.value[i] == items[i].asset
    ensures r.Failure? ==>
              exists i :: 0 <= i < |items| && items[i].Rejects? &&
                (forall j :: 0 <= j < i ==> items[j].Decodes?) &&
                r.error == ArgumentException(items[i].message, items[i].paramName)
  {
    if items == [] then Success([])
    else
      match items[0]
      case Rejects(message, paramName) => Failure(ArgumentException(message, paramName))
      case Decodes(a) =>
        var rest := DecodeAll(items[1..]);
        assert forall i :: 1 <= i < |items| ==> items[i] == items[1..][i - 1];
        match rest
        case Failure(e) =>
          var i :| 0 <= i < |items[1..]| && items[1..][i].Rejects? &&
                   (forall j :: 0 <= j < i ==> items[1..][j].Decodes?) &&
                   e == ArgumentException(items[1..][i].message, items[1..][i].paramName);
          assert items[i + 1] == items[1..][i];
          assert forall j :: 1 <= j < i + 1 ==> items[j] == items[1..][j - 1];
          Failure(e)
        case Success(assets) =>
          Success([a] + assets)
  }

  /** One entry added to the model state. */
  datatype ModelError = ModelError(key: string, message: string)

  /** The results the controller actions return. */
  datatype ActionResult =
    | BadRequestState(errors: seq<ModelError>)
    | BadRequestMessage(message: string)
    | OkAssets(assets: seq<Asset>)
    | OkAsset(asset: Option<Asset>)
    | CreatedAtAction(actionName: string, odataPath: string, id: Guid, value: Asset)
    | NoContent

  /** The parameter name an `ArgumentException` carries. */
  function ParamName(e: Exception): (p: Option<string>) {
    match e
    case ArgumentNullException(argument) => Some(argument)
    case ArgumentException(_, paramName) => paramName
    case InvalidOperationException(_) => None
  }

  /** `ArgumentException.Message`: the message, followed by the parameter
      name when one is set. */
  function ExceptionMessage(e: Exception): (m: string)
    ensures !IsNullOrEmpty(ParamName(e)) ==>
              var p := ParamName(e).value;
              |m| > |p| + 14 && m[|m| - |p| - 2..|m| - 2] == p
  {
    var base := match e
      case ArgumentNullException(_) => "Value cannot be null."
      case ArgumentException(message, _) => message
      case InvalidOperationException(message) => message;
    match ParamName(e)
    case Some(p) =>
      if |p| > 0 then base + " (Parameter '" + p + "')" else base
    case None => base
  }

  /** The first catch clause applies: the exception names a parameter. */
  predicate NamesParameter(e: Exception) {
    !IsNullOrWhiteSpace(ParamName(e))
  }

  /** The model state after an `ArgumentException` is caught. */
  function CaughtState(modelState: seq<ModelError>, e: Exception): (after: seq<ModelError>) {
    if NamesParameter(e) then modelState + [ModelError(ParamName(e).value, ExceptionMessage(e))] else modelState
  }

  /** The result after an `ArgumentException` is caught: the model state
      with the error under the parameter's name, or the bare message. */
  function CaughtResult(modelState: seq<ModelError>, e: Exception): (result: ActionResult) {
    if NamesParameter(e) then BadRequestState(CaughtState(modelState, e)) else BadRequestMessage(ExceptionMessage(e))
  }

  /** A caught exception that names a parameter is reported under that name,
      with a message that ends by naming it again; one that does not is
      reported by its message alone and the model state is left as it was. */
  lemma CaughtReportsParameter(modelState: seq<ModelError>, e: Exception)
    ensures NamesParameter(e) ==>
              var p := ParamName(e).value;
              && CaughtResult(modelState, e) == BadRequestState(modelState + [ModelError(p, ExceptionMessage(e))])
              && ExceptionMessage(e)[|ExceptionMessage(e)| - |p| - 2..|ExceptionMessage(e)| - 2] == p
    ensures !NamesParameter(e) ==>
              CaughtState(modelState, e) == modelState && CaughtResult(modelState, e) == BadRequestMessage(ExceptionMessage(e))
  {
  }

  /** The single-asset controller filters with `!IsNullOrEmpty(p) &&
      !IsNullOrWhiteSpace(p)`; that is the same test. */
  lemma SingleAssetFilterIsNamesParameter(e: Exception)
    ensures (!IsNullOrEmpty(ParamName(e)) && !IsNullOrWhiteSpace(ParamName(e))) <==> NamesParameter(e)
  {
    EmptyTestIsRedundant(ParamName(e));
  }
}
