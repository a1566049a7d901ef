/** The range controller: query the assets through the mediator, and create,
    replace or delete a batch of assets directly on the data command
    service. Every rejected body adds an error to the model state, which the
    bad-request result carries. */
module AssetsControllers {
  import opened Common
  import opened Models
  import opened Requests
  import opened Store
  import opened RequestHandlers
  import opened ActionResults

  /** Some asset of the batch carries an id. */
  predicate AnyIdSet(models: seq<Asset>) {
    exists i :: 0 <= i < |models| && models[i].id != EmptyGuid
  }

  class AssetsController {
    const dataCommandService: DataCommandService
    var modelState: seq<ModelError>

    constructor (dataCommandService: DataCommandService)
      ensures this.dataCommandService == dataCommandService && modelState == []
    {
      this.dataCommandService := dataCommandService;
      modelState := [];
    }

    /** The controller's constructor: it binds to the one data command
      service named `MongoDB`, and throws unless there is exactly one. */
    static method Bind(services: seq<DataCommandService>) returns (r: Result<AssetsController>)
      ensures var sel := SingleNamed(CommandServiceNames(services), ServiceName);
              && (sel.Failure? ==> r == Failure(sel.error))
              && (sel.Success? ==>
                    && r.Success? && fresh(r.value)
                    && r.value.dataCommandService == services[sel.value]
                    && r.value.modelState == [])
    {
      var sel := SingleNamed(CommandServiceNames(services), ServiceName);
      if sel.Failure? {
        return Failure(sel.error);
      }
      var c := new AssetsController(services[sel.value]);
      r := Success(c);
    }

    /** `GetAssets(options)`: sends the query request for `MongoDB` through
      the mediator, whose handler is `queries`. Nothing is caught. */
    method GetAssets(options: Option<QueryOptions>, queries: QueryRequestHandler) returns (r: Result<ActionResult>)
      ensures match NewGetAssetsRequest(Some(ServiceName), options)
              case Failure(e) => r == Failure(e)
              case Success(request) =>
                match queries.Handle(Some(request))
                case Failure(e) => r == Failure(e)
                case Success(assets) => r == Success(OkAssets(assets))
      ensures options.None? ==> r == Failure(ArgumentNullException("queryOptions"))
    {
      ServiceNameIsNotBlank();
      var request := NewGetAssetsRequest(Some(ServiceName), options);
      if request.Failure? {
        return Failure(request.error);
      }
      var response := queries.Handle(Some(request.value));
      if response.Failure? {
        return Failure(response.error);
      }
      r := Success(OkAssets(response.value));
    }

    /** Adds `error` to the model state and reports the whole state. */
    method Reject(error: ModelError) returns (result: ActionResult)
      modifies this
      ensures modelState == old(modelState) + [error]
      ensures result == BadRequestState(modelState)
    {
      modelState := modelState + [error];
      result := BadRequestState(modelState);
    }

    /** The catch clauses around each batch operation. */
    method Catch(e: Exception) returns (result: ActionResult)
      modifies this
      ensures modelState == CaughtState(old(modelState), e)
      ensures result == CaughtResult(old(modelState), e)
    {
      if NamesParameter(e) {
        result := Reject(ModelError(ParamName(e).value, ExceptionMessage(e)));
      } else {
        result := BadRequestMessage(ExceptionMessage(e));
      }
    }

    /** `PostAssets(element)`. `newIds[i]` is the id the backend assigns to
      the asset at position `i`. */
    method PostAssets(element: JsonElement, newIds: seq<Guid>) returns (result: ActionResult)
      requires |newIds| == |element.items|
      modifies this, dataCommandService
      ensures element.kind != Array ==>
                && modelState == old(modelState) + [ModelError("element", "Models must be an array")]
                && result == BadRequestState(modelState)
                && unchanged(dataCommandService)
      ensures element.kind == Array && element.items == [] ==>
                && modelState == old(modelState) + [ModelError("element", "Models cannot be empty")]
                && result == BadRequestState(modelState)
                && unchanged(dataCommandService)
      ensures element.kind == Array && element.items != [] ==>
                match DecodeAll(element.items)
                case Failure(e) =>
                  && modelState == CaughtState(old(modelState), e)
                  && result == CaughtResult(old(modelState), e)
                  && unchanged(dataCommandService)
                case Success(models) =>
                  if AnyIdSet(models) then
                    && modelState == old(modelState) + [ModelError("element", "Ids must be empty")]
                    && result == BadRequestState(modelState)
                    && unchanged(dataCommandService)
                  else
                    var created := AssignIds(models, newIds);
                    && modelState == old(modelState)
                    && result == OkAssets(created)
                    && dataCommandService.records == InsertEach(old(dataCommandService.records), created)
                    && dataCommandService.calls == old(dataCommandService.calls) + [CreateRangeCall(models), SaveChangesCall]
    {
      if element.kind != Array {
        result := Reject(ModelError("element", "Models must be an array"));
      } else if |element.items| == 0 {
        result := Reject(ModelError("element", "Models cannot be empty"));
      } else {
        var models := DecodeAll(element.items);
        if models.Failure? {
          result := Catch(models.error);
        } else if AnyIdSet(models.value) {
          result := Reject(ModelError("element", "Ids must be empty"));
        } else {
          var response := dataCommandService.CreateRange(models.value, newIds);
          dataCommandService.SaveChanges();
          result := OkAssets(response);
        }
      }
    }

    /** `PutAssets(element)`. `clock[i]` is the reading `UtcNow` takes for
      the asset at position `i`. */
    method PutAssets(element: JsonElement, clock: seq<DateTime>) returns (result: ActionResult)
      requires |clock| == |element.items|
      modifies this, dataCommandService
      ensures element.kind != Array ==>
                && modelState == old(modelState) + [ModelError("element", "Models must be an array")]
                && result == BadRequestState(modelState)
                && unchanged(dataCommandService)
      ensures element.kind == Array && element.items == [] ==>
                && modelState == old(modelState) + [ModelError("element", "Models cannot be empty")]
                && result == BadRequestState(modelState)
                && unchanged(dataCommandService)
      ensures element.kind == Array && element.items != [] ==>
                match DecodeAll(element.items)
                case Failure(e) =>
                  && modelState == CaughtState(old(modelState), e)
                  && result == CaughtResult(old(modelState), e)
                  && unchanged(dataCommandService)
                case Success(models) =>
                  var pairs := KeyedByOwnId(StampedAll(models, clock));
                  && modelState == old(modelState)
                  && result == NoContent
                  && dataCommandService.records == UpdateEach(old(dataCommandService.records), pairs)
                  && dataCommandService.calls == old(dataCommandService.calls) + [UpdateRangeCall(pairs), SaveChangesCall]
    {
      if element.kind != Array {
        result := Reject(ModelError("element", "Models must be an array"));
      } else if |element.items| == 0 {
        result := Reject(ModelError("element", "Models cannot be empty"));
      } else {
        var models := DecodeAll(element.items);
        if models.Failure? {
          result := Catch(models.error);
        } else {
          var stamped := StampUpdatedDates(models.value, clock);
          var pairs := KeyedByOwnId(stamped);
          dataCommandService.UpdateRange(pairs);
          dataCommandService.SaveChanges();
          result := NoContent;
        }
      }
    }

    /** `DeleteAssets(ids)`; an absent query parameter is `None`. */
    method DeleteAssets(ids: Option<seq<Guid>>) returns (result: ActionResult)
      modifies this, dataCommandService
      ensures ids.None? || ids.value == [] ==>
                && modelState == old(modelState) + [ModelError("ids", "Ids are required")]
                && result == BadRequestState(modelState)
                && unchanged(dataCommandService)
      ensures ids.Some? && ids.value != [] ==>
                && modelState == old(modelState)
                && result == NoContent
                && dataCommandService.records == DeleteEach(old(dataCommandService.records), ids.value)
                && dataCommandService.calls == old(dataCommandService.calls) + [DeleteRangeCall(ids.value), SaveChangesCall]
    {
      if ids.None? || |ids.value| == 0 {
        result := Reject(ModelError("ids", "Ids are required"));
      } else {
        dataCommandService.DeleteRange(ids.value);
        dataCommandService.SaveChanges();
        result := NoContent;
      }
    }
  }

  /** A batch is created only when every element decodes and none carries
      an id; the created assets then keep the decoded values except for the
      ids the backend assigns, and when those ids are distinct each created
      asset is the record stored under its new id. */
  lemma PostedBatchIsStored(items: seq<Decoded>, newIds: seq<Guid>, records: map<Guid, Asset>)
    requires |newIds| == |items|
    requires DecodeAll(items).Success? && !AnyIdSet(DecodeAll(items).value)
    ensures var models := DecodeAll(items).value;
            var created := AssignIds(models, newIds);
            && |created| == |items|
            && (forall i :: 0 <= i < |items| ==>
                  created[i] == items[i].asset.(id := newIds[i]) && items[i].asset.id == EmptyGuid)
            && InsertEach(records, created).Keys == records.Keys + (set a | a in created :: a.id)
            && ((forall i, j :: 0 <= i < j < |newIds| ==> newIds[i] != newIds[j]) ==>
                  forall i :: 0 <= i < |items| ==>
                    newIds[i] in InsertEach(records, created) && InsertEach(records, created)[newIds[i]] == created[i])
  {
    var models := DecodeAll(items).value;
    var created := AssignIds(models, newIds);
    InsertEachAt(records, created, EmptyGuid);
    if forall i, j :: 0 <= i < j < |newIds| ==> newIds[i] != newIds[j] {
      forall i | 0 <= i < |items|
        ensures newIds[i] in InsertEach(records, created) && InsertEach(records, created)[newIds[i]] == created[i]
      {
        InsertEachStores(records, created, i);
      }
    }
  }
}
