/** The single-asset controller: read one asset from the data query service,
    and create, replace or delete one asset on the data command service. */
module AssetControllers {
  import opened Common
  import opened Models
  import opened Store
  import opened RequestHandlers
  import opened ActionResults

  /** The OData path of the asset with id `id`, as the created result gives
      it. */
  function AssetPath(id: Guid): (p: string)
    ensures |p| == 42 && p[..6] == "Asset/"
  {
    "Asset/" + GuidString(id)
  }

  /** The path of a created asset names it: two ids get the same path
      exactly when they are equal. */
  lemma AssetPathInjective(a: Guid, b: Guid)
    ensures AssetPath(a) == AssetPath(b) <==> a == b
  {
    if AssetPath(a) == AssetPath(b) {
      assert GuidString(a) == AssetPath(a)[6..];
      assert GuidString(b) == AssetPath(b)[6..];
    }
    GuidStringInjective(a, b);
  }

  class AssetController {
    const dataQueryService: DataQueryService
    const dataCommandService: DataCommandService
    var modelState: seq<ModelError>

    constructor (dataQueryService: DataQueryService, dataCommandService: DataCommandService)
      ensures this.dataQueryService == dataQueryService
      ensures this.dataCommandService == dataCommandService
      ensures modelState == []
    {
      this.dataQueryService := dataQueryService;
      this.dataCommandService := dataCommandService;
      modelState := [];
    }

    /** The controller's constructor: it binds to the one query service and
      then to the one command service named `MongoDB`, and throws unless
      each exists exactly once. */
    static method Bind(queryServices: seq<DataQueryService>, commandServices: seq<DataCommandService>)
      returns (r: Result<AssetController>)
      ensures var q := SingleNamed(QueryServiceNames(queryServices), ServiceName);
              var c := SingleNamed(CommandServiceNames(commandServices), ServiceName);
              && (q.Failure? ==> r == Failure(q.error))
              && (q.Success? && c.Failure? ==> r == Failure(c.error))
              && (q.Success? && c.Success? ==>
                    && r.Success? && fresh(r.value)
                    && r.value.dataQueryService == queryServices[q.value]
                    && r.value.dataCommandService == commandServices[c.value]
                    && r.value.modelState == [])
    {
      var q := SingleNamed(QueryServiceNames(queryServices), ServiceName);
      if q.Failure? {
        return Failure(q.error);
      }
      var c := SingleNamed(CommandServiceNames(commandServices), ServiceName);
      if c.Failure? {
        return Failure(c.error);
      }
      var controller := new AssetController(queryServices[q.value], commandServices[c.value]);
      r := Success(controller);
    }

    /** Adds `error` to the model state and reports the whole state. */
    method Reject(error: ModelError) returns (result: ActionResult)
      modifies this
      ensures modelState == old(modelState) + [error]
      ensures result == BadRequestState(modelState)
    {
      modelState := modelState + [error];
      result := BadRequestState(modelState);
    }

    /** `GetAsset(id)`: the asset with that key, or null, from the query
      service. */
    method GetAsset(id: Guid) returns (result: ActionResult)
      modifies this
      ensures id == EmptyGuid ==>
                && modelState == old(modelState) + [ModelError("id", "Id is required")]
                && result == BadRequestState(modelState)
      ensures id != EmptyGuid ==>
                && modelState == old(modelState)
                && result == OkAsset(Lookup(dataQueryService.records, [id]))
    {
      if id == EmptyGuid {
        result := Reject(ModelError("id", "Id is required"));
      } else {
        var model := Lookup(dataQueryService.records, [id]);
        result := OkAsset(model);
      }
    }

    /** `PostAsset(model)`; a missing body is `None`. `newId` is the id the
      backend assigns. */
    method PostAsset(model: Option<Asset>, newId: Guid) returns (result: ActionResult)
      modifies this, dataCommandService
      ensures model.None? ==>
                && modelState == old(modelState) + [ModelError("model", "Model is required")]
                && result == BadRequestState(modelState)
                && unchanged(dataCommandService)
      ensures model.Some? && model.value.id != EmptyGuid ==>
                && modelState == old(modelState) + [ModelError("model", "Id must be empty")]
                && result == BadRequestState(modelState)
                && unchanged(dataCommandService)
      ensures model.Some? && model.value.id == EmptyGuid ==>
                var created := model.value.(id := newId);
                && modelState == old(modelState)
                && result == CreatedAtAction("GetAsset", AssetPath(newId), newId, created)
                && dataCommandService.records == old(dataCommandService.records)[newId := created]
                && dataCommandService.calls == old(dataCommandService.calls) + [CreateCall(model.value), SaveChangesCall]
    {
      if model.None? {
        result := Reject(ModelError("model", "Model is required"));
      } else if model.value.id != EmptyGuid {
        result := Reject(ModelError("model", "Id must be empty"));
      } else {
        var created := dataCommandService.Create(model.value, newId);
        dataCommandService.SaveChanges();
        result := CreatedAtAction("GetAsset", AssetPath(created.id), created.id, created);
      }
    }

    /** `PutAsset(id, model)`; a missing body is `None`, whose id never
      matches. The asset is written as given: no update date is set here. */
    method PutAsset(id: Guid, model: Option<Asset>) returns (result: ActionResult)
      modifies this, dataCommandService
      ensures id == EmptyGuid ==>
                && modelState == old(modelState) + [ModelError("id", "Id is required")]
                && result == BadRequestState(modelState)
                && unchanged(dataCommandService)
      ensures id != EmptyGuid && (model.None? || model.value.id != id) ==>
                && modelState == old(modelState) + [ModelError("id", "Ids must match")]
                && result == BadRequestState(modelState)
                && unchanged(dataCommandService)
      ensures id != EmptyGuid && model.Some? && model.value.id == id ==>
                && modelState == old(modelState)
                && result == NoContent
                && dataCommandService.records == UpdateWhere(old(dataCommandService.records), id, model.value)
                && dataCommandService.calls == old(dataCommandService.calls) + [UpdateCall(id, model.value), SaveChangesCall]
    {
      if id == EmptyGuid {
        result := Reject(ModelError("id", "Id is required"));
      } else if model.None? || id != model.value.id {
        result := Reject(ModelError("id", "Ids must match"));
      } else {
        dataCommandService.Update(id, model.value);
        dataCommandService.SaveChanges();
        result := NoContent;
      }
    }

    /** `DeleteAsset(id)`. */
    method DeleteAsset(id: Guid) returns (result: ActionResult)
      modifies this, dataCommandService
      ensures id == EmptyGuid ==>
                && modelState == old(modelState) + [ModelError("id", "Id is required")]
                && result == BadRequestState(modelState)
                && unchanged(dataCommandService)
      ensures id != EmptyGuid ==>
                && modelState == old(modelState)
                && result == NoContent
                && dataCommandService.records == old(dataCommandService.records) - {id}
                && dataCommandService.calls == old(dataCommandService.calls) + [DeleteCall(id), SaveChangesCall]
    {
      if id == EmptyGuid {
        result := Reject(ModelError("id", "Id is required"));
      } else {
        dataCommandService.Delete(id);
        dataCommandService.SaveChanges();
        result := NoContent;
      }
    }
  }

  /** A replaced asset keeps the id in the route: after a successful put the
      record under `id` is the body, and no other record changes. */
  lemma PutKeepsOtherRecords(records: map<Guid, Asset>, id: Guid, model: Asset, k: Guid)
    requires model.id == id
    ensures UpdateWhere(records, id, model).Keys == records.Keys
    ensures id in records ==> UpdateWhere(records, id, model)[id].id == id
    ensures k != id && k in records ==> UpdateWhere(records, id, model)[k] == records[k]
  {
  }
}
