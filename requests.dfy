/** The request objects sent through the mediator. Each constructor checks
    its arguments in a fixed order and throws on the first one that fails;
    once built, a request's properties are read-only and equal to the
    constructor's arguments. A constructor is modelled as a function that
    returns the request or the exception. */
module Requests {
  import opened Common
  import opened Text
  import opened Models

  /** The properties of an `Asset` that an OData delta can carry. */
  datatype Property = IdProperty | CreatedDateProperty | NameProperty | UpdatedDateProperty

  /** An OData `Delta<Asset>`: the set of changed properties and their new
      values. */
  datatype Delta = Delta(changed: set<Property>, values: Asset)

  /** `Delta.Patch`: copies the changed properties onto `target`. */
  function Patch(d: Delta, target: Asset): (patched: Asset) {
    Asset(
      if IdProperty in d.changed then d.values.id else target.id,
      if CreatedDateProperty in d.changed then d.values.createdDate else target.createdDate,
      if NameProperty in d.changed then d.values.name else target.name,
      if UpdatedDateProperty in d.changed then d.values.updatedDate else target.updatedDate)
  }

  /** Parsed OData query options, passed through to the query service
      unchanged. */
  datatype QueryOptions = QueryOptions(text: string)

  datatype CreateAssetRequest = CreateAssetRequest(name: string, asset: Asset)
  datatype CreateAssetsRequest = CreateAssetsRequest(name: string, assets: seq<Asset>)
  datatype GetAssetRequest = GetAssetRequest(name: string, id: Guid) {
    /** The key values the command handler looks the asset up by. */
    function KeyValues(): (keyValues: seq<Guid>) { [id] }
  }
  datatype GetAssetsRequest = GetAssetsRequest(name: string, queryOptions: QueryOptions) {
    /** The query the query handler forwards. */
    function Query(): (query: QueryOptions) { queryOptions }
  }
  datatype UpdateAssetRequest = UpdateAssetRequest(name: string, id: Guid, delta: Delta)
  datatype UpdateAssetsRequest = UpdateAssetsRequest(name: string, assets: seq<Asset>)
  datatype ReplaceAssetRequest = ReplaceAssetRequest(name: string, id: Guid, asset: Asset)
  datatype ReplaceAssetsRequest = ReplaceAssetsRequest(name: string, assets: seq<Asset>)
  datatype DeleteAssetRequest = DeleteAssetRequest(name: string, id: Guid)
  datatype DeleteAssetsRequest = DeleteAssetsRequest(name: string, ids: seq<Guid>)

  /** The exception every constructor throws for a blank name. */
  const NameIsNull: Exception := ArgumentNullException("name")

  /** The exception thrown for the default id; the delete request spells its
      message with a capital I. */
  function InvalidId(message: string): (e: Exception) {
    ArgumentException(message, Some("id"))
  }

  function NewCreateAssetRequest(name: Option<string>, asset: Option<Asset>): (r: Result<CreateAssetRequest>)
    ensures IsNullOrWhiteSpace(name) ==> r == Failure(NameIsNull)
    ensures !IsNullOrWhiteSpace(name) && asset.None? ==> r == Failure(ArgumentNullException("asset"))
    ensures r.Success? <==> !IsNullOrWhiteSpace(name) && asset.Some?
    ensures r.Success? ==> r.value.name == name.value && r.value.asset == asset.value
  {
    if IsNullOrWhiteSpace(name) then Failure(NameIsNull)
    else if asset.None? then Failure(ArgumentNullException("asset"))
    else Success(CreateAssetRequest(name.value, asset.value))
  }

  function NewGetAssetRequest(name: Option<string>, id: Guid): (r: Result<GetAssetRequest>)
    ensures IsNullOrWhiteSpace(name) ==> r == Failure(NameIsNull)
    ensures !IsNullOrWhiteSpace(name) && id == EmptyGuid ==> r == Failure(InvalidId("Invalid id"))
    ensures r.Success? <==> !IsNullOrWhiteSpace(name) && id != EmptyGuid
    ensures r.Success? ==> r.value.name == name.value && r.value.id == id
  {
    if IsNullOrWhiteSpace(name) then Failure(NameIsNull)
    else if id == EmptyGuid then Failure(InvalidId("Invalid id"))
    else Success(GetAssetRequest(name.value, id))
  }

  function NewGetAssetsRequest(name: Option<string>, queryOptions: Option<QueryOptions>): (r: Result<GetAssetsRequest>)
    ensures IsNullOrWhiteSpace(name) ==> r == Failure(NameIsNull)
    ensures !IsNullOrWhiteSpace(name) && queryOptions.None? ==> r == Failure(ArgumentNullException("queryOptions"))
    ensures r.Success? <==> !IsNullOrWhiteSpace(name) && queryOptions.Some?
    ensures r.Success? ==> r.value.name == name.value && r.value.queryOptions == queryOptions.value
  {
    if IsNullOrWhiteSpace(name) then Failure(NameIsNull)
    else if queryOptions.None? then Failure(ArgumentNullException("queryOptions"))
    else Success(GetAssetsRequest(name.value, queryOptions.value))
  }

  function NewUpdateAssetRequest(name: Option<string>, id: Guid, delta: Option<Delta>): (r: Result<UpdateAssetRequest>)
    ensures IsNullOrWhiteSpace(name) ==> r == Failure(NameIsNull)
    ensures !IsNullOrWhiteSpace(name) && id == EmptyGuid ==> r == Failure(InvalidId("Invalid id"))
    ensures !IsNullOrWhiteSpace(name) && id != EmptyGuid && delta.None? ==> r == Failure(ArgumentNullException("delta"))
    ensures r.Success? <==> !IsNullOrWhiteSpace(name) && id != EmptyGuid && delta.Some?
    ensures r.Success? ==> r.value.name == name.value && r.value.id == id && r.value.delta == delta.value
  {
    if IsNullOrWhiteSpace(name) then Failure(NameIsNull)
    else if id == EmptyGuid then Failure(InvalidId("Invalid id"))
    else if delta.None? then Failure(ArgumentNullException("delta"))
    else Success(UpdateAssetRequest(name.value, id, delta.value))
  }

  function NewUpdateAssetsRequest(name: Option<string>, assets: Option<seq<Asset>>): (r: Result<UpdateAssetsRequest>)
    ensures IsNullOrWhiteSpace(name) ==> r == Failure(NameIsNull)
    ensures !IsNullOrWhiteSpace(name) && assets.None? ==> r == Failure(ArgumentNullException("assets"))
    ensures r.Success? <==> !IsNullOrWhiteSpace(name) && assets.Some?
    ensures r.Success? ==> r.value.name == name.value && r.value.assets == assets.value
  {
    if IsNullOrWhiteSpace(name) then Failure(NameIsNull)
    else if assets.None? then Failure(ArgumentNullException("assets"))
    else Success(UpdateAssetsRequest(name.value, assets.value))
  }

  function NewReplaceAssetRequest(name: Option<string>, id: Guid, asset: Option<Asset>): (r: Result<ReplaceAssetRequest>)
    ensures IsNullOrWhiteSpace(name) ==> r == Failure(NameIsNull)
    ensures !IsNullOrWhiteSpace(name) && id == EmptyGuid ==> r == Failure(InvalidId("Invalid id"))
    ensures !IsNullOrWhiteSpace(name) && id != EmptyGuid && asset.None? ==> r == Failure(ArgumentNullException("asset"))
    ensures r.Success? <==> !IsNullOrWhiteSpace(name) && id != EmptyGuid && asset.Some?
    ensures r.Success? ==> r.value.name == name.value && r.value.id == id && r.value.asset == asset.value
  {
    if IsNullOrWhiteSpace(name) then Failure(NameIsNull)
    else if id == EmptyGuid then Failure(InvalidId("Invalid id"))
    else if asset.None? then Failure(ArgumentNullException("asset"))
    else Success(ReplaceAssetRequest(name.value, id, asset.value))
  }

  function NewReplaceAssetsRequest(name: Option<string>, assets: Option<seq<Asset>>): (r: Result<ReplaceAssetsRequest>)
    ensures IsNullOrWhiteSpace(name) ==> r == Failure(NameIsNull)
    ensures !IsNullOrWhiteSpace(name) && assets.None? ==> r == Failure(ArgumentNullException("assets"))
    ensures r.Success? <==> !IsNullOrWhiteSpace(name) && assets.Some?
    ensures r.Success? ==> r.value.name == name.value && r.value.assets == assets.value
  {
    if IsNullOrWhiteSpace(name) then Failure(NameIsNull)
    else if assets.None? then Failure(ArgumentNullException("assets"))
    else Success(ReplaceAssetsRequest(name.value, assets.value))
  }

  function NewDeleteAssetRequest(name: Option<string>, id: Guid): (r: Result<DeleteAssetRequest>)
    ensures IsNullOrWhiteSpace(name) ==> r == Failure(NameIsNull)
    ensures !IsNullOrWhiteSpace(name) && id == EmptyGuid ==> r == Failure(InvalidId("Invalid Id"))
    ensures r.Success? <==> !IsNullOrWhiteSpace(name) && id != EmptyGuid
    ensures r.Success? ==> r.value.name == name.value && r.value.id == id
  {
    if IsNullOrWhiteSpace(name) then Failure(NameIsNull)
    else if id == EmptyGuid then Failure(InvalidId("Invalid Id"))
    else Success(DeleteAssetRequest(name.value, id))
  }

  function NewDeleteAssetsRequest(name: Option<string>, ids: Option<seq<Guid>>): (r: Result<DeleteAssetsRequest>)
    ensures IsNullOrWhiteSpace(name) ==> r == Failure(NameIsNull)
    ensures !IsNullOrWhiteSpace(name) && ids.None? ==> r == Failure(ArgumentNullException("ids"))
    ensures r.Success? <==> !IsNullOrWhiteSpace(name) && ids.Some?
    ensures r.Success? ==> r.value.name == name.value && r.value.ids == ids.value
  {
    if IsNullOrWhiteSpace(name) then Failure(NameIsNull)
    else if ids.None? then Failure(ArgumentNullException("ids"))
    else Success(DeleteAssetsRequest(name.value, ids.value))
  }

  /** Every request that is built has a name with a non-blank character, so
      it can be dispatched by name; the collection requests accept an empty
      collection and any ids, even duplicates and the default id. */
  lemma BuiltRequestsHaveNames(name: string, ids: seq<Guid>, assets: seq<Asset>)
    requires !IsNullOrWhiteSpace(Some(name))
    ensures exists i :: 0 <= i < |name| && !IsWhiteSpace(name[i])
    ensures NewDeleteAssetsRequest(Some(name), Some(ids)) == Success(DeleteAssetsRequest(name, ids))
    ensures NewUpdateAssetsRequest(Some(name), Some([])).Success?
    ensures NewReplaceAssetsRequest(Some(name), Some(assets)).Success?
  {
  }
}
