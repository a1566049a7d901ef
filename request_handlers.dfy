/** The mediator's request handlers. Each handler picks the data service
    whose name equals the request's name ignoring case, and throws unless
    exactly one service matches; the command handler then runs the
    request's store calls followed by one `SaveChanges`. */
module RequestHandlers {
  import opened Common
  import opened Text
  import opened Models
  import opened Requests
  import opened Store

  /** The exception a handler throws when no service has the request's name;
      `kind` is "Data Command Service" or "Data Query Service". */
  function ServiceNotFound(kind: string, name: string): (e: Exception) {
    InvalidOperationException(kind + " not found for '" + name + "'")
  }

  predicate NameMatches(names: seq<string>, name: string, i: int) {
    0 <= i < |names| && EqualsIgnoreCase(name, names[i])
  }

  /** The names of a sequence of data services, in order. */
  function ServiceNames<S>(services: seq<S>, nameOf: S -> string): (names: seq<string>)
    ensures |names| == |services|
    ensures forall i :: 0 <= i < |services| ==> names[i] == nameOf(services[i])
  {
    seq(|services|, i requires 0 <= i < |services| => nameOf(services[i]))
  }

  function CommandServiceNames(services: seq<DataCommandService>): (names: seq<string>) {
    ServiceNames(services, (s: DataCommandService) => s.name)
  }

  function QueryServiceNames(services: seq<DataQueryService>): (names: seq<string>) {
    ServiceNames(services, (s: DataQueryService) => s.name)
  }

  /** The positions, in increasing order, of the names equal to `name`
      ignoring case. */
  function Matches(names: seq<string>, name: string): (m: seq<int>)
    ensures forall i :: i in m <==> NameMatches(names, name, i)
    ensures forall a, b :: 0 <= a < b < |m| ==> m[a] < m[b]
  {
    if names == [] then []
    else
      var init := Matches(names[..|names| - 1], name);
      assert forall i :: NameMatches(names[..|names| - 1], name, i) <==> 0 <= i < |names| - 1 && NameMatches(names, name, i);
      assert forall a :: 0 <= a < |init| ==> init[a] < |names| - 1 by {
        forall a | 0 <= a < |init| ensures init[a] < |names| - 1 {
          assert init[a] in init;
        }
      }
      if EqualsIgnoreCase(name, names[|names| - 1]) then init + [|names| - 1] else init
  }

  /** `SingleOrDefault(x => string.Equals(name, x.Name, ...IgnoreCase))`
      followed by the handlers' null check: the position of the one service
      whose name matches, or the exception. */
  function SelectSingle(names: seq<string>, name: string, kind: string): (r: Result<int>)
    ensures r.Success? ==>
              NameMatches(names, name, r.value) &&
              forall j :: NameMatches(names, name, j) ==> j == r.value
    ensures r == Failure(ServiceNotFound(kind, name)) <==>
              forall j :: 0 <= j < |names| ==> !NameMatches(names, name, j)
    ensures r == Failure(InvalidOperationException(MoreThanOneMatch)) <==>
              exists j, k :: 0 <= j < k < |names| && NameMatches(names, name, j) && NameMatches(names, name, k)
    ensures r.Success? || r == Failure(ServiceNotFound(kind, name)) || r == Failure(InvalidOperationException(MoreThanOneMatch))
  {
    NotFoundIsNotMoreThanOne(kind, name);
    var m := Matches(names, name);
    if |m| == 0 then
      assert forall j :: j !in m;
      Failure(ServiceNotFound(kind, name))
    else if |m| > 1 then
      assert m[0] in m && m[1] in m;
      assert !(forall j :: 0 <= j < |names| ==> !NameMatches(names, name, j));
      assert NameMatches(names, name, m[0]) && NameMatches(names, name, m[1]);
      Failure(InvalidOperationException(MoreThanOneMatch))
    else
      assert forall j :: NameMatches(names, name, j) ==> j == m[0] by {
        forall j | NameMatches(names, name, j) ensures j == m[0] {
          assert j in m;
        }
      }
      Success(m[0])
  }

  /** The two failure messages of a selection differ. */
  lemma NotFoundIsNotMoreThanOne(kind: string, name: string)
    ensures ServiceNotFound(kind, name) != InvalidOperationException(MoreThanOneMatch)
  {
    var msg := kind + " not found for '" + name + "'";
    assert msg[|msg| - 1] == '\'';
    assert MoreThanOneMatch[|MoreThanOneMatch| - 1] == 't';
  }

  /** The request handler for the asset commands. */
  class CommandRequestHandler {
    const dataCommandServices: seq<DataCommandService>

    constructor (dataCommandServices: seq<DataCommandService>)
      ensures this.dataCommandServices == dataCommandServices
    {
      this.dataCommandServices := dataCommandServices;
    }

    ghost function Repr(): set<object> {
      set s | s in dataCommandServices
    }

    /** `GetDataCommandService(request)`. A null request is `None`; otherwise
      the request is represented by its name. */
    function GetDataCommandService(requestName: Option<string>): (r: Result<int>)
      ensures requestName.None? ==> r == Failure(ArgumentNullException("request"))
      ensures requestName.Some? ==> r == SelectSingle(CommandServiceNames(dataCommandServices), requestName.value, "Data Command Service")
      ensures r.Success? ==> 0 <= r.value < |dataCommandServices|
    {
      if requestName.None? then Failure(ArgumentNullException("request"))
      else SelectSingle(CommandServiceNames(dataCommandServices), requestName.value, "Data Command Service")
    }

    /** The service at position `j` is the selected one. */
    predicate Selected(selected: Result<int>, j: int)
      requires 0 <= j < |dataCommandServices|
    {
      selected.Success? && 0 <= selected.value < |dataCommandServices| &&
      dataCommandServices[j] == dataCommandServices[selected.value]
    }

    /** Every service other than the selected one (all of them when the
      selection failed) is untouched. */
    twostate predicate OthersUnchanged(selected: Result<int>)
      reads Repr()
    {
      forall j :: 0 <= j < |dataCommandServices| && !Selected(selected, j) ==>
        unchanged(dataCommandServices[j])
    }

    method HandleGet(request: Option<GetAssetRequest>) returns (r: Result<Option<Asset>>)
      modifies Repr()
      ensures var sel := GetDataCommandService(if request.Some? then Some(request.value.name) else None);
              && OthersUnchanged(sel)
              && (sel.Failure? ==> r == Failure(sel.error))
              && (sel.Success? ==>
                    var s := dataCommandServices[sel.value];
                    && r == Success(Lookup(old(s.records), request.value.KeyValues()))
                    && s.records == old(s.records)
                    && s.calls == old(s.calls) + [GetCall(request.value.KeyValues())])
    {
      var sel := GetDataCommandService(if request.Some? then Some(request.value.name) else None);
      if sel.Failure? {
        return Failure(sel.error);
      }
      var s := dataCommandServices[sel.value];
      var found := s.Get(request.value.KeyValues());
      r := Success(found);
    }

    /** `newId` is the id the backend assigns to the created asset. */
    method HandleCreate(request: Option<CreateAssetRequest>, newId: Guid) returns (r: Result<Unit>)
      modifies Repr()
      ensures var sel := GetDataCommandService(if request.Some? then Some(request.value.name) else None);
              && OthersUnchanged(sel)
              && (sel.Failure? ==> r == Failure(sel.error))
              && (sel.Success? ==>
                    var s := dataCommandServices[sel.value];
                    && r == Success(Unit)
                    && s.records == old(s.records)[newId := request.value.asset.(id := newId)]
                    && s.calls == old(s.calls) + [CreateCall(request.value.asset), SaveChangesCall])
    {
      var sel := GetDataCommandService(if request.Some? then Some(request.value.name) else None);
      if sel.Failure? {
        return Failure(sel.error);
      }
      var s := dataCommandServices[sel.value];
      var _ := s.Create(request.value.asset, newId);
      s.SaveChanges();
      r := Success(Unit);
    }

    /** `now` is the clock reading `UtcNow` takes. */
    method HandleUpdate(request: Option<UpdateAssetRequest>, now: DateTime) returns (r: Result<Asset>)
      modifies Repr()
      ensures var sel := GetDataCommandService(if request.Some? then Some(request.value.name) else None);
              && OthersUnchanged(sel)
              && (sel.Failure? ==> r == Failure(sel.error))
              && (sel.Success? ==>
                    var s := dataCommandServices[sel.value];
                    var id := request.value.id;
                    if id !in old(s.records) then
                      && r == Failure(InvalidOperationException("Model not found for Id: " + GuidString(id)))
                      && s.records == old(s.records)
                      && s.calls == old(s.calls) + [GetCall([id])]
                    else
                      var model := Stamped(Patch(request.value.delta, old(s.records)[id]), now);
                      && r == Success(model)
                      && s.records == old(s.records)[id := model]
                      && s.calls == old(s.calls) + [GetCall([id]), UpdateCall(id, model), SaveChangesCall])
    {
      var sel := GetDataCommandService(if request.Some? then Some(request.value.name) else None);
      if sel.Failure? {
        return Failure(sel.error);
      }
      var s := dataCommandServices[sel.value];
      var id := request.value.id;
      var found := s.Get([id]);
      if found.None? {
        return Failure(InvalidOperationException("Model not found for Id: " + GuidString(id)));
      }
      var model := Stamped(Patch(request.value.delta, found.value), now);
      s.Update(id, model);
      s.SaveChanges();
      r := Success(model);
    }

    method HandleReplace(request: Option<ReplaceAssetRequest>, now: DateTime) returns (r: Result<Unit>)
      modifies Repr()
      ensures var sel := GetDataCommandService(if request.Some? then Some(request.value.name) else None);
              && OthersUnchanged(sel)
              && (sel.Failure? ==> r == Failure(sel.error))
              && (sel.Success? ==>
                    var s := dataCommandServices[sel.value];
                    var asset := Stamped(request.value.asset, now);
                    && r == Success(Unit)
                    && s.records == UpdateWhere(old(s.records), request.value.id, asset)
                    && s.calls == old(s.calls) + [UpdateCall(request.value.id, asset), SaveChangesCall])
    {
      var sel := GetDataCommandService(if request.Some? then Some(request.value.name) else None);
      if sel.Failure? {
        return Failure(sel.error);
      }
      var s := dataCommandServices[sel.value];
      var asset := Stamped(request.value.asset, now);
      s.Update(request.value.id, asset);
      s.SaveChanges();
      r := Success(Unit);
    }

    method HandleDelete(request: Option<DeleteAssetRequest>) returns (r: Result<Unit>)
      modifies Repr()
      ensures var sel := GetDataCommandService(if request.Some? then Some(request.value.name) else None);
              && OthersUnchanged(sel)
              && (sel.Failure? ==> r == Failure(sel.error))
              && (sel.Success? ==>
                    var s := dataCommandServices[sel.value];
                    && r == Success(Unit)
                    && s.records == old(s.records) - {request.value.id}
                    && s.calls == old(s.calls) + [DeleteCall(request.value.id), SaveChangesCall])
    {
      var sel := GetDataCommandService(if request.Some? then Some(request.value.name) else None);
      if sel.Failure? {
        return Failure(sel.error);
      }
      var s := dataCommandServices[sel.value];
      s.Delete(request.value.id);
      s.SaveChanges();
      r := Success(Unit);
    }

    /** `newIds[i]` is the id the backend assigns to the asset at position `i`. */
    method HandleCreateRange(request: Option<CreateAssetsRequest>, newIds: seq<Guid>) returns (r: Result<Unit>)
      requires request.Some? ==> |newIds| == |request.value.assets|
      modifies Repr()
      ensures var sel := GetDataCommandService(if request.Some? then Some(request.value.name) else None);
              && OthersUnchanged(sel)
              && (sel.Failure? ==> r == Failure(sel.error))
              && (sel.Success? ==>
                    var s := dataCommandServices[sel.value];
                    && r == Success(Unit)
                    && s.records == InsertEach(old(s.records), AssignIds(request.value.assets, newIds))
                    && s.calls == old(s.calls) + [CreateRangeCall(request.value.assets), SaveChangesCall])
    {
      var sel := GetDataCommandService(if request.Some? then Some(request.value.name) else None);
      if sel.Failure? {
        return Failure(sel.error);
      }
      var s := dataCommandServices[sel.value];
      var _ := s.CreateRange(request.value.assets, newIds);
      s.SaveChanges();
      r := Success(Unit);
    }

    /** `clock[i]` is the reading `UtcNow` takes for the asset at position `i`. */
    method HandleReplaceRange(request: Option<ReplaceAssetsRequest>, clock: seq<DateTime>) returns (r: Result<Unit>)
      requires request.Some? ==> |clock| == |request.value.assets|
      modifies Repr()
      ensures var sel := GetDataCommandService(if request.Some? then Some(request.value.name) else None);
              && OthersUnchanged(sel)
              && (sel.Failure? ==> r == Failure(sel.error))
              && (sel.Success? ==>
                    var s := dataCommandServices[sel.value];
                    var pairs := KeyedByOwnId(StampedAll(request.value.assets, clock));
                    && r == Success(Unit)
                    && s.records == UpdateEach(old(s.records), pairs)
                    && s.calls == old(s.calls) + [UpdateRangeCall(pairs), SaveChangesCall])
    {
      var sel := GetDataCommandService(if request.Some? then Some(request.value.name) else None);
      if sel.Failure? {
        return Failure(sel.error);
      }
      var s := dataCommandServices[sel.value];
      var stamped := StampUpdatedDates(request.value.assets, clock);
      var pairs := KeyedByOwnId(stamped);
      s.UpdateRange(pairs);
      s.SaveChanges();
      r := Success(Unit);
    }

    method HandleDeleteRange(request: Option<DeleteAssetsRequest>) returns (r: Result<Unit>)
      modifies Repr()
      ensures var sel := GetDataCommandService(if request.Some? then Some(request.value.name) else None);
              && OthersUnchanged(sel)
              && (sel.Failure? ==> r == Failure(sel.error))
              && (sel.Success? ==>
                    var s := dataCommandServices[sel.value];
                    && r == Success(Unit)
                    && s.records == DeleteEach(old(s.records), request.value.ids)
                    && s.calls == old(s.calls) + [DeleteRangeCall(request.value.ids), SaveChangesCall])
    {
      var sel := GetDataCommandService(if request.Some? then Some(request.value.name) else None);
      if sel.Failure? {
        return Failure(sel.error);
      }
      var s := dataCommandServices[sel.value];
      s.DeleteRange(request.value.ids);
      s.SaveChanges();
      r := Success(Unit);
    }
  }

  /** After a range replace, every record whose key is the id of an asset in
      the batch holds an asset of the batch with that id, stamped with an
      update date; every other record is left as it was. */
  lemma {:induction false} ReplaceRangeStampsMatchedRecords(
    records: map<Guid, Asset>, assets: seq<Asset>, clock: seq<DateTime>, k: Guid)
    requires |clock| == |assets|
    requires k in records
    ensures var after := UpdateEach(records, KeyedByOwnId(StampedAll(assets, clock)));
            && after.Keys == records.Keys
            && ((exists i :: 0 <= i < |assets| && assets[i].id == k) ==>
                  exists i :: 0 <= i < |assets| && assets[i].id == k && after[k] == Stamped(assets[i], clock[i]))
            && ((forall i :: 0 <= i < |assets| ==> assets[i].id != k) ==> after[k] == records[k])
  {
    var pairs := KeyedByOwnId(StampedAll(assets, clock));
    UpdateEachAt(records, pairs, k);
    LastForKeyedStamped(assets, clock, k);
  }

  lemma {:induction false} LastForKeyedStamped(assets: seq<Asset>, clock: seq<DateTime>, k: Guid)
    requires |clock| == |assets|
    ensures var last := LastFor(KeyedByOwnId(StampedAll(assets, clock)), k);
            && (last.None? <==> forall i :: 0 <= i < |assets| ==> assets[i].id != k)
            && (last.Some? ==> exists i :: 0 <= i < |assets| && assets[i].id == k && last.value == Stamped(assets[i], clock[i]))
  {
    if assets != [] {
      var n := |assets| - 1;
      var pairs := KeyedByOwnId(StampedAll(assets, clock));
      assert pairs[..n] == KeyedByOwnId(StampedAll(assets[..n], clock[..n]));
      LastForKeyedStamped(assets[..n], clock[..n], k);
    }
  }

  /** An asset query service: its name, the list it returns for a query,
      and the records `GetAsync` looks assets up in by key. */
  datatype DataQueryService = DataQueryService(
    name: string,
    toList: QueryOptions -> seq<Asset>,
    records: map<Guid, Asset>)

  /** The request handler for asset queries. */
  datatype QueryRequestHandler = QueryRequestHandler(dataQueryServices: seq<DataQueryService>) {

    /** `Handle(GetAssetsRequest)`: the list of the one service named like
      the request, for the request's query. */
    function Handle(request: Option<GetAssetsRequest>): (r: Result<seq<Asset>>)
      ensures request.None? ==> r == Failure(ArgumentNullException("request"))
      ensures request.Some? ==>
                match SelectSingle(QueryServiceNames(dataQueryServices), request.value.name, "Data Query Service")
                case Success(i) => r == Success(dataQueryServices[i].toList(request.value.Query()))
                case Failure(e) => r == Failure(e)
    {
      if request.None? then Failure(ArgumentNullException("request"))
      else
        match SelectSingle(QueryServiceNames(dataQueryServices), request.value.name, "Data Query Service")
        case Success(i) => Success(dataQueryServices[i].toList(request.value.Query()))
        case Failure(e) => Failure(e)
    }
  }
}
