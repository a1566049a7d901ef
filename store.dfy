/** The data command service the handlers and controllers call: a keyed
    collection of assets and a journal of the calls made to it. The backend
    itself (a document database) is not modelled; each call is given the
    least effect that the calling code relies on. */
module Store {
  import opened Common
  import opened Models

  /** One call made to a data command service. */
  datatype Call =
    | GetCall(keyValues: seq<Guid>)
    | CreateCall(asset: Asset)
    | CreateRangeCall(assets: seq<Asset>)
    | UpdateCall(id: Guid, asset: Asset)
    | UpdateRangeCall(pairs: seq<(Guid, Asset)>)
    | DeleteCall(id: Guid)
    | DeleteRangeCall(ids: seq<Guid>)
    | SaveChangesCall

  /** The record stored under the first key value, if any. */
  function Lookup(records: map<Guid, Asset>, keyValues: seq<Guid>): (found: Option<Asset>) {
    if |keyValues| == 1 && keyValues[0] in records then Some(records[keyValues[0]]) else None
  }

  /** The assets as created: the asset at position `i` gets the key `ids[i]`
      that the backend assigns. */
  function AssignIds(assets: seq<Asset>, ids: seq<Guid>): (created: seq<Asset>)
    requires |ids| == |assets|
  {
    seq(|assets|, i requires 0 <= i < |assets| => assets[i].(id := ids[i]))
  }

  /** Inserts each asset under its own id, in order. */
  function InsertEach(records: map<Guid, Asset>, created: seq<Asset>): (after: map<Guid, Asset>) {
    if created == [] then records
    else
      var last := created[|created| - 1];
      InsertEach(records, created[..|created| - 1])[last.id := last]
  }

  /** An update keyed by the predicate `x.Id == id`: the matching record is
      replaced; when no record matches, nothing changes. */
  function UpdateWhere(records: map<Guid, Asset>, id: Guid, asset: Asset): (after: map<Guid, Asset>) {
    if id in records then records[id := asset] else records
  }

  /** The keyed updates of a range update, applied in order. */
  function UpdateEach(records: map<Guid, Asset>, pairs: seq<(Guid, Asset)>): (after: map<Guid, Asset>) {
    if pairs == [] then records
    else
      var last := pairs[|pairs| - 1];
      UpdateWhere(UpdateEach(records, pairs[..|pairs| - 1]), last.0, last.1)
  }

  /** The keyed deletes of a range delete, applied in order. */
  function DeleteEach(records: map<Guid, Asset>, ids: seq<Guid>): (after: map<Guid, Asset>) {
    if ids == [] then records else DeleteEach(records, ids[..|ids| - 1]) - {ids[|ids| - 1]}
  }

  /** The asset paired last with the key `k`, if any. */
  function LastFor(pairs: seq<(Guid, Asset)>, k: Guid): (last: Option<Asset>) {
    if pairs == [] then None
    else if pairs[|pairs| - 1].0 == k then Some(pairs[|pairs| - 1].1)
    else LastFor(pairs[..|pairs| - 1], k)
  }

  /** The key/value pairs a range replace builds: each asset keyed by its
      own id. */
  function KeyedByOwnId(assets: seq<Asset>): (pairs: seq<(Guid, Asset)>) {
    seq(|assets|, i requires 0 <= i < |assets| => (assets[i].id, assets[i]))
  }

  /** A range delete removes exactly the listed ids; every other record is
      left as it was. Duplicate ids and ids with no record are harmless. */
  lemma {:induction false} DeleteEachRemovesListed(records: map<Guid, Asset>, ids: seq<Guid>)
    ensures DeleteEach(records, ids) == records - (set i | i in ids)
  {
    if ids != [] {
      var init := ids[..|ids| - 1];
      DeleteEachRemovesListed(records, init);
      assert (set i | i in ids) == (set i | i in init) + {ids[|ids| - 1]} by {
        assert ids == init + [ids[|ids| - 1]];
      }
    }
  }

  /** A range update never adds or removes a record: a key in the batch that
      matches no record is ignored. A record whose key appears in the batch
      holds the last asset paired with that key; any other record is left
      as it was. */
  lemma {:induction false} UpdateEachAt(records: map<Guid, Asset>, pairs: seq<(Guid, Asset)>, k: Guid)
    ensures UpdateEach(records, pairs).Keys == records.Keys
    ensures k in records ==>
              UpdateEach(records, pairs)[k] == (match LastFor(pairs, k) case Some(a) => a case None => records[k])
  {
    if pairs != [] {
      UpdateEachAt(records, pairs[..|pairs| - 1], k);
    }
  }

  /** Inserting adds exactly the created ids, and a record whose key is not
      among them is left as it was. */
  lemma {:induction false} InsertEachAt(records: map<Guid, Asset>, created: seq<Asset>, k: Guid)
    ensures InsertEach(records, created).Keys == records.Keys + (set a | a in created :: a.id)
    ensures (forall a :: a in created ==> a.id != k) && k in records ==>
              InsertEach(records, created)[k] == records[k]
  {
    if created != [] {
      var init := created[..|created| - 1];
      InsertEachAt(records, init, k);
      assert created == init + [created[|created| - 1]];
      assert (set a | a in created :: a.id) == (set a | a in init :: a.id) + {created[|created| - 1].id};
    }
  }

  /** Each created asset that no later asset of the batch shares an id with
      is the record stored under its id. */
  lemma {:induction false} InsertEachStores(records: map<Guid, Asset>, created: seq<Asset>, i: int)
    requires 0 <= i < |created|
    requires forall j :: i < j < |created| ==> created[j].id != created[i].id
    ensures created[i].id in InsertEach(records, created)
    ensures InsertEach(records, created)[created[i].id] == created[i]
  {
    var n := |created| - 1;
    if i < n {
      var init := created[..n];
      assert init[i] == created[i];
      assert forall j :: i < j < |init| ==> init[j] == created[j];
      InsertEachStores(records, init, i);
    }
  }

  /** A data command service: its name, its records keyed by `Id`, and the
      calls made to it so far. */
  class DataCommandService {
    const name: string
    var records: map<Guid, Asset>
    var calls: seq<Call>

    constructor (name: string, records: map<Guid, Asset>)
      ensures this.name == name && this.records == records && calls == []
    {
      this.name := name;
      this.records := records;
      calls := [];
    }

    /** `GetAsync(keyValues)`: the record with that key, or null. */
    method Get(keyValues: seq<Guid>) returns (found: Option<Asset>)
      modifies this
      ensures found == Lookup(records, keyValues)
      ensures records == old(records) && calls == old(calls) + [GetCall(keyValues)]
    {
      found := Lookup(records, keyValues);
      calls := calls + [GetCall(keyValues)];
    }

    /** `CreateAsync(asset)`: stores the asset under the id `id` the backend
      assigns and returns it as stored. */
    method Create(asset: Asset, id: Guid) returns (created: Asset)
      modifies this
      ensures created == asset.(id := id)
      ensures records == old(records)[id := created]
      ensures calls == old(calls) + [CreateCall(asset)]
    {
      created := asset.(id := id);
      records := records[id := created];
      calls := calls + [CreateCall(asset)];
    }

    /** `CreateRangeAsync(assets)`: stores each asset under the id assigned
      to it and returns them as stored. */
    method CreateRange(assets: seq<Asset>, ids: seq<Guid>) returns (created: seq<Asset>)
      requires |ids| == |assets|
      modifies this
      ensures created == AssignIds(assets, ids)
      ensures records == InsertEach(old(records), created)
      ensures calls == old(calls) + [CreateRangeCall(assets)]
    {
      created := AssignIds(assets, ids);
      records := InsertEach(records, created);
      calls := calls + [CreateRangeCall(assets)];
    }

    /** `UpdateAsync(x => x.Id == id, asset)`. */
    method Update(id: Guid, asset: Asset)
      modifies this
      ensures records == UpdateWhere(old(records), id, asset)
      ensures calls == old(calls) + [UpdateCall(id, asset)]
    {
      records := UpdateWhere(records, id, asset);
      calls := calls + [UpdateCall(id, asset)];
    }

    /** `UpdateRangeAsync(keyValuePairs)`. */
    method UpdateRange(pairs: seq<(Guid, Asset)>)
      modifies this
      ensures records == UpdateEach(old(records), pairs)
      ensures calls == old(calls) + [UpdateRangeCall(pairs)]
    {
      records := UpdateEach(records, pairs);
      calls := calls + [UpdateRangeCall(pairs)];
    }

    /** `DeleteAsync(x => x.Id == id)`. */
    method Delete(id: Guid)
      modifies this
      ensures records == old(records) - {id}
      ensures calls == old(calls) + [DeleteCall(id)]
    {
      records := records - {id};
      calls := calls + [DeleteCall(id)];
    }

    /** `DeleteRangeAsync(keyValuePairs)`, keyed by the listed ids. */
    method DeleteRange(ids: seq<Guid>)
      modifies this
      ensures records == DeleteEach(old(records), ids)
      ensures calls == old(calls) + [DeleteRangeCall(ids)]
    {
      records := DeleteEach(records, ids);
      calls := calls + [DeleteRangeCall(ids)];
    }

    /** `SaveChangesAsync()`. */
    method SaveChanges()
      modifies this
      ensures records == old(records)
      ensures calls == old(calls) + [SaveChangesCall]
    {
      calls := calls + [SaveChangesCall];
    }
  }
}
