# Inventory asset service — a Dafny model

This project models the core of the Inventory asset service, an ASP.NET Core
API that stores assets in a document database. It covers:

- **Request objects.** The mediator requests (get, create, update, replace
  and delete, for one asset or a batch) and the guard clauses of their
  constructors.
- **Request handlers.** The command handler picks the one data command
  service whose name matches the request's name, ignoring case, then runs
  the request's store calls and one `SaveChanges`. The query handler picks a
  data query service the same way and forwards the query to it.
- **Controllers.** `AssetsController` handles batches and `AssetController`
  handles single assets. Each runs a fixed sequence of guards; a failed
  guard adds a model-state error and returns a bad request. Otherwise the
  controller calls the data command service and returns Ok, Created or
  NoContent.
- **`SetCacheEntry`.** It writes one value with an expiration policy into
  the in-process memory cache.
- **The exception handler.** It exists twice: as an `HttpContext` extension
  and as an `IApplicationBuilder` extension. When the response has not
  started, the handler resets it. The reset keeps the status code and the
  `Access-Control-*` headers, compared ignoring case, and adds three
  no-cache headers. The handler then executes a problem-details result for
  the status code.

Modules and files:

| module | file | what it holds |
|---|---|---|
| `Common` | `common.dfy` | `Option` (null), `Result` (a value or the exception it throws), the exceptions, the messages of `Single` |
| `Text` | `text.dfy` | `IsNullOrWhiteSpace`, case-insensitive comparison, `int.ToString`, hexadecimal digits |
| `Models` | `models.dfy` | `Asset`, `Guid`, `Guid.ToString()`, the update-date stamping loop |
| `Requests` | `requests.dfy` | the request datatypes and their constructors |
| `Store` | `store.dfy` | the data command service: a keyed record map and a journal of the calls made to it |
| `RequestHandlers` | `request_handlers.dfy` | service selection, `CommandRequestHandler`, `QueryRequestHandler` |
| `ActionResults` | `action_results.dfy` | what both controllers share: binding to the `MongoDB` service, decoding a JSON array, action results, the `ArgumentException` catch clauses |
| `AssetsControllers`, `AssetControllers` | `assets_controller.dfy`, `asset_controller.dfy` | the two controllers |
| `MemoryCacheExtensions` | `memory_cache.dfy` | `SetCacheEntry` |
| `HttpContextExtensions`, `ApplicationBuilderExtensions` | `http_context.dfy`, `application_builder.dfy` | `HandleException` and `ClearResponse` |

Things the code does on objects are modelled as classes. This covers the
store, the controllers with their model state, the memory cache and the
HTTP response. Their methods have `modifies` clauses and state the whole
new state. Pure decisions are modelled as functions, with lemmas about
them.

Inputs the environment supplies are parameters:

- each `UtcNow` reading: one per asset in the batch loops;
- the ids the database assigns on create;
- the reason-phrase table;
- what each JSON element decodes to.

Where the code and its description disagree, the model follows the code:

- The handlers set `UpdatedDate` on an asset, but `Models/Asset.cs` declares
  no such property. `Asset` carries it as an optional date. The command
  handlers' update and replace stamp it. The controllers store whatever the
  body carries: `AssetController.PutAsset` writes the body without stamping
  it.
- `Api.IntegrationTests/AssetControllerTests.cs` line 167 expects
  `UpdatedDate` to be set after a PUT to the single-asset endpoint. The
  controller as written stores the body as given, and so does the model. So
  the test holds only when the client sends an `UpdatedDate` itself.
- The handlers read `request.KeyValues` and `request.Query`, which the
  request classes shown do not declare. `KeyValues` is taken as `[Id]` and
  `Query` as the query options the request was built with.

## Model

| member | source | states |
|---|---|---|
| Requests.NewCreateAssetRequest | Services/Requests/CreateAssetRequest.cs:10-19 | a null or blank name throws `ArgumentNullException("name")`; otherwise a null asset throws `ArgumentNullException("asset")`; the request is built exactly when both guards pass and then holds the arguments |
| Requests.NewGetAssetRequest | Services/Requests/GetAssetRequest.cs:10-24 | blank name first, then the default id throws `ArgumentException("Invalid id", "id")`; built exactly when both pass, holding the arguments |
| Requests.NewGetAssetsRequest | Services/Requests/GetAssetsRequest.cs:11-20 | blank name first, then null query options throw `ArgumentNullException("queryOptions")`; built exactly when both pass, holding the arguments |
| Requests.NewUpdateAssetRequest | Services/Requests/UpdateAssetRequest.cs:11-26 | blank name, then default id ("Invalid id"), then null delta, in that order; built exactly when all pass, holding the arguments |
| Requests.NewUpdateAssetsRequest | Services/Requests/UpdateAssetsRequest.cs:11-20 | blank name first, then a null array throws `ArgumentNullException("assets")`; built exactly when both pass, holding the same assets in the same order |
| Requests.NewReplaceAssetRequest | Services/Requests/ReplaceAssetRequest.cs:10-25 | blank name, then default id, then null asset; built exactly when all pass; the asset's own id is not compared with `id` |
| Requests.NewReplaceAssetsRequest | Services/Requests/ReplaceAssetsRequest.cs:11-20 | blank name first, then a null array; built exactly when both pass, holding the same assets |
| Requests.NewDeleteAssetRequest | Services/Requests/DeleteAssetRequest.cs:10-24 | blank name first, then the default id throws `ArgumentException("Invalid Id", "id")` (capital I); built exactly when both pass |
| Requests.NewDeleteAssetsRequest | Services/Requests/DeleteAssetsRequest.cs:11-20 | blank name first, then a null array throws `ArgumentNullException("ids")`; built exactly when both pass, holding the ids |
| Requests.BuiltRequestsHaveNames | Services/Requests/DeleteAssetsRequest.cs:11-19 | a built request's name has a non-blank character; empty batches and any ids, duplicates and the default id included, are accepted |
| RequestHandlers.Matches | Services/RequestHandlers/CommandRequestHandler.cs:160 | the positions of the services whose name equals the request's name ignoring case, all of them and in increasing order |
| RequestHandlers.SelectSingle | Services/RequestHandlers/CommandRequestHandler.cs:160-164 | success gives the one matching position, which is unique; "not found for '<name>'" exactly when nothing matches; "more than one matching element" exactly when two positions match |
| RequestHandlers.CommandRequestHandler.GetDataCommandService | Services/RequestHandlers/CommandRequestHandler.cs:153-167 | a null request throws `ArgumentNullException("request")`; otherwise the selection for "Data Command Service", always a valid position |
| RequestHandlers.CommandRequestHandler.HandleGet | Services/RequestHandlers/CommandRequestHandler.cs:33-37 | a failed selection is rethrown and no service is touched; otherwise the record under the request's key, or null, and one `Get` call |
| RequestHandlers.CommandRequestHandler.HandleCreate | Services/RequestHandlers/CommandRequestHandler.cs:39-51 | the asset is stored under the assigned id; the selected service receives `Create` then `SaveChanges`; every other service is unchanged |
| RequestHandlers.CommandRequestHandler.HandleUpdate | Services/RequestHandlers/CommandRequestHandler.cs:53-73 | a missing record throws "Model not found for Id: <id>" after the lookup, with no write and no save; otherwise the record becomes the patched asset stamped with `now`, which is returned, after `Get`, `Update`, `SaveChanges` |
| RequestHandlers.CommandRequestHandler.HandleReplace | Services/RequestHandlers/CommandRequestHandler.cs:75-88 | the request's asset, stamped with `now`, is written over the record whose key is the request's id, if one exists; then one save |
| RequestHandlers.CommandRequestHandler.HandleDelete | Services/RequestHandlers/CommandRequestHandler.cs:90-102 | the record with the request's id is removed, the rest kept; then one save |
| RequestHandlers.CommandRequestHandler.HandleCreateRange | Services/RequestHandlers/CommandRequestHandler.cs:104-116 | every asset is stored under its assigned id, in order; one `CreateRange` and one save |
| RequestHandlers.CommandRequestHandler.HandleReplaceRange | Services/RequestHandlers/CommandRequestHandler.cs:118-136 | every asset is stamped with its own clock reading, then keyed by its own id for one `UpdateRange`; then one save |
| RequestHandlers.CommandRequestHandler.HandleDeleteRange | Services/RequestHandlers/CommandRequestHandler.cs:138-151 | one keyed delete per listed id in one `DeleteRange`; then one save |
| RequestHandlers.ReplaceRangeStampsMatchedRecords | Services/RequestHandlers/CommandRequestHandler.cs:124-130 | a range replace adds and removes no record; a record whose id occurs in the batch holds a stamped asset of the batch with that id; any other record is unchanged |
| RequestHandlers.LastForKeyedStamped | Services/RequestHandlers/CommandRequestHandler.cs:129 | the pair the range update applies last for a key is a stamped asset of the batch with that id, and there is none exactly when no asset has that id |
| RequestHandlers.QueryRequestHandler.Handle | Services/RequestHandlers/QueryRequestHandler.cs:22-36 | a null request throws `ArgumentNullException("request")`; otherwise the selection for "Data Query Service" is rethrown on failure, or gives exactly the selected service's list for the request's query |
| Models.StampUpdatedDates | Services/RequestHandlers/CommandRequestHandler.cs:124-127 | each asset of the batch, in order, gets `UpdatedDate` set to its own clock reading; id, creation date and name are kept |
| Models.GuidString | Services/RequestHandlers/CommandRequestHandler.cs:62 | the 36-character text form of a `Guid`, with hyphens at positions 8, 13, 18 and 23 |
| Models.GuidStringInjective | Services/RequestHandlers/CommandRequestHandler.cs:62 | two ids print the same exactly when they are equal, so the not-found message names the id |
| Store.DeleteEachRemovesListed | Services/RequestHandlers/CommandRequestHandler.cs:144-145 | a range delete removes exactly the listed ids; duplicates and ids with no record are harmless |
| Store.UpdateEachAt | Services/RequestHandlers/CommandRequestHandler.cs:129-130 | a range update keeps the key set; a record takes the last asset paired with its key, or stays as it was |
| Store.InsertEachAt | Services/RequestHandlers/CommandRequestHandler.cs:110 | a range create adds exactly the created ids, and a record whose key is not among them is kept |
| Store.InsertEachStores | Services/RequestHandlers/CommandRequestHandler.cs:110 | each created asset that no later asset of the batch shares an id with is the record stored under its id |
| ActionResults.SingleNamed | Api/Controllers/AssetsController.cs:43 | `Single(x => x.Name == "MongoDB")`: the unique position with that name; "no matching element" exactly when the name is absent; "more than one matching element" exactly when it occurs twice |
| ActionResults.DecodeAll | Api/Controllers/AssetsController.cs:101 | every element decodes, in order, exactly when none is rejected; otherwise the exception of the first rejected element |
| ActionResults.ExceptionMessage | Api/Controllers/AssetsController.cs:116 | the message of an `ArgumentException` that names a parameter ends by naming it |
| ActionResults.CaughtReportsParameter | Api/Controllers/AssetsController.cs:114-122 | an exception whose parameter name is not blank adds one model-state error under that name; any other gives a bad request with the message and leaves the model state unchanged |
| ActionResults.SingleAssetFilterIsNamesParameter | Api/Controllers/AssetController.cs:54-62 | the single-asset controller's filter `!IsNullOrEmpty && !IsNullOrWhiteSpace` is the batch controller's filter |
| AssetsControllers.AssetsController.Bind | Api/Controllers/AssetsController.cs:36-44 | the controller binds to the one command service named `MongoDB`, or the constructor throws the exception of `Single` |
| AssetsControllers.AssetsController.GetAssets | Api/Controllers/AssetsController.cs:49-79 | builds the query request for `MongoDB`; a null query throws `ArgumentNullException("queryOptions")`; otherwise the handler's list is returned as Ok, and its exceptions are not caught |
| AssetsControllers.AssetsController.Catch | Api/Controllers/AssetsController.cs:114-122 | the two catch clauses: model state and result as the caught-exception functions give them |
| AssetsControllers.AssetsController.PostAssets | Api/Controllers/AssetsController.cs:84-126 | a non-array gives "Models must be an array", an empty array "Models cannot be empty", a set id "Ids must be empty", all under `element` and with the store untouched; a rejected element goes to the catch clauses; otherwise one `CreateRange`, one save and Ok with the created list |
| AssetsControllers.AssetsController.PutAssets | Api/Controllers/AssetsController.cs:131-167 | the same two guards in the same order, then decoding as for POST; otherwise every asset is stamped, keyed by its own id, range-updated, saved, and NoContent is returned |
| AssetsControllers.AssetsController.DeleteAssets | Api/Controllers/AssetsController.cs:172-201 | null or empty ids give "Ids are required" under `ids` with the store untouched; otherwise one range delete, one save, NoContent |
| AssetsControllers.PostedBatchIsStored | Api/Controllers/AssetsController.cs:101-111 | a created batch keeps the decoded assets except for their new ids; each had an empty id; the store gains exactly the new ids; when the new ids are distinct, each created asset is the record stored under its new id |
| AssetControllers.AssetController.Bind | Api/Controllers/AssetController.cs:25-33 | the controller binds to the one query service, then to the one command service, named `MongoDB`, or the constructor throws |
| AssetControllers.AssetController.GetAsset | Api/Controllers/AssetController.cs:38-66 | the default id gives "Id is required" under `id`, and no service is called; otherwise Ok with the query service's record for the id, or null |
| AssetControllers.AssetController.PostAsset | Api/Controllers/AssetController.cs:71-109 | a null model gives "Model is required", a set id "Id must be empty", both under `model` with the store untouched; otherwise create, save, and Created at `GetAsset` with path `Asset/<id>` and the created asset |
| AssetControllers.AssetController.PutAsset | Api/Controllers/AssetController.cs:114-150 | the default id gives "Id is required"; then a null model or a different model id gives "Ids must match"; otherwise the record with that id is overwritten by the body as given, then one save and NoContent |
| AssetControllers.AssetController.DeleteAsset | Api/Controllers/AssetController.cs:155-183 | the default id gives "Id is required" with the store untouched; otherwise the record is removed, then one save and NoContent |
| AssetControllers.AssetPath | Api/Controllers/AssetController.cs:92 | the 42-character route path `Asset/<id>` |
| AssetControllers.AssetPathInjective | Api/Controllers/AssetController.cs:90-95 | the created route path identifies the created id |
| AssetControllers.PutKeepsOtherRecords | Api/Controllers/AssetController.cs:134 | a successful put changes no key, leaves the record under `id` with that id, and leaves the other records as they were |
| MemoryCacheExtensions.SetCacheEntry | Api/Extensions/MemoryCacheExtensions.cs:9-47 | a null cache throws `ArgumentNullException("cache")`; a null key or value leaves the cache unchanged; otherwise the key maps to the filled entry |
| MemoryCacheExtensions.FillEntry | Api/Extensions/MemoryCacheExtensions.cs:25-46 | the entry holds the value; without options every policy field is the default; with options the three expirations, the tokens and callbacks in order, the priority and the size are the options' |
| MemoryCacheExtensions.MemoryCache.Commit | Api/Extensions/MemoryCacheExtensions.cs:25 | disposing the created entry stores it under its key, replacing any earlier entry |
| MemoryCacheExtensions.CacheAfterSetEffect | Api/Extensions/MemoryCacheExtensions.cs:20-46 | a null key or value changes nothing; otherwise the key holds the value; without options it is a fresh entry with the default policy; with options the absolute, relative and sliding expirations, the tokens, the eviction callbacks, the priority and the size are the options'; every other key keeps its entry or its absence |
| MemoryCacheExtensions.CacheAfterSetIdempotent | Api/Extensions/MemoryCacheExtensions.cs:25-46 | setting the same entry twice leaves the cache as setting it once |
| HttpContextExtensions.HandleException | Api/HttpContextExtensions.cs:32-72 | a null context throws `ArgumentNullException("context")`; a started response is left untouched and a completed `Task` is returned; otherwise the response is reset and the executed result carries the old status code, its problem type, its reason phrase, and the content types problem+json then problem+xml |
| HttpContextExtensions.ClearResponse | Api/HttpContextExtensions.cs:74-101 | the status code is kept; the headers become the three no-cache headers followed by the old CORS headers in their order (insertion order, see "## Left out"); the header dictionary stays valid; the builder's private copy (`Api/ApplicationBuilderExtensions.cs`, lines 84-111) is the same code and is modelled by this method |
| HttpContextExtensions.ProblemType | Api/HttpContextExtensions.cs:47 | the problem type starts with `https://httpstatuses.com/` and goes on with the status code's digits |
| HttpContextExtensions.ProblemTypeInjective | Api/HttpContextExtensions.cs:44-49 | the problem type names the status: two codes get the same type exactly when they are equal |
| HttpContextExtensions.CorsOnlyMembers | Api/HttpContextExtensions.cs:83-91 | a header survives the filter exactly when its name is one of the six CORS names, ignoring case |
| HttpContextExtensions.ResetHeadersMembers | Api/HttpContextExtensions.cs:76-91 | a header is present after the reset exactly when it is a no-cache header or an old CORS header |
| HttpContextExtensions.ResetHeadersDistinct | Api/HttpContextExtensions.cs:97-100 | the reset headers have distinct names ignoring case, so re-adding them one by one never clashes |
| HttpContextExtensions.ResetHeadersIdempotent | Api/HttpContextExtensions.cs:74-101 | resetting a reset response gives the same headers |
| HttpContextExtensions.HttpResponse.Clear | Api/HttpContextExtensions.cs:94 | clearing a response that has not started sets status 200 and removes every header |
| HttpContextExtensions.HttpResponse.AddHeader | Api/HttpContextExtensions.cs:99 | adding a header whose name is absent appends it and changes nothing else |
| ApplicationBuilderExtensions.HandleException | Api/ApplicationBuilderExtensions.cs:37-82 | a null builder throws `ArgumentNullException("app")` before the context is checked, and touches nothing; otherwise it behaves exactly as the context extension: null context, started response, reset and problem result |

## Left out

- Ownership authorization, the cache-synchronising notification handlers and the notification classes: the repository files that hold them are not part of this model.
- Logging: the pipeline's logging behaviour and the error logging in both `HandleException` copies are not modelled. The logging branch has no effect on the response.
- Host wiring: `Startup`, `Program`, the OData and database configuration, and seed data are not modelled.
- Async and cancellation: tasks and cancellation tokens are omitted. Every modelled operation runs to completion in sequence.
- Mediator dispatch: the mediator pipeline is not modelled. `AssetsController.GetAssets` hands its request straight to the query handler it is given.
- The database: the store has only the least effect the calling code relies on.
  - A keyed update or delete on a missing key changes nothing.
  - The ids assigned on create are parameters.
  - Records are keyed by id, and the predicates `x => x.Id == id` are modelled as lookups by that key. A record whose `Id` field changes is not re-keyed. That happens with a replace whose asset carries another `Id` than the request, or a patch that changes `Id`. The record is then stored under the request's id, and the model does not promise `records[k].id == k`.
  - The store never throws. So the store's own `ArgumentException`s, which the controllers would catch, are not modelled; in `AssetController` the catch clauses are never reached.
- OData:
  - query options are an opaque value passed through unchanged;
  - `Delta.Patch` copies the changed properties;
  - route data, the action context and the result executor are not modelled. The executed result is returned as a value.
- JSON decoding: what `FromJsonElement` makes of each array element is given as data, either an asset or the `ArgumentException` it throws. Its parsing rules are not part of this model.
- Reason phrases: the table `GetReasonPhrase` uses is a parameter.
- Case-insensitive comparison folds ASCII letters only. `InvariantCultureIgnoreCase` and `OrdinalIgnoreCase` also fold other letters. Every name the code compares (service names, the CORS header names) is ASCII.
- In-place mutation and aliasing: `Asset` is a value. Several steps set `UpdatedDate` on objects the caller also holds: `request.Asset.UpdatedDate = UtcNow`, the `foreach` over a request's assets, and `models.ForEach`. The model returns the stamped copies instead, so it does not show the caller's objects changing.
- `Response.Clear`: only the status code and the headers are modelled. The response body and the reason-phrase feature are left out.
- Model binding: the framework's validation of bound bodies (`[Required]`, `[StringLength(255)]`) and the `CreatedDate = UtcNow` default of a new `Asset` are not modelled.
- The `CreateAssetsRequest` source file is not part of this model. Its shape (a name and an array of assets) is taken from the handler that consumes it, and it has no constructor here.
- `UpdateAssetsRequest` is built and validated, but no handler is registered for it, so it is never dispatched.
- A data service whose name is null is not modelled: service names are strings.
- `ExceptionMessage`: the " (Parameter 'name')" suffix follows the `ArgumentException.Message` format of .NET Core 3.0 and later.
- MemoryCache.Commit: disposing the created entry always stores it under its key, replacing any earlier entry. The framework cache does not always store it. An entry already expired at commit is not stored, and the earlier entry under the key is removed. When the cache has a `SizeLimit`, an entry without a `Size` throws `InvalidOperationException`, and an entry that would exceed the capacity is dropped. The cache's clock, size limit and compaction are not part of this model.
- CacheAfterSetEffect: "the key holds the value" is stated for the committed entry under the idealised `MemoryCache.Commit` above. The lemma does not cover an entry the framework cache would refuse (expired at commit, or over a size limit).
- Header order: response headers are a sequence kept in insertion order. The server's header collection lists well-known headers in a fixed order of its own, which is not modelled; "in their order" in `ClearResponse`'s contract refers to insertion order.
