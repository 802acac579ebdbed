# loopback-component-jsonapi, modelled in Dafny

This project models the request and response hooks that the LoopBack
JSON:API component registers on an application's remote methods. It also
proves properties of that model.

- **Policy** (`Utils`). Two questions decide whether a remote method is
  handled: whether JSON:API applies to it (the per-method `jsonapi` flag,
  the `include` rules, `handleCustomRemoteMethods`), and whether it is
  excluded (`jsonapi === false`, the `exclude` rules). Other helpers find the
  model from the remote context, the plural and HTTP path of a model, and
  the normalised `include` parameter.
- **Serialization hook** (`Serialize`). It decides whether a result is
  serialized at all. It then switches to the related model when the request
  is on a relation sub-path (`/folders/1/children`), merges requested
  includes with the model's scope include, and builds the options handed to
  the serializer.
- **Deserializer** (`Deserializer`). Three stages run on an inbound write
  document: before, transform and after. A model may replace any of them.
  A final pass then writes each belongs-to relationship as a foreign-key
  attribute.
- **Relationship linking** (`Relationships`). After `create`, and before
  `updateAttributes` / `patchAttributes`, each relationship of the document
  that names a known relation with a `modelTo`, other than a belongs-to one,
  becomes one link request. Unknown names, belongs-to relations and
  relations without `modelTo` are skipped.
- **Pagination** (`QueryString`). `page[offset]` and `page[limit]` are
  copied into the remote call's `filter` as `skip` and `limit`.

JavaScript values are the `Json.Value` datatype. The modules use its
truthiness, its `typeof` tests and its property reads. A throw becomes
`Result.Err`: a `TypeError` for a read through `undefined` or `null`, and a
`SyntaxError` when `JSON.parse` gets the text `undefined`. A relation names
the models at its ends, and `App.models` resolves those names, so a
reflexive relation is a finite value.

The component's documentation gives a per-method `jsonapi: true` the
highest priority. In the code, every hook tests the exclusion first, so a
matching `exclude` rule wins over `jsonapi: true`. The model follows the
code (`Serialize.ExcludeBeatsApplyFlag`).

`_.includes(methods, name)` behaves differently depending on `methods`:

- on a list, it tests membership;
- on a single string, it tests for a substring, so a rule with
  `methods: 'findById'` also matches `find`.

The model keeps this behaviour (`Utils.StringMethodsMatchBySubstring`).

## Model

| member | source | states |
|---|---|---|
| Utils.FirstPresent | lib/utils.js:38-55 | the first present candidate, every candidate before it absent; the fallback when none is present |
| Utils.PluralForModel | lib/utils.js:38-56 | `pluralModelName`, else `settings.plural`, else `definition.settings.plural`, else the pluralized class name; each one only when no earlier one is present |
| Utils.HttpPathForModel | lib/utils.js:65-70 | the configured `http.path` when present, otherwise the model's plural |
| Utils.ReturnsList | lib/utils.js:147 | `[].concat(returns)`: an array's elements, any other value as a one-element list |
| Utils.FindRootType | lib/utils.js:148-151 | the `type` of the first entry with `root === true`; a null met first throws; undefined when no entry ends the scan |
| Utils.GetTypeFromContext | lib/utils.js:144-152 | undefined for falsy `returns`; otherwise the outcome of the scan at the first entry that ends it |
| Json.KeyString | lib/utils.js:129-132 | the property key JavaScript makes of a value: a string is itself, `null` is `null`, a number its decimal digits, an array its elements joined with ',' (so a one-string array is that string, an empty one the empty key) |
| Json.JoinedElements | lib/utils.js:129 | `join(',')` of an array's elements: empty for no elements, the last string element alone, and a ',' between two or more |
| Json.KeyStringExamples | lib/utils.js:129 | `['a', 'b']` is the key `a,b` and `['a', null, ['b']]` the key `a,,b` |
| Utils.Lookup | lib/utils.js:129-132 | `app.models[key]` is found exactly when the key's string form names a registered model, and is that model |
| Utils.ListReturnTypeNamesItsModel | lib/utils.js:127-133 | a root `returns` whose type is `['Comment']` finds the `Comment` model, whatever class the method is on |
| Utils.GetModelFromContext | lib/utils.js:127-133 | fails exactly when reading the type throws; the model named by the root type when registered, else the model of the method's class |
| Utils.HostFromContext | lib/utils.js:101-103 | the host is the protocol, `://` and the `host` header, each readable back at its place |
| Utils.IsSubstringOccurs | lib/utils.js:203-204 | the string form of `_.includes` holds exactly when the method name occurs at some index of the rule's string |
| Utils.Includes | lib/utils.js:203-204 | a rule without methods includes nothing; a string of methods includes a name exactly when the name occurs in it at some index; a list includes exactly its members |
| Utils.RuleMatches | lib/utils.js:200-204 | the five tests of a rule amount to: same class and no methods or included methods, or no class and included methods |
| Utils.RuleMatchingCases | lib/utils.js:227-231 | another class never matches; a rule with no class and no methods never matches; a list of methods matches by membership, a non-empty string by substring |
| Utils.StringMethodsMatchBySubstring | lib/utils.js:230-231 | `methods: 'findById'` matches `find`, `'deleteById'` matches `Id`, while `['findById']` does not match `find` |
| Utils.AnyRuleMatches | lib/utils.js:197-205 | the early-return scan succeeds exactly when some rule of the list matches |
| Utils.ShouldApplyJsonApi | lib/utils.js:188-210 | a truthy `jsonapi` flag applies; otherwise applies exactly when some include rule matches or `handleCustomRemoteMethods` is set |
| Utils.ShouldNotApplyJsonApi | lib/utils.js:212-235 | `jsonapi === false` excludes; without an exclude list nothing else is excluded; otherwise excluded exactly when some exclude rule matches |
| Utils.RelationFkOnModelFrom | lib/utils.js:237-239 | true exactly for belongs-to and references-many relations |
| Utils.SetIncludedRelations | lib/utils.js:241-251 | the same keys; every relation keeps all its fields and gains the relations of the model its `modelTo` (or its own name) names |
| Utils.IncludeName | lib/utils.js:260-269 | a string stays, an object gives its `relation`, anything else undefined |
| Utils.SetRequestedIncludes | lib/utils.js:253-272 | undefined for a falsy parameter; an array normalised element by element with its length kept; any other value unchanged |
| Json.Clone | lib/utils.js:79-81 | the JSON round trip gives back every defined value and throws on undefined |
| Serialize.FilterPatterns | lib/serialize.js:35-37 | the patterns kept are exactly those of the list that match the method name |
| Serialize.BuiltinMatchCharacterised | lib/serialize.js:7-16 | a built-in pattern matches exactly `find`, `create`, `deleteById`, `findById`, `updateAttributes`, `patchAttributes` and the names starting with `__get__` or `__findRelationships__` |
| Serialize.LastSlashBefore | lib/serialize.js:79-80 | the index of a '/' with no other '/' after it before the bound, or -1 when there is none |
| Serialize.RelationNameFromPath | lib/serialize.js:79-81 | a relation name is non-empty, holds no '/', and is what follows the path's last '/' with another '/' before it |
| Serialize.RelationNameOfLastSegment | lib/serialize.js:79-81 | the converse: a prefix holding a '/', then '/', then a non-empty name without '/', with no line terminator anywhere, names exactly that name |
| Serialize.NoRelationName | lib/serialize.js:79-81 | no name from a path ending in '/', from a path with fewer than two '/', or when the last segment holds a line terminator |
| Serialize.RelationNameExamples | lib/serialize.js:79-81 | `/folders/1/children` names `children`, `/folders/1` names `1`; `/folders`, `/folders/` and `/folders/1/` name nothing |
| Serialize.RelatedModel | lib/serialize.js:85-91 | a polymorphic relation whose key is on its own model reads the model named by the instance's discriminator and throws for an undefined or null instance; any other relation gives its `modelTo` |
| Serialize.RelatedTarget | lib/serialize.js:78-102 | no switch without a known relation name; a missing related model throws; the primary key always becomes the related model's, and type, model, path and relations switch only for a non-empty related plural; the result is always coherent: type, path and relations are those of its model |
| Serialize.ReflexiveChildrenTarget | lib/serialize.js:83-101 | `/folders/1/children` on a folder with a has-many `children` to itself serializes as `folders` with the folder's own relations |
| Serialize.PolymorphicTargetFromDiscriminator | lib/serialize.js:85-88 | a polymorphic belongs-to sub-path serializes the model named by the instance's discriminator |
| Serialize.RequestIncludes | lib/serialize.js:105-109 | undefined unless sideloading; otherwise the normalised `filter.include`, throwing when `filter` is undefined or null |
| Serialize.MergedIncludes | lib/serialize.js:111-129 | no change without a truthy scope; otherwise the request's includes in array form come first and the scope's after them, with nothing lost; appending to a request value that is not an array throws |
| Serialize.MergeKeepsDuplicates | lib/serialize.js:122-127 | a relation named by both the request and the scope appears twice; a string request becomes the first element |
| Serialize.DataSelfLinkPath | lib/serialize.js:140-145 | the data self link ends with '/' and the item's id, and a plain id is what the relation-name parse reads back from it |
| Serialize.ReflexiveChildrenSelfLink | lib/serialize.js:140-145 | with the model path of the switch on `/folders/1/children` (a reflexive has-many), the data self links are the API root, `/folders/` and the id |
| Serialize.ExcludeBeatsApplyFlag | lib/serialize.js:31-41 | a method with `jsonapi: true` and a matching exclude rule is both applied and excluded, and is not handled |
| Serialize.SwitchToRelated | lib/serialize.js:78-102 | the switch performed step by step on local variables gives exactly the related target |
| Serialize.MergeScopeInclude | lib/serialize.js:111-129 | the merge performed step by step (array form, then push or concat) gives exactly the merged includes |
| Serialize.AfterRemoteSerialize | lib/serialize.js:20-151 | passes through excluded methods, methods neither applied nor built-in, DELETE/PUT/HEAD and a defined but falsy `findById` result on a found model; an undefined result throws; it passes through only in those cases; it fails only when one of its throws (clone, model lookup, missing model, switch, `filter.include`, scope append) happens, and each throw fails with that step's own error (a model lookup throw fails even for a falsy `findById` result, since the lookup runs first), and it serializes whenever it handles the call, none of those throws happens and the `findById` case does not apply; when it serializes, the data is the result, type/model/path/relations/primary key are those of the related-model switch, the includes are the merged ones, `meta` is kept only when truthy, the host is the configured one or the request's, and the top-level self link is host plus original URL |
| Deserializer.DefaultBeforeDeserialize | lib/deserializer.js:5-7 | the options pass through unchanged |
| Deserializer.DefaultDeserialize | lib/deserializer.js:9-12 | throws exactly when the document or its `data` is missing; otherwise `result` is the attributes, or empty when there are none, and nothing else changes |
| Deserializer.DefaultAfterDeserialize | lib/deserializer.js:14-16 | the options pass through unchanged |
| Deserializer.SelectStage | lib/deserializer.js:29-39 | the model's hook when it is a function, the default stage otherwise |
| Deserializer.ForeignKeyValue | lib/deserializer.js:78-82 | null for falsy relationship data, otherwise its `id` |
| Deserializer.FkWrites | lib/deserializer.js:65-83 | no more writes than relationships; every write is the `keyFrom` of a belongs-to relation with a `modelFrom`, carrying that relationship's `data.id` or null |
| Deserializer.ApplyWritesEffect | lib/deserializer.js:79-81 | after the writes the keys are the old keys plus the written ones, each written key holds its last write, and every other entry is kept |
| Deserializer.BelongsToPass | lib/deserializer.js:57-84 | model and document are kept; the pass fails only with a TypeError and only when `result` is undefined |
| Deserializer.BelongsToRelationships | lib/deserializer.js:57-84 | the loop with its early exit computes exactly the belongs-to pass |
| Deserializer.Deserialize | lib/deserializer.js:26-55 | no model throws; with no model hooks the pipeline fails exactly when the document or its `data` is missing |
| Deserializer.PipelineOrder | lib/deserializer.js:43-54 | before, transform and after run in that order, the first error is the outcome, and the belongs-to pass runs on the after stage's options |
| Deserializer.StageErrorShortCircuits | lib/deserializer.js:43-44 | when the before stage fails, later stages do not matter and its error is the outcome |
| Deserializer.DefaultPipeline | lib/deserializer.js:26-55 | with no model hooks, `result` is the attributes with the belongs-to foreign keys written over them |
| Deserializer.FkWritesPrefix | lib/deserializer.js:65-83 | until the scan stops, the relationships are written in order |
| Deserializer.ScanStopsAtMissingModelFrom | lib/deserializer.js:73-76 | a belongs-to relation without `modelFrom` ends the scan: nothing after it is written |
| Deserializer.NonBelongsToWritesNothing | lib/deserializer.js:66-71 | unknown and non-belongs-to relationships write nothing |
| Deserializer.ForeignKeyRoundTrip | lib/deserializer.js:78-82 | an `author` relationship with `data: {id: "7"}` sets `authorId` to "7", with `data: null` sets it to null, and keeps every other attribute |
| Relationships.ExtractIdsFromResource | lib/relationships.js:52-57 | an array gives the `id` of each element, in order; anything else its `id`, or null when there is none |
| Relationships.PayloadRelationships | lib/relationships.js:61 | `_.get(payload, 'data.relationships', {})`: the document's relationships when present, none otherwise |
| Relationships.PlanOne | lib/relationships.js:64-79 | a request exactly for a known relation with a `modelTo` that is not belongs-to, from the model and id, to `modelTo`, with the extracted ids |
| Relationships.PlanLinks | lib/relationships.js:59-81 | nothing at all without a truthy id and a model; otherwise one slot per relationship, in key order |
| Relationships.PlannedRequests | lib/relationships.js:59-81 | every planned request is for a linkable relation with the relationship's ids, every linkable relation is planned, and distinct names give distinct requests |
| Relationships.SkippedRelationships | lib/relationships.js:66-73 | unknown, belongs-to and `modelTo`-less relationships produce no request |
| Relationships.NoRelationshipsNoRequests | lib/relationships.js:61 | a document without relationships gives an empty plan |
| Relationships.RunLinks | lib/relationships.js:60 | a failed model lookup fails; no plan (falsy id or no model) throws a TypeError; otherwise the plan is dispatched |
| Relationships.BeforeRemoteLink | lib/relationships.js:16-30 | only non-excluded `updateAttributes` / `patchAttributes` link, with the request's `params.id` |
| Relationships.AfterRemoteLink | lib/relationships.js:33-49 | only a non-excluded `create` with a truthy result and `result.data` links, with `result.data.id` |
| Relationships.LinkingOnlyOnWrites | lib/relationships.js:16-49 | linking happens only on those three methods, never when excluded, and never from both hooks for one call |
| Relationships.FalsyIdThrows | lib/relationships.js:25-29 | an update with a falsy id throws instead of skipping the linking |
| QueryString.CopyPageParams | lib/querystring.js:14-21 | every key is the filter's or a copied one; the last mapping copying to a key sets it to the string `page[from]`; keys no mapping copies to keep their value |
| QueryString.PagedFilter | lib/querystring.js:12-22 | string `page.offset` becomes `skip`, string `page.limit` becomes `limit`, every other key of the initial filter is kept |
| QueryString.PaginationExample | lib/querystring.js:13-22 | `page[offset]=5&page[limit]=10` on no filter gives `{skip: "5", limit: "10"}` |
| QueryString.RemoteArgs.PaginateBeforeRemote | lib/querystring.js:7-23 | an excluded call keeps `filter`; otherwise `filter` becomes `{}` when absent, a page object is copied in, and a null page throws after `filter` is initialised |

## Left out

- `lib/serializer.js` is not part of this model. Neither is `lib/utilities/relationship-utils.js` (`linkRelatedModels`). The serialization hook is modelled up to the arguments it passes to the serializer. The serializer callback, which replaces `ctx.result` or forwards the error, is left out.
- The linking hooks are modelled up to the requests they pass to `linkRelatedModels`. The promises, their rejection and the calls to `next` are left out.
- `inflection.pluralize` is the parameter `pluralize`.
- `new URL(...)` in `dataLinks.self` is left out: only the joined path (`Serialize.DataSelfLinkPath`) is modelled.
- Setting the `Content-Type` header, the `headersSent` test and the debug logging are I/O and are left out.
- In `lib/relationships.js`, `id`, `data` and `model` are variables shared by all requests. Interleaving of concurrent requests through them is not modelled. Each hook reads the values of its own call.
- The inbound document (`options.data`) is a parameter of the linking hooks.
- Json.Clone: the JSON round trip is the identity on every defined value. It does not model these effects:
  - properties whose value is `undefined` are dropped;
  - `undefined` array elements become `null`;
  - `toJSON` methods are called;
  - functions are lost.
- Numbers are integers. Floating point is not modelled.
- Json.KeyString: an object key is `[object Object]`. An object with its own `toString` is not modelled.
- Serialize.RelatedModel: a relation's `modelTo` is a model name looked up in `app.models`, where the source holds the model class itself. When that model is not registered, the model finds nothing and the switch throws a TypeError, while the source would switch to the unregistered class.
- Property names inherited from `Object.prototype` are not modelled. For example, a relation named `constructor` is found by a JavaScript property read but not here.
- The inbound document is typed:
  - `relationships` is an ordered list of named relationships;
  - `attributes` is a map.

  A document whose `data`, `relationships` or a relationship entry is `null` or not an object cannot be represented.
- Utils.SetIncludedRelations returns a new map instead of mutating the relation objects. Sharing is not captured: of relation objects between models, or of a model's relations map with the one being annotated (the reflexive case). Each attached map is the target model's relations as registered.
- `_.defaults(options, defaults)`: of the component options, only `restApiRoot` and `host` are carried into `SerializerOptions`.
- `_.cloneDeep` in the deserializer and `app` in the serializer options are not modelled separately, because every value here is immutable.
- `primaryKeyForModel` (`model.getIdName()`) is the `idName` field of a model.
- `getRelationsFromContext` is the base model's `relations`.
- `urlFromContext` is not used by the modelled hooks and is not modelled.
- A model hook is a function returning a result. A hook that never calls back, or calls back twice, is not modelled.
