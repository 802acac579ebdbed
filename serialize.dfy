/**
 * The serialization after-hook: decides whether a remote call's result is
 * turned into a JSON:API document, works out the type, path, relations and
 * primary key to serialize with (switching to the related model on a
 * relation sub-path), merges requested includes with the model's scope
 * include, and builds the options handed to the serializer.
 */
module Serialize {
  import opened Json
  import opened Utils

  // ---------------------------------------------------------------------
  // The built-in method matcher

  /** A regular expression of the list: `^name$` or `^prefix.*`. */
  datatype Pattern = Exact(name: string) | Prefix(prefix: string)

  const BuiltinPatterns: seq<Pattern> := [
    Exact("find"),
    Exact("create"),
    Exact("deleteById"),
    Exact("findById"),
    Prefix("__get__"),
    Exact("updateAttributes"),
    Exact("patchAttributes"),
    Prefix("__findRelationships__")
  ]

  /** `regex.test(name)`. */
  predicate PatternTest(p: Pattern, name: string) {
    match p
    case Exact(s) => name == s
    case Prefix(s) => s <= name
  }

  /** `patterns.filter(regex => regex.test(name))`. */
  function FilterPatterns(patterns: seq<Pattern>, name: string): (ms: seq<Pattern>)
    ensures |ms| <= |patterns|
    ensures forall p :: p in ms <==> p in patterns && PatternTest(p, name)
    decreases |patterns|
  {
    if patterns == [] then []
    else if PatternTest(patterns[0], name) then [patterns[0]] + FilterPatterns(patterns[1..], name)
    else FilterPatterns(patterns[1..], name)
  }

  /** The built-in patterns that match a method name. */
  function MatchingPatterns(name: string): (ms: seq<Pattern>) {
    FilterPatterns(BuiltinPatterns, name)
  }

  /**
   * Some built-in pattern matches exactly the six CRUD names and the names
   * that start with `__get__` or `__findRelationships__`.
   */
  lemma BuiltinMatchCharacterised(name: string)
    ensures |MatchingPatterns(name)| > 0 <==>
      || name in {"find", "create", "deleteById", "findById", "updateAttributes", "patchAttributes"}
      || "__get__" <= name
      || "__findRelationships__" <= name
  {
    var ms := MatchingPatterns(name);
    if |ms| > 0 {
      assert ms[0] in ms;
    }
    if name in {"find", "create", "deleteById", "findById", "updateAttributes", "patchAttributes"} {
      assert Exact(name) in BuiltinPatterns;
      assert Exact(name) in ms;
    }
    if "__get__" <= name {
      assert Prefix("__get__") in ms;
    }
    if "__findRelationships__" <= name {
      assert Prefix("__findRelationships__") in ms;
    }
  }

  // ---------------------------------------------------------------------
  // The relation name of a sub-path

  /** The characters at which `.` stops matching in a JavaScript regular expression. */
  predicate IsLineTerminator(c: char) {
    c == '\n' || c == '\r' || c == '\U{2028}' || c == '\U{2029}'
  }

  /** The index of the last '/' before index `n`, or -1. */
  function LastSlashBefore(s: string, n: int): (k: int)
    requires 0 <= n <= |s|
    ensures -1 <= k < n
    ensures k >= 0 ==> s[k] == '/'
    ensures forall j :: k < j < n ==> s[j] != '/'
    decreases n
  {
    if n == 0 then -1 else if s[n - 1] == '/' then n - 1 else LastSlashBefore(s, n - 1)
  }

  /**
   * The group of `/\/.*\/(.*$)/` on the request path when it is non-empty:
   * the text after the last '/', when another '/' comes before it and no line
   * terminator occurs from that '/' on.
   */
  function RelationNameFromPath(path: string): (r: Option<string>)
    ensures r.Some? ==> r.value != "" && '/' !in r.value
    ensures r.Some? ==> exists prefix :: '/' in prefix && path == prefix + "/" + r.value
  {
    var last := LastSlashBefore(path, |path|);
    if last < 0 then None
    else
      var prev := LastSlashBefore(path, last);
      if prev < 0 || last + 1 == |path| then None
      else if exists j :: prev <= j < |path| && IsLineTerminator(path[j]) then None
      else
        var name := path[last + 1..];
        assert path == path[..last] + "/" + name;
        assert path[..last][prev] == '/';
        Some(name)
  }

  /** A '/' with none after it before index `n` is the last one. */
  lemma {:induction false} LastSlashIs(s: string, n: int, k: int)
    requires 0 <= k < n <= |s| && s[k] == '/' && '/' !in s[k + 1..n]
    ensures LastSlashBefore(s, n) == k
    decreases n
  {
    if n - 1 != k {
      assert s[n - 1] == s[k + 1..n][n - 2 - k];
      assert s[k + 1..n - 1] == s[k + 1..n][..n - 2 - k];
      LastSlashIs(s, n - 1, k);
    }
  }

  /**
   * The converse: a path made of a prefix holding a '/', then '/', then a
   * non-empty name without '/', and no line terminator anywhere, names that name.
   */
  lemma RelationNameOfLastSegment(prefix: string, name: string)
    requires '/' in prefix && name != "" && '/' !in name
    requires forall j :: 0 <= j < |prefix + "/" + name| ==> !IsLineTerminator((prefix + "/" + name)[j])
    ensures RelationNameFromPath(prefix + "/" + name) == Some(name)
  {
    var path := prefix + "/" + name;
    assert path[|prefix| + 1..] == name;
    LastSlashIs(path, |path|, |prefix|);
    var m := LastSlashBefore(prefix, |prefix|);
    assert m >= 0 by {
      var i :| 0 <= i < |prefix| && prefix[i] == '/';
    }
    assert path[m + 1..|prefix|] == prefix[m + 1..];
    var tail := prefix[m + 1..];
    assert forall k :: 0 <= k < |tail| ==> tail[k] == prefix[m + 1 + k];
    LastSlashIs(path, |prefix|, m);
  }

  /**
   * No name is read from a path that ends with '/', from one with fewer than
   * two '/', or when the last segment holds a line terminator.
   */
  lemma NoRelationName(path: string)
    ensures |path| > 0 && path[|path| - 1] == '/' ==> RelationNameFromPath(path) == None
    ensures (forall i, j :: 0 <= i < j < |path| && path[i] == '/' ==> path[j] != '/') ==>
      RelationNameFromPath(path) == None
    ensures (exists j :: LastSlashBefore(path, |path|) < j < |path| && IsLineTerminator(path[j])) ==>
      RelationNameFromPath(path) == None
  {
    var last := LastSlashBefore(path, |path|);
    if |path| > 0 && path[|path| - 1] == '/' {
      assert last == |path| - 1;
    }
  }

  /** `/folders/1/children` names `children`; `/folders`, `/folders/` and `/folders/1/` name nothing. */
  lemma RelationNameExamples()
    ensures RelationNameFromPath("/folders/1/children") == Some("children")
    ensures RelationNameFromPath("/folders/1") == Some("1")
    ensures RelationNameFromPath("/folders") == None
    ensures RelationNameFromPath("/folders/") == None
    ensures RelationNameFromPath("/folders/1/") == None
  {
    var p := "/folders/1/children";
    assert p[11..19] == "children";
    LastSlashIs(p, |p|, 10);
    assert p[9..10] == "1";
    LastSlashIs(p, 10, 8);
    assert p[11..] == "children";
    var q := "/folders/1";
    assert q[9..10] == "1";
    LastSlashIs(q, |q|, 8);
    assert q[1..8] == "folders";
    LastSlashIs(q, 8, 0);
    assert q[9..] == "1";
    var s := "/folders";
    assert s[1..8] == "folders";
    LastSlashIs(s, |s|, 0);
    var t := "/folders/";
    LastSlashIs(t, |t|, 8);
    var u := "/folders/1/";
    LastSlashIs(u, |u|, 10);
  }

  // ---------------------------------------------------------------------
  // The related-model switch

  /** What is serialized with: type, model, path, relations and primary key. */
  datatype Target = Target(
    typeName: string,
    model: ModelDef,
    path: string,
    relations: map<string, Relation>,
    primaryKeyField: string)

  /** A model's own type, path, relations and primary key. */
  function OwnTarget(model: ModelDef, pluralize: string -> string): (t: Target) {
    Target(PluralForModel(model, pluralize), model, HttpPathForModel(model, pluralize), model.relations, model.idName)
  }

  /** Type and path are those of the target's model, and so are its relations. */
  predicate Coherent(t: Target, pluralize: string -> string) {
    && t.typeName == PluralForModel(t.model, pluralize)
    && t.path == HttpPathForModel(t.model, pluralize)
    && t.relations == t.model.relations
  }

  /**
   * The model a relation sub-path is about: for a polymorphic relation whose
   * foreign key is on the model it starts from, the model named by the
   * discriminator property of the (cloned) instance; otherwise `modelTo`.
   */
  function RelatedModel(rel: Relation, app: App, instance: Value): (r: Result<Option<ModelDef>>)
    ensures !(rel.polymorphic.Some? && RelationFkOnModelFrom(rel)) ==>
      r == Ok(if rel.modelTo.Some? then Lookup(app, Str(rel.modelTo.value)) else None)
    ensures rel.polymorphic.Some? && RelationFkOnModelFrom(rel) ==>
      && (r.Err? <==> instance.Undefined? || instance.Null?)
      && (r.Ok? ==> r.value == Lookup(app, Get(instance, rel.polymorphic.value)))
  {
    if rel.polymorphic.Some? && RelationFkOnModelFrom(rel) then
      var copy :- Clone(instance);
      var discriminator :- Prop(copy, rel.polymorphic.value);
      Ok(Lookup(app, discriminator))
    else
      Ok(if rel.modelTo.Some? then Lookup(app, Str(rel.modelTo.value)) else None)
  }

  /** The relation name picks a relation of the model. */
  predicate NamesRelation(model: ModelDef, relationName: Option<string>) {
    relationName.Some? && relationName.value != "" && relationName.value in model.relations
  }

  /**
   * The target after the switch. Without a known relation name it is the
   * model's own. With one, a missing related model throws; otherwise the
   * primary key always becomes the related model's, and type, model, path
   * and relations follow only when the related plural is non-empty.
   */
  function RelatedTarget(model: ModelDef, app: App, relationName: Option<string>, instance: Value,
                         pluralize: string -> string): (r: Result<Target>)
    ensures !NamesRelation(model, relationName) ==> r == Ok(OwnTarget(model, pluralize))
    ensures NamesRelation(model, relationName) ==>
      var related := RelatedModel(model.relations[relationName.value], app, instance);
      && (related.Err? ==> r == Err(related.error))
      && (related.Ok? && related.value.None? ==> r == Err(TypeError))
      && (related.Ok? && related.value.Some? ==>
            && r.Ok? && r.value.primaryKeyField == related.value.value.idName
            && (PluralForModel(related.value.value, pluralize) != "" ==>
                  r.value == OwnTarget(related.value.value, pluralize))
            && (PluralForModel(related.value.value, pluralize) == "" ==>
                  r.value == OwnTarget(model, pluralize).(primaryKeyField := related.value.value.idName)))
    ensures r.Ok? ==> Coherent(r.value, pluralize)
  {
    if !NamesRelation(model, relationName) then Ok(OwnTarget(model, pluralize))
    else
      var related :- RelatedModel(model.relations[relationName.value], app, instance);
      if related.None? then Err(TypeError)
      else if PluralForModel(related.value, pluralize) != "" then Ok(OwnTarget(related.value, pluralize))
      else Ok(OwnTarget(model, pluralize).(primaryKeyField := related.value.idName))
  }

  /**
   * The reflexive case: on `/folders/1/children`, where `children` is a
   * has-many relation of `folder` to itself, the children are serialized as
   * `folders` with the folder relations.
   */
  lemma ReflexiveChildrenTarget(folder: ModelDef, app: App, instance: Value, pluralize: string -> string)
    requires "children" in folder.relations
    requires folder.relations["children"].kind == HasMany && folder.relations["children"].polymorphic.None?
    requires folder.relations["children"].modelTo == Some(folder.name)
    requires app.models == map[folder.name := folder]
    requires folder.pluralModelName == Some("folders")
    ensures RelatedTarget(folder, app, RelationNameFromPath("/folders/1/children"), instance, pluralize)
      == Ok(OwnTarget(folder, pluralize))
    ensures OwnTarget(folder, pluralize).typeName == "folders"
  {
    RelationNameExamples();
  }

  /**
   * A polymorphic belongs-to sub-path serializes the model named by the
   * instance's discriminator, whatever `modelTo` says.
   */
  lemma PolymorphicTargetFromDiscriminator(model: ModelDef, app: App, name: string, discriminator: string,
                                           instance: Value, pluralize: string -> string)
    requires name != "" && name in model.relations
    requires model.relations[name].kind == BelongsTo && model.relations[name].polymorphic == Some(discriminator)
    requires instance.Obj? && discriminator in instance.fields && instance.fields[discriminator].Str?
    requires instance.fields[discriminator].s in app.models
    requires PluralForModel(app.models[instance.fields[discriminator].s], pluralize) != ""
    ensures RelatedTarget(model, app, Some(name), instance, pluralize) ==
      Ok(OwnTarget(app.models[instance.fields[discriminator].s], pluralize))
  {
  }

  // ---------------------------------------------------------------------
  // Includes

  /** `filter.include` normalised, when the request is sideloading; undefined otherwise. */
  function RequestIncludes(req: Request): (r: Result<Value>)
    ensures !req.isSideloadingRelationships ==> r == Ok(Undefined)
    ensures req.isSideloadingRelationships ==>
      (r.Err? <==> req.filter.Undefined? || req.filter.Null?) &&
      (r.Ok? ==> r.value == SetRequestedIncludes(Get(req.filter, "include")))
  {
    if !req.isSideloadingRelationships then Ok(Undefined)
    else
      var inc :- Prop(req.filter, "include");
      Ok(SetRequestedIncludes(inc))
  }

  /** The requested includes in array form: undefined gives [], a string [s], an array itself. */
  function AsIncludeArray(requested: Value): (a: Option<seq<Value>>) {
    if requested.Undefined? then Some([])
    else if requested.Str? then Some([requested])
    else if requested.Arr? then Some(requested.items)
    else None
  }

  /** What a scope include adds: a string itself, an array normalised, anything else nothing. */
  function ScopeIncludes(inc: Value): (vs: seq<Value>) {
    if inc.Str? then [inc]
    else if inc.Arr? then SetRequestedIncludes(inc).items
    else []
  }

  /**
   * The requested includes merged with a truthy scope's `include`: the
   * request's entries first and then the scope's, with no deduplication; a
   * request value that is not an array cannot be appended to and throws.
   */
  function MergedIncludes(requested: Value, scope: Value): (r: Result<Value>)
    ensures !Truthy(scope) ==> r == Ok(requested)
    ensures Truthy(scope) && AsIncludeArray(requested).Some? ==>
      var front := AsIncludeArray(requested).value;
      var back := ScopeIncludes(Get(scope, "include"));
      && r.Ok? && r.value.Arr?
      && |r.value.items| == |front| + |back|
      && r.value.items[..|front|] == front
      && r.value.items[|front|..] == back
    ensures Truthy(scope) && AsIncludeArray(requested).None? ==>
      var inc := Get(scope, "include");
      && ((inc.Str? || inc.Arr?) ==> r == Err(TypeError))
      && (!(inc.Str? || inc.Arr?) ==> r == Ok(requested))
  {
    if !Truthy(scope) then Ok(requested)
    else
      var inc := Get(scope, "include");
      var front := AsIncludeArray(requested);
      if !(inc.Str? || inc.Arr?) then Ok(if front.Some? then Arr(front.value) else requested)
      else if front.None? then Err(TypeError)
      else
        var items := front.value + ScopeIncludes(inc);
        assert items[..|front.value|] == front.value;
        Ok(Arr(items))
  }

  /** A relation named by both the request and the scope appears twice: the merge does not deduplicate. */
  lemma MergeKeepsDuplicates()
    ensures MergedIncludes(Arr([Str("comments")]), Obj(map["include" := Str("comments")])) ==
      Ok(Arr([Str("comments"), Str("comments")]))
    ensures MergedIncludes(Str("author"), Obj(map["include" := Arr([Str("comments")])])) ==
      Ok(Arr([Str("author"), Str("comments")]))
    ensures MergedIncludes(Undefined, Obj(map["include" := Str("comments")])) == Ok(Arr([Str("comments")]))
  {
    var one := Obj(map["include" := Str("comments")]);
    assert Truthy(one) && Get(one, "include") == Str("comments");
    var r := MergedIncludes(Arr([Str("comments")]), one);
    assert AsIncludeArray(Arr([Str("comments")])) == Some([Str("comments")]);
    assert r.value.items == [Str("comments")] + [Str("comments")];
    assert r.value == Arr([Str("comments"), Str("comments")]);
    var many := Obj(map["include" := Arr([Str("comments")])]);
    assert Truthy(many) && Get(many, "include") == Arr([Str("comments")]);
    assert SetRequestedIncludes(Arr([Str("comments")])).items == [Str("comments")];
    var s := MergedIncludes(Str("author"), many);
    assert AsIncludeArray(Str("author")) == Some([Str("author")]);
    assert ScopeIncludes(Get(many, "include")) == [Str("comments")];
    assert s.value.items == [Str("author")] + [Str("comments")];
    assert s.value == Arr([Str("author"), Str("comments")]);
  }

  // ---------------------------------------------------------------------
  // The hook

  /** The options handed to the serializer (after `_.defaults` with the configuration). */
  datatype SerializerOptions = SerializerOptions(
    model: ModelDef,
    modelPath: string,
    methodName: string,
    meta: Value,
    primaryKeyField: string,
    requestedIncludes: Value,
    host: string,
    topLevelSelf: string,
    restApiRoot: Option<string>)

  /**
   * `[restApiRoot, path, id].join('/')`, the link that `dataLinks.self`
   * resolves against the host. Its last segment is the item's id, and a
   * plain id is what the relation-name parse reads back from it.
   */
  function DataSelfLinkPath(o: SerializerOptions, id: string): (s: string)
    ensures |s| > |id| && s[|s| - |id|..] == id && s[|s| - |id| - 1] == '/'
    ensures id != "" && '/' !in id && (forall j :: 0 <= j < |s| ==> !IsLineTerminator(s[j])) ==>
      RelationNameFromPath(s) == Some(id)
  {
    var root := if o.restApiRoot.Some? then o.restApiRoot.value else "";
    var prefix := root + "/" + o.modelPath;
    assert prefix[|root|] == '/';
    var s := prefix + "/" + id;
    if id != "" && '/' !in id && (forall j :: 0 <= j < |s| ==> !IsLineTerminator(s[j])) then
      RelationNameOfLastSegment(prefix, id);
      s
    else
      s
  }

  /**
   * On `/folders/1/children`, where `children` is a has-many relation of
   * `folder` to itself, the data self links are under `folders`.
   */
  lemma ReflexiveChildrenSelfLink(folder: ModelDef, app: App, instance: Value, pluralize: string -> string,
                                  o: SerializerOptions, id: string)
    requires "children" in folder.relations
    requires folder.relations["children"].kind == HasMany && folder.relations["children"].polymorphic.None?
    requires folder.relations["children"].modelTo == Some(folder.name)
    requires app.models == map[folder.name := folder]
    requires folder.pluralModelName == Some("folders") && folder.httpPath.None?
    requires o.modelPath == RelatedTarget(folder, app, RelationNameFromPath("/folders/1/children"), instance, pluralize).value.path
    ensures DataSelfLinkPath(o, id) == (if o.restApiRoot.Some? then o.restApiRoot.value else "") + "/folders/" + id
  {
    ReflexiveChildrenTarget(folder, app, instance, pluralize);
  }

  /** What the hook does: let the call through untouched, fail, or serialize. */
  datatype SerializeOutcome =
    | PassThrough
    | Failed(error: Error)
    | Serialize(typeName: string, data: Value, relations: map<string, Relation>, options: SerializerOptions)

  /** The verbs the hook never touches. */
  predicate SkippedVerb(verb: string) {
    verb == "DELETE" || verb == "PUT" || verb == "HEAD"
  }

  /** The method is not excluded, and it is applied or its name is a built-in one. */
  predicate Handled(m: RemoteMethod, cfg: Config) {
    !ShouldNotApplyJsonApi(m, cfg) && (ShouldApplyJsonApi(m, cfg) || |MatchingPatterns(m.name)| > 0)
  }

  /**
   * A matching exclude rule wins over a per-method `jsonapi: true`: the
   * method is applied and excluded at once, and the exclusion is tested first.
   */
  lemma ExcludeBeatsApplyFlag(m: RemoteMethod, cfg: Config, i: int)
    requires m.jsonapi == Bool(true) && cfg.excludeRules.Some?
    requires 0 <= i < |cfg.excludeRules.value| && RuleMatches(cfg.excludeRules.value[i], m.className, m.name)
    ensures ShouldApplyJsonApi(m, cfg) && ShouldNotApplyJsonApi(m, cfg)
    ensures !Handled(m, cfg)
  {
  }

  /**
   * The hook meets a throw once it handles a call: cloning an undefined
   * result, reading the model, a missing model, the related-model switch,
   * reading `filter.include`, or appending the scope include.
   */
  predicate HookThrows(ctx: RemoteContext, app: App, pluralize: string -> string) {
    var found := GetModelFromContext(ctx.remote, app);
    || ctx.result == Undefined
    || found.Err?
    || found.value.None?
    || (var target := RelatedTarget(found.value.value, app, RelationNameFromPath(ctx.req.path), ctx.instance, pluralize);
        || target.Err?
        || RequestIncludes(ctx.req).Err?
        || MergedIncludes(RequestIncludes(ctx.req).value, target.value.model.scope).Err?)
  }

  /** A `findById` whose result is falsy but defined, on a model that is found: the 404 hack. */
  predicate MissingFindById(ctx: RemoteContext, app: App) {
    && ctx.remote.name == "findById" && !Truthy(ctx.result) && ctx.result != Undefined
    && GetModelFromContext(ctx.remote, app).Ok? && GetModelFromContext(ctx.remote, app).value.Some?
  }

  /**
   * The related-model switch as the hook performs it: start from the model's
   * own type, path, relations and primary key, and on a known relation name
   * switch the primary key, and the rest when the related plural is non-empty.
   */
  method SwitchToRelated(model: ModelDef, app: App, relationName: Option<string>, instance: Value,
                         pluralize: string -> string) returns (t: Result<Target>)
    ensures t == RelatedTarget(model, app, relationName, instance, pluralize)
  {
    var typeName := PluralForModel(model, pluralize);
    var path := HttpPathForModel(model, pluralize);
    var relations := model.relations;
    var primaryKeyField := model.idName;
    var current := model;
    if relationName.Some? && relationName.value != "" && relationName.value in model.relations {
      var related := RelatedModel(model.relations[relationName.value], app, instance);
      if related.Err? {
        return Err(related.error);
      }
      if related.value.None? {
        return Err(TypeError);
      }
      var relatedModel := related.value.value;
      var relatedModelPlural := PluralForModel(relatedModel, pluralize);
      var relatedModelPath := HttpPathForModel(relatedModel, pluralize);
      primaryKeyField := relatedModel.idName;
      if relatedModelPlural != "" {
        typeName := relatedModelPlural;
        current := relatedModel;
        path := relatedModelPath;
        relations := current.relations;
      }
    }
    return Ok(Target(typeName, current, path, relations, primaryKeyField));
  }

  /**
   * The scope merge as the hook performs it: bring the requested includes
   * into array form, then push a string scope include or concatenate an
   * array one.
   */
  method MergeScopeInclude(requested: Value, scope: Value) returns (r: Result<Value>)
    ensures r == MergedIncludes(requested, scope)
  {
    var requestedIncludes := requested;
    if Truthy(scope) {
      if requestedIncludes.Undefined? {
        requestedIncludes := Arr([]);
      } else if requestedIncludes.Str? {
        requestedIncludes := Arr([requestedIncludes]);
      }
      var inc := Get(scope, "include");
      if inc.Str? {
        if !requestedIncludes.Arr? {
          return Err(TypeError);
        }
        requestedIncludes := Arr(requestedIncludes.items + [inc]);
      } else if inc.Arr? {
        if !requestedIncludes.Arr? {
          return Err(TypeError);
        }
        requestedIncludes := Arr(requestedIncludes.items + SetRequestedIncludes(inc).items);
      }
    }
    return Ok(requestedIncludes);
  }

  /**
   * The after-hook. It passes through excluded calls, calls neither applied
   * nor built-in, DELETE / PUT / HEAD requests and a `findById` with no
   * result; otherwise it hands the serializer the (switched) type, the
   * result, the relations and the options.
   */
  method AfterRemoteSerialize(ctx: RemoteContext, app: App, cfg: Config, pluralize: string -> string)
    returns (out: SerializeOutcome)
    ensures ShouldNotApplyJsonApi(ctx.remote, cfg) ==> out == PassThrough
    ensures !ShouldApplyJsonApi(ctx.remote, cfg) && |MatchingPatterns(ctx.remote.name)| == 0 ==> out == PassThrough
    ensures SkippedVerb(ctx.req.verb) ==> out == PassThrough
    ensures ctx.remote.name == "findById" && !Truthy(ctx.result) ==> !out.Serialize?
    ensures Handled(ctx.remote, cfg) && !SkippedVerb(ctx.req.verb) && ctx.result == Undefined ==>
      out == Failed(SyntaxError)
    ensures Handled(ctx.remote, cfg) && !SkippedVerb(ctx.req.verb) && MissingFindById(ctx, app) ==>
      out == PassThrough
    ensures out.Failed? ==> Handled(ctx.remote, cfg) && !SkippedVerb(ctx.req.verb) && HookThrows(ctx, app, pluralize)
    ensures (Handled(ctx.remote, cfg) && !SkippedVerb(ctx.req.verb) && !HookThrows(ctx, app, pluralize) &&
             !MissingFindById(ctx, app)) ==> out.Serialize?
    ensures out.PassThrough? ==> !Handled(ctx.remote, cfg) || SkippedVerb(ctx.req.verb) || MissingFindById(ctx, app)
    ensures Handled(ctx.remote, cfg) && !SkippedVerb(ctx.req.verb) && ctx.result != Undefined &&
            GetModelFromContext(ctx.remote, app).Err? ==>
      out == Failed(GetModelFromContext(ctx.remote, app).error)
    ensures Handled(ctx.remote, cfg) && !SkippedVerb(ctx.req.verb) && ctx.result != Undefined &&
            GetModelFromContext(ctx.remote, app).Ok? && GetModelFromContext(ctx.remote, app).value.None? ==>
      out == Failed(TypeError)
    ensures Handled(ctx.remote, cfg) && !SkippedVerb(ctx.req.verb) && ctx.result != Undefined &&
            !MissingFindById(ctx, app) &&
            GetModelFromContext(ctx.remote, app).Ok? && GetModelFromContext(ctx.remote, app).value.Some? ==>
      var target := RelatedTarget(GetModelFromContext(ctx.remote, app).value.value, app,
                                  RelationNameFromPath(ctx.req.path), ctx.instance, pluralize);
      && (target.Err? ==> out == Failed(target.error))
      && (target.Ok? && RequestIncludes(ctx.req).Err? ==> out == Failed(RequestIncludes(ctx.req).error))
      && (target.Ok? && RequestIncludes(ctx.req).Ok? &&
          MergedIncludes(RequestIncludes(ctx.req).value, target.value.model.scope).Err? ==>
            out == Failed(MergedIncludes(RequestIncludes(ctx.req).value, target.value.model.scope).error))
    ensures out.Serialize? ==>
      && Handled(ctx.remote, cfg) && !SkippedVerb(ctx.req.verb)
      && out.data == ctx.result
      && GetModelFromContext(ctx.remote, app).Ok?
      && GetModelFromContext(ctx.remote, app).value.Some?
      && RelatedTarget(GetModelFromContext(ctx.remote, app).value.value, app, RelationNameFromPath(ctx.req.path),
                       ctx.instance, pluralize) ==
           Ok(Target(out.typeName, out.options.model, out.options.modelPath, out.relations, out.options.primaryKeyField))
      && RequestIncludes(ctx.req).Ok?
      && MergedIncludes(RequestIncludes(ctx.req).value, out.options.model.scope) == Ok(out.options.requestedIncludes)
      && out.options.methodName == ctx.remote.name
      && out.options.meta == (if Truthy(ctx.meta) then ctx.meta else Null)
      && out.options.host == (if Present(cfg.host) then cfg.host.value else HostFromContext(ctx.req))
      && out.options.topLevelSelf == out.options.host + ctx.req.originalUrl
      && out.options.restApiRoot == cfg.restApiRoot
  {
    if ShouldNotApplyJsonApi(ctx.remote, cfg) {
      return PassThrough;
    }
    var matches := MatchingPatterns(ctx.remote.name);
    if !ShouldApplyJsonApi(ctx.remote, cfg) && |matches| == 0 {
      return PassThrough;
    }
    if ctx.req.verb == "DELETE" || ctx.req.verb == "PUT" || ctx.req.verb == "HEAD" {
      return PassThrough;
    }

    var cloned := Clone(ctx.result);
    if cloned.Err? {
      return Failed(cloned.error);
    }
    var data := cloned.value;
    var found := GetModelFromContext(ctx.remote, app);
    if found.Err? {
      return Failed(found.error);
    }
    if found.value.None? {
      return Failed(TypeError);
    }
    var model := found.value.value;

    if !Truthy(data) && ctx.remote.name == "findById" {
      return PassThrough;
    }

    var target := SwitchToRelated(model, app, RelationNameFromPath(ctx.req.path), ctx.instance, pluralize);
    if target.Err? {
      return Failed(target.error);
    }

    var requestedIncludes := Undefined;
    if ctx.req.isSideloadingRelationships {
      var inc := Prop(ctx.req.filter, "include");
      if inc.Err? {
        return Failed(inc.error);
      }
      requestedIncludes := SetRequestedIncludes(inc.value);
    }
    var merged := MergeScopeInclude(requestedIncludes, target.value.model.scope);
    if merged.Err? {
      return Failed(merged.error);
    }

    var meta := Null;
    if Truthy(ctx.meta) {
      meta := Clone(ctx.meta).value;
    }
    var host := if Present(cfg.host) then cfg.host.value else HostFromContext(ctx.req);
    var t := target.value;
    var options := SerializerOptions(t.model, t.path, ctx.remote.name, meta, t.primaryKeyField, merged.value,
                                     host, host + ctx.req.originalUrl, cfg.restApiRoot);
    return Serialize(t.typeName, data, t.relations, options);
  }
}
