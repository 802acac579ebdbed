/**
 * Helpers shared by the hooks: model naming (plural and HTTP path), the
 * include/exclude policy, choosing the model of a remote method from its
 * `returns` metadata, relation classification and annotation, and the
 * normalisation of the `include` filter parameter.
 */
module Utils {
  import opened Json

  /** The `type` of a LoopBack relation definition. */
  datatype Kind = BelongsTo | HasMany | HasOne | HasAndBelongsToMany | ReferencesMany | EmbedsOne | EmbedsMany

  /**
   * A relation definition. The models at either end are referred to by
   * their names (`sharedClass.name`) and looked up in the application's
   * registry. `polymorphic` holds the discriminator property when the
   * relation is polymorphic; `targetRelations` is the entry that
   * SetIncludedRelations attaches.
   */
  datatype Relation = Relation(
    name: string,
    kind: Kind,
    keyFrom: string,
    modelFrom: Option<string>,
    modelTo: Option<string>,
    polymorphic: Option<string>,
    targetRelations: Option<map<string, Relation>>)

  /**
   * A LoopBack model as far as the component reads it: its class name, the
   * three plural overrides, the HTTP path override, the primary key name
   * (`getIdName()`), its relations and `definition.settings.scope`.
   */
  datatype ModelDef = ModelDef(
    name: string,
    pluralModelName: Option<string>,
    settingsPlural: Option<string>,
    definitionPlural: Option<string>,
    httpPath: Option<string>,
    idName: string,
    relations: map<string, Relation>,
    scope: Value)

  /** The application: `app.models`, keyed by model name. */
  datatype App = App(models: map<string, ModelDef>)

  /** One `{model?, methods?}` entry of the include or exclude configuration. */
  datatype Methods = NoMethods | One(name: string) | Many(names: seq<string>)
  datatype Rule = Rule(model: Option<string>, methods: Methods)

  /** The component configuration (`defaults` / `options` in the hooks). */
  datatype Config = Config(
    includeRules: Option<seq<Rule>>,
    excludeRules: Option<seq<Rule>>,
    handleCustomRemoteMethods: bool,
    restApiRoot: Option<string>,
    host: Option<string>)

  /** `ctx.method`: its name, its class name, its `jsonapi` flag and its `returns`. */
  datatype RemoteMethod = RemoteMethod(name: string, className: string, jsonapi: Value, returnsMeta: Value)

  /** The parts of `ctx.req` that the hooks read. */
  datatype Request = Request(
    verb: string,
    path: string,
    originalUrl: string,
    protocol: string,
    hostHeader: string,
    paramsId: Value,
    query: map<string, Value>,
    isSideloadingRelationships: bool,
    filter: Value)

  /** A remoting context: `ctx.method` (as `remote`), `ctx.req`, `ctx.result`, `ctx.instance`, `ctx.meta`. */
  datatype RemoteContext = RemoteContext(
    remote: RemoteMethod,
    req: Request,
    result: Value,
    instance: Value,
    meta: Value)

  // ---------------------------------------------------------------------
  // Plural and path

  /** No candidate before index `i` is present. */
  predicate NonePresentBefore(candidates: seq<Option<string>>, i: int)
    requires 0 <= i <= |candidates|
  {
    forall j :: 0 <= j < i ==> !Present(candidates[j])
  }

  /** The first present candidate, or `fallback` when there is none. */
  function FirstPresent(candidates: seq<Option<string>>, fallback: string): (r: string)
    ensures NonePresentBefore(candidates, |candidates|) ==> r == fallback
    ensures forall i :: 0 <= i < |candidates| && Present(candidates[i]) && NonePresentBefore(candidates, i) ==>
      r == candidates[i].value
    decreases |candidates|
  {
    if candidates == [] then fallback
    else if Present(candidates[0]) then candidates[0].value
    else
      var r := FirstPresent(candidates[1..], fallback);
      assert forall i :: 1 <= i <= |candidates| && NonePresentBefore(candidates[1..], i - 1) ==> NonePresentBefore(candidates, i);
      r
  }

  /**
   * The plural of a model: `pluralModelName`, else `settings.plural`, else
   * `definition.settings.plural`, else the pluralized class name.
   */
  function PluralForModel(m: ModelDef, pluralize: string -> string): (p: string)
    ensures Present(m.pluralModelName) ==> p == m.pluralModelName.value
    ensures !Present(m.pluralModelName) && Present(m.settingsPlural) ==> p == m.settingsPlural.value
    ensures !Present(m.pluralModelName) && !Present(m.settingsPlural) && Present(m.definitionPlural) ==>
      p == m.definitionPlural.value
    ensures !Present(m.pluralModelName) && !Present(m.settingsPlural) && !Present(m.definitionPlural) ==>
      p == pluralize(m.name)
  {
    var candidates := [m.pluralModelName, m.settingsPlural, m.definitionPlural];
    assert !Present(candidates[0]) && !Present(candidates[1]) ==> NonePresentBefore(candidates, 2);
    assert !Present(candidates[0]) && !Present(candidates[1]) && !Present(candidates[2]) ==>
      NonePresentBefore(candidates, 3);
    FirstPresent(candidates, pluralize(m.name))
  }

  /** The HTTP path of a model: `settings.http.path`, else its plural. */
  function HttpPathForModel(m: ModelDef, pluralize: string -> string): (p: string)
    ensures Present(m.httpPath) ==> p == m.httpPath.value
    ensures !Present(m.httpPath) ==> p == PluralForModel(m, pluralize)
  {
    FirstPresent([m.httpPath], PluralForModel(m, pluralize))
  }

  // ---------------------------------------------------------------------
  // Include / exclude policy

  /** Truthiness of a rule's `methods`. */
  predicate MethodsTruthy(ms: Methods) {
    match ms
    case NoMethods => false
    case One(s) => s != ""
    case Many(_) => true
  }

  /** `haystack.indexOf(needle) > -1`, by scanning the start positions. */
  predicate IsSubstring(needle: string, haystack: string)
    decreases |haystack|
  {
    needle <= haystack || (haystack != [] && IsSubstring(needle, haystack[1..]))
  }

  /** `needle` occurs in `haystack` at position `i`. */
  predicate OccursAt(needle: string, haystack: string, i: int) {
    0 <= i && i + |needle| <= |haystack| && haystack[i..i + |needle|] == needle
  }

  /** IsSubstring holds exactly when `needle` occurs at some position of `haystack`. */
  lemma {:induction false} IsSubstringOccurs(needle: string, haystack: string)
    ensures IsSubstring(needle, haystack) <==> exists i :: OccursAt(needle, haystack, i)
    decreases |haystack|
  {
    if needle <= haystack {
      assert OccursAt(needle, haystack, 0);
    } else if haystack == [] {
    } else {
      var tail := haystack[1..];
      IsSubstringOccurs(needle, tail);
      if exists i :: OccursAt(needle, haystack, i) {
        var i :| OccursAt(needle, haystack, i);
        assert i != 0;
        assert tail[i - 1..i - 1 + |needle|] == haystack[i..i + |needle|];
        assert OccursAt(needle, tail, i - 1);
      }
      if exists i :: OccursAt(needle, tail, i) {
        var i :| OccursAt(needle, tail, i);
        assert haystack[i + 1..i + 1 + |needle|] == tail[i..i + |needle|];
        assert OccursAt(needle, haystack, i + 1);
      }
    }
  }

  /**
   * `_.includes(methods, methodName)`: membership in a list, but a
   * substring test when `methods` is a single string.
   */
  function Includes(ms: Methods, methodName: string): (b: bool)
    ensures ms.NoMethods? ==> !b
    ensures ms.One? ==> (b <==> exists i :: OccursAt(methodName, ms.name, i))
    ensures ms.Many? ==> (b <==> methodName in ms.names)
  {
    match ms
    case NoMethods => false
    case One(s) => IsSubstringOccurs(methodName, s); IsSubstring(methodName, s)
    case Many(names) => methodName in names
  }

  /**
   * The five tests of one rule against a class name and a method name, in
   * source order. They amount to: a rule naming the class matches when it
   * restricts no method or includes the method; a rule naming no class
   * matches when it includes the method.
   */
  function RuleMatches(r: Rule, modelName: string, methodName: string): (b: bool)
    ensures b <==>
      || (r.model == Some(modelName) && (!MethodsTruthy(r.methods) || Includes(r.methods, methodName)))
      || (!Present(r.model) && Includes(r.methods, methodName))
  {
    var sameModel := r.model == Some(modelName);
    var noModel := !Present(r.model);
    assert r.methods == One(methodName) ==> OccursAt(methodName, r.methods.name, 0);
    || (sameModel && !MethodsTruthy(r.methods))
    || (noModel && r.methods == One(methodName))
    || (sameModel && r.methods == One(methodName))
    || (sameModel && Includes(r.methods, methodName))
    || (noModel && Includes(r.methods, methodName))
  }

  /** The cases of rule matching that follow from the characterisation. */
  lemma RuleMatchingCases(r: Rule, modelName: string, methodName: string)
    ensures Present(r.model) && r.model != Some(modelName) ==> !RuleMatches(r, modelName, methodName)
    ensures r.model.None? && r.methods == NoMethods ==> !RuleMatches(r, modelName, methodName)
    ensures r.model == Some(modelName) && !MethodsTruthy(r.methods) ==> RuleMatches(r, modelName, methodName)
    ensures r.methods.Many? && (r.model == Some(modelName) || r.model.None?) ==>
      (RuleMatches(r, modelName, methodName) <==> methodName in r.methods.names)
    ensures r.methods.One? && MethodsTruthy(r.methods) && (r.model == Some(modelName) || r.model.None?) ==>
      (RuleMatches(r, modelName, methodName) <==> IsSubstring(methodName, r.methods.name))
  {
  }

  /** A rule with methods 'findById' also matches the method 'find'. */
  lemma StringMethodsMatchBySubstring()
    ensures RuleMatches(Rule(Some("post"), One("findById")), "post", "find")
    ensures RuleMatches(Rule(None, One("deleteById")), "post", "Id")
    ensures !RuleMatches(Rule(None, Many(["findById"])), "post", "find")
  {
    assert "find" <= "findById";
    assert IsSubstring("Id", "eById") by {
      assert IsSubstring("Id", "Id") by { assert "Id" <= "Id"; }
      assert IsSubstring("Id", "yId");
      assert IsSubstring("Id", "ById");
    }
    assert "deleteById"[1..] == "eleteById";
    assert IsSubstring("Id", "deleteById") by {
      assert "deleteById"[5..] == "eById";
      assert IsSubstring("Id", "teById");
      assert IsSubstring("Id", "eteById");
      assert IsSubstring("Id", "leteById");
      assert IsSubstring("Id", "eleteById");
    }
  }

  /** Whether some rule of the list matches (an early-return scan). */
  function AnyRuleMatches(rules: seq<Rule>, modelName: string, methodName: string): (b: bool)
    ensures b <==> exists i :: 0 <= i < |rules| && RuleMatches(rules[i], modelName, methodName)
    decreases |rules|
  {
    if rules == [] then false
    else if RuleMatches(rules[0], modelName, methodName) then true
    else
      var b := AnyRuleMatches(rules[1..], modelName, methodName);
      assert forall i :: 1 <= i < |rules| ==> rules[i] == rules[1..][i - 1];
      b
  }

  /**
   * The include policy: a truthy per-method `jsonapi` flag applies, then a
   * matching include rule, then `handleCustomRemoteMethods`.
   */
  function ShouldApplyJsonApi(m: RemoteMethod, cfg: Config): (r: bool)
    ensures Truthy(m.jsonapi) ==> r
    ensures !Truthy(m.jsonapi) ==>
      (r <==> || (cfg.includeRules.Some? &&
                  exists i :: 0 <= i < |cfg.includeRules.value| && RuleMatches(cfg.includeRules.value[i], m.className, m.name))
              || cfg.handleCustomRemoteMethods)
  {
    if Truthy(m.jsonapi) then true
    else if cfg.includeRules.Some? && AnyRuleMatches(cfg.includeRules.value, m.className, m.name) then true
    else cfg.handleCustomRemoteMethods
  }

  /**
   * The exclude policy: `jsonapi === false` excludes, no exclude list never
   * excludes, otherwise a matching exclude rule excludes.
   */
  function ShouldNotApplyJsonApi(m: RemoteMethod, cfg: Config): (r: bool)
    ensures m.jsonapi == Bool(false) ==> r
    ensures m.jsonapi != Bool(false) && cfg.excludeRules.None? ==> !r
    ensures m.jsonapi != Bool(false) && cfg.excludeRules.Some? ==>
      (r <==> exists i :: 0 <= i < |cfg.excludeRules.value| && RuleMatches(cfg.excludeRules.value[i], m.className, m.name))
  {
    if m.jsonapi == Bool(false) then true
    else if cfg.excludeRules.None? then false
    else AnyRuleMatches(cfg.excludeRules.value, m.className, m.name)
  }

  /** `req.protocol + '://' + req.get('host')`: protocol, separator and host can be read back. */
  function HostFromContext(req: Request): (h: string)
    ensures |h| == |req.protocol| + 3 + |req.hostHeader|
    ensures h[..|req.protocol|] == req.protocol
    ensures h[|req.protocol|..|req.protocol| + 3] == "://"
    ensures h[|req.protocol| + 3..] == req.hostHeader
  {
    req.protocol + "://" + req.hostHeader
  }

  // ---------------------------------------------------------------------
  // Model of a remote method

  /** `[].concat(returns)`: an array's elements, or the value alone. */
  function ReturnsList(rs: Value): (es: seq<Value>)
    ensures rs.Arr? ==> es == rs.items
    ensures !rs.Arr? ==> es == [rs]
  {
    if rs.Arr? then rs.items else [rs]
  }

  /** An entry that ends the scan: null (reading `.root` throws) or an object with `root === true`. */
  predicate EndsScan(e: Value) {
    e.Null? || (e.Obj? && Get(e, "root") == Bool(true))
  }

  /** No entry before index `i` ends the scan. */
  predicate NoneEndsScanBefore(es: seq<Value>, i: int)
    requires 0 <= i <= |es|
  {
    forall j :: 0 <= j < i ==> !EndsScan(es[j])
  }

  /** What the scan gives at an entry that ends it. */
  function ScanOutcome(e: Value): (r: Result<Value>) {
    if e.Null? then Err(TypeError) else Ok(Get(e, "type"))
  }

  /** The scan of the `returns` entries for the root one. */
  function FindRootType(es: seq<Value>): (r: Result<Value>)
    ensures NoneEndsScanBefore(es, |es|) ==> r == Ok(Undefined)
    ensures forall i :: 0 <= i < |es| && EndsScan(es[i]) && NoneEndsScanBefore(es, i) ==> r == ScanOutcome(es[i])
    decreases |es|
  {
    if es == [] then Ok(Undefined)
    else if es[0].Null? then Err(TypeError)
    else if IsObjectType(es[0]) && Get(es[0], "root") == Bool(true) then Ok(Get(es[0], "type"))
    else
      var r := FindRootType(es[1..]);
      assert forall i :: 1 <= i <= |es| && NoneEndsScanBefore(es[1..], i - 1) ==> NoneEndsScanBefore(es, i);
      r
  }

  /**
   * The type named by the first `returns` entry with `root === true`;
   * undefined when `returns` is falsy or there is no such entry.
   */
  function GetTypeFromContext(m: RemoteMethod): (r: Result<Value>)
    ensures !Truthy(m.returnsMeta) ==> r == Ok(Undefined)
    ensures Truthy(m.returnsMeta) && NoneEndsScanBefore(ReturnsList(m.returnsMeta), |ReturnsList(m.returnsMeta)|) ==> r == Ok(Undefined)
    ensures Truthy(m.returnsMeta) ==>
      var es := ReturnsList(m.returnsMeta);
      forall i :: 0 <= i < |es| && EndsScan(es[i]) && NoneEndsScanBefore(es, i) ==> r == ScanOutcome(es[i])
  {
    if !Truthy(m.returnsMeta) then Ok(Undefined) else FindRootType(ReturnsList(m.returnsMeta))
  }

  /** `app.models[key]`: the key is the value converted to a string. */
  function Lookup(app: App, key: Value): (r: Option<ModelDef>)
    ensures r.Some? <==> KeyString(key) in app.models
    ensures r.Some? ==> r.value == app.models[KeyString(key)]
  {
    var name := KeyString(key);
    if name in app.models then Some(app.models[name]) else None
  }

  /** The model named by the root `returns` type, else the model of the method's class. */
  function GetModelFromContext(m: RemoteMethod, app: App): (r: Result<Option<ModelDef>>)
    ensures r.Err? <==> GetTypeFromContext(m).Err?
    ensures r.Ok? && Lookup(app, GetTypeFromContext(m).value).Some? ==> r.value == Lookup(app, GetTypeFromContext(m).value)
    ensures r.Ok? && Lookup(app, GetTypeFromContext(m).value).None? ==> r.value == Lookup(app, Str(m.className))
  {
    var t :- GetTypeFromContext(m);
    var byType := Lookup(app, t);
    if byType.Some? then Ok(byType) else Ok(Lookup(app, Str(m.className)))
  }

  /**
   * A list method's `returns: {type: ['Comment'], root: true}` names the
   * `Comment` model, whatever class the method belongs to.
   */
  lemma ListReturnTypeNamesItsModel(m: RemoteMethod, app: App, name: string)
    requires m.returnsMeta == Obj(map["type" := Arr([Str(name)]), "root" := Bool(true)])
    requires name in app.models
    ensures GetModelFromContext(m, app) == Ok(Some(app.models[name]))
  {
    assert ReturnsList(m.returnsMeta) == [m.returnsMeta];
    assert GetTypeFromContext(m) == Ok(Arr([Str(name)]));
  }

  // ---------------------------------------------------------------------
  // Relations

  /** The relation kinds whose foreign key lives on the model the relation starts from. */
  function RelationFkOnModelFrom(rel: Relation): (r: bool)
    ensures r <==> rel.kind in {BelongsTo, ReferencesMany}
  {
    rel.kind.BelongsTo? || rel.kind.ReferencesMany?
  }

  /** `(modelTo && modelTo.sharedClass.name) || name`. */
  function TargetName(rel: Relation): (name: string) {
    if Present(rel.modelTo) then rel.modelTo.value else rel.name
  }

  /** `app.models[name] && app.models[name].relations` for the relation's target name. */
  function TargetRelations(rel: Relation, app: App): (rs: Option<map<string, Relation>>) {
    var target := Lookup(app, Str(TargetName(rel)));
    if target.Some? then Some(target.value.relations) else None
  }

  /**
   * Attaches to every relation the relations of its target model; the key
   * set and every other field of every relation are kept.
   */
  method SetIncludedRelations(relations: map<string, Relation>, app: App) returns (r: map<string, Relation>)
    ensures r.Keys == relations.Keys
    ensures forall k :: k in relations ==>
      r[k] == relations[k].(targetRelations := TargetRelations(relations[k], app))
  {
    r := relations;
    var todo := relations.Keys;
    while todo != {}
      invariant todo <= relations.Keys
      invariant r.Keys == relations.Keys
      invariant forall k :: k in relations && k !in todo ==>
        r[k] == relations[k].(targetRelations := TargetRelations(relations[k], app))
      invariant forall k :: k in todo ==> r[k] == relations[k]
      decreases todo
    {
      var k :| k in todo;
      r := r[k := r[k].(targetRelations := TargetRelations(r[k], app))];
      todo := todo - {k};
    }
  }

  // ---------------------------------------------------------------------
  // The include parameter

  /** One element of an include array: a string stays, an object gives its `relation`, anything else undefined. */
  function IncludeName(inc: Value): (r: Value)
    ensures inc.Str? ==> r == inc
    ensures inc.Obj? ==> r == Get(inc, "relation")
    ensures !inc.Str? && !inc.Obj? ==> r == Undefined
  {
    if inc.Str? then inc else Get(inc, "relation")
  }

  /**
   * The requested includes: undefined for a falsy parameter, an array
   * normalised element by element, and any other value unchanged.
   */
  function SetRequestedIncludes(param: Value): (r: Value)
    ensures !Truthy(param) ==> r == Undefined
    ensures Truthy(param) && !param.Arr? ==> r == param
    ensures param.Arr? ==> r.Arr? && |r.items| == |param.items|
    ensures param.Arr? ==> forall i :: 0 <= i < |param.items| ==> r.items[i] == IncludeName(param.items[i])
  {
    if !Truthy(param) then Undefined
    else if param.Arr? then
      Arr(seq(|param.items|, i requires 0 <= i < |param.items| => IncludeName(param.items[i])))
    else param
  }
}
