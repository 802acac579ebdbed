/**
 * Relationship linking: after `create`, and before `updateAttributes` and
 * `patchAttributes`, each relationship of the inbound document that names a
 * known relation with a `modelTo`, other than a belongs-to one, becomes one
 * link request for the host's relation accessors; unknown names, belongs-to
 * relations and relations without `modelTo` are skipped.
 */
module Relationships {
  import opened Json
  import opened Utils

  /** `linkRelatedModels(relationName, {model, id}, {model: modelTo, data})`. */
  datatype LinkRequest = LinkRequest(
    relationName: string,
    fromModel: string,
    fromId: Value,
    toModel: string,
    ids: Value)

  /** The ids of a relationship's `data`: one per array element, else the object's `id` or null. */
  function ExtractIdsFromResource(resource: Value): (r: Value)
    ensures resource.Arr? ==> r.Arr? && |r.items| == |resource.items|
    ensures resource.Arr? ==> forall i :: 0 <= i < |resource.items| ==> r.items[i] == Get(resource.items[i], "id")
    ensures !resource.Arr? && Get(resource, "id") != Undefined ==> r == resource.fields["id"]
    ensures !resource.Arr? && Get(resource, "id") == Undefined ==> r == Null
  {
    if resource.Arr? then
      Arr(seq(|resource.items|, i requires 0 <= i < |resource.items| => Get(resource.items[i], "id")))
    else
      var id := Get(resource, "id");
      if id.Undefined? then Null else id
  }

  /** `_.get(payload, 'data.relationships', {})`. */
  function PayloadRelationships(payload: Option<Body>): (rels: seq<(string, Relationship)>)
    ensures payload.Some? && payload.value.data.Some? && payload.value.data.value.relationships.Some? ==>
      rels == payload.value.data.value.relationships.value
    ensures payload.None? || payload.value.data.None? || payload.value.data.value.relationships.None? ==> rels == []
  {
    if payload.Some? && payload.value.data.Some? && payload.value.data.value.relationships.Some? then
      payload.value.data.value.relationships.value
    else []
  }

  /** A relation that is linked: defined, with a `modelTo`, and not belongs-to. */
  predicate Linkable(name: string, relations: map<string, Relation>) {
    name in relations && relations[name].modelTo.Some? && relations[name].kind != BelongsTo
  }

  /** The link request for one relationship, or none when the relation is skipped. */
  function PlanOne(model: ModelDef, id: Value, entry: (string, Relationship)): (r: Option<LinkRequest>)
    ensures r.Some? <==> Linkable(entry.0, model.relations)
    ensures r.Some? ==> r.value == LinkRequest(entry.0, model.name, id,
                                               model.relations[entry.0].modelTo.value,
                                               ExtractIdsFromResource(entry.1.data))
  {
    var name := entry.0;
    if name !in model.relations then None
    else
      var defn := model.relations[name];
      if defn.modelTo.None? || defn.kind == BelongsTo then None
      else Some(LinkRequest(name, model.name, id, defn.modelTo.value, ExtractIdsFromResource(entry.1.data)))
  }

  /**
   * `relationships(model, id, payload)`: nothing at all without a truthy id
   * and a model; otherwise one slot per relationship name, in key order,
   * holding the link request for it or nothing when it is skipped.
   */
  function PlanLinks(model: Option<ModelDef>, id: Value, payload: Option<Body>): (r: Option<seq<Option<LinkRequest>>>)
    ensures r.None? <==> (!Truthy(id) || model.None?)
    ensures r.Some? ==> |r.value| == |PayloadRelationships(payload)|
    ensures r.Some? ==> forall i :: 0 <= i < |r.value| ==>
      r.value[i] == PlanOne(model.value, id, PayloadRelationships(payload)[i])
  {
    if !Truthy(id) || model.None? then None
    else
      var rels := PayloadRelationships(payload);
      Some(seq(|rels|, i requires 0 <= i < |rels| => PlanOne(model.value, id, rels[i])))
  }

  /**
   * The requests of a plan name distinct relationships when the document
   * does, and every request is for a linkable relation, from the model and
   * id given, carrying the relationship's extracted ids.
   */
  lemma PlannedRequests(model: ModelDef, id: Value, payload: Option<Body>)
    requires Truthy(id)
    ensures var plan := PlanLinks(Some(model), id, payload).value;
      var rels := PayloadRelationships(payload);
      && (forall i :: 0 <= i < |plan| && plan[i].Some? ==>
            && Linkable(rels[i].0, model.relations)
            && plan[i].value.relationName == rels[i].0
            && plan[i].value.fromModel == model.name && plan[i].value.fromId == id
            && plan[i].value.toModel == model.relations[rels[i].0].modelTo.value
            && plan[i].value.ids == ExtractIdsFromResource(rels[i].1.data))
      && (forall i :: 0 <= i < |plan| && Linkable(rels[i].0, model.relations) ==> plan[i].Some?)
      && (DistinctNames(rels) ==>
            forall i, j ::
              (0 <= i < |plan| && 0 <= j < |plan| && plan[i].Some? && plan[j].Some? &&
               plan[i].value.relationName == plan[j].value.relationName) ==> i == j)
  {
  }

  /** Belongs-to relations, unknown names and relations without `modelTo` never produce a request. */
  lemma SkippedRelationships(model: ModelDef, id: Value, payload: Option<Body>, i: int)
    requires Truthy(id) && 0 <= i < |PayloadRelationships(payload)|
    requires var name := PayloadRelationships(payload)[i].0;
      name !in model.relations || model.relations[name].kind == BelongsTo || model.relations[name].modelTo.None?
    ensures PlanLinks(Some(model), id, payload).value[i].None?
  {
  }

  /** An absent relationships object gives an empty plan. */
  lemma NoRelationshipsNoRequests(model: ModelDef, id: Value, payload: Option<Body>)
    requires Truthy(id)
    requires payload.None? || payload.value.data.None? || payload.value.data.value.relationships.None?
    ensures PlanLinks(Some(model), id, payload) == Some([])
  {
  }

  // ---------------------------------------------------------------------
  // The hooks

  /** What a linking hook does: continue, dispatch the plan, or fail. */
  datatype LinkHookOutcome = Continue | Dispatch(plan: seq<Option<LinkRequest>>) | Failed(error: Error)

  /**
   * Runs `relationships(model, id, data).then(...)`. When `relationships`
   * returns undefined (no truthy id or no model), calling `.then` on it
   * throws a TypeError.
   */
  function RunLinks(model: Result<Option<ModelDef>>, id: Value, payload: Option<Body>): (r: LinkHookOutcome)
    ensures model.Err? ==> r == Failed(model.error)
    ensures model.Ok? && PlanLinks(model.value, id, payload).None? ==> r == Failed(TypeError)
    ensures model.Ok? && PlanLinks(model.value, id, payload).Some? ==> r == Dispatch(PlanLinks(model.value, id, payload).value)
  {
    if model.Err? then Failed(model.error)
    else
      var plan := PlanLinks(model.value, id, payload);
      if plan.None? then Failed(TypeError) else Dispatch(plan.value)
  }

  /** The before hook: links on `updateAttributes` and `patchAttributes`, with `ctx.req.params.id`. */
  function BeforeRemoteLink(ctx: RemoteContext, cfg: Config, app: App, payload: Option<Body>): (r: LinkHookOutcome)
    ensures ShouldNotApplyJsonApi(ctx.remote, cfg) ==> r == Continue
    ensures ctx.remote.name !in ["updateAttributes", "patchAttributes"] ==> r == Continue
    ensures !ShouldNotApplyJsonApi(ctx.remote, cfg) && ctx.remote.name in ["updateAttributes", "patchAttributes"] ==>
      r == RunLinks(GetModelFromContext(ctx.remote, app), ctx.req.paramsId, payload)
  {
    if ShouldNotApplyJsonApi(ctx.remote, cfg) then Continue
    else if ctx.remote.name != "updateAttributes" && ctx.remote.name != "patchAttributes" then Continue
    else RunLinks(GetModelFromContext(ctx.remote, app), ctx.req.paramsId, payload)
  }

  /** The after hook: links on `create` when the result has `data`, with `result.data.id`. */
  function AfterRemoteLink(ctx: RemoteContext, cfg: Config, app: App, payload: Option<Body>): (r: LinkHookOutcome)
    ensures ShouldNotApplyJsonApi(ctx.remote, cfg) ==> r == Continue
    ensures ctx.remote.name != "create" ==> r == Continue
    ensures !Truthy(ctx.result) || !Truthy(Get(ctx.result, "data")) ==> r == Continue
    ensures (!ShouldNotApplyJsonApi(ctx.remote, cfg) && ctx.remote.name == "create" &&
             Truthy(ctx.result) && Truthy(Get(ctx.result, "data"))) ==>
      r == RunLinks(GetModelFromContext(ctx.remote, app), Get(Get(ctx.result, "data"), "id"), payload)
  {
    if ShouldNotApplyJsonApi(ctx.remote, cfg) then Continue
    else if ctx.remote.name != "create" then Continue
    else if Truthy(ctx.result) && Truthy(Get(ctx.result, "data")) then
      RunLinks(GetModelFromContext(ctx.remote, app), Get(Get(ctx.result, "data"), "id"), payload)
    else Continue
  }

  /**
   * Linking happens only before `updateAttributes` / `patchAttributes` and
   * after `create`, never for an excluded request, and never from both
   * hooks for the same request.
   */
  lemma LinkingOnlyOnWrites(ctx: RemoteContext, cfg: Config, app: App, payload: Option<Body>)
    ensures !BeforeRemoteLink(ctx, cfg, app, payload).Continue? ==>
      !ShouldNotApplyJsonApi(ctx.remote, cfg) && ctx.remote.name in {"updateAttributes", "patchAttributes"}
    ensures !AfterRemoteLink(ctx, cfg, app, payload).Continue? ==>
      !ShouldNotApplyJsonApi(ctx.remote, cfg) && ctx.remote.name == "create"
    ensures BeforeRemoteLink(ctx, cfg, app, payload).Continue? || AfterRemoteLink(ctx, cfg, app, payload).Continue?
  {
  }

  /** A falsy id (for example a record whose id is 0) makes a linking hook throw instead of skipping. */
  lemma FalsyIdThrows(ctx: RemoteContext, cfg: Config, app: App, payload: Option<Body>)
    requires !ShouldNotApplyJsonApi(ctx.remote, cfg) && ctx.remote.name == "updateAttributes"
    requires GetModelFromContext(ctx.remote, app).Ok? && !Truthy(ctx.req.paramsId)
    ensures BeforeRemoteLink(ctx, cfg, app, payload) == Failed(TypeError)
  {
  }
}
