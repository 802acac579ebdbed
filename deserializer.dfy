/**
 * The deserializer of inbound write documents: three stages (before,
 * transform, after) that a model may replace with its own functions, then a
 * pass that turns belongs-to relationships into foreign-key attributes.
 */
module Deserializer {
  import opened Json
  import opened Utils

  /** The options object threaded through the stages: `{model, data, result}`. */
  datatype DeserializeOptions = DeserializeOptions(
    model: Option<ModelDef>,
    data: Option<Body>,
    result: Option<map<string, Value>>)

  /** A stage calls back with an error or with the (possibly reshaped) options. */
  type Stage = DeserializeOptions -> Result<DeserializeOptions>

  /** A hook property of the model: absent, present but not a function, or a function. */
  datatype HookSlot = Unset | NotCallable(v: Value) | Callable(run: Stage)

  /** `beforeJsonApiDeserialize`, `jsonApiDeserialize` and `afterJsonApiDeserialize` of the model. */
  datatype ModelHooks = ModelHooks(before: HookSlot, transform: HookSlot, after: HookSlot)

  function DefaultBeforeDeserialize(o: DeserializeOptions): (r: Result<DeserializeOptions>)
    ensures r == Ok(o)
  {
    Ok(o)
  }

  /**
   * The default transform: `result` becomes the document's attributes, or an
   * empty map when there are none; reading through a missing `data` throws.
   */
  function DefaultDeserialize(o: DeserializeOptions): (r: Result<DeserializeOptions>)
    ensures (o.data.None? || o.data.value.data.None?) <==> r == Err(TypeError)
    ensures r.Ok? ==> r.value.model == o.model && r.value.data == o.data
    ensures r.Ok? && o.data.value.data.value.attributes.Some? ==>
      r.value.result == o.data.value.data.value.attributes
    ensures r.Ok? && o.data.value.data.value.attributes.None? ==> r.value.result == Some(map[])
  {
    if o.data.None? || o.data.value.data.None? then Err(TypeError)
    else
      var attributes := o.data.value.data.value.attributes;
      Ok(o.(result := Some(if attributes.Some? then attributes.value else map[])))
  }

  function DefaultAfterDeserialize(o: DeserializeOptions): (r: Result<DeserializeOptions>)
    ensures r == Ok(o)
  {
    Ok(o)
  }

  /** The stage to run: the model's hook when it is a function, the default otherwise. */
  function SelectStage(slot: HookSlot, default: Stage): (s: Stage)
    ensures slot.Callable? ==> s == slot.run
    ensures !slot.Callable? ==> s == default
  {
    if slot.Callable? then slot.run else default
  }

  // ---------------------------------------------------------------------
  // Belongs-to foreign keys

  /** `!relationship.data ? null : relationship.data.id`. */
  function ForeignKeyValue(data: Value): (v: Value)
    ensures !Truthy(data) ==> v == Null
    ensures Truthy(data) ==> v == Get(data, "id")
  {
    if !Truthy(data) then Null else Get(data, "id")
  }

  /** The relation of `name` is a belongs-to relation that has no `modelFrom`: the scan stops there. */
  predicate StopsScan(name: string, relations: map<string, Relation>) {
    name in relations && relations[name].kind == BelongsTo && relations[name].modelFrom.None?
  }

  /** The relation of `name` is a belongs-to relation with a `modelFrom`: its foreign key is written. */
  predicate WritesKey(name: string, relations: map<string, Relation>) {
    name in relations && relations[name].kind == BelongsTo && relations[name].modelFrom.Some?
  }

  /**
   * The foreign-key writes of the `_.each` scan, in order: one per
   * relationship whose relation is a belongs-to one, up to the first such
   * relation without `modelFrom`, where the scan stops. Each write names the
   * `keyFrom` of a belongs-to relation with a `modelFrom`, and carries that
   * relationship's `data.id` or null.
   */
  function FkWrites(rels: seq<(string, Relationship)>, relations: map<string, Relation>): (ws: seq<(string, Value)>)
    ensures |ws| <= |rels|
    ensures forall w :: w in ws ==>
      exists i :: 0 <= i < |rels| && WritesKey(rels[i].0, relations) &&
        w == (relations[rels[i].0].keyFrom, ForeignKeyValue(rels[i].1.data))
    decreases |rels|
  {
    if rels == [] then []
    else
      var name := rels[0].0;
      assert forall i :: 0 <= i < |rels| - 1 ==> rels[1..][i] == rels[i + 1];
      if StopsScan(name, relations) then []
      else if WritesKey(name, relations) then
        [(relations[name].keyFrom, ForeignKeyValue(rels[0].1.data))] + FkWrites(rels[1..], relations)
      else FkWrites(rels[1..], relations)
  }

  /** `result[k] = v` for every write, in order. */
  function ApplyWrites(result: map<string, Value>, ws: seq<(string, Value)>): (r: map<string, Value>)
    decreases |ws|
  {
    if ws == [] then result
    else ApplyWrites(result, ws[..|ws| - 1])[ws[|ws| - 1].0 := ws[|ws| - 1].1]
  }

  /** The key of the write at index `j` is not written again after it. */
  predicate LastWriteOf(ws: seq<(string, Value)>, j: int)
    requires 0 <= j < |ws|
  {
    forall l :: j < l < |ws| ==> ws[l].0 != ws[j].0
  }

  /**
   * After the writes, every key that some write names holds the value of its
   * last write, and every other entry is as it was.
   */
  lemma {:induction false} ApplyWritesEffect(result: map<string, Value>, ws: seq<(string, Value)>)
    ensures ApplyWrites(result, ws).Keys == result.Keys + set w | w in ws :: w.0
    ensures forall j :: 0 <= j < |ws| && LastWriteOf(ws, j) ==> ApplyWrites(result, ws)[ws[j].0] == ws[j].1
    ensures forall k :: k in result && (forall w :: w in ws ==> w.0 != k) ==> ApplyWrites(result, ws)[k] == result[k]
    decreases |ws|
  {
    if ws != [] {
      var init := ws[..|ws| - 1];
      ApplyWritesEffect(result, init);
      assert ws == init + [ws[|ws| - 1]];
      forall j | 0 <= j < |ws| && LastWriteOf(ws, j)
        ensures ApplyWrites(result, ws)[ws[j].0] == ws[j].1
      {
        if j < |ws| - 1 {
          assert LastWriteOf(init, j);
        }
      }
    }
  }

  /** The belongs-to pass on its own: the writes of the scan applied to `result`. */
  function BelongsToPass(o: DeserializeOptions): (r: Result<DeserializeOptions>)
    ensures r.Ok? ==> r.value.model == o.model && r.value.data == o.data
    ensures r.Err? ==> r.error == TypeError && o.result.None?
  {
    if o.data.None? || o.data.value.data.None? || o.model.None? || o.data.value.data.value.relationships.None? then
      Ok(o)
    else
      var ws := FkWrites(o.data.value.data.value.relationships.value, o.model.value.relations);
      if ws == [] then Ok(o)
      else if o.result.None? then Err(TypeError)
      else Ok(o.(result := Some(ApplyWrites(o.result.value, ws))))
  }

  /**
   * `belongsToRelationships`: scans the relationships in key order and writes
   * each belongs-to foreign key into `result`; a belongs-to relation without
   * `modelFrom` ends the scan, and writing into an undefined `result` throws.
   */
  method BelongsToRelationships(o: DeserializeOptions) returns (r: Result<DeserializeOptions>)
    ensures r == BelongsToPass(o)
  {
    if o.data.None? || o.data.value.data.None? || o.model.None? || o.data.value.data.value.relationships.None? {
      return Ok(o);
    }
    var rels := o.data.value.data.value.relationships.value;
    var relations := o.model.value.relations;
    var result := o.result;
    ghost var written: seq<(string, Value)> := [];
    var i := 0;
    while i < |rels|
      invariant 0 <= i <= |rels|
      invariant FkWrites(rels, relations) == written + FkWrites(rels[i..], relations)
      invariant written == [] ==> result == o.result
      invariant written != [] ==> o.result.Some? && result == Some(ApplyWrites(o.result.value, written))
    {
      var name := rels[i].0;
      assert rels[i..][1..] == rels[i + 1..];
      if StopsScan(name, relations) {
        break;
      }
      if WritesKey(name, relations) {
        if result.None? {
          assert FkWrites(rels, relations) != [];
          return Err(TypeError);
        }
        var w := (relations[name].keyFrom, ForeignKeyValue(rels[i].1.data));
        result := Some(result.value[w.0 := w.1]);
        assert (written + [w])[..|written + [w]| - 1] == written;
        written := written + [w];
      }
      i := i + 1;
    }
    assert FkWrites(rels, relations) == written;
    return Ok(o.(result := result));
  }

  // ---------------------------------------------------------------------
  // The pipeline

  /**
   * `deserializer(options, cb)`: reads the three hooks from the model, runs
   * before, transform and after on a copy of the options (a value here), and
   * then the belongs-to pass; the first error ends the pipeline.
   */
  function Deserialize(options: DeserializeOptions, hooks: ModelHooks): (r: Result<DeserializeOptions>)
    ensures options.model.None? ==> r == Err(TypeError)
    ensures options.model.Some? && !hooks.before.Callable? && !hooks.transform.Callable? && !hooks.after.Callable? ==>
      (r.Err? <==> options.data.None? || options.data.value.data.None?)
  {
    if options.model.None? then Err(TypeError)
    else
      var before := SelectStage(hooks.before, DefaultBeforeDeserialize);
      var transform := SelectStage(hooks.transform, DefaultDeserialize);
      var after := SelectStage(hooks.after, DefaultAfterDeserialize);
      var o1 :- before(options);
      var o2 :- transform(o1);
      var o3 :- after(o2);
      BelongsToPass(o3)
  }

  /** The stages run in the order before, transform, after, then the belongs-to pass. */
  lemma PipelineOrder(options: DeserializeOptions, hooks: ModelHooks)
    requires options.model.Some?
    ensures
      var before := SelectStage(hooks.before, DefaultBeforeDeserialize);
      var transform := SelectStage(hooks.transform, DefaultDeserialize);
      var after := SelectStage(hooks.after, DefaultAfterDeserialize);
      && (before(options).Err? ==> Deserialize(options, hooks) == before(options).PropagateFailure())
      && (before(options).Ok? && transform(before(options).value).Err? ==>
            Deserialize(options, hooks) == transform(before(options).value).PropagateFailure())
      && (before(options).Ok? && transform(before(options).value).Ok? &&
          after(transform(before(options).value).value).Err? ==>
            Deserialize(options, hooks) == after(transform(before(options).value).value).PropagateFailure())
      && (before(options).Ok? && transform(before(options).value).Ok? &&
          after(transform(before(options).value).value).Ok? ==>
            Deserialize(options, hooks) == BelongsToPass(after(transform(before(options).value).value).value))
  {
  }

  /**
   * An error from a stage goes straight to the caller: whatever the later
   * stages would do, the outcome is that error.
   */
  lemma StageErrorShortCircuits(options: DeserializeOptions, h1: ModelHooks, h2: ModelHooks)
    requires options.model.Some? && h1.before == h2.before
    requires SelectStage(h1.before, DefaultBeforeDeserialize)(options).Err?
    ensures Deserialize(options, h1) == Deserialize(options, h2)
    ensures Deserialize(options, h1).Err?
    ensures Deserialize(options, h1).error == SelectStage(h1.before, DefaultBeforeDeserialize)(options).error
  {
  }

  /** With no hooks, a document with attributes gives exactly its attributes plus its belongs-to keys. */
  lemma DefaultPipeline(options: DeserializeOptions, hooks: ModelHooks)
    requires options.model.Some? && !hooks.before.Callable? && !hooks.transform.Callable? && !hooks.after.Callable?
    requires options.data.Some? && options.data.value.data.Some?
    ensures Deserialize(options, hooks).Ok?
    ensures
      var doc := options.data.value.data.value;
      var attributes := if doc.attributes.Some? then doc.attributes.value else map[];
      var ws := if doc.relationships.None? then [] else FkWrites(doc.relationships.value, options.model.value.relations);
      Deserialize(options, hooks).value.result == Some(ApplyWrites(attributes, ws))
  {
  }

  /**
   * Every belongs-to relationship before the scan stops is written, in
   * order: when no relationship before index `i` stops the scan, the writes
   * of the first `i` relationships are a prefix of all writes.
   */
  lemma {:induction false} FkWritesPrefix(rels: seq<(string, Relationship)>, relations: map<string, Relation>, i: nat)
    requires i <= |rels|
    requires forall j :: 0 <= j < i ==> !StopsScan(rels[j].0, relations)
    ensures FkWrites(rels, relations) == FkWrites(rels[..i], relations) + FkWrites(rels[i..], relations)
    decreases i
  {
    if i > 0 {
      assert rels[1..][..i - 1] == rels[..i][1..];
      assert rels[1..][i - 1..] == rels[i..];
      FkWritesPrefix(rels[1..], relations, i - 1);
    } else {
      assert rels[..0] == [];
      assert rels[0..] == rels;
    }
  }

  /** A belongs-to relation without `modelFrom` stops the scan: nothing after it is written. */
  lemma {:induction false} ScanStopsAtMissingModelFrom(
    before: seq<(string, Relationship)>, stop: (string, Relationship), after: seq<(string, Relationship)>,
    relations: map<string, Relation>)
    requires StopsScan(stop.0, relations)
    ensures FkWrites(before + [stop] + after, relations) == FkWrites(before, relations)
    decreases |before|
  {
    if before == [] {
      assert (before + [stop] + after)[0] == stop;
    } else {
      assert (before + [stop] + after)[1..] == before[1..] + [stop] + after;
      assert (before + [stop] + after)[0] == before[0];
      ScanStopsAtMissingModelFrom(before[1..], stop, after, relations);
    }
  }

  /** Relationships whose name has no relation, or whose relation is not belongs-to, write nothing. */
  lemma {:induction false} NonBelongsToWritesNothing(rels: seq<(string, Relationship)>, relations: map<string, Relation>)
    requires forall i :: 0 <= i < |rels| ==> rels[i].0 !in relations || relations[rels[i].0].kind != BelongsTo
    ensures FkWrites(rels, relations) == []
    decreases |rels|
  {
    if rels != [] {
      NonBelongsToWritesNothing(rels[1..], relations);
    }
  }

  /**
   * The foreign-key round trip: an `author` belongs-to relationship with
   * `data: {id: "7"}` writes `authorId = "7"` over any attribute of that
   * name, and `data: null` writes null; other attributes are kept.
   */
  lemma ForeignKeyRoundTrip(attributes: map<string, Value>, modelFrom: string)
    ensures
      var relations := map["author" := Relation("author", BelongsTo, "authorId", Some(modelFrom), Some("author"), None, None)];
      var withId := [("author", Relationship(Obj(map["id" := Str("7")])))];
      var withNull := [("author", Relationship(Null))];
      && ApplyWrites(attributes, FkWrites(withId, relations)) == attributes["authorId" := Str("7")]
      && ApplyWrites(attributes, FkWrites(withNull, relations)) == attributes["authorId" := Null]
  {
    var relations := map["author" := Relation("author", BelongsTo, "authorId", Some(modelFrom), Some("author"), None, None)];
    var withId := [("author", Relationship(Obj(map["id" := Str("7")])))];
    assert FkWrites(withId[1..], relations) == [];
    var withNull := [("author", Relationship(Null))];
    assert FkWrites(withNull[1..], relations) == [];
  }
}
