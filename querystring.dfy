/**
 * The pagination before-hook: `page[offset]` becomes `filter.skip` and
 * `page[limit]` becomes `filter.limit` in the arguments of the remote call.
 */
module QueryString {
  import opened Json
  import opened Utils

  /** The `{from, to}` pairs the hook walks: `page[from]` is copied to `filter[to]`. */
  const PageMappings: seq<(string, string)> := [("offset", "skip"), ("limit", "limit")]

  /** `ctx.args.filter || {}`. */
  function InitialFilter(filter: Option<map<string, Value>>): (f: map<string, Value>) {
    if filter.Some? then filter.value else map[]
  }

  /** The mapping copies: `page[from]` is a string. */
  predicate Copies(page: Value, p: (string, string)) {
    Get(page, p.0).Str?
  }

  /** No mapping after index `i` copies to the same key as mapping `i`. */
  predicate LastCopyTo(page: Value, mappings: seq<(string, string)>, i: int)
    requires 0 <= i < |mappings|
  {
    forall j :: i < j < |mappings| ==> !(mappings[j].1 == mappings[i].1 && Copies(page, mappings[j]))
  }

  /** No mapping copies to key `k`. */
  predicate NotCopiedTo(page: Value, mappings: seq<(string, string)>, k: string) {
    forall i :: 0 <= i < |mappings| ==> !(mappings[i].1 == k && Copies(page, mappings[i]))
  }

  /**
   * The filter after copying, for each mapping in order, a string
   * `page[from]` to `filter[to]`: a key is the filter's or a copied one, the
   * last copy to a key wins, and keys nothing copies to are kept.
   */
  function CopyPageParams(filter: map<string, Value>, page: Value, mappings: seq<(string, string)>): (r: map<string, Value>)
    ensures forall k :: k in r ==> k in filter || exists i :: 0 <= i < |mappings| && mappings[i].1 == k && Copies(page, mappings[i])
    ensures forall i :: 0 <= i < |mappings| && Copies(page, mappings[i]) && LastCopyTo(page, mappings, i) ==>
      mappings[i].1 in r && r[mappings[i].1] == Get(page, mappings[i].0)
    ensures forall k :: k in filter && NotCopiedTo(page, mappings, k) ==> k in r && r[k] == filter[k]
    decreases |mappings|
  {
    if mappings == [] then filter
    else
      var init := mappings[..|mappings| - 1];
      var p := mappings[|mappings| - 1];
      var before := CopyPageParams(filter, page, init);
      CopyStep(filter, page, mappings, before);
      if Copies(page, p) then before[p.1 := Get(page, p.0)] else before
  }

  /** One more mapping keeps the three properties of `CopyPageParams`. */
  lemma CopyStep(filter: map<string, Value>, page: Value, mappings: seq<(string, string)>, before: map<string, Value>)
    requires mappings != []
    requires forall k :: k in before ==>
      k in filter || exists i :: 0 <= i < |mappings| - 1 && mappings[i].1 == k && Copies(page, mappings[i])
    requires forall i :: 0 <= i < |mappings| - 1 && Copies(page, mappings[i]) && LastCopyTo(page, mappings[..|mappings| - 1], i) ==>
      mappings[i].1 in before && before[mappings[i].1] == Get(page, mappings[i].0)
    requires forall k :: k in filter && NotCopiedTo(page, mappings[..|mappings| - 1], k) ==> k in before && before[k] == filter[k]
    ensures var p := mappings[|mappings| - 1];
      var r := if Copies(page, p) then before[p.1 := Get(page, p.0)] else before;
      (forall k :: k in r ==> k in filter || exists i :: 0 <= i < |mappings| && mappings[i].1 == k && Copies(page, mappings[i])) &&
      (forall i :: 0 <= i < |mappings| && Copies(page, mappings[i]) && LastCopyTo(page, mappings, i) ==>
        mappings[i].1 in r && r[mappings[i].1] == Get(page, mappings[i].0)) &&
      (forall k :: k in filter && NotCopiedTo(page, mappings, k) ==> k in r && r[k] == filter[k])
  {
    var init := mappings[..|mappings| - 1];
    var p := mappings[|mappings| - 1];
    var r := if Copies(page, p) then before[p.1 := Get(page, p.0)] else before;
    forall i | 0 <= i < |mappings| - 1 && Copies(page, mappings[i]) && LastCopyTo(page, mappings, i)
      ensures mappings[i].1 in r && r[mappings[i].1] == Get(page, mappings[i].0)
    {
      assert init[i] == mappings[i];
      assert LastCopyTo(page, init, i);
    }
    forall k | k in filter && NotCopiedTo(page, mappings, k)
      ensures k in r && r[k] == filter[k]
    {
      assert NotCopiedTo(page, init, k);
    }
  }

  /** The filter the hook leaves behind for a page value that is an object or an array. */
  function PagedFilter(filter: Option<map<string, Value>>, page: Value): (f: map<string, Value>)
    ensures Get(page, "offset").Str? ==> "skip" in f && f["skip"] == Get(page, "offset")
    ensures Get(page, "limit").Str? ==> "limit" in f && f["limit"] == Get(page, "limit")
    ensures forall k :: k != "skip" && k != "limit" ==> (k in f <==> k in InitialFilter(filter))
    ensures forall k :: k in InitialFilter(filter) && k != "skip" && k != "limit" ==> f[k] == InitialFilter(filter)[k]
    ensures !Get(page, "offset").Str? ==>
      ("skip" in f <==> "skip" in InitialFilter(filter)) &&
      ("skip" in f ==> f["skip"] == InitialFilter(filter)["skip"])
    ensures !Get(page, "limit").Str? ==>
      ("limit" in f <==> "limit" in InitialFilter(filter)) &&
      ("limit" in f ==> f["limit"] == InitialFilter(filter)["limit"])
  {
    var f0 := InitialFilter(filter);
    var f1 := if Get(page, "offset").Str? then f0["skip" := Get(page, "offset")] else f0;
    var f2 := if Get(page, "limit").Str? then f1["limit" := Get(page, "limit")] else f1;
    assert PageMappings[..1][..0] == [];
    assert CopyPageParams(f0, page, PageMappings[..1]) == f1;
    assert PageMappings[..|PageMappings| - 1] == PageMappings[..1];
    assert CopyPageParams(f0, page, PageMappings) == f2;
    CopyPageParams(f0, page, PageMappings)
  }

  /** A string-valued query `page[offset]=5&page[limit]=10` on no filter gives `{skip: "5", limit: "10"}`. */
  lemma PaginationExample()
    ensures PagedFilter(None, Obj(map["offset" := Str("5"), "limit" := Str("10")])) ==
      map["skip" := Str("5"), "limit" := Str("10")]
  {
  }

  /** `ctx.args` of a remote call; the hook initialises and updates its `filter` in place. */
  class RemoteArgs {
    var filter: Option<map<string, Value>>

    constructor (filter: Option<map<string, Value>>)
      ensures this.filter == filter
    {
      this.filter := filter;
    }

    /**
     * The before-hook. An excluded request leaves `filter` alone. Otherwise
     * `filter` becomes `{}` when absent, and when `query.page` is an object
     * its string `offset` and `limit` are copied to `skip` and `limit`; a
     * null `page` throws after `filter` has been initialised.
     */
    method PaginateBeforeRemote(m: RemoteMethod, cfg: Config, query: map<string, Value>) returns (err: Option<Error>)
      modifies this
      ensures ShouldNotApplyJsonApi(m, cfg) ==> filter == old(filter) && err == None
      ensures !ShouldNotApplyJsonApi(m, cfg) && !IsObjectType(PageOf(query)) ==>
        filter == Some(InitialFilter(old(filter))) && err == None
      ensures !ShouldNotApplyJsonApi(m, cfg) && PageOf(query).Null? ==>
        filter == Some(InitialFilter(old(filter))) && err == Some(TypeError)
      ensures !ShouldNotApplyJsonApi(m, cfg) && (PageOf(query).Obj? || PageOf(query).Arr?) ==>
        filter == Some(PagedFilter(old(filter), PageOf(query))) && err == None
    {
      if ShouldNotApplyJsonApi(m, cfg) {
        return None;
      }
      var page := PageOf(query);
      filter := Some(InitialFilter(filter));
      if !IsObjectType(page) {
        return None;
      }
      if page.Null? {
        return Some(TypeError);
      }
      ghost var start := filter.value;
      var i := 0;
      while i < |PageMappings|
        invariant 0 <= i <= |PageMappings|
        invariant filter == Some(CopyPageParams(start, page, PageMappings[..i]))
      {
        var p := PageMappings[i];
        assert PageMappings[..i + 1][..i] == PageMappings[..i];
        if Get(page, p.0).Str? {
          filter := Some(filter.value[p.1 := Get(page, p.0)]);
        }
        i := i + 1;
      }
      assert PageMappings[..|PageMappings|] == PageMappings;
      return None;
    }
  }

  /** `ctx.req.query.page`. */
  function PageOf(query: map<string, Value>): (page: Value) {
    if "page" in query then query["page"] else Undefined
  }
}
