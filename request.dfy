/**
 * The request builder of src/request.rs: an endpoint path, a dictionary of
 * query parameters in which later writes win, and an optional JSON body,
 * together with the URL they produce.
 *
 * The parameters live in a hash map, so `build_url` visits them in an order
 * the program does not fix. `BuildUrl` below picks its keys arbitrarily and
 * reports the order it used as a ghost result; everything proved about the
 * URL holds for every such order.
 */
module Request {
  import opened Wrappers
  import opened JsonValue
  import Text

  // ---------------------------------------------------------------------------
  // Query parameters
  // ---------------------------------------------------------------------------

  /** The dictionary after inserting `pairs` one after the other. */
  function InsertAll(m: map<string, string>, pairs: seq<(string, string)>): map<string, string>
    decreases |pairs|
  {
    if |pairs| == 0 then m
    else InsertAll(m, pairs[..|pairs| - 1])[pairs[|pairs| - 1].0 := pairs[|pairs| - 1].1]
  }

  /** Inserting pairs adds exactly their keys to the dictionary. */
  lemma {:induction false} InsertAllKeys(m: map<string, string>, pairs: seq<(string, string)>)
    ensures InsertAll(m, pairs).Keys == m.Keys + set i | 0 <= i < |pairs| :: pairs[i].0
    decreases |pairs|
  {
    if |pairs| > 0 {
      var init := pairs[..|pairs| - 1];
      InsertAllKeys(m, init);
      assert (set i | 0 <= i < |pairs| :: pairs[i].0)
          == (set i | 0 <= i < |init| :: init[i].0) + {pairs[|pairs| - 1].0};
    }
  }

  /** For a key given several times, the last pair that names it wins. */
  lemma {:induction false} InsertAllLastWins(m: map<string, string>, pairs: seq<(string, string)>, i: nat)
    requires i < |pairs|
    requires forall j :: i < j < |pairs| ==> pairs[j].0 != pairs[i].0
    ensures pairs[i].0 in InsertAll(m, pairs)
    ensures InsertAll(m, pairs)[pairs[i].0] == pairs[i].1
    decreases |pairs|
  {
    if i < |pairs| - 1 {
      InsertAllLastWins(m, pairs[..|pairs| - 1], i);
    }
  }

  /** A key no pair names keeps its earlier value, or stays absent. */
  lemma {:induction false} InsertAllKeepsOthers(m: map<string, string>, pairs: seq<(string, string)>, k: string)
    requires forall j :: 0 <= j < |pairs| ==> pairs[j].0 != k
    ensures k in InsertAll(m, pairs) <==> k in m
    ensures k in m ==> InsertAll(m, pairs)[k] == m[k]
    decreases |pairs|
  {
    if |pairs| > 0 {
      InsertAllKeepsOthers(m, pairs[..|pairs| - 1], k);
    }
  }

  // ---------------------------------------------------------------------------
  // Enumerations of the keys and the URL they give
  // ---------------------------------------------------------------------------

  ghost predicate NoDuplicates(s: seq<string>) {
    forall i, j :: 0 <= i < j < |s| ==> s[i] != s[j]
  }

  /** `order` lists every key of `keys` exactly once, as a map iterator does. */
  ghost predicate IsEnumeration(order: seq<string>, keys: set<string>) {
    NoDuplicates(order) && forall k :: k in keys <==> k in order
  }

  /** The `key=value` text of one parameter. */
  function Segment(params: map<string, string>, k: string): string {
    k + "=" + if k in params then params[k] else ""
  }

  /** The `key=value` texts of the parameters, in the order given. */
  function Segments(params: map<string, string>, order: seq<string>): (segs: seq<string>)
    ensures |segs| == |order|
    ensures forall i :: 0 <= i < |order| ==> segs[i] == Segment(params, order[i])
    decreases |order|
  {
    if |order| == 0 then []
    else Segments(params, order[..|order| - 1]) + [Segment(params, order[|order| - 1])]
  }

  /**
   * `build_url`: the base and the endpoint, then, only when there are
   * parameters, `?` and the parameter texts joined by `&`.
   */
  ghost function Url(base: string, endpoint: string, params: map<string, string>, order: seq<string>): string
    requires IsEnumeration(order, params.Keys)
  {
    if |params| == 0 then base + endpoint
    else base + endpoint + "?" + Text.Join("&", Segments(params, order))
  }

  /** `url` is what `build_url` can produce for some iteration order. */
  ghost predicate IsBuiltUrl(url: string, base: string, endpoint: string, params: map<string, string>) {
    exists order :: IsEnumeration(order, params.Keys) && url == Url(base, endpoint, params, order)
  }

  /** An enumeration has exactly as many entries as there are keys. */
  lemma {:induction false} EnumerationLength(order: seq<string>, keys: set<string>)
    requires IsEnumeration(order, keys)
    ensures |order| == |keys|
    decreases |order|
  {
    if |order| > 0 {
      var last := order[|order| - 1];
      var init := order[..|order| - 1];
      assert last in keys;
      forall k ensures k in keys - {last} <==> k in init {
        if k in init {
          var i :| 0 <= i < |init| && init[i] == k;
          assert order[i] == k;
        }
        if k in keys - {last} {
          var i :| 0 <= i < |order| && order[i] == k;
          assert i != |order| - 1;
          assert init[i] == k;
        }
      }
      EnumerationLength(init, keys - {last});
    }
  }

  /** In a list without duplicates every entry occurs once. */
  lemma {:induction false} DistinctMultiplicity(s: seq<string>, k: string)
    requires NoDuplicates(s)
    ensures multiset(s)[k] == if k in s then 1 else 0
    decreases |s|
  {
    if |s| > 0 {
      var init := s[..|s| - 1];
      assert s == init + [s[|s| - 1]];
      DistinctMultiplicity(init, k);
      if k == s[|s| - 1] {
        forall i | 0 <= i < |init| ensures init[i] != k {
          assert s[i] != s[|s| - 1];
        }
      } else {
        assert k in s <==> k in init;
      }
    }
  }

  /** Two enumerations of the same keys are permutations of each other. */
  lemma EnumerationsArePermutations(o1: seq<string>, o2: seq<string>, keys: set<string>)
    requires IsEnumeration(o1, keys) && IsEnumeration(o2, keys)
    ensures multiset(o1) == multiset(o2)
  {
    forall k ensures multiset(o1)[k] == multiset(o2)[k] {
      DistinctMultiplicity(o1, k);
      DistinctMultiplicity(o2, k);
    }
  }

  lemma {:induction false} SegmentsAppend(params: map<string, string>, a: seq<string>, b: seq<string>)
    ensures Segments(params, a + b) == Segments(params, a) + Segments(params, b)
  {
    assert forall i :: 0 <= i < |a + b| ==> Segments(params, a + b)[i] == (Segments(params, a) + Segments(params, b))[i];
  }

  /** Taking one key out of the middle takes its text out of the middle. */
  lemma SegmentsRemove(params: map<string, string>, left: seq<string>, x: string, right: seq<string>)
    ensures multiset(Segments(params, left + [x] + right))
         == multiset(Segments(params, left + right)) + multiset{Segment(params, x)}
  {
    SegmentsAppend(params, left, [x]);
    SegmentsAppend(params, left + [x], right);
    SegmentsAppend(params, left, right);
    assert Segments(params, [x]) == [Segment(params, x)];
  }

  /** Permuting the keys permutes their parameter texts. */
  lemma {:induction false} SegmentsOfPermutation(params: map<string, string>, o1: seq<string>, o2: seq<string>)
    requires multiset(o1) == multiset(o2)
    ensures multiset(Segments(params, o1)) == multiset(Segments(params, o2))
    decreases |o1|
  {
    if |o1| == 0 {
      assert |o2| == |multiset(o2)| == 0;
    } else {
      var x := o1[|o1| - 1];
      var init1 := o1[..|o1| - 1];
      assert o1 == init1 + [x];
      assert x in multiset(o2);
      var j :| 0 <= j < |o2| && o2[j] == x;
      var left, right := o2[..j], o2[j + 1..];
      assert o2 == left + [x] + right;
      var rest2 := left + right;
      PermutationRemove(init1, left, x, right);
      SegmentsOfPermutation(params, init1, rest2);
      SegmentsAppend(params, init1, [x]);
      assert Segments(params, [x]) == [Segment(params, x)];
      SegmentsRemove(params, left, x, right);
    }
  }

  lemma PermutationRemove(init: seq<string>, left: seq<string>, x: string, right: seq<string>)
    requires multiset(init + [x]) == multiset(left + [x] + right)
    ensures multiset(init) == multiset(left + right)
  {
    assert multiset(init + [x]) == multiset(init) + multiset{x};
    assert multiset(left + [x] + right) == multiset(left) + multiset{x} + multiset(right);
    assert multiset(left + right) == multiset(left) + multiset(right);
    assert multiset(init) == multiset(init + [x]) - multiset{x};
    assert multiset(left + right) == multiset(left + [x] + right) - multiset{x};
  }

  /**
   * The parameter texts of a URL do not depend on the iteration order:
   * two enumerations give the same texts, possibly permuted.
   */
  lemma SegmentsOrderIndependent(params: map<string, string>, o1: seq<string>, o2: seq<string>)
    requires IsEnumeration(o1, params.Keys) && IsEnumeration(o2, params.Keys)
    ensures multiset(Segments(params, o1)) == multiset(Segments(params, o2))
  {
    EnumerationsArePermutations(o1, o2, params.Keys);
    SegmentsOfPermutation(params, o1, o2);
  }

  /** Without parameters the URL is the base and the endpoint, with no `?`. */
  lemma UrlWithoutParams(base: string, endpoint: string, params: map<string, string>, order: seq<string>)
    requires IsEnumeration(order, params.Keys) && |params| == 0
    ensures Url(base, endpoint, params, order) == base + endpoint
    ensures order == []
  {
    EnumerationLength(order, params.Keys);
  }

  /** With no parameters the built URL is just the base and the endpoint. */
  lemma BuiltUrlWithoutParams(url: string, base: string, endpoint: string, params: map<string, string>)
    requires IsBuiltUrl(url, base, endpoint, params) && |params| == 0
    ensures url == base + endpoint
  {
    var order :| IsEnumeration(order, params.Keys) && url == Url(base, endpoint, params, order);
    UrlWithoutParams(base, endpoint, params, order);
  }

  /**
   * With parameters the URL is the base, the endpoint, `?` and a join of
   * one `key=value` text per key of the dictionary, each key exactly once.
   */
  lemma UrlWithParams(base: string, endpoint: string, params: map<string, string>, order: seq<string>)
    requires IsEnumeration(order, params.Keys) && |params| > 0
    ensures var segs := Segments(params, order);
      && Url(base, endpoint, params, order) == base + endpoint + "?" + Text.Join("&", segs)
      && |segs| == |params|
      && (forall k :: k in params <==> exists i :: 0 <= i < |segs| && order[i] == k && segs[i] == Segment(params, k))
  {
    EnumerationLength(order, params.Keys);
    var segs := Segments(params, order);
    forall k | k in params
      ensures exists i :: 0 <= i < |segs| && order[i] == k && segs[i] == Segment(params, k)
    {
      var i :| 0 <= i < |order| && order[i] == k;
    }
  }

  /** A single parameter gives exactly one `key=value` after the `?`. */
  lemma {:induction false} UrlSingleParam(base: string, endpoint: string, k: string, v: string, order: seq<string>)
    requires IsEnumeration(order, map[k := v].Keys)
    ensures Url(base, endpoint, map[k := v], order) == base + endpoint + "?" + k + "=" + v
  {
    EnumerationLength(order, map[k := v].Keys);
    assert order == [k];
  }

  // ---------------------------------------------------------------------------
  // The builder
  // ---------------------------------------------------------------------------

  class RequestBuilder {
    var endpoint: string
    var queryParams: map<string, string>
    var body: Option<Json>

    /** `RequestBuilder::new`: the endpoint, no parameters and no body. */
    constructor (endpoint: string)
      ensures this.endpoint == endpoint && queryParams == map[] && body == None
    {
      this.endpoint := endpoint;
      queryParams := map[];
      body := None;
    }

    /** `query_param`: sets one parameter, replacing an earlier value for that key. */
    method QueryParam(key: string, value: string)
      modifies this
      ensures queryParams == old(queryParams)[key := value]
      ensures endpoint == old(endpoint) && body == old(body)
    {
      queryParams := queryParams[key := value];
    }

    /** `query_params`: inserts the pairs in order, so the last pair for a key wins. */
    method QueryParams(pairs: seq<(string, string)>)
      modifies this
      ensures queryParams == InsertAll(old(queryParams), pairs)
      ensures endpoint == old(endpoint) && body == old(body)
    {
      for i := 0 to |pairs|
        invariant queryParams == InsertAll(old(queryParams), pairs[..i])
        invariant endpoint == old(endpoint) && body == old(body)
      {
        assert pairs[..i + 1][..i] == pairs[..i];
        queryParams := queryParams[pairs[i].0 := pairs[i].1];
      }
      assert pairs[..|pairs|] == pairs;
    }

    /**
     * `body`: stores the serialised form of a value. `serialized` is what
     * the serialiser produced; on its failure the error is passed on and
     * (the builder being consumed) nothing is stored.
     */
    method Body(serialized: Result<Json, string>) returns (failure: Option<string>)
      modifies this
      ensures serialized.Success? ==> failure == None && body == Some(serialized.value)
      ensures serialized.Failure? ==> failure == Some(serialized.error) && body == old(body)
      ensures endpoint == old(endpoint) && queryParams == old(queryParams)
    {
      match serialized
      case Success(v) =>
        body := Some(v);
        failure := None;
      case Failure(e) =>
        failure := Some(e);
    }

    /** `json_body`: stores the given JSON value as the body. */
    method JsonBody(b: Json)
      modifies this
      ensures GetBody() == Some(b)
      ensures endpoint == old(endpoint) && queryParams == old(queryParams)
    {
      body := Some(b);
    }

    /** `get_body`: the body, if one was set. */
    function GetBody(): Option<Json>
      reads this
    {
      body
    }

    /**
     * `build_url`: appends `?` and the `&`-joined parameter texts to base and
     * endpoint when there are parameters. The keys are visited in an
     * arbitrary order, returned as `order`.
     */
    method BuildUrl(base: string) returns (url: string, ghost order: seq<string>)
      ensures |queryParams| == 0 ==> url == base + endpoint
      ensures |queryParams| != 0 ==> base + endpoint + "?" <= url
      ensures IsEnumeration(order, queryParams.Keys)
      ensures url == Url(base, endpoint, queryParams, order)
    {
      url := base + endpoint;
      order := [];
      if |queryParams| != 0 {
        var params: seq<string> := [];
        var remaining := queryParams.Keys;
        while remaining != {}
          invariant remaining <= queryParams.Keys
          invariant NoDuplicates(order)
          invariant forall k :: k in queryParams.Keys <==> k in remaining || k in order
          invariant forall i :: 0 <= i < |order| ==> order[i] !in remaining
          invariant params == Segments(queryParams, order)
          decreases remaining
        {
          var k :| k in remaining;
          params := params + [k + "=" + queryParams[k]];
          order := order + [k];
          remaining := remaining - {k};
        }
        url := url + "?";
        url := url + Text.Join("&", params);
      } else {
        assert queryParams.Keys == {};
      }
    }
  }

  /** The parts of the example's URL spell out the URL the example expects. */
  lemma ExampleUrlParts()
    ensures "https://api.notion.com/v1" + "/databases" + "?" + "page_size" + "=" + "100"
         == "https://api.notion.com/v1/databases?page_size=100"
  {
  }

  /** The builder example of src/lib.rs: one parameter, a body, a fixed URL. */
  method BuilderExample() returns (url: string, hasBody: bool)
    ensures url == "https://api.notion.com/v1/databases?page_size=100"
    ensures hasBody
  {
    var builder := new RequestBuilder("/databases");
    builder.QueryParam("page_size", "100");
    var filter := JObject(map["property" := JString("Status"),
                              "select" := JObject(map["equals" := JString("Done")])]);
    builder.JsonBody(JObject(map["filter" := filter]));
    ghost var order;
    url, order := builder.BuildUrl("https://api.notion.com/v1");
    UrlSingleParam("https://api.notion.com/v1", "/databases", "page_size", "100", order);
    ExampleUrlParts();
    hasBody := builder.GetBody().Some?;
  }
}
