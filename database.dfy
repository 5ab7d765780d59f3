/**
 * The database endpoints of src/database.rs: the request each operation
 * builds (endpoint path and JSON body) and the JSON form of a query.
 * Requests carry their body as `json_body` stores it.
 */
module Database {
  import opened Wrappers
  import opened JsonValue
  import opened Ints
  import opened Request

  // ---------------------------------------------------------------------------
  // Queries and their JSON form
  // ---------------------------------------------------------------------------

  datatype SortDirection = Ascending | Descending

  datatype Sort = Sort(property: string, direction: SortDirection)

  /** A query: every part is optional and an absent part is not serialised. */
  datatype DatabaseQuery = DatabaseQuery(
    filter: Option<Json>,
    sorts: Option<seq<Sort>>,
    startCursor: Option<string>,
    pageSize: Option<Uint32>)

  /** Sort directions serialise as lower-case words. */
  function SortDirectionJson(d: SortDirection): (j: Json)
    ensures j == JString(if d == Ascending then "ascending" else "descending")
  {
    match d
    case Ascending => JString("ascending")
    case Descending => JString("descending")
  }

  function SortJson(s: Sort): Json {
    JObject(map["property" := JString(s.property), "direction" := SortDirectionJson(s.direction)])
  }

  function SortsJson(sorts: seq<Sort>): (items: seq<Json>)
    ensures |items| == |sorts|
    decreases |sorts|
  {
    if |sorts| == 0 then [] else [SortJson(sorts[0])] + SortsJson(sorts[1..])
  }

  /** The serialised query: a JSON object with one member per field that is set. */
  function QueryJson(q: DatabaseQuery): (j: Json)
    ensures j.JObject?
    ensures "filter" in j.fields <==> q.filter.Some?
    ensures "sorts" in j.fields <==> q.sorts.Some?
    ensures "start_cursor" in j.fields <==> q.startCursor.Some?
    ensures "page_size" in j.fields <==> q.pageSize.Some?
    ensures j.fields.Keys <= {"filter", "sorts", "start_cursor", "page_size"}
    ensures q.filter.Some? ==> j.fields["filter"] == q.filter.value
    ensures q.sorts.Some? ==> j.fields["sorts"] == JArray(SortsJson(q.sorts.value))
    ensures q.startCursor.Some? ==> j.fields["start_cursor"] == JString(q.startCursor.value)
    ensures q.pageSize.Some? ==> j.fields["page_size"] == JNumber(q.pageSize.value)
  {
    // A field that is `None` is skipped, as `skip_serializing_if = "Option::is_none"` does.
    var m1: map<string, Json> := if q.filter.Some? then map["filter" := q.filter.value] else map[];
    var m2 := if q.sorts.Some? then m1["sorts" := JArray(SortsJson(q.sorts.value))] else m1;
    var m3 := if q.startCursor.Some? then m2["start_cursor" := JString(q.startCursor.value)] else m2;
    JObject(if q.pageSize.Some? then m3["page_size" := JNumber(q.pageSize.value)] else m3)
  }

  // The readers below invert the serialisation: they show that it loses nothing.

  function ParseSortDirection(j: Json): Option<SortDirection> {
    if j == JString("ascending") then Some(Ascending)
    else if j == JString("descending") then Some(Descending)
    else None
  }

  function ParseSort(j: Json): Option<Sort> {
    if HasStringField(j, "property") && "direction" in j.fields
       && ParseSortDirection(j.fields["direction"]).Some?
    then Some(Sort(j.fields["property"].str, ParseSortDirection(j.fields["direction"]).value))
    else None
  }

  function ParseSorts(items: seq<Json>): Option<seq<Sort>>
    decreases |items|
  {
    if |items| == 0 then Some([])
    else
      var head := ParseSort(items[0]);
      var tail := ParseSorts(items[1..]);
      if head.Some? && tail.Some? then Some([head.value] + tail.value) else None
  }

  function ParseQuery(j: Json): Option<DatabaseQuery> {
    if !j.JObject? then None
    else
      var f := j.fields;
      var sorts :=
        if "sorts" !in f then Some(None)
        else if f["sorts"].JArray? && ParseSorts(f["sorts"].items).Some?
        then Some(Some(ParseSorts(f["sorts"].items).value))
        else None;
      var cursor :=
        if "start_cursor" !in f then Some(None)
        else if f["start_cursor"].JString? then Some(Some(f["start_cursor"].str))
        else None;
      var size :=
        if "page_size" !in f then Some(None)
        else if f["page_size"].JNumber? && 0 <= f["page_size"].n < U32_LIMIT
        then Some(Some(f["page_size"].n as Uint32))
        else None;
      if sorts.Some? && cursor.Some? && size.Some?
      then Some(DatabaseQuery(if "filter" in f then Some(f["filter"]) else None,
                              sorts.value, cursor.value, size.value))
      else None
  }

  lemma SortRoundTrip(s: Sort)
    ensures ParseSort(SortJson(s)) == Some(s)
  {
  }

  lemma {:induction false} SortsRoundTrip(sorts: seq<Sort>)
    ensures ParseSorts(SortsJson(sorts)) == Some(sorts)
    decreases |sorts|
  {
    if |sorts| > 0 {
      SortRoundTrip(sorts[0]);
      SortsRoundTrip(sorts[1..]);
      assert SortsJson(sorts)[1..] == SortsJson(sorts[1..]);
      assert [sorts[0]] + sorts[1..] == sorts;
    }
  }

  /** Serialising a query and reading it back gives the same query. */
  lemma QueryRoundTrip(q: DatabaseQuery)
    ensures ParseQuery(QueryJson(q)) == Some(q)
  {
    if q.sorts.Some? {
      SortsRoundTrip(q.sorts.value);
    }
  }

  // ---------------------------------------------------------------------------
  // Requests
  // ---------------------------------------------------------------------------

  const DatabasesPath := "/databases"

  /** The rich-text title array the API expects for a plain title. */
  function TitleJson(title: string): Json {
    JArray([JObject(map["type" := JString("text"), "text" := JObject(map["content" := JString(title)])])])
  }

  /** The text of a title array built by `TitleJson`. */
  function TitleText(j: Json): Option<string> {
    if j.JArray? && |j.items| > 0 then AsStr(Field(Field(j.items[0], "text"), "content")) else None
  }

  lemma TitleRoundTrip(title: string)
    ensures TitleText(TitleJson(title)) == Some(title)
  {
  }

  /** The body of a create request: parent page, title and property schema. */
  function CreateBody(parentPageId: string, title: string, properties: Json): Json {
    JObject(map[
      "parent" := JObject(map["type" := JString("page_id"), "page_id" := JString(parentPageId)]),
      "title" := TitleJson(title),
      "properties" := properties])
  }

  /** The body of an update request: a title if one is given, properties if they are given. */
  function UpdateBody(title: Option<string>, properties: Option<Json>): Json {
    var withTitle: map<string, Json> := if title.Some? then map["title" := TitleJson(title.value)] else map[];
    JObject(if properties.Some? then withTitle["properties" := properties.value] else withTitle)
  }

  /** `list_request`: the collection endpoint, no parameters, no body. */
  method ListRequest() returns (b: RequestBuilder)
    ensures fresh(b)
    ensures b.endpoint == "/databases" && b.queryParams == map[] && b.body == None
  {
    b := new RequestBuilder(DatabasesPath);
  }

  /** `get_request`: the endpoint of one database, no parameters, no body. */
  method GetRequest(databaseId: string) returns (b: RequestBuilder)
    ensures fresh(b)
    ensures b.endpoint == "/databases/" + databaseId && b.queryParams == map[] && b.body == None
  {
    b := new RequestBuilder(DatabasesPath + "/" + databaseId);
  }

  /**
   * `create_request`: the collection endpoint with a body holding exactly
   * the parent page, the title and the properties.
   */
  method CreateRequest(parentPageId: string, title: string, properties: Json) returns (b: RequestBuilder)
    ensures fresh(b)
    ensures b.endpoint == "/databases" && b.queryParams == map[]
    ensures b.body == Some(CreateBody(parentPageId, title, properties))
    ensures b.body.value.JObject?
    ensures b.body.value.fields.Keys == {"parent", "title", "properties"}
    ensures Field(Field(b.body.value, "parent"), "page_id") == JString(parentPageId)
    ensures Field(Field(b.body.value, "parent"), "type") == JString("page_id")
    ensures TitleText(Field(b.body.value, "title")) == Some(title)
    ensures Field(b.body.value, "properties") == properties
  {
    b := new RequestBuilder(DatabasesPath);
    b.JsonBody(CreateBody(parentPageId, title, properties));
    TitleRoundTrip(title);
  }

  /**
   * `update_request`: the endpoint of one database with a body that has a
   * title exactly when one is given and properties exactly when they are
   * given, stored unchanged; with neither the body is an empty object.
   */
  method UpdateRequest(databaseId: string, title: Option<string>, properties: Option<Json>) returns (b: RequestBuilder)
    ensures fresh(b)
    ensures b.endpoint == "/databases/" + databaseId && b.queryParams == map[]
    ensures b.body == Some(UpdateBody(title, properties))
    ensures b.body.value.JObject?
    ensures "title" in b.body.value.fields <==> title.Some?
    ensures "properties" in b.body.value.fields <==> properties.Some?
    ensures b.body.value.fields.Keys <= {"title", "properties"}
    ensures title.Some? ==> TitleText(b.body.value.fields["title"]) == title
    ensures properties.Some? ==> b.body.value.fields["properties"] == properties.value
    ensures title.None? && properties.None? ==> b.body.value == JObject(map[])
  {
    b := new RequestBuilder(DatabasesPath + "/" + databaseId);
    var body: map<string, Json> := map[];
    if title.Some? {
      body := body["title" := TitleJson(title.value)];
      TitleRoundTrip(title.value);
    }
    if properties.Some? {
      body := body["properties" := properties.value];
    }
    b.JsonBody(JObject(body));
  }

  /** `query_request`: the query endpoint of one database, with the serialised query as body. */
  method QueryRequest(databaseId: string, query: DatabaseQuery) returns (b: RequestBuilder)
    ensures fresh(b)
    ensures b.endpoint == "/databases/" + databaseId + "/query" && b.queryParams == map[]
    ensures b.body == Some(QueryJson(query))
    ensures ParseQuery(b.body.value) == Some(query)
  {
    b := new RequestBuilder(DatabasesPath + "/" + databaseId + "/query");
    b.JsonBody(QueryJson(query));
    QueryRoundTrip(query);
  }
}
