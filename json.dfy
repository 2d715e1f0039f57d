/** The part of Newtonsoft.Json (`JObject`, `JArray`, `JToken`) that the list actions use:
    parsing the reply, walking the `outputParameters.Result` envelope, indexing a column and
    turning it into text. Parsing JSON text, Guid and DateTime text, and the JSON rendering
    of a nested token are left abstract, as the partial functions of a `Library`. */
module Json {
  import opened Common
  import opened Clr
  import ClrGuid

  /** A JSON token after parsing. A scalar (string, number, boolean, null) is kept as the text
      `JValue.ToString()` gives for it; a JSON null gives "". An object's children are its
      properties, each a `JProperty` token of its own. */
  datatype Json =
    | JValue(text: string)
    | JArray(items: seq<Json>)
    | JObject(members: seq<(string, Json)>)
    | JProperty(name: string, value: Json)

  /** The library code outside this model, as partial functions; a failure carries the
      message of the exception it throws. Like Newtonsoft's reader, which keeps one property
      per name, `parseJson` returns objects whose member names are distinct; `Lookup` takes
      the last match so that a repeated name would still resolve as the reader does. */
  datatype Library = Library(
    parseJson: string -> Result<Json, string>,                // JToken.Parse
    parseGuid: string -> Result<ClrGuid.Guid, string>,        // Guid.Parse, Guid.TryParse
    parseDateTime: string -> Result<DateTime, string>,        // DateTime.Parse
    render: Json -> string)                                   // ToString() of a non-scalar token

  const NotAnObjectMessage := "Error reading JObject from JsonReader."

  /** `JObject.Parse(body)`: the body must parse, and to an object. */
  function ParseObject(lib: Library, body: string): (r: Result<Json, Exn>)
    ensures r.Success? ==> r.value.JObject?
  {
    match lib.parseJson(body)
    case Failure(m) => Failure(JsonReaderError(m))
    case Success(j) => if j.JObject? then Success(j) else Failure(JsonReaderError(NotAnObjectMessage))
  }

  /** The value of the member named `key`, if any. Newtonsoft's reader replaces the value of a
      repeated name, so the last member with that name wins. */
  function Lookup(members: seq<(string, Json)>, key: string): (r: Option<Json>)
    ensures r.Some? ==> exists k :: 0 <= k < |members| && members[k] == (key, r.value)
                                    && forall j :: k < j < |members| ==> members[j].0 != key
    ensures r.None? ==> forall k :: 0 <= k < |members| ==> members[k].0 != key
    decreases |members|
  {
    if members == [] then None
    else if members[|members| - 1].0 == key then Some(members[|members| - 1].1)
    else
      var front := members[..|members| - 1];
      var r := Lookup(front, key);
      assert forall k :: 0 <= k < |front| ==> front[k] == members[k];
      r
  }

  /** `token[key]` with a string key: an object gives the member or C# null (`None`);
      any other token throws. */
  function Member(j: Json, key: string): Result<Option<Json>, Exn> {
    match j
    case JObject(members) => Success(Lookup(members, key))
    case _ => Failure(InvalidChildAccess)
  }

  /** `token[k]` with an integer key: only an array can be indexed so, and only below its
      length. */
  function Item(j: Json, k: nat): (r: Result<Json, Exn>)
    ensures r.Success? <==> j.JArray? && k < |j.items|
    ensures r.Success? ==> r.value == j.items[k]
  {
    match j
    case JArray(items) => if k < |items| then Success(items[k]) else Failure(ArgumentOutOfRange)
    case _ => Failure(InvalidChildAccess)
  }

  /** `token.ToString()` */
  function Text(lib: Library, j: Json): string {
    if j.JValue? then j.text else lib.render(j)
  }

  /** `column[k].ToString()` */
  function Column(lib: Library, column: Json, k: nat): (r: Result<string, Exn>)
    ensures r.Success? <==> column.JArray? && k < |column.items|
    ensures r.Success? ==> r.value == Text(lib, column.items[k])
  {
    var cell :- Item(column, k);
    Success(Text(lib, cell))
  }

  /** `token.Children()`, which is also what `foreach` over a token enumerates. */
  function Children(j: Json): seq<Json> {
    match j
    case JValue(_) => []
    case JArray(items) => items
    case JObject(members) => seq(|members|, i requires 0 <= i < |members| => JProperty(members[i].0, members[i].1))
    case JProperty(_, value) => [value]
  }

  /** `JObject.Parse(body)["outputParameters"]["Result"].Children().ToList()`: the rows of the
      result set. A missing node is a C# null, and indexing it throws. */
  function ResultRows(lib: Library, body: string): Result<seq<Json>, Exn> {
    var root :- ParseObject(lib, body);
    var parameters :- Member(root, "outputParameters");
    if parameters.None? then Failure(NullReference)
    else
      var result :- Member(parameters.value, "Result");
      if result.None? then Failure(NullReference)
      else Success(Children(result.value))
  }

  /** The inner elements of all rows, row after row: what the nested `foreach` visits. */
  function Elements(rows: seq<Json>): seq<Json> {
    if rows == [] then [] else Children(rows[0]) + Elements(rows[1..])
  }

  lemma {:induction false} ElementsAppend(a: seq<Json>, b: seq<Json>)
    ensures Elements(a + b) == Elements(a) + Elements(b)
  {
    if a == [] {
      assert a + b == b;
    } else {
      assert (a + b)[0] == a[0];
      assert (a + b)[1..] == a[1..] + b;
      ElementsAppend(a[1..], b);
    }
  }

  /** The elements of the rows before `i`, then of row `i`, then of the rows after it. */
  lemma {:induction false} ElementsSplit(rows: seq<Json>, i: nat)
    requires i < |rows|
    ensures Elements(rows) == Elements(rows[..i]) + Children(rows[i]) + Elements(rows[i + 1..])
  {
    assert rows == rows[..i] + ([rows[i]] + rows[i + 1..]);
    ElementsAppend(rows[..i], [rows[i]] + rows[i + 1..]);
    ElementsCons(rows[i], rows[i + 1..]);
  }

  lemma {:induction false} ElementsCons(x: Json, t: seq<Json>)
    ensures Elements([x] + t) == Children(x) + Elements(t)
  {
    assert ([x] + t)[1..] == t;
  }

  /** A well-formed envelope gives back its rows. */
  lemma ResultRowsOfEnvelope(lib: Library, body: string, rows: seq<Json>)
    requires lib.parseJson(body) == Success(JObject([("outputParameters", JObject([("Result", JArray(rows))]))]))
    ensures ResultRows(lib, body) == Success(rows)
  {
  }
}
