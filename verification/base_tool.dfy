/** Response post-processing shared by every tool: validation of the API
    envelope, selection of the part of a result that is filtered, the
    per-item field picker, and error text. */
module BaseTool {
  import opened Wrappers
  import opened Strings
  import opened Json
  import opened FieldFilter
  import opened FieldFilterProps

  /** One task of the API envelope; only the fields the tools read. */
  datatype Task = Task(statusCode: int, statusMessage: string, result: seq<Json>)

  /** The API envelope; only the fields `validateResponse` reads. */
  datatype ApiResponse = ApiResponse(statusCode: int, statusMessage: string, tasksError: int, tasks: seq<Task>)

  /** A thrown value: an `Error` with its message, or anything else. */
  datatype Thrown = ErrorValue(message: string) | OtherValue

  /** An MCP content item and a tool response. */
  datatype TextContent = TextContent(kind: string, text: string)
  datatype ToolResponse = ToolResponse(content: seq<TextContent>)

  /** The status code every successful envelope and task carries. */
  const Success := 20000

  /** `code / 100 !== 200`, with JavaScript's floating-point division, which
      for an integer code is exact enough to be false only at 20000. */
  predicate StatusFails(code: int)
  {
    (code as real) / 100.0 != 200.0
  }

  lemma StatusFailsExactly(code: int)
    ensures !StatusFails(code) <==> code == Success
  {
    if !StatusFails(code) {
      assert (code as real) == 200.0 * 100.0;
    }
  }

  /** `validateResponse`: `None` when the envelope passes, otherwise the
      message of the `Error` it throws. The checks run in order and the first
      failing one decides the message. */
  function ValidateResponse(resp: ApiResponse): (r: Option<string>)
    ensures r.None? <==>
      && resp.statusCode == Success && resp.tasksError <= 0
      && |resp.tasks| > 0 && resp.tasks[0].statusCode == Success
    ensures resp.statusCode != Success ==>
      r == Some("API Error: " + resp.statusMessage + " (Code: " + IntToString(resp.statusCode) + ")")
    ensures resp.statusCode == Success && resp.tasksError > 0 ==>
      r == Some("Tasks Error: " + IntToString(resp.tasksError) + " tasks failed")
    ensures resp.statusCode == Success && resp.tasksError <= 0 && |resp.tasks| == 0 ==>
      r == Some("No tasks in response")
    ensures resp.statusCode == Success && resp.tasksError <= 0 && |resp.tasks| > 0 && resp.tasks[0].statusCode != Success ==>
      r == Some("Task Error: " + resp.tasks[0].statusMessage + " (Code: " + IntToString(resp.tasks[0].statusCode) + ")")
  {
    StatusFailsExactly(resp.statusCode);
    if StatusFails(resp.statusCode) then
      Some("API Error: " + resp.statusMessage + " (Code: " + IntToString(resp.statusCode) + ")")
    else if resp.tasksError > 0 then
      Some("Tasks Error: " + IntToString(resp.tasksError) + " tasks failed")
    else if |resp.tasks| == 0 then
      Some("No tasks in response")
    else
    StatusFailsExactly(resp.tasks[0].statusCode);
    if StatusFails(resp.tasks[0].statusCode) then
      Some("Task Error: " + resp.tasks[0].statusMessage + " (Code: " + IntToString(resp.tasks[0].statusCode) + ")")
    else None
  }

  /** Only the first task is inspected: the other tasks never change the
      verdict or its message. */
  lemma OnlyFirstTaskChecked(resp: ApiResponse, others: seq<Task>)
    requires |resp.tasks| > 0
    ensures ValidateResponse(resp.(tasks := [resp.tasks[0]] + others)) == ValidateResponse(resp)
  {
  }

  /** `filterResponseFields`: the response itself for an empty field list,
      otherwise the projection on the parsed paths. */
  function FilterResponseFields(response: Json, fields: seq<string>): (r: Result<Json>)
    ensures |fields| == 0 ==> r == Ok(response)
    ensures |fields| > 0 && Truthy(Some(response)) && r.Ok? ==> r.value.Obj?
    ensures !Truthy(Some(response)) ==> r == Ok(response)
  {
    if |fields| == 0 then Ok(response)
    else FilterFields(response, ParseFieldPaths(fields))
  }

  /** A bracketed field selects what the dotted spelling of the same two
      segments selects. */
  lemma BracketFieldLikeDotted(response: Json, base: string, index: string)
    requires '[' !in base && '.' !in base && '[' !in index && ']' !in index && '.' !in index
    ensures FilterResponseFields(response, [base + "[" + index + "]"])
         == FilterResponseFields(response, [base + "." + index])
  {
    var bracket := base + "[" + index + "]";
    var dotted := base + "." + index;
    assert '[' !in dotted;
    BracketRoundTrip(base, index);
    assert ParseFieldPaths([bracket]) == [Bracket(base, index)];
    assert ParseFieldPaths([dotted]) == [Dotted(dotted)];
    TwoSegments(base, index);
    SameSegmentsSameResult(response, [Bracket(base, index)], [Dotted(dotted)]);
  }

  /** `items.map(item => filterResponseFields(item, fields))`: holes stay
      holes, every element is filtered, and the first throw is the result. */
  function FilterEach(items: seq<Option<Json>>, fields: seq<string>): (r: Result<seq<Option<Json>>>)
    ensures r.TypeError? <==>
      exists i :: 0 <= i < |items| && items[i].Some? && FilterResponseFields(items[i].value, fields).TypeError?
    ensures r.Ok? ==> |r.value| == |items|
    ensures r.Ok? ==> forall i :: 0 <= i < |items| ==>
      (items[i].None? ==> r.value[i].None?) &&
      (items[i].Some? ==> r.value[i] == Some(FilterResponseFields(items[i].value, fields).value))
  {
    if |items| == 0 then Ok([])
    else
      var head := match items[0]
        case None => Ok(None)
        case Some(item) =>
          (match FilterResponseFields(item, fields)
           case TypeError => TypeError
           case Ok(v) => Ok(Some(v)));
      match head
      case TypeError => TypeError
      case Ok(h) =>
        match FilterEach(items[1..], fields)
        case TypeError =>
          assert exists i :: 0 <= i < |items[1..]| && items[1..][i].Some? && FilterResponseFields(items[1..][i].value, fields).TypeError?;
          TypeError
        case Ok(t) =>
          assert forall i :: 1 <= i < |items| ==> items[i] == items[1..][i - 1];
          Ok([h] + t)
  }

  /** The array a parsed JSON list becomes: no holes. */
  function Dense(xs: seq<Json>): (r: seq<Option<Json>>)
    ensures |r| == |xs| && forall i :: 0 <= i < |xs| ==> r[i] == Some(xs[i])
  {
    if |xs| == 0 then [] else [Some(xs[0])] + Dense(xs[1..])
  }

  /** `result[0]?.items`. */
  function FirstItems(result: seq<Json>): Option<Json>
  {
    if |result| == 0 then None else Get(result[0], "items")
  }

  /** `handleItemsResult`: with truthy `result[0].items`, the items themselves
      (unchanged for no fields, each filtered otherwise; `.map` on anything
      but an array throws); otherwise the whole `result` array is filtered. */
  function HandleItemsResult(result: seq<Json>, fields: seq<string>): (r: Result<Json>)
    ensures !Truthy(FirstItems(result)) ==> r == FilterResponseFields(Arr(Dense(result)), fields)
    ensures Truthy(FirstItems(result)) && |fields| == 0 ==> r == Ok(FirstItems(result).value)
    ensures Truthy(FirstItems(result)) && |fields| > 0 && !FirstItems(result).value.Arr? ==> r.TypeError?
    ensures Truthy(FirstItems(result)) && |fields| > 0 && FirstItems(result).value.Arr? ==>
      var items := FirstItems(result).value.elems;
      && (r.TypeError? <==> exists i :: 0 <= i < |items| && items[i].Some? && FilterResponseFields(items[i].value, fields).TypeError?)
      && (r.Ok? ==>
            && r.value.Arr? && |r.value.elems| == |items|
            && forall i :: 0 <= i < |items| && items[i].Some? ==>
                 r.value.elems[i] == Some(FilterResponseFields(items[i].value, fields).value))
  {
    var items := FirstItems(result);
    if !Truthy(items) then FilterResponseFields(Arr(Dense(result)), fields)
    else if |fields| == 0 then Ok(items.value)
    else
      match items.value
      case Arr(elems) =>
        (match FilterEach(elems, fields)
         case TypeError => TypeError
         case Ok(out) => Ok(Arr(out)))
      case _ => TypeError
  }

  /** Entries of `result` after the first never matter once the first has
      truthy items. */
  lemma ItemsIgnoreLaterEntries(result: seq<Json>, later: seq<Json>, fields: seq<string>)
    requires |result| > 0 && Truthy(FirstItems(result))
    ensures HandleItemsResult([result[0]] + later, fields) == HandleItemsResult(result, fields)
  {
    assert FirstItems([result[0]] + later) == FirstItems(result);
  }

  /** `handleDirectResult`: every entry filtered, in order. */
  function HandleDirectResult(result: seq<Json>, fields: seq<string>): (r: Result<Json>)
    ensures r.TypeError? <==> exists i :: 0 <= i < |result| && FilterResponseFields(result[i], fields).TypeError?
    ensures r.Ok? ==>
      && r.value.Arr? && |r.value.elems| == |result|
      && forall i :: 0 <= i < |result| ==> r.value.elems[i] == Some(FilterResponseFields(result[i], fields).value)
  {
    var d := Dense(result);
    match FilterEach(d, fields)
    case TypeError =>
      assert exists i :: 0 <= i < |d| && d[i].Some? && FilterResponseFields(d[i].value, fields).TypeError?;
      TypeError
    case Ok(out) => Ok(Arr(out))
  }

  /** With no fields, direct results come back as they are. */
  lemma DirectResultNoFields(result: seq<Json>)
    ensures HandleDirectResult(result, []) == Ok(Arr(Dense(result)))
  {
    var r := HandleDirectResult(result, []);
    assert r.Ok?;
    assert r.value.elems == Dense(result);
  }

  /** `field in item` for the own properties the model has. */
  predicate Has(item: Json, field: string)
  {
    Get(item, field).Some?
  }

  /** `this.fields.forEach(field => { if (field in item) filteredItem[field] = item[field] })`
      on a fresh object: exactly the listed fields the item has, with its
      values, each once. */
  function PickOne(item: Json, fields: seq<string>): (r: seq<(string, Json)>)
    ensures UniqueKeys(r)
    ensures forall k :: k in KeySet(r) <==> k in fields && Has(item, k)
    ensures forall k :: k in KeySet(r) ==> Lookup(r, k) == Get(item, k)
    decreases |fields|
  {
    if |fields| == 0 then []
    else
      var acc := PickOne(item, fields[..|fields| - 1]);
      var f := fields[|fields| - 1];
      assert fields == fields[..|fields| - 1] + [f];
      match Get(item, f)
      case None => acc
      case Some(v) =>
        PutLookup(acc, f, v);
        Put(acc, f, v)
  }

  /** The private `filterFields`: the data itself for no fields; otherwise
      each item becomes an object of exactly the listed fields it has. `in`
      on anything but an object or array throws. */
  function PickFields(data: seq<Json>, fields: seq<string>): (r: Result<seq<Json>>)
    ensures |fields| == 0 ==> r == Ok(data)
    ensures |fields| > 0 ==> (r.TypeError? <==> exists i :: 0 <= i < |data| && !data[i].IsContainer())
    ensures |fields| > 0 && r.Ok? ==> |r.value| == |data| && forall i :: 0 <= i < |data| ==>
      && r.value[i].Obj? && UniqueKeys(r.value[i].props)
      && (forall k :: k in KeySet(r.value[i].props) <==> k in fields && Has(data[i], k))
      && (forall k :: k in KeySet(r.value[i].props) ==> Lookup(r.value[i].props, k) == Get(data[i], k))
  {
    if |fields| == 0 then Ok(data) else PickEach(data, fields)
  }

  function PickEach(data: seq<Json>, fields: seq<string>): (r: Result<seq<Json>>)
    ensures r.TypeError? <==> exists i :: 0 <= i < |data| && !data[i].IsContainer()
    ensures r.Ok? ==> |r.value| == |data| && forall i :: 0 <= i < |data| ==> r.value[i] == Obj(PickOne(data[i], fields))
  {
    if |data| == 0 then Ok([])
    else if !data[0].IsContainer() then TypeError
    else
      match PickEach(data[1..], fields)
      case TypeError =>
        assert exists i :: 0 <= i < |data[1..]| && !data[1..][i].IsContainer();
        TypeError
      case Ok(t) =>
        assert forall i :: 1 <= i < |data| ==> data[i] == data[1..][i - 1];
        Ok([Obj(PickOne(data[0], fields))] + t)
  }

  /** `formatError`. */
  function FormatError(e: Thrown): (r: string)
    ensures e.ErrorValue? ==> r == e.message
    ensures e.OtherValue? ==> r == "Unknown error"
  {
    match e
    case ErrorValue(m) => m
    case OtherValue => "Unknown error"
  }

  const ErrorPrefix := "Error: "

  /** `formatErrorResponse`: one text item, the message after "Error: ". */
  function FormatErrorResponse(e: Thrown): (r: ToolResponse)
    ensures |r.content| == 1 && r.content[0].kind == "text"
    ensures |r.content[0].text| >= |ErrorPrefix| && r.content[0].text[..|ErrorPrefix|] == ErrorPrefix
    ensures r.content[0].text[|ErrorPrefix|..] == FormatError(e)
  {
    ToolResponse([TextContent("text", ErrorPrefix + FormatError(e))])
  }

  /** The message of a thrown `Error` is recovered from the response text, so
      distinct messages give distinct responses. */
  lemma ErrorTextInjective(m1: string, m2: string)
    requires FormatErrorResponse(ErrorValue(m1)) == FormatErrorResponse(ErrorValue(m2))
    ensures m1 == m2
  {
    assert FormatError(ErrorValue(m1)) == FormatErrorResponse(ErrorValue(m1)).content[0].text[|ErrorPrefix|..];
  }
}
