/** The two location-list tools: the request payload each builds from its
    parameters, the request it sends, and how the answer becomes the tool's
    output. The HTTP client is a parameter `fetch` from the request to what the
    call produced, a response or a thrown value. */
module LocationTools {
  import opened Wrappers
  import opened Strings
  import opened Json
  import opened BaseTool

  /** The organic tool's parameters; `search_engine` has the default "google"
      applied by its schema before the tool runs. */
  datatype OrganicParams = OrganicParams(
    searchEngine: string,
    countryIsoCode: Option<string>,
    locationType: Option<string>,
    locationName: Option<string>)

  /** The YouTube tool's parameters: the country code is required. */
  datatype YoutubeParams = YoutubeParams(
    countryIsoCode: string,
    locationType: Option<string>,
    locationName: Option<string>)

  datatype ApiRequest = ApiRequest(path: string, verb: string, body: Json)

  /** The client's answer: the status envelope and the `items` property the
      tools read from it (`None` when it is `undefined`). */
  datatype LocationsResponse = LocationsResponse(envelope: ApiResponse, items: Option<Json>)

  /** What awaiting the request gave: a response, or a thrown value. */
  datatype Fetched = Received(response: LocationsResponse) | Failed(error: Thrown)

  /** The tool's result: the list handed to `formatResponse`, or the error
      response. A `None` entry is an `undefined` value or a hole, which both
      serialise as `null`. */
  datatype ToolOutput = Data(names: seq<Option<Json>>) | Failure(response: ToolResponse)

  const CountryKey := "country_iso_code"
  const TypeKey := "location_type"
  const NameKey := "location_name"

  const NoFieldsMessage := "At least one of the following fields must be specified: country_iso_code, location_type, location_name"

  /** The payload value a truthy parameter contributes; nothing otherwise. */
  function Sent(v: Option<string>): Option<Json>
  {
    if TruthyString(v) then Some(Str(v.value)) else None
  }

  /** `if (v) payload[key] = v`. */
  function AddIfTruthy(props: seq<(string, Json)>, key: string, v: Option<string>): (r: seq<(string, Json)>)
    ensures UniqueKeys(props) ==> UniqueKeys(r)
    ensures Lookup(r, key) == if TruthyString(v) then Sent(v) else Lookup(props, key)
    ensures forall k :: k != key ==> Lookup(r, k) == Lookup(props, k)
    ensures KeySet(r) == if TruthyString(v) then KeySet(props) + {key} else KeySet(props)
  {
    if TruthyString(v) then
      PutLookup(props, key, Str(v.value));
      Put(props, key, Str(v.value))
    else props
  }

  /** The three location keys are distinct. */
  lemma KeysDistinct()
    ensures CountryKey != TypeKey && CountryKey != NameKey && TypeKey != NameKey
  {
    assert CountryKey[0] != TypeKey[0] && CountryKey[0] != NameKey[0];
    assert TypeKey[9] != NameKey[9];
  }

  /** The optional `location_type` and `location_name` steps shared by both
      tools, after a start that holds at most the country code. */
  function AddTypeAndName(start: seq<(string, Json)>, locationType: Option<string>, locationName: Option<string>): (r: seq<(string, Json)>)
    requires UniqueKeys(start) && KeySet(start) <= {CountryKey}
    ensures UniqueKeys(r)
    ensures KeySet(r) == KeySet(start)
      + (if TruthyString(locationType) then {TypeKey} else {})
      + (if TruthyString(locationName) then {NameKey} else {})
    ensures Lookup(r, CountryKey) == Lookup(start, CountryKey)
    ensures Lookup(r, TypeKey) == Sent(locationType)
    ensures Lookup(r, NameKey) == Sent(locationName)
  {
    KeysDistinct();
    var withType := AddIfTruthy(start, TypeKey, locationType);
    var props := AddIfTruthy(withType, NameKey, locationName);
    assert Lookup(start, TypeKey) == None;
    assert Lookup(withType, NameKey) == Lookup(start, NameKey) == None;
    props
  }

  lemma EmptyIffNoKeys(props: seq<(string, Json)>)
    ensures |props| == 0 <==> KeySet(props) == {}
  {
    if |props| > 0 {
      assert props[0].0 in KeySet(props);
    }
  }

  /** The organic tool's payload: each of the three location keys exactly when
      its parameter is truthy, with that value, and nothing else. */
  function OrganicPayload(p: OrganicParams): (r: Json)
    ensures r.Obj? && UniqueKeys(r.props)
    ensures KeySet(r.props) <= {CountryKey, TypeKey, NameKey}
    ensures Lookup(r.props, CountryKey) == Sent(p.countryIsoCode)
    ensures Lookup(r.props, TypeKey) == Sent(p.locationType)
    ensures Lookup(r.props, NameKey) == Sent(p.locationName)
    ensures |r.props| == 0 <==> !TruthyString(p.countryIsoCode) && !TruthyString(p.locationType) && !TruthyString(p.locationName)
  {
    var withCountry := AddIfTruthy([], CountryKey, p.countryIsoCode);
    var props := AddTypeAndName(withCountry, p.locationType, p.locationName);
    EmptyIffNoKeys(props);
    Obj(props)
  }

  /** The YouTube tool's payload: the country code always, falsy or not, and
      the two optional keys exactly when truthy. */
  function YoutubePayload(q: YoutubeParams): (r: Json)
    ensures r.Obj? && UniqueKeys(r.props)
    ensures KeySet(r.props) <= {CountryKey, TypeKey, NameKey}
    ensures Lookup(r.props, CountryKey) == Some(Str(q.countryIsoCode))
    ensures Lookup(r.props, TypeKey) == Sent(q.locationType)
    ensures Lookup(r.props, NameKey) == Sent(q.locationName)
  {
    var withCountry := [(CountryKey, Str(q.countryIsoCode))];
    assert KeySet(withCountry) == {CountryKey} && UniqueKeys(withCountry) by {
      assert withCountry[1..] == [];
    }
    Obj(AddTypeAndName(withCountry, q.locationType, q.locationName))
  }

  const PathPrefix := "/v3/serp/"
  const PathSuffix := "/locations"

  /** The path of the locations endpoint of a search engine. */
  function LocationsPath(engine: string): string
  {
    PathPrefix + engine + PathSuffix
  }

  /** The engine is read back from its locations path, so distinct engines
      are sent to distinct endpoints. */
  lemma LocationsPathNamesEngine(engine: string)
    ensures |LocationsPath(engine)| == |PathPrefix| + |engine| + |PathSuffix|
    ensures LocationsPath(engine)[|PathPrefix|..|PathPrefix| + |engine|] == engine
  {
    var path := LocationsPath(engine);
    assert path[|PathPrefix|..|PathPrefix| + |engine|] == engine;
  }

  lemma LocationsPathInjective(e1: string, e2: string)
    requires LocationsPath(e1) == LocationsPath(e2)
    ensures e1 == e2
  {
    LocationsPathNamesEngine(e1);
    LocationsPathNamesEngine(e2);
  }

  /** A POST whose body is the one-element list holding the payload. */
  function PostOne(path: string, payload: Json): (r: ApiRequest)
    ensures r.path == path && r.verb == "POST" && r.body.Arr? && r.body.elems == [Some(payload)]
  {
    ApiRequest(path, "POST", Arr([Some(payload)]))
  }

  /** `response.items.map(x => x.location_name)`: `items` must be an array
      (anything else has no `map` and throws); holes stay holes, a `null`
      element throws, and any other element gives its `location_name`, which
      is `undefined` when absent. */
  function LocationNames(items: Option<Json>): (r: Result<seq<Option<Json>>>)
    ensures r.Ok? <==> items.Some? && items.value.Arr? && forall i :: 0 <= i < |items.value.elems| ==> items.value.elems[i] != Some(Null)
    ensures r.Ok? ==> |r.value| == |items.value.elems|
    ensures r.Ok? ==> forall i :: 0 <= i < |r.value| ==>
      r.value[i] == match items.value.elems[i] case None => None case Some(x) => Get(x, NameKey)
  {
    match items
    case Some(Arr(elems)) => NamesOf(elems)
    case _ => TypeError
  }

  function NamesOf(elems: seq<Option<Json>>): (r: Result<seq<Option<Json>>>)
    ensures r.Ok? <==> forall i :: 0 <= i < |elems| ==> elems[i] != Some(Null)
    ensures r.Ok? ==> |r.value| == |elems|
    ensures r.Ok? ==> forall i :: 0 <= i < |elems| ==>
      r.value[i] == match elems[i] case None => None case Some(x) => Get(x, NameKey)
  {
    if |elems| == 0 then Ok([])
    else
      var head := match elems[0] case None => Ok(None) case Some(x) => if x.Null? then TypeError else Ok(Get(x, NameKey));
      match head
      case TypeError => TypeError
      case Ok(n) =>
        match NamesOf(elems[1..])
        case TypeError =>
          assert exists i :: 0 <= i < |elems[1..]| && elems[1..][i] == Some(Null);
          TypeError
        case Ok(tail) =>
          assert forall i :: 1 <= i < |elems| ==> elems[i] == elems[1..][i - 1];
          Ok([n] + tail)
  }

  /** Lines after the request: validate the envelope, map the items, and turn
      anything thrown into an error response. `typeErrorMessage` is the
      engine's message for the `TypeError` that reading `items` can throw. */
  function Answer(fetched: Fetched, typeErrorMessage: string): (r: ToolOutput)
    ensures r.Data? <==>
      && fetched.Received?
      && ValidateResponse(fetched.response.envelope).None?
      && LocationNames(fetched.response.items).Ok?
    ensures r.Data? ==> r.names == LocationNames(fetched.response.items).value
    ensures fetched.Failed? ==> r == Failure(FormatErrorResponse(fetched.error))
    ensures fetched.Received? && ValidateResponse(fetched.response.envelope).Some? ==>
      r == Failure(FormatErrorResponse(ErrorValue(ValidateResponse(fetched.response.envelope).value)))
    ensures fetched.Received? && ValidateResponse(fetched.response.envelope).None? && LocationNames(fetched.response.items).TypeError? ==>
      r == Failure(FormatErrorResponse(ErrorValue(typeErrorMessage)))
  {
    match fetched
    case Failed(e) => Failure(FormatErrorResponse(e))
    case Received(resp) =>
      match ValidateResponse(resp.envelope)
      case Some(m) => Failure(FormatErrorResponse(ErrorValue(m)))
      case None =>
        match LocationNames(resp.items)
        case TypeError => Failure(FormatErrorResponse(ErrorValue(typeErrorMessage)))
        case Ok(names) => Data(names)
  }

  /** `makeRequest(`/v3/serp/${params.search_engine}/locations`, 'POST', [payload])`. */
  function OrganicRequest(p: OrganicParams): ApiRequest
  {
    PostOne(LocationsPath(p.searchEngine), OrganicPayload(p))
  }

  /** The organic tool's `handle`. With no location parameter set it answers
      the "at least one field" error and `fetch` is never consulted. */
  function OrganicHandle(p: OrganicParams, fetch: ApiRequest -> Fetched, typeErrorMessage: string): (r: ToolOutput)
    ensures !TruthyString(p.countryIsoCode) && !TruthyString(p.locationType) && !TruthyString(p.locationName) ==>
      r == Failure(FormatErrorResponse(ErrorValue(NoFieldsMessage)))
    ensures TruthyString(p.countryIsoCode) || TruthyString(p.locationType) || TruthyString(p.locationName) ==>
      r == Answer(fetch(OrganicRequest(p)), typeErrorMessage)
  {
    if |OrganicPayload(p).props| == 0 then Failure(FormatErrorResponse(ErrorValue(NoFieldsMessage)))
    else Answer(fetch(OrganicRequest(p)), typeErrorMessage)
  }

  /** The YouTube request: the organic request shape with "youtube" as the
      engine. */
  function YoutubeRequest(q: YoutubeParams): (r: ApiRequest)
    ensures r == PostOne(LocationsPath("youtube"), YoutubePayload(q))
  {
    assert LocationsPath("youtube") == "/v3/serp/youtube/locations";
    PostOne("/v3/serp/youtube/locations", YoutubePayload(q))
  }

  /** The YouTube tool's `handle`: it always sends its request, even when
      every parameter is falsy, so its answer is decided by the client's
      reply to that request alone. */
  function YoutubeHandle(q: YoutubeParams, fetch: ApiRequest -> Fetched, typeErrorMessage: string): (r: ToolOutput)
    ensures var f := fetch(YoutubeRequest(q));
      && (r.Data? <==> f.Received? && ValidateResponse(f.response.envelope).None? && LocationNames(f.response.items).Ok?)
      && (r.Data? ==> r.names == LocationNames(f.response.items).value)
      && (f.Failed? ==> r == Failure(FormatErrorResponse(f.error)))
      && (f.Received? && ValidateResponse(f.response.envelope).Some? ==>
            r == Failure(FormatErrorResponse(ErrorValue(ValidateResponse(f.response.envelope).value))))
      && (f.Received? && ValidateResponse(f.response.envelope).None? && LocationNames(f.response.items).TypeError? ==>
            r == Failure(FormatErrorResponse(ErrorValue(typeErrorMessage))))
  {
    Answer(fetch(YoutubeRequest(q)), typeErrorMessage)
  }

  /** Without a location parameter the organic tool answers the same whatever
      the client would have done: no request is made. */
  lemma EmptyPayloadNoRequest(p: OrganicParams, f1: ApiRequest -> Fetched, f2: ApiRequest -> Fetched, m: string)
    requires |OrganicPayload(p).props| == 0
    ensures OrganicHandle(p, f1, m) == OrganicHandle(p, f2, m)
    ensures OrganicHandle(p, f1, m).Failure?
  {
  }

  /** Nothing escapes `handle`: every failure is a single "Error: " text. */
  lemma FailuresAreErrorText(fetched: Fetched, m: string)
    ensures var r := Answer(fetched, m);
      r.Failure? ==> |r.response.content| == 1 && r.response.content[0].text[..|ErrorPrefix|] == ErrorPrefix
  {
  }
}
