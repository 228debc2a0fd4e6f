/**
 * The POST handler of api/python/scrape.py: check that the scraping library is there, build
 * the keyword arguments for `scrape_property` from the request, and choose the response.
 */
module Scrape {
  import opened Wrappers
  import opened Json

  /** The request keys that are copied when present and not `None` (api/python/scrape.py:43-50). */
  const OptionalParams: seq<string> := [
    "preset", "listing_type", "property_type", "radius", "mls_only",
    "price_min", "price_max", "beds_min", "beds_max",
    "baths_min", "baths_max", "sqft_min", "sqft_max",
    "lot_sqft_min", "lot_sqft_max", "year_built_min", "year_built_max",
    "hoa_fee_min", "hoa_fee_max", "stories_min", "stories_max",
    "garage_spaces_min", "has_pool", "has_garage", "waterfront", "has_view"]

  /** The keys every parameter dictionary has (api/python/scrape.py:34-40). */
  const FixedKeys: set<string> := {"location", "past_hours", "return_type", "clean_data", "add_derived_fields"}

  /** `data.get('past_hours', 1)`. */
  const DefaultPastHours: int := 1

  const LocationRequiredMessage: string := "location parameter is required"
  const LibraryMissingMessage: string := "HomeHarvest Elite library not found"

  /** What `json.loads(body)` gave: a value, or the message of the `JSONDecodeError` it raised. */
  datatype RequestBody = Decoded(data: Json) | Undecodable(message: string)

  /** What `scrape_property(**scrape_params)` did: returned a frame of records or `None`, or raised. */
  datatype ScrapeOutcome =
    | Returned(frame: Option<seq<Json>>)
    | RaisedValueError(message: string)
    | Raised(message: string)

  /** Python's name for the type of a decoded JSON value. */
  function PythonTypeName(v: Json): string {
    match v
    case JNull => "NoneType"
    case JBool(_) => "bool"
    case JNumber(_) => "int"
    case JString(_) => "str"
    case JArray(_) => "list"
    case JObject(_) => "dict"
  }

  /** `str(e)` of the `AttributeError` that `data.get` raises when the body is not an object. */
  function NoGetMessage(v: Json): string {
    "'" + PythonTypeName(v) + "' object has no attribute 'get'"
  }

  /** `not location` is false: the key is there and its value is truthy (api/python/scrape.py:29-31). */
  predicate LocationGiven(data: map<string, Json>) {
    "location" in data && Truthy(data["location"])
  }

  /**
   * What `scrape_params` holds once built from `data`: location as given, `past_hours` as
   * given or 1 when the key is absent, the three fixed flags, and each whitelisted key exactly
   * when the request has it with a value other than `None`; no other key.
   */
  ghost predicate IsScrapeParams(data: map<string, Json>, params: map<string, Json>) {
    && (forall k :: k in params <==> k in FixedKeys || (k in OptionalParams && k in data && data[k] != JNull))
    && "location" in data && "location" in params && params["location"] == data["location"]
    && "past_hours" in params
    && params["past_hours"] == (if "past_hours" in data then data["past_hours"] else JNumber(DefaultPastHours))
    && "return_type" in params && params["return_type"] == JString("pandas")
    && "clean_data" in params && params["clean_data"] == JBool(true)
    && "add_derived_fields" in params && params["add_derived_fields"] == JBool(true)
    && forall k :: k in params && k !in FixedKeys ==> k in data && params[k] == data[k]
  }

  /** No whitelisted key can overwrite one of the fixed keys. */
  lemma OptionalParamsNotFixed()
    ensures forall j :: 0 <= j < |OptionalParams| ==> OptionalParams[j] !in FixedKeys
  {
  }

  /**
   * The location check and the building of `scrape_params` (api/python/scrape.py:28-54):
   * a missing or falsy location is the `ValueError`; otherwise the dictionary, filled by the
   * loop over the whitelist.
   */
  method BuildScrapeParams(data: map<string, Json>) returns (result: Result<map<string, Json>, string>)
    ensures result.Failure? <==> !LocationGiven(data)
    ensures result.Failure? ==> result.error == LocationRequiredMessage
    ensures result.Success? ==> IsScrapeParams(data, result.value)
  {
    if !LocationGiven(data) {
      return Failure(LocationRequiredMessage);
    }
    var params := map[
      "location" := data["location"],
      "past_hours" := if "past_hours" in data then data["past_hours"] else JNumber(DefaultPastHours),
      "return_type" := JString("pandas"),
      "clean_data" := JBool(true),
      "add_derived_fields" := JBool(true)];
    OptionalParamsNotFixed();
    for i := 0 to |OptionalParams|
      invariant "location" in params && params["location"] == data["location"]
      invariant "past_hours" in params
      invariant params["past_hours"] == (if "past_hours" in data then data["past_hours"] else JNumber(DefaultPastHours))
      invariant "return_type" in params && params["return_type"] == JString("pandas")
      invariant "clean_data" in params && params["clean_data"] == JBool(true)
      invariant "add_derived_fields" in params && params["add_derived_fields"] == JBool(true)
      invariant forall k :: k in params <==> k in FixedKeys || (k in OptionalParams[..i] && k in data && data[k] != JNull)
      invariant forall k :: k in params && k !in FixedKeys ==> k in data && params[k] == data[k]
    {
      var param := OptionalParams[i];
      assert OptionalParams[..i + 1] == OptionalParams[..i] + [param];
      if param in data && data[param] != JNull {
        params := params[param := data[param]];
      }
    }
    assert OptionalParams[..|OptionalParams|] == OptionalParams;
    result := Success(params);
  }

  /** `{'success': False, 'error': str(e)}` with its status. */
  function ErrorResponse(status: int, message: string): JsonResponse {
    JsonResponse(status, JObject(map["success" := JBool(false), "error" := JString(message)]))
  }

  /** `{'success': True, 'properties': properties, 'count': len(properties)}` with status 200. */
  function SuccessResponse(properties: seq<Json>): JsonResponse {
    JsonResponse(200, JObject(map[
      "success" := JBool(true),
      "properties" := JArray(properties),
      "count" := JNumber(|properties|)]))
  }

  /**
   * The response chosen after `scrape_property` (api/python/scrape.py:60-103): 200 with the
   * records, none for a `None` or empty frame; 400 for a `ValueError`; 500 for anything else.
   */
  function ScrapeResponse(outcome: ScrapeOutcome): (r: JsonResponse)
    ensures r.status == 200 <==> outcome.Returned?
    ensures r.status == 400 <==> outcome.RaisedValueError?
    ensures r.status == 500 <==> outcome.Raised?
    ensures outcome.Returned? ==>
              var properties := if outcome.frame.Some? then outcome.frame.value else [];
              && r.body.JObject? && r.body.fields.Keys == {"success", "properties", "count"}
              && r.body.fields["success"] == JBool(true)
              && r.body.fields["properties"] == JArray(properties)
              && r.body.fields["count"] == JNumber(|properties|)
    ensures outcome.RaisedValueError? ==> r == ErrorResponse(400, outcome.message)
    ensures outcome.Raised? ==> r == ErrorResponse(500, outcome.message)
  {
    match outcome
    case Returned(frame) =>
      if frame.Some? && |frame.value| > 0 then SuccessResponse(frame.value) else SuccessResponse([])
    case RaisedValueError(message) => ErrorResponse(400, message)
    case Raised(message) => ErrorResponse(500, message)
  }

  /**
   * `do_POST` (api/python/scrape.py:17-103), from the decoded body on. `scrapeProperty` is
   * `None` when the import failed. Returns the response and the keyword arguments it passed
   * to `scrape_property`, if it got that far. The body is decoded first, so malformed JSON is a
   * 400 even without the library; the library check comes before the location check.
   */
  method DoPost(body: RequestBody, scrapeProperty: Option<map<string, Json> -> ScrapeOutcome>)
    returns (response: JsonResponse, sent: Option<map<string, Json>>)
    ensures body.Undecodable? ==> response == ErrorResponse(400, body.message)
    ensures body.Decoded? && scrapeProperty.None? ==> response == ErrorResponse(500, LibraryMissingMessage)
    ensures body.Decoded? && scrapeProperty.Some? && !body.data.JObject? ==> response == ErrorResponse(500, NoGetMessage(body.data))
    ensures body.Decoded? && scrapeProperty.Some? && body.data.JObject? && !LocationGiven(body.data.fields) ==>
              response == ErrorResponse(400, LocationRequiredMessage)
    ensures sent.Some? <==> body.Decoded? && scrapeProperty.Some? && body.data.JObject? && LocationGiven(body.data.fields)
    ensures sent.Some? ==>
              && IsScrapeParams(body.data.fields, sent.value)
              && response == ScrapeResponse(scrapeProperty.value(sent.value))
  {
    sent := None;
    if body.Undecodable? {
      return ErrorResponse(400, body.message), sent;
    }
    if scrapeProperty.None? {
      return ErrorResponse(500, LibraryMissingMessage), sent;
    }
    if !body.data.JObject? {
      return ErrorResponse(500, NoGetMessage(body.data)), sent;
    }
    var built := BuildScrapeParams(body.data.fields);
    if built.Failure? {
      return ErrorResponse(400, built.error), sent;
    }
    sent := Some(built.value);
    response := ScrapeResponse(scrapeProperty.value(built.value));
  }

  /** No key outside the fixed ones and the whitelist is ever passed to the scraper. */
  lemma ParamsWithinWhitelist(data: map<string, Json>, params: map<string, Json>, k: string)
    requires IsScrapeParams(data, params)
    requires k in params
    ensures k in FixedKeys || k in OptionalParams
  {
  }
}
