/**
 * The summary-extraction adapter: the chat completion and `JSON.parse` are
 * inputs; the content check, the structural normalisation and the error
 * mapping are modelled.
 */
module Extraction {
  import opened Outcomes
  import opened Json
  import opened Types

  const NoResponseMessage := "No response from GPT-4"
  const ExtractionFailedMessage := "Failed to extract action items from transcript"

  /** What reading or assigning a property of `null` or of a primitive throws in strict mode. */
  const PropertyTypeError := ErrorValue("TypeError")

  predicate HoldsArray(fields: map<string, Json>, key: string) {
    key in fields && fields[key].JArray?
  }

  /** One field's repair: kept when it holds an array, otherwise set to `[]`. */
  function DefaultToArray(fields: map<string, Json>, key: string): map<string, Json> {
    if HoldsArray(fields, key) then fields else fields[key := JArray([])]
  }

  /**
   * The structural repair applied to the parsed completion. On an object,
   * `decisions` and `action_items` are each replaced by `[]` exactly when
   * missing or not an array, and every other field is left alone. On an
   * array the added properties are not part of its JSON value, so the value
   * is unchanged. On `null` the property read throws, and on a boolean,
   * number or string the property assignment throws (`None`).
   */
  function Normalize(parsed: Json): (r: Option<Json>)
    ensures r.None? <==> parsed.JNull? || parsed.JBool? || parsed.JNumber? || parsed.JString?
    ensures parsed.JArray? ==> r == Some(parsed)
    ensures parsed.JObject? ==>
      && r.Some? && r.value.JObject?
      && HoldsArray(r.value.fields, "decisions") && HoldsArray(r.value.fields, "action_items")
      && r.value.fields.Keys == parsed.fields.Keys + {"decisions", "action_items"}
      && r.value.fields["decisions"] ==
           (if HoldsArray(parsed.fields, "decisions") then parsed.fields["decisions"] else JArray([]))
      && r.value.fields["action_items"] ==
           (if HoldsArray(parsed.fields, "action_items") then parsed.fields["action_items"] else JArray([]))
      && forall k :: k in parsed.fields && k != "decisions" && k != "action_items" ==>
           r.value.fields[k] == parsed.fields[k]
  {
    match parsed
    case JObject(fields) => Some(JObject(DefaultToArray(DefaultToArray(fields, "decisions"), "action_items")))
    case JArray(_) => Some(parsed)
    case _ => None
  }

  /** Normalising twice is normalising once. */
  lemma NormalizeIdempotent(parsed: Json)
    requires Normalize(parsed).Some?
    ensures Normalize(Normalize(parsed).value) == Normalize(parsed)
  {
  }

  /** A completion already in the requested shape passes through unchanged. */
  lemma NormalizeKeepsWellFormed(s: MeetingSummary)
    ensures Normalize(Encode(s)) == Some(Encode(s))
  {
  }

  /** A completion missing `action_items` reads back with no action items, and its decisions intact. */
  lemma NormalizeFillsMissingActionItems(decisions: seq<string>)
    ensures Decode(Normalize(JObject(map["decisions" := JArray(EncodeStrings(decisions))])).value)
            == Some(MeetingSummary(decisions, []))
  {
    DecodeStringsRoundTrip(decisions);
    var f := Normalize(JObject(map["decisions" := JArray(EncodeStrings(decisions))])).value.fields;
    assert f["action_items"] == JArray([]);
  }

  /** The body of the `try` in `extractActionItems`, before its `catch` rewrites the error. */
  function ExtractAttempt(completion: Call<Option<string>>, parse: string -> Call<Json>): Call<Json> {
    match completion
    case Threw(fault) => Threw(fault)
    case Returned(content) =>
      if content.None? || content.value == "" then Threw(ErrorValue(NoResponseMessage))
      else match parse(content.value)
        case Threw(fault) => Threw(fault)
        case Returned(parsed) =>
          match Normalize(parsed)
          case None => Threw(PropertyTypeError)
          case Some(summary) => Returned(summary)
  }

  /**
   * `extractActionItems`: succeeds exactly when the completion delivered
   * non-empty content that parses and normalises, and returns the normalised
   * value; every failure, the empty-response one included, surfaces as one
   * fixed error.
   */
  function ExtractActionItems(completion: Call<Option<string>>, parse: string -> Call<Json>): (r: Call<Json>)
    ensures r.Returned? <==>
      && completion.Returned? && completion.value.Some? && completion.value.value != ""
      && parse(completion.value.value).Returned?
      && Normalize(parse(completion.value.value).value).Some?
    ensures r.Returned? ==> Some(r.value) == Normalize(parse(completion.value.value).value)
    ensures r.Threw? ==> r.fault == ErrorValue(ExtractionFailedMessage)
  {
    match ExtractAttempt(completion, parse)
    case Returned(summary) => Returned(summary)
    case Threw(_) => Threw(ErrorValue(ExtractionFailedMessage))
  }

  /**
   * Absent or empty-string content raises "No response from GPT-4" inside the
   * adapter, but the caller never sees it.
   */
  lemma EmptyResponseMasked(content: Option<string>, parse: string -> Call<Json>)
    requires content.None? || content.value == ""
    ensures ExtractAttempt(Returned(content), parse) == Threw(ErrorValue(NoResponseMessage))
    ensures ExtractActionItems(Returned(content), parse) == Threw(ErrorValue(ExtractionFailedMessage))
  {
  }
}
