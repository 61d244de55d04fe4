/**
 * The summary shape the endpoint stores and the meeting page reads back:
 * `ActionItem` and `MeetingSummary`, their JSON encoding, and the typed view
 * of a stored JSON value.
 */
module Types {
  import opened Outcomes
  import opened Json

  /** A task with an optional assignee (`null` when nobody was named). */
  datatype ActionItem = ActionItem(task: string, assignee: Option<string>)

  datatype MeetingSummary = MeetingSummary(decisions: seq<string>, actionItems: seq<ActionItem>)

  function EncodeAssignee(assignee: Option<string>): Json {
    match assignee
    case None => JNull
    case Some(name) => JString(name)
  }

  function EncodeItem(item: ActionItem): Json {
    JObject(map["task" := JString(item.task), "assignee" := EncodeAssignee(item.assignee)])
  }

  function EncodeStrings(ss: seq<string>): (js: seq<Json>)
    ensures |js| == |ss|
  {
    if ss == [] then [] else [JString(ss[0])] + EncodeStrings(ss[1..])
  }

  function EncodeItems(items: seq<ActionItem>): (js: seq<Json>)
    ensures |js| == |items|
  {
    if items == [] then [] else [EncodeItem(items[0])] + EncodeItems(items[1..])
  }

  /** The JSON object the extraction prompt asks the model to return for `s`. */
  function Encode(s: MeetingSummary): (j: Json)
    ensures j.JObject? && "decisions" in j.fields && "action_items" in j.fields
    ensures j.fields["decisions"].JArray? && j.fields["action_items"].JArray?
  {
    JObject(map["decisions" := JArray(EncodeStrings(s.decisions)),
                "action_items" := JArray(EncodeItems(s.actionItems))])
  }

  function DecodeStrings(js: seq<Json>): Option<seq<string>> {
    if js == [] then Some([])
    else if !js[0].JString? then None
    else match DecodeStrings(js[1..])
      case None => None
      case Some(rest) => Some([js[0].s] + rest)
  }

  /** An absent or `null` assignee reads as no assignee; any other non-string is ill-typed. */
  function DecodeItem(j: Json): Option<ActionItem> {
    match j
    case JObject(f) =>
      if "task" !in f || !f["task"].JString? then None
      else if "assignee" !in f || f["assignee"].JNull? then Some(ActionItem(f["task"].s, None))
      else if f["assignee"].JString? then Some(ActionItem(f["task"].s, Some(f["assignee"].s)))
      else None
    case _ => None
  }

  function DecodeItems(js: seq<Json>): Option<seq<ActionItem>> {
    if js == [] then Some([])
    else match (DecodeItem(js[0]), DecodeItems(js[1..]))
      case (Some(item), Some(rest)) => Some([item] + rest)
      case _ => None
  }

  /** The typed view of a stored summary: defined exactly when every field has its declared type. */
  function Decode(j: Json): Option<MeetingSummary> {
    match j
    case JObject(f) =>
      if "decisions" !in f || !f["decisions"].JArray? || "action_items" !in f || !f["action_items"].JArray? then None
      else (match (DecodeStrings(f["decisions"].items), DecodeItems(f["action_items"].items))
        case (Some(ds), Some(items)) => Some(MeetingSummary(ds, items))
        case _ => None)
    case _ => None
  }

  lemma {:induction false} DecodeStringsRoundTrip(ss: seq<string>)
    ensures DecodeStrings(EncodeStrings(ss)) == Some(ss)
  {
    if ss != [] {
      DecodeStringsRoundTrip(ss[1..]);
      assert EncodeStrings(ss)[1..] == EncodeStrings(ss[1..]);
      assert [ss[0]] + ss[1..] == ss;
    }
  }

  lemma {:induction false} DecodeItemsRoundTrip(items: seq<ActionItem>)
    ensures DecodeItems(EncodeItems(items)) == Some(items)
  {
    if items != [] {
      DecodeItemsRoundTrip(items[1..]);
      assert EncodeItems(items)[1..] == EncodeItems(items[1..]);
      assert DecodeItem(EncodeItem(items[0])) == Some(items[0]);
      assert [items[0]] + items[1..] == items;
    }
  }

  /** Every summary survives encoding and reading back. */
  lemma DecodeRoundTrip(s: MeetingSummary)
    ensures Decode(Encode(s)) == Some(s)
  {
    DecodeStringsRoundTrip(s.decisions);
    DecodeItemsRoundTrip(s.actionItems);
  }
}
