/** The payload and headers of a delivery: the event with the rule's
    extensions overlaid on its own, and the headers the rule's auth yields. */
module Delivery {
  import opened Wrappers
  import opened Values
  import opened Http
  import opened Rules
  import opened Authentication

  /** `event.extensions.update(rule.extensions)`: the rule's keys win, keys
      only the event has survive. */
  function MergeExtensions(eventExt: map<string, Json>, ruleExt: map<string, Json>): (m: map<string, Json>)
    ensures m.Keys == eventExt.Keys + ruleExt.Keys
    ensures forall k :: k in ruleExt ==> m[k] == ruleExt[k]
    ensures forall k :: k in eventExt && k !in ruleExt ==> m[k] == eventExt[k]
  {
    eventExt + ruleExt
  }

  /** The event's `extensions` mapping (`event.get('extensions', {})`), or
      None when the event or that entry is not an object, so that `.get` or
      `.update` would raise. */
  function EventExtensions(event: Json): Option<map<string, Json>>
  {
    if !event.JObject? then None
    else if "extensions" !in event.fields then Some(map[])
    else if event.fields["extensions"].JObject? then Some(event.fields["extensions"].fields)
    else None
  }

  /** The event as delivered: its `extensions` replaced by the merge, every
      other entry untouched. None when the event cannot be updated. */
  function MergedEvent(event: Json, ruleExt: map<string, Json>): (r: Option<Json>)
    ensures r.Some? <==> event.JObject? && ("extensions" in event.fields ==> event.fields["extensions"].JObject?)
    ensures r.Some? ==> r.value.JObject? && r.value.fields.Keys == event.fields.Keys + {"extensions"}
    ensures r.Some? ==> forall k :: k in event.fields && k != "extensions" ==> r.value.fields[k] == event.fields[k]
    ensures r.Some? ==> r.value.fields["extensions"] == JObject(MergeExtensions(
      if "extensions" in event.fields then event.fields["extensions"].fields else map[], ruleExt))
  {
    match EventExtensions(event)
    case None => None
    case Some(ext) => Some(JObject(event.fields["extensions" := JObject(MergeExtensions(ext, ruleExt))]))
  }

  /** Delivery headers: always `Content-Type: application/json`; the only
      other header is `Authorization`, present exactly for header-type auth. */
  function DeliveryHeaders(auth: Auth): (h: map<string, string>)
    ensures "Content-Type" in h && h["Content-Type"] == "application/json"
    ensures h.Keys <= {"Content-Type", "Authorization"}
    ensures "Authorization" in h <==> auth.kind == Some("header")
  {
    AuthHeaders(auth, JsonContentType)
  }

  /** A POST to the rule's target. */
  datatype DeliveryRequest = DeliveryRequest(url: string, body: Json, headers: map<string, string>, args: RequestArgs)

  /** Event extensions `{"a": 1}` under rule extensions `{"a": 2, "b": 3}`. */
  lemma MergeExample()
    ensures MergeExtensions(map["a" := JNumber(1)], map["a" := JNumber(2), "b" := JNumber(3)])
         == map["a" := JNumber(2), "b" := JNumber(3)]
  {
  }
}
