/**
 * server/decorators/json_response.py: the `{status, message, data}` envelope
 * the `json_response` decorator builds around an endpoint's result. `V` is
 * the type of the result's dictionary values.
 */
module JsonResponse {
  /** What the wrapped endpoint returned. */
  datatype Returned<V> = DictResult(entries: map<string, V>) | StrResult(text: string) | OtherResult

  /** The envelope's `message`: a string, or whatever the result stored under "message". */
  datatype Message<V> = Text(text: string) | Value(value: V)

  /** The `JSONResponse`: HTTP status and `{"status", "message", "data"}` content. */
  datatype Envelope<V> = Envelope(httpStatus: int, status: string, message: Message<V>, data: map<string, V>)

  /** `wrapper`: the case split on the result's type. */
  function Wrap<V>(statusCode: int, result: Returned<V>): (e: Envelope<V>)
    ensures e.httpStatus == statusCode && e.status == "ok"
    ensures "message" !in e.data
    ensures result.DictResult? ==>
      e.data.Keys == result.entries.Keys - {"message"}
      && (forall k :: k in e.data ==> e.data[k] == result.entries[k])
      && e.message == if "message" in result.entries then Value(result.entries["message"]) else Text("success")
    ensures result.StrResult? ==> e.message == Text(result.text) && e.data == map[]
    ensures result.OtherResult? ==> e.message == Text("success") && e.data == map[]
  {
    match result
    case DictResult(entries) =>
      var message := if "message" in entries then Value(entries["message"]) else Text("success");
      Envelope(statusCode, "ok", message, entries - {"message"})
    case StrResult(text) => Envelope(statusCode, "ok", Text(text), map[])
    case OtherResult => Envelope(statusCode, "ok", Text("success"), map[])
  }

  /**
   * Nothing of a dictionary result is lost: its "message" entry moves to the
   * envelope's message and the rest is the data.
   */
  lemma WrapDictLossless<V>(statusCode: int, entries: map<string, V>)
    ensures var e := Wrap(statusCode, DictResult(entries));
      entries == if "message" in entries then e.data["message" := e.message.value] else e.data
  {
    var e := Wrap(statusCode, DictResult(entries));
    if "message" in entries {
      assert e.data["message" := e.message.value].Keys == entries.Keys;
    } else {
      assert e.data.Keys == entries.Keys;
    }
  }
}
