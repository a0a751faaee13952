/** The JSON envelopes every account endpoint answers with
    (Back-end/utils/responses.py). */
module Responses {
  import opened Wrappers

  /** A JSON value, enough to describe the envelopes' contents. */
  datatype Json =
    | JNull
    | JBool(b: bool)
    | JInt(i: int)
    | JStr(s: string)
    | JList(items: seq<Json>)
    | JObject(fields: map<string, Json>)

  /** A DRF `Response`: the body dictionary and the HTTP status. */
  datatype HttpResponse = HttpResponse(body: map<string, Json>, status: int)

  const SuccessDefaultStatus: int := 200
  const ErrorDefaultStatus: int := 400

  /** `success_response(message, data, status_code)`. */
  function SuccessResponse(message: string, data: Option<Json>, statusCode: int): (r: HttpResponse)
    ensures r.status == statusCode
    ensures r.body.Keys == {"status", "message"} + (if data.Some? then {"data"} else {})
    ensures r.body["status"] == JStr("success") && r.body["message"] == JStr(message)
    ensures data.Some? ==> r.body["data"] == data.value
  {
    var base := map["status" := JStr("success"), "message" := JStr(message)];
    HttpResponse(if data.Some? then base["data" := data.value] else base, statusCode)
  }

  /** `error_response(message, errors, status_code, data)`: `data`'s keys are
      merged into the top level after the others. */
  function ErrorResponse(message: string, errors: Option<Json>, statusCode: int, data: Option<map<string, Json>>): (r: HttpResponse)
    ensures r.status == statusCode
    ensures r.body.Keys == {"status", "message"} + (if errors.Some? then {"errors"} else {})
                           + (if data.Some? then data.value.Keys else {})
    ensures data.Some? ==> forall k :: k in data.value ==> r.body[k] == data.value[k]
    ensures data.None? || "status" !in data.value ==> r.body["status"] == JStr("error")
    ensures data.None? || "message" !in data.value ==> r.body["message"] == JStr(message)
    ensures errors.Some? && (data.None? || "errors" !in data.value) ==> r.body["errors"] == errors.value
  {
    var base := map["status" := JStr("error"), "message" := JStr(message)];
    var withErrors := if errors.Some? then base["errors" := errors.value] else base;
    HttpResponse(if data.Some? then withErrors + data.value else withErrors, statusCode)
  }

  /** The two envelopes are told apart by their `status` key whenever the
      caller's data does not override it. */
  lemma EnvelopesDiffer(m1: string, d1: Option<Json>, c1: int, m2: string, e2: Option<Json>, c2: int, d2: Option<map<string, Json>>)
    requires d2.None? || "status" !in d2.value
    ensures SuccessResponse(m1, d1, c1) != ErrorResponse(m2, e2, c2, d2)
  {
    assert SuccessResponse(m1, d1, c1).body["status"] != ErrorResponse(m2, e2, c2, d2).body["status"];
  }
}
