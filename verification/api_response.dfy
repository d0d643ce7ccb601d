/** The uniform JSON envelope `{success, message, data}` and the two
    builders `ApiResponse.success` and `ApiResponse.error`. */
module ApiResponse {
  import opened Wrappers
  import opened PyValues

  /** An HTTP status code as a response can carry one: the framework's
      response constructor raises `ValueError` for any code outside
      100..599, so no response with such a code exists. */
  type StatusCode = s: int | 100 <= s <= 599 witness 200

  /** Whether `status` may be given to a response. */
  predicate IsStatusCode(status: int)
  {
    100 <= status <= 599
  }

  /** The text of the `ValueError` the response constructor raises for a
      status outside 100..599. */
  const BadStatusText: string := "HTTP status code must be an integer from 100 to 599."

  /** An HTTP response: a `JsonResponse` holding a dict body and a status,
      or any other response a view may return, which the model does not
      look inside. `JsonResponse` encodes its body with `json.dumps` before
      it checks the status, and raises `TypeError` for a value it cannot
      encode, so a body holds only encodable values. */
  datatype Response =
    | JsonResponse(body: map<string, JsonValue>, status: StatusCode)
    | OtherResponse(status: StatusCode, content: string)

  /** The three keys of every envelope. */
  const EnvelopeKeys: set<string> := {"success", "message", "data"}

  /** What a client reads from an envelope. */
  datatype Envelope = Envelope(success: bool, message: JsonValue, data: JsonValue, status: StatusCode)

  /** Reads a response as an envelope: a JSON body with exactly the three
      keys, the `success` key holding a boolean. Anything else is not an
      envelope. */
  function ReadEnvelope(r: Response): Option<Envelope>
  {
    if r.JsonResponse? && r.body.Keys == EnvelopeKeys && r.body["success"].PyBool? then
      Some(Envelope(r.body["success"].b, r.body["message"], r.body["data"], r.status))
    else
      None
  }

  function Build(success: bool, message: JsonValue, data: JsonValue, status: StatusCode): Response
  {
    JsonResponse(map["success" := PyBool(success), "message" := message, "data" := data], status)
  }

  /** `ApiResponse.success(data=None, message='Success', status=200)`: an
      envelope flagged successful that hands back the given message, data and
      status unchanged. */
  function Success(data: JsonValue := PyNone, message: JsonValue := PyStr("Success"), status: StatusCode := 200): (r: Response)
    ensures r.JsonResponse? && r.body.Keys == EnvelopeKeys
    ensures ReadEnvelope(r) == Some(Envelope(true, message, data, status))
  {
    Build(true, message, data, status)
  }

  /** `ApiResponse.error(message="Error", data=None, status=400)`: an
      envelope flagged unsuccessful that hands back the given message, data
      and status unchanged. */
  function Error(message: JsonValue := PyStr("Error"), data: JsonValue := PyNone, status: StatusCode := 400): (r: Response)
    ensures r.JsonResponse? && r.body.Keys == EnvelopeKeys
    ensures ReadEnvelope(r) == Some(Envelope(false, message, data, status))
  {
    Build(false, message, data, status)
  }

  /** The builders' defaults. */
  lemma BuilderDefaults()
    ensures ReadEnvelope(Success()) == Some(Envelope(true, PyStr("Success"), PyNone, 200))
    ensures ReadEnvelope(Error()) == Some(Envelope(false, PyStr("Error"), PyNone, 400))
  {
  }

  /** The `success` flag alone tells the two builders apart: no success
      envelope equals an error envelope, and the `success` key holds true for
      the one and false for the other. */
  lemma SuccessFlagDistinguishes(d1: JsonValue, m1: JsonValue, s1: StatusCode, m2: JsonValue, d2: JsonValue, s2: StatusCode)
    ensures Success(d1, m1, s1) != Error(m2, d2, s2)
    ensures Success(d1, m1, s1).body["success"] == PyBool(true)
    ensures Error(m2, d2, s2).body["success"] == PyBool(false)
  {
    assert ReadEnvelope(Success(d1, m1, s1)).value.success != ReadEnvelope(Error(m2, d2, s2)).value.success;
  }

  /** Reading an envelope back and rebuilding it with the builder its flag
      names reproduces the response exactly. */
  lemma EnvelopeRoundTrip(r: Response)
    requires ReadEnvelope(r).Some?
    ensures var e := ReadEnvelope(r).value;
            r == (if e.success then Success(e.data, e.message, e.status) else Error(e.message, e.data, e.status))
  {
    var e := ReadEnvelope(r).value;
    var rebuilt := Build(e.success, e.message, e.data, e.status);
    assert rebuilt.body.Keys == r.body.Keys;
    assert forall k :: k in r.body ==> rebuilt.body[k] == r.body[k];
    assert rebuilt.body == r.body;
  }
}
