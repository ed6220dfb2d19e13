/**
  Response normaliser of the `manage_gameobject` tool: whatever the transport
  produced, a host reply or a raised fault, becomes one result envelope.
 */
module Response {
  import opened Values

  /** What the transport call produced: the host's reply dictionary, or a
      fault raised while sending, carrying its `str(e)` text. */
  datatype Outcome = Reply(fields: map<string, Value>) | Raised(detail: string)

  const SuccessDefault: string := "GameObject operation successful."
  const FailureDefault: string := "An unknown error occurred during GameObject management."
  const FaultPrefix: string := "Python error managing GameObject: "

  /** The envelope for a raised fault: never propagated, always folded. */
  function FaultEnvelope(detail: string): (e: Envelope)
    ensures !e.success && e.data.None?
    ensures e.message.Str? && |FaultPrefix| <= |e.message.s|
    ensures e.message.Str? && e.message.s[..|FaultPrefix|] == FaultPrefix && e.message.s[|FaultPrefix|..] == detail
  {
    Envelope(false, Str(FaultPrefix + detail), None)
  }

  /** The reply is folded into `{success, message[, data]}`: `success` is the
      truthiness of the reply's `success`, `data` is present exactly on
      success, and a fault is always a failure. */
  function MapResponse(o: Outcome): (e: Envelope)
    ensures e.success <==> o.Reply? && Truthy(Get(o.fields, "success", Null))
    ensures e.data.Some? <==> e.success
    ensures o.Reply? && !e.success ==> "error" in o.fields || e.message == Str(FailureDefault)
    ensures o.Reply? && e.success ==> "message" in o.fields || e.message == Str(SuccessDefault)
    ensures o.Reply? && e.success && "message" in o.fields ==> e.message == o.fields["message"]
    ensures o.Reply? && !e.success && "error" in o.fields ==> e.message == o.fields["error"]
    ensures o.Reply? && e.success ==> e.data == Some(Get(o.fields, "data", Null))
    ensures o.Raised? ==> e == FaultEnvelope(o.detail)
  {
    match o
    case Raised(detail) => FaultEnvelope(detail)
    case Reply(r) =>
      if Truthy(Get(r, "success", Null)) then
        Envelope(true, Get(r, "message", Str(SuccessDefault)), Some(Get(r, "data", Null)))
      else
        Envelope(false, Get(r, "error", Str(FailureDefault)), None)
  }

  /** The envelope as the dictionary the agent receives. */
  function EnvelopeFields(e: Envelope): (d: map<string, Value>)
    ensures d.Keys == if e.data.Some? then {"success", "message", "data"} else {"success", "message"}
    ensures "success" in d && d["success"] == Bool(e.success)
    ensures "message" in d && d["message"] == e.message
    ensures e.data.Some? ==> "data" in d && d["data"] == e.data.value
  {
    var base := map["success" := Bool(e.success), "message" := e.message];
    if e.data.Some? then base["data" := e.data.value] else base
  }

  /** A successful host reply: its message (the default only when the key is
      missing, even if the host sent `null` or an empty text) and its data
      (`None` when missing), with `data` always present. */
  lemma SuccessMapping(r: map<string, Value>)
    requires Truthy(Get(r, "success", Null))
    ensures MapResponse(Reply(r)).success
    ensures "message" in r ==> MapResponse(Reply(r)).message == r["message"]
    ensures "message" !in r ==> MapResponse(Reply(r)).message == Str(SuccessDefault)
    ensures MapResponse(Reply(r)).data == Some(if "data" in r then r["data"] else Null)
  {
  }

  /** A reply whose `success` is false or missing: the host's `error` text,
      or the default, and no `data`. */
  lemma HostFailureMapping(r: map<string, Value>)
    requires !Truthy(Get(r, "success", Null))
    ensures !MapResponse(Reply(r)).success && MapResponse(Reply(r)).data.None?
    ensures "error" in r ==> MapResponse(Reply(r)).message == r["error"]
    ensures "error" !in r ==> MapResponse(Reply(r)).message == Str(FailureDefault)
  {
  }

  /** A raised fault: a failure whose message is the fixed prefix followed by
      the fault's text. */
  lemma FaultMapping(detail: string)
    ensures MapResponse(Raised(detail)) == Envelope(false, Str(FaultPrefix + detail), None)
  {
  }

  /** A successful reply that already has the envelope's shape comes back
      unchanged: the envelope dictionary round-trips through the normaliser. */
  lemma SuccessEnvelopeRoundTrip(e: Envelope)
    requires e.success && e.data.Some?
    ensures MapResponse(Reply(EnvelopeFields(e))) == e
  {
    var d := EnvelopeFields(e);
    assert d["success"] == Bool(true);
    assert d["message"] == e.message;
    assert d["data"] == e.data.value;
  }

  /** The examples of the host contract: `{success: true, message: "ok",
      data: {"id": 5}}` passes through, `{success: false, error: "not found"}`
      becomes a failure with that message. */
  lemma HostReplyExamples()
    ensures var d := Dict(map["id" := Int(5)]);
      MapResponse(Reply(map["success" := Bool(true), "message" := Str("ok"), "data" := d]))
        == Envelope(true, Str("ok"), Some(d))
    ensures MapResponse(Reply(map["success" := Bool(false), "error" := Str("not found")]))
        == Envelope(false, Str("not found"), None)
    ensures MapResponse(Reply(map[])) == Envelope(false, Str(FailureDefault), None)
  {
  }
}
