/**
  The `manage_gameobject` tool end to end: normalise the request, hand the
  payload to the transport under the command name `manage_gameobject`, and
  fold whatever comes back into a result envelope. The transport is a
  parameter, so "the host is never contacted" reads as "the result does not
  depend on the transport".
 */
module Gateway {
  import opened Values
  import opened Request
  import opened Response

  /** The transport: sends a command name and its wire payload and yields the
      host's reply or a fault. */
  type Transport = (string, map<string, Value>) -> Outcome

  /** The command name the payload is sent under. */
  const CommandName: string := "manage_gameobject"

  /** One invocation of the tool. A local failure is returned as is; otherwise
      the payload goes to the transport and its outcome is folded. Whatever
      happens, `data` is present exactly on success. */
  function ManageGameObject(a: Args, send: Transport): (e: Envelope)
    ensures e.data.Some? <==> e.success
    ensures Normalize(a).Err? ==> e == Normalize(a).error && !e.success
    ensures Normalize(a).Ok? ==> e == MapResponse(send(CommandName, WirePayload(Normalize(a).value)))
  {
    match Normalize(a)
    case Err(failure) => failure
    case Ok(payload) => MapResponse(send(CommandName, WirePayload(payload)))
  }

  /** A local validation failure never consults the transport: any two
      transports give the same result. */
  lemma LocalFailureSkipsTransport(a: Args, send1: Transport, send2: Transport)
    requires Normalize(a).Err?
    ensures ManageGameObject(a, send1) == ManageGameObject(a, send2)
    ensures !ManageGameObject(a, send1).success && ManageGameObject(a, send1).data.None?
  {
  }

  /** A fault raised by the transport is folded into a failure carrying the
      prefix and the fault's text; it never escapes. */
  lemma TransportFaultIsFolded(a: Args, detail: string)
    requires Normalize(a).Ok?
    ensures ManageGameObject(a, (_, _) => Raised(detail)) == Envelope(false, Str(FaultPrefix + detail), None)
  {
  }

  /** The payload is sent under the command name `manage_gameobject`: a host
      that answers only that command, and rejects any other, yields its
      success reply. */
  lemma MockHostExample(a: Args)
    requires Normalize(a).Ok?
    ensures var d := Dict(map["id" := Int(5)]);
      ManageGameObject(a, (c, _) =>
          if c == "manage_gameobject" then Reply(map["success" := Bool(true), "message" := Str("ok"), "data" := d])
          else Reply(map["success" := Bool(false), "error" := Str("unknown command")]))
        == Envelope(true, Str("ok"), Some(d))
  {
    var d := Dict(map["id" := Int(5)]);
    var reply := map["success" := Bool(true), "message" := Str("ok"), "data" := d];
    assert Truthy(Get(reply, "success", Null));
    SuccessMapping(reply);
  }
}
