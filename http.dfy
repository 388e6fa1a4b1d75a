/**
 * What a route handler sends back: a status and a JSON body, or nothing at
 * all (the handler is still waiting on a promise that never settles, or a
 * throw ended it before it replied).
 */
module Http {

  import opened Wrappers
  import opened JsValues

  datatype Reply = NoReply | Reply(status: nat, body: Value)

  /** `response.status(s).json({error: message})`. */
  function ErrorReply(status: nat, message: string): (r: Reply)
    ensures r.Reply? && r.status == status && r.body.Obj?
    ensures Lookup(r.body.props, "error") == Str(message)
    ensures forall k :: HasKey(r.body.props, k) <==> k == "error"
  {
    Reply(status, Obj([("error", Str(message))]))
  }

  /** `response.status(200).json({status: 'success'})`. */
  const Success: Reply := Reply(200, Obj([("status", Str("success"))]))

  /** `'Invalid token ' + token`, the reply to a token the table does not hold. */
  function InvalidToken(token: Option<string>): Reply {
    ErrorReply(500, "Invalid token " + FieldText(token))
  }
}
