/** `ValidationMiddleware`: turns the validator's error list into a 400 reply or a call
    to `next`. The list is what `validationResult(req).array()` yields. */
module ValidationMiddleware {
  import opened Common
  import opened Http

  /** `checkMCPValidation`: a JSON-RPC `Invalid Request` (-32600) carrying the errors. */
  function CheckMcpValidation(errors: seq<FieldError>, id: Option<Scalar>): (g: Gate<()>)
    ensures g.Next? <==> errors == []
    ensures g.Reject? ==>
      && g.reply.status == 400
      && g.reply.body.RpcFailure? && g.reply.body.versionKey == "jsonrpc"
      && g.reply.body.error == ErrorObject(-32600, "Invalid Request", Problems(errors))
      && g.reply.body.id == EchoId(id)
  {
    if errors != [] then
      Reject(Reply(400, RpcFailure("jsonrpc", ErrorObject(-32600, "Invalid Request", Problems(errors)), EchoId(id))))
    else
      Next(())
  }

  /** `checkStandardValidation`: `{ success: false, message: 'Validation failed', errors }`. */
  function CheckStandardValidation(errors: seq<FieldError>): (g: Gate<()>)
    ensures g.Next? <==> errors == []
    ensures g.Reject? ==>
      && g.reply.status == 400
      && g.reply.body == Notice(Some(("success", Bool(false))), "Validation failed", Some(errors))
  {
    if errors != [] then
      Reject(Reply(400, Notice(Some(("success", Bool(false))), "Validation failed", Some(errors))))
    else
      Next(())
  }

  /** The two gates decide alike: each passes exactly the empty error list, and each
      rejection is a 400 carrying the whole list unchanged, as JSON-RPC error data in one
      and as the `errors` field of a plain failure notice in the other. */
  lemma ValidationGatesAgree(errors: seq<FieldError>, id: Option<Scalar>)
    ensures CheckMcpValidation(errors, id).Next? <==> CheckStandardValidation(errors).Next?
    ensures CheckMcpValidation(errors, id).Reject? ==>
      var rpc, plain := CheckMcpValidation(errors, id).reply, CheckStandardValidation(errors).reply;
      && rpc.status == plain.status == 400
      && rpc.body.error.data == Problems(errors) && plain.body.errors == Some(errors)
      && rpc.body == RpcFailure("jsonrpc", ErrorObject(-32600, "Invalid Request", Problems(errors)), EchoId(id))
      && plain.body == Notice(Some(("success", Bool(false))), "Validation failed", Some(errors))
  {
  }
}
