/** The error handler the HTTP server installs: every error becomes a JSON reply. */
module ServerHelpers {
  import opened Wrappers
  import opened Js

  const DefaultStatus := 500
  const DefaultName := "Internal Server Error"
  const DefaultMessage := "An unexpected error occurred"

  /** The status sent and the JSON body. */
  datatype ErrorReply = ErrorReply(status: Value, body: Value)

  /**
    handleError: status `error.statusCode || 500`, and a body naming the error, its message and
    the same status. Reading a property of `null` or `undefined` throws, so those have no reply.
   */
  function HandleError(error: Value): (r: Option<ErrorReply>)
    ensures r.None? <==> Nullish(error)
    ensures r.Some? ==> r.value.status == (if Truthy(Get(error, "statusCode")) then Get(error, "statusCode") else Num(DefaultStatus))
    ensures r.Some? ==> Get(r.value.body, "error") == (if Truthy(Get(error, "name")) then Get(error, "name") else Str(DefaultName))
    ensures r.Some? ==> Get(r.value.body, "message") == (if Truthy(Get(error, "message")) then Get(error, "message") else Str(DefaultMessage))
    ensures r.Some? ==> Get(r.value.body, "statusCode") == r.value.status
  {
    if Nullish(error) then None
    else
      assert "message"[0] != "error"[0] && "statusCode"[0] != "error"[0] && "statusCode"[0] != "message"[0];
      var status := Or(Get(error, "statusCode"), Num(DefaultStatus));
      var fields := [("error", Or(Get(error, "name"), Str(DefaultName))),
                     ("message", Or(Get(error, "message"), Str(DefaultMessage))),
                     ("statusCode", status)];
      assert fields[1..][1..] == [("statusCode", status)];
      assert Lookup(fields, "message") == Lookup(fields[1..], "message");
      assert Lookup(fields, "statusCode") == Lookup(fields[1..], "statusCode") == Lookup(fields[1..][1..], "statusCode");
      Some(ErrorReply(status, Obj(fields)))
  }

  /** An `Error` without a status code is a 500 named after the error. */
  lemma PlainErrorIs500(name: string, message: string)
    requires name != "" && message != ""
    ensures HandleError(Error(name, message, [])) ==
      Some(ErrorReply(Num(500), Obj([("error", Str(name)), ("message", Str(message)), ("statusCode", Num(500))])))
  {
  }

  /** A status code on the error is sent and echoed in the body. */
  lemma StatusCodeEchoed(name: string, code: int)
    requires code != 0
    ensures var r := HandleError(Error(name, "", [("statusCode", Num(code))]));
      r.Some? && r.value.status == Num(code) && Get(r.value.body, "statusCode") == Num(code)
  {
  }
}
