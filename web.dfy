/**
 * The slice of the HTTP framework's request context that the handlers use:
 * the request's route parameters and headers, every reply written, and the
 * abort / next / panic flags.
 */
module Web {

  const StatusOK := 200
  const StatusCreated := 201
  const StatusBadRequest := 400
  const StatusUnauthorized := 401
  const StatusNotFound := 404
  const StatusConflict := 409
  const StatusInternalServerError := 500

  /** The JSON values the handlers serialise. */
  datatype Json =
    | JString(s: string)
    | JNumber(n: int)
    | JBool(b: bool)
    | JNull
    | JArray(items: seq<Json>)
    | JObject(fields: map<string, Json>)

  datatype Body = Text(text: string) | JsonBody(json: Json) | NoBody

  /** One status-and-body write on the response. */
  datatype Reply = Reply(status: int, body: Body)

  /**
   * The per-request context. Every write is kept in `replies`, in order, so
   * a handler that writes twice is visible as two replies.
   */
  class Context {
    /** Route parameters such as `:id`. */
    const params: map<string, string>
    /** The request's `Content-Type` header. */
    const contentType: string

    var replies: seq<Reply>
    var aborted: bool
    var nextCalled: bool
    var panicked: bool

    constructor (params: map<string, string>, contentType: string)
      ensures this.params == params && this.contentType == contentType
      ensures replies == [] && !aborted && !nextCalled && !panicked
    {
      this.params := params;
      this.contentType := contentType;
      replies := [];
      aborted := false;
      nextCalled := false;
      panicked := false;
    }

    /** `c.Params.ByName(name)`: the empty string when the route has no such parameter. */
    function Param(name: string): string
    {
      if name in params then params[name] else ""
    }

    /** `c.String(status, text)`. */
    method String(status: int, text: string)
      modifies this`replies
      ensures replies == old(replies) + [Reply(status, Text(text))]
    {
      replies := replies + [Reply(status, Text(text))];
    }

    /** `c.JSON(status, value)`. */
    method JSON(status: int, value: Json)
      modifies this`replies
      ensures replies == old(replies) + [Reply(status, JsonBody(value))]
    {
      replies := replies + [Reply(status, JsonBody(value))];
    }

    /** `c.Abort()`: no further handler in the chain runs. */
    method Abort()
      modifies this`aborted
      ensures aborted
    {
      aborted := true;
    }

    /** `c.AbortWithStatus(status)`, which `c.Fail(status, err)` also comes down to: a status with no body, then abort. */
    method AbortWithStatus(status: int)
      modifies this`replies, this`aborted
      ensures replies == old(replies) + [Reply(status, NoBody)] && aborted
    {
      replies := replies + [Reply(status, NoBody)];
      aborted := true;
    }

    /** `c.Next()`: the rest of the chain runs. */
    method Next()
      modifies this`nextCalled
      ensures nextCalled
    {
      nextCalled := true;
    }

    /** `log.Panicln(err)`: the handler stops with a panic. */
    method Panic()
      modifies this`panicked
      ensures panicked
    {
      panicked := true;
    }
  }
}
