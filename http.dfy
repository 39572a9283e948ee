/** The slice of the Echo framework the handlers touch: status codes, the
    errors a handler returns, the JSON body of a successful reply, and the
    request context. */
module Http {
  import opened Wrappers
  import opened Strconv
  import opened Types

  const StatusBadRequest := 400
  const StatusUnauthorized := 401
  const StatusNotFound := 404

  /** The message of an echo.HTTPError. */
  datatype Detail =
    | StatusText              // echo.NewHTTPError(code): the standard text of the code
    | Text(text: string)      // echo.NewHTTPError(code, "...")
    | Body(resp: MsgResp)     // echo.NewHTTPError(code, pkg.NewMsgResp("..."))

  /** The error a handler returns. */
  datatype Error =
    | HttpError(code: int, detail: Detail)
    | Raw(text: string)       // a plain Go error, passed up unchanged

  /** The value given to c.JSON(http.StatusOK, ...). */
  datatype Json =
    | Null
    | Message(msg: MsgResp)
    | TokenJson(token: Token)
    | One(todo: Option<TodoResponse>)
    | Many(todos: seq<TodoResponse>)

  /** What a handler produces: a 200 reply with a JSON body, or an error. */
  datatype Reply = Ok(body: Json) | Fail(error: Error)

  function BadRequest(text: string): Error
  {
    HttpError(StatusBadRequest, Text(text))
  }

  /** service_echo.SecurityContext: who a request is authenticated as. */
  datatype SecurityContext = SecurityContext(email: string, userID: int64)

  /** The parts of an echo.Context the core reads or writes: the
      Authorization header ("" when absent), the `id` path parameter, the
      `all` query parameter, and the "security_context" value. */
  class Context {
    const authorization: string
    const idParam: string
    const allParam: string
    var security: Option<SecurityContext>

    constructor (authorization: string, idParam: string, allParam: string)
      ensures this.authorization == authorization && this.idParam == idParam && this.allParam == allParam
      ensures security == None
    {
      this.authorization := authorization;
      this.idParam := idParam;
      this.allParam := allParam;
      security := None;
    }
  }
}
