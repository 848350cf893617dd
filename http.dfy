/** The request/response shapes of the HTTP layer. */
module Http {
  import opened Common
  import opened Models

  /** The JSON body a handler sends. */
  datatype Body<T> =
    | Msg(message: string)
    | MsgError(message: string, error: string)
    | Data(payload: T)
    | MsgData(message: string, payload: T)

  datatype Response<T> = Response(status: int, body: Body<T>)

  /** What a middleware did: passed control on with `next()`, or sent a
      response itself and stopped the chain. */
  datatype Flow = Next | Sent(status: int, message: string)

  /** One request as the middleware chain sees it: the `x-auth-token`
      header, the verb, the original URL and the parsed body are fixed;
      `user` is the `req.user` slot that authentication fills in. */
  class Exchange {
    const token: Option<string>
    const verb: string
    const originalUrl: string
    const body: Option<Json>
    var user: Option<Claims>

    constructor (token: Option<string>, verb: string, originalUrl: string, body: Option<Json>)
      ensures this.token == token && this.verb == verb
      ensures this.originalUrl == originalUrl && this.body == body
      ensures user == None
    {
      this.token := token;
      this.verb := verb;
      this.originalUrl := originalUrl;
      this.body := body;
      user := None;
    }
  }
}
