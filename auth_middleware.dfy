/** `authMiddleware` (middleware/authMiddleware.js): the `x-auth-token`
    header either yields the verified claims, which become `req.user`, or a
    401 response that ends the chain. */
module AuthMiddleware {
  import opened Common
  import opened Models
  import opened Http

  const NoToken := "No token, authorization denied"
  const BadToken := "Token is not valid"

  /** The outcome for a header value: the verified claims, or the message of
      the 401 response. Verification at time `now` stands for `jwt.verify`
      with the server secret; roles come from the claims alone. */
  function Authenticate(token: Option<string>, verify: (string, int) -> Option<Claims>, now: int)
    : (r: Result<Claims>)
    ensures r == Err(NoToken) <==> !Truthy(token)
    ensures r == Err(BadToken) <==> Truthy(token) && verify(token.value, now).None?
    ensures r.Ok? <==> Truthy(token) && verify(token.value, now).Some?
    ensures r.Ok? ==> token.Some? && r.value == verify(token.value, now).value
  {
    if !Truthy(token) then Err(NoToken)
    else match verify(token.value, now)
      case None => Err(BadToken)
      case Some(claims) => Ok(claims)
  }

  /** The middleware itself: on success `req.user` is set and control passes
      on exactly once; otherwise a 401 is sent and `req.user` is untouched. */
  method Handle(ex: Exchange, verify: (string, int) -> Option<Claims>, now: int) returns (flow: Flow)
    modifies ex
    ensures var a := Authenticate(ex.token, verify, now);
      if a.Ok? then flow == Next && ex.user == Some(a.value)
      else flow == Sent(401, a.message) && ex.user == old(ex.user)
  {
    if !Truthy(ex.token) {
      return Sent(401, NoToken);
    }
    var decoded := verify(ex.token.value, now);
    if decoded.None? {
      return Sent(401, BadToken);
    }
    ex.user := decoded;
    flow := Next;
  }
}
