/** `ProtectedRoute` (Frontend/src/components/ProtectedRoute.jsx): the
    client-side guard deciding, from the stored token, whether to render the
    protected page or redirect. */
module ProtectedRoute {
  import opened Common

  /** The fields of a decoded token the guard reads: `exp` (seconds, may be
      absent) and the `isAdmin` flag (absent reads as false). */
  datatype Decoded = Decoded(exp: Option<int>, isAdmin: bool)

  datatype View = Render | Redirect(to: string)

  /** What the guard shows and whether it removes the stored token. */
  datatype Decision = Decision(view: View, clearToken: bool)

  /** `exp * 1000 < Date.now()`; an absent `exp` gives NaN, which compares
      false, so such a token never expires. */
  predicate Expired(d: Decoded, now: int) {
    d.exp.Some? && d.exp.value * 1000 < now
  }

  /** The guard's decision: no token, then decoding, then expiry, then role.
      `decode` stands for `jwtDecode`, None where it throws. */
  function Decide(token: Option<string>, decode: string -> Option<Decoded>,
                  requiredRole: Option<string>, now: int): (d: Decision)
    ensures !Truthy(token) ==> d == Decision(Redirect("/login"), false)
    ensures d.view == Render <==>
      Truthy(token) && decode(token.value).Some? && !Expired(decode(token.value).value, now)
      && !(requiredRole == Some("admin") && !decode(token.value).value.isAdmin)
    ensures d.view == Redirect("/dashboard") <==>
      Truthy(token) && decode(token.value).Some? && !Expired(decode(token.value).value, now)
      && requiredRole == Some("admin") && !decode(token.value).value.isAdmin
    ensures d.clearToken <==>
      Truthy(token) && (decode(token.value).None? || Expired(decode(token.value).value, now))
    ensures d.clearToken ==> d.view == Redirect("/login")
  {
    if !Truthy(token) then Decision(Redirect("/login"), false)
    else match decode(token.value)
      case None => Decision(Redirect("/login"), true)
      case Some(dt) =>
        if Expired(dt, now) then Decision(Redirect("/login"), true)
        else if requiredRole == Some("admin") && !dt.isAdmin then Decision(Redirect("/dashboard"), false)
        else Decision(Render, false)
  }

  /** Expiry is checked before role: an expired token of a non-admin on an
      admin page goes to the login page, not to the dashboard. */
  lemma ExpiryBeforeRole(token: string, decode: string -> Option<Decoded>, now: int)
    requires token != "" && decode(token).Some? && Expired(decode(token).value, now)
    ensures Decide(Some(token), decode, Some("admin"), now) == Decision(Redirect("/login"), true)
  {
  }

  /** On every page, a token whose expiry equals the current time is still
      unexpired: it is kept, and only the role check can turn it away. One
      millisecond later it is expired and removed. */
  lemma ExpiryBoundary(token: string, decode: string -> Option<Decoded>, requiredRole: Option<string>)
    requires token != "" && decode(token).Some? && decode(token).value.exp.Some?
    ensures var d := decode(token).value;
      var atExpiry := Decide(Some(token), decode, requiredRole, d.exp.value * 1000);
      && !atExpiry.clearToken
      && (atExpiry.view == Render <==> !(requiredRole == Some("admin") && !d.isAdmin))
      && Decide(Some(token), decode, requiredRole, d.exp.value * 1000 + 1) == Decision(Redirect("/login"), true)
  {
  }

  /** A "user" page admits every valid token, admin or not, and an admin
      token passes wherever a plain one does. */
  lemma AdminsPassEverywhere(token: Option<string>, decode: string -> Option<Decoded>,
                             role: Option<string>, now: int)
    ensures Truthy(token) && decode(token.value).Some? && !Expired(decode(token.value).value, now)
            ==> Decide(token, decode, Some("user"), now).view == Render
    ensures Truthy(token) && decode(token.value).Some? && decode(token.value).value.isAdmin
            ==> (Decide(token, decode, role, now).view == Render
                 <==> !Expired(decode(token.value).value, now))
  {
  }

  /** The browser's localStorage slot holding the token. */
  class Storage {
    var token: Option<string>

    constructor (token: Option<string>)
      ensures this.token == token
    {
      this.token := token;
    }
  }

  /** One render of the guard: decide, and remove the stored token where
      the decision says so. */
  method Guard(storage: Storage, decode: string -> Option<Decoded>,
               requiredRole: Option<string>, now: int) returns (view: View)
    modifies storage
    ensures var d := Decide(old(storage.token), decode, requiredRole, now);
      view == d.view && storage.token == (if d.clearToken then None else old(storage.token))
  {
    var token := storage.token;
    if !Truthy(token) {
      return Redirect("/login");
    }
    var decoded := decode(token.value);
    if decoded.None? {
      storage.token := None;
      return Redirect("/login");
    }
    if Expired(decoded.value, now) {
      storage.token := None;
      return Redirect("/login");
    }
    if requiredRole == Some("admin") && !decoded.value.isAdmin {
      return Redirect("/dashboard");
    }
    view := Render;
  }
}
