/** The admin router (routes/adminRoutes.js): the `isAdmin` guard and the
    three routes it protects, each behind authentication first. */
module AdminRoutes {
  import opened Common
  import opened Models
  import opened Http
  import opened Services
  import AuthMiddleware
  import AdminController

  const Denied := "Access Denied: Admin privileges required."

  /** `isAdmin`: passes on exactly when `req.user` is set and is an admin;
      role comes from the verified claims alone, never from the store. */
  function IsAdmin(user: Option<Claims>): (f: Flow)
    ensures f == Next <==> user.Some? && user.value.isAdmin
    ensures f != Next ==> f == Sent(403, Denied)
  {
    if user.Some? && user.value.isAdmin then Next else Sent(403, Denied)
  }

  /** The outcome of `authMiddleware` followed by `isAdmin`: the admin's
      claims, or the response that ends the chain. */
  datatype Gate = Admit(admin: Claims) | Refuse(status: int, message: string)

  function AdminGate(token: Option<string>, verify: (string, int) -> Option<Claims>, now: int): Gate {
    match AuthMiddleware.Authenticate(token, verify, now)
    case Err(m) => Refuse(401, m)
    case Ok(c) => if IsAdmin(Some(c)) == Next then Admit(c) else Refuse(403, Denied)
  }

  /** Authentication runs first: a missing or invalid token is answered
      401, never 403; a valid non-admin token 403; and the controller is
      reached exactly for a valid admin token. */
  lemma AdminGateOrder(token: Option<string>, verify: (string, int) -> Option<Claims>, now: int)
    ensures var g := AdminGate(token, verify, now);
      && (!Truthy(token) ==> g == Refuse(401, AuthMiddleware.NoToken))
      && (Truthy(token) && verify(token.value, now).None? ==> g == Refuse(401, AuthMiddleware.BadToken))
      && (g.Refuse? ==> (g.status == 403 <==> Truthy(token) && verify(token.value, now).Some?))
      && (g.Admit? <==> Truthy(token) && verify(token.value, now).Some? && verify(token.value, now).value.isAdmin)
      && (g.Admit? ==> g.admin == verify(token.value, now).value)
  {
  }

  /** Runs `authMiddleware` then `isAdmin` on the request. */
  method Guard(ex: Exchange, verify: (string, int) -> Option<Claims>, now: int) returns (flow: Flow)
    modifies ex
    ensures var g := AdminGate(ex.token, verify, now);
      && (g.Refuse? ==> flow == Sent(g.status, g.message))
      && (g.Admit? ==> flow == Next && ex.user == Some(g.admin))
  {
    flow := AuthMiddleware.Handle(ex, verify, now);
    if flow == Next {
      flow := IsAdmin(ex.user);
    }
  }

  /** `GET /users`. */
  method GetUsers(ex: Exchange, db: Db, verify: (string, int) -> Option<Claims>, now: int)
    returns (res: Response<seq<AdminController.PublicUser>>)
    modifies ex
    ensures var g := AdminGate(ex.token, verify, now);
      && (g.Refuse? ==> res == Response(g.status, Msg(g.message)))
      && (g.Admit? ==> res == AdminController.AllUsers(db.users, db.online))
  {
    var flow := Guard(ex, verify, now);
    if flow.Sent? {
      return Response(flow.status, Msg(flow.message));
    }
    res := AdminController.AllUsers(db.users, db.online);
  }

  /** `GET /files`. */
  method GetFiles(ex: Exchange, db: Db, verify: (string, int) -> Option<Claims>, now: int)
    returns (res: Response<seq<AdminController.ListedFile>>)
    modifies ex
    ensures var g := AdminGate(ex.token, verify, now);
      && (g.Refuse? ==> res == Response(g.status, Msg(g.message)))
      && (g.Admit? ==> res == AdminController.AllFiles(db.files, db.users, db.online))
  {
    var flow := Guard(ex, verify, now);
    if flow.Sent? {
      return Response(flow.status, Msg(flow.message));
    }
    res := AdminController.AllFiles(db.files, db.users, db.online);
  }

  /** `DELETE /users/:id`: a refused request changes nothing; an admitted
      one runs the cascade with the admin's own id as the acting id: 400 for
      the admin's own account, 500 when the store is down, 404 for an
      unknown user, and otherwise the target, its records and their stored
      files are removed. The history is never touched. */
  method DeleteUser(ex: Exchange, db: Db, fs: FileSystem, verify: (string, int) -> Option<Claims>,
                    now: int, target: Id) returns (res: Response<()>)
    requires db.Valid()
    modifies ex, db, fs
    ensures db.Valid()
    ensures db.history == old(db.history) && db.nextId == old(db.nextId) && db.online == old(db.online)
    ensures fs.failing == old(fs.failing)
    ensures var g := AdminGate(ex.token, verify, now);
      && (g.Refuse? ==> res == Response(g.status, Msg(g.message)))
      && (g.Admit? && target == g.admin.id ==> res == Response(400, Msg(AdminController.SelfDelete)))
      && (g.Admit? && target != g.admin.id && !old(db.online) ==>
            res == Response(500, MsgError(AdminController.DeleteFailed, DbUnavailable)))
      && (g.Admit? && target != g.admin.id && old(db.online) && AdminController.UserById(old(db.users), target).None? ==>
            res == Response(404, Msg(AdminController.UserNotFound)))
      && (g.Admit? ==> (res.status == 200 <==>
            target != g.admin.id && old(db.online) && AdminController.UserById(old(db.users), target).Some?))
      && (res.status != 200 ==>
            db.users == old(db.users) && db.files == old(db.files) && fs.contents == old(fs.contents))
      && (g.Admit? && res.status == 200 ==>
            && res == Response(200, Msg(AdminController.UserDeleted))
            && db.users == Filter(old(db.users), UserIdIsNot(target))
            && db.files == Filter(old(db.files), NotOwnedBy(target))
            && fs.contents == old(fs.contents)
                 - AdminController.UnlinkedPaths(Filter(old(db.files), OwnedBy(target)), old(fs.failing)))
  {
    var flow := Guard(ex, verify, now);
    if flow.Sent? {
      return Response(flow.status, Msg(flow.message));
    }
    res := AdminController.DeleteUser(db, fs, ex.user.value.id, target);
  }
}
