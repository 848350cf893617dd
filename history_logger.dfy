/** `logHistory` (middleware/historyLogger.js): records every request that
    reaches the history routes, then always passes control on. */
module HistoryLogger {
  import opened Common
  import opened Models
  import opened Http
  import opened Services

  /** What one `logHistory` call appends: `{userId: req.user.id, action:
      method + " " + originalUrl, details: req.body}`, with the body as the
      store minimizes it, unless the store is unreachable or `req.user` is
      missing (reading `req.user.id` throws). */
  function RequestEntries(user: Option<Claims>, verb: string, url: string, body: Option<Json>,
                          online: bool, now: int): (es: seq<HistoryEntry>)
    ensures |es| <= 1
    ensures |es| == 1 <==> online && user.Some?
    ensures |es| == 1 ==> es[0].userId == Some(user.value.id) && es[0].details == StoredDetails(body)
                          && es[0].action == verb + " " + url && es[0].timestamp == now
  {
    if online && user.Some? then [HistoryEntry(Some(user.value.id), verb + " " + url, now, StoredDetails(body))] else []
  }

  /** The middleware: one attempted append, errors swallowed, never a
      response of its own, and `next()` exactly once. */
  method LogHistory(ex: Exchange, db: Db, now: int) returns (flow: Flow)
    requires db.Valid()
    modifies db
    ensures flow == Next
    ensures db.Valid()
    ensures db.users == old(db.users) && db.files == old(db.files)
    ensures db.nextId == old(db.nextId) && db.online == old(db.online)
    ensures db.history == old(db.history)
              + RequestEntries(ex.user, ex.verb, ex.originalUrl, ex.body, old(db.online), now)
  {
    if ex.user.Some? {
      var err := db.CreateHistory(Ref(ex.user.value.id), ex.verb + " " + ex.originalUrl, ex.body, now);
    }
    flow := Next;
  }
}
