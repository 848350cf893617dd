/** The history listing (routes/historyRoutes.js) and the chain the server
    mounts it behind: authentication, the request logger, authentication
    again, then the handler. */
module HistoryRoutes {
  import opened Common
  import opened Models
  import opened Http
  import opened Services
  import AuthMiddleware
  import HistoryLogger

  const RetrieveFailed := "Error retrieving history"

  function ByUser(u: Id): HistoryEntry -> bool { (e: HistoryEntry) => e.userId == Some(u) }

  function Timestamp(e: HistoryEntry): int { e.timestamp }

  /** `History.find({userId}).sort({timestamp: -1})` answered as JSON, or the
      500 response when the store throws. */
  function Listing(history: seq<HistoryEntry>, online: bool, userId: Id): (r: Response<seq<HistoryEntry>>)
    ensures r.status == 200 <==> online
    ensures !online ==> r == Response(500, MsgError(RetrieveFailed, DbUnavailable))
    ensures online ==> r.body.Data? && SortedDesc(r.body.payload, Timestamp)
                       && multiset(r.body.payload) == multiset(Filter(history, ByUser(userId)))
  {
    if !online then Response(500, MsgError(RetrieveFailed, DbUnavailable))
    else Response(200, Data(SortDesc(Filter(history, ByUser(userId)), Timestamp)))
  }

  /** The listing holds exactly the caller's entries. */
  lemma ListingMembers(history: seq<HistoryEntry>, userId: Id, e: HistoryEntry)
    ensures Listing(history, true, userId).body.payload == SortDesc(Filter(history, ByUser(userId)), Timestamp)
    ensures e in Listing(history, true, userId).body.payload <==> e in history && e.userId == Some(userId)
  {
    SortDescMembers(Filter(history, ByUser(userId)), Timestamp, e);
  }

  /** `GET /api/history`: authentication, the logger, authentication again
      (router level), then the listing, which therefore already contains the
      entry logged for this very request. */
  method Get(ex: Exchange, db: Db, verify: (string, int) -> Option<Claims>, now: int)
    returns (res: Response<seq<HistoryEntry>>)
    requires db.Valid()
    modifies ex, db
    ensures db.Valid()
    ensures db.users == old(db.users) && db.files == old(db.files) && db.online == old(db.online)
    ensures var a := AuthMiddleware.Authenticate(ex.token, verify, now);
      && (a.Err? ==> res == Response(401, Msg(a.message)) && db.history == old(db.history))
      && (a.Ok? ==>
            && db.history == old(db.history) + HistoryLogger.RequestEntries(
                 Some(a.value), ex.verb, ex.originalUrl, ex.body, old(db.online), now)
            && res == Listing(db.history, db.online, a.value.id))
  {
    var flow := AuthMiddleware.Handle(ex, verify, now);
    if flow.Sent? {
      return Response(flow.status, Msg(flow.message));
    }
    flow := HistoryLogger.LogHistory(ex, db, now);
    flow := AuthMiddleware.Handle(ex, verify, now);
    res := Listing(db.history, db.online, ex.user.value.id);
  }

  /** With the store up, an authenticated caller's listing includes the
      entry its own request just appended. */
  lemma ListingShowsOwnRequest(history: seq<HistoryEntry>, c: Claims, verb: string, url: string,
                               body: Option<Json>, now: int)
    ensures var e := HistoryEntry(Some(c.id), verb + " " + url, now, StoredDetails(body));
      e in Listing(history + HistoryLogger.RequestEntries(Some(c), verb, url, body, true, now), true, c.id).body.payload
  {
    var e := HistoryEntry(Some(c.id), verb + " " + url, now, StoredDetails(body));
    var h := history + HistoryLogger.RequestEntries(Some(c), verb, url, body, true, now);
    assert h[|h| - 1] == e;
    ListingMembers(h, c.id, e);
  }
}
