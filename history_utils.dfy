/** `logAction` (utils/historyUtils.js): the audit writer. It makes one
    attempt to append a history entry and swallows any error. */
module HistoryUtils {
  import opened Common
  import opened Models
  import opened Services

  /** The default `details = {}`, which the store minimizes away. */
  const EmptyDetails: Option<Json> := Some(JObject([]))

  /** `userId || null`: a falsy value becomes null; anything else, including
      a label such as "anonymous", passes through unchanged. */
  function OrNull(userId: UserRef): (r: UserRef)
    ensures userId.Label? && userId.text != "" ==> r == userId
    ensures userId.Ref? ==> r == userId
    ensures userId.Absent? || userId == Label("") ==> r == Absent
  {
    if userId == Label("") then Absent else userId
  }

  /** As written: what one `logAction` call appends. The value passed on is
      `userId || null`, and HistorySchema's ObjectId cast rejects a label, so
      an "anonymous" call appends nothing. */
  function LoggedAsWritten(online: bool, userId: UserRef, action: string,
                           details: Option<Json>, now: int): (es: seq<HistoryEntry>)
    ensures |es| <= 1
  {
    var cast := CastUserId(OrNull(userId));
    if online && cast.Ok? && action != "" then [HistoryEntry(cast.value, action, now, StoredDetails(details))] else []
  }

  /** Corrected user reference: anything that is not a document id is stored
      as null, which is what the source's own comment on the call asks for. */
  function NullUnlessId(userId: UserRef): (r: UserRef)
    ensures CastUserId(r).Ok?
    ensures userId.Ref? ==> r == userId
    ensures !userId.Ref? ==> r == Absent
  {
    if userId.Ref? then userId else Absent
  }

  /** What one corrected `logAction` call appends: the entry, unless the
      store is unreachable (or the action empty, which the schema rejects). */
  function Logged(online: bool, userId: UserRef, action: string,
                  details: Option<Json>, now: int): (es: seq<HistoryEntry>)
    ensures |es| <= 1
    ensures |es| == 1 <==> online && action != ""
    ensures |es| == 1 ==> es[0].action == action && es[0].details == StoredDetails(details) && es[0].timestamp == now
    ensures |es| == 1 && userId.Ref? ==> es[0].userId == Some(userId.id)
    ensures |es| == 1 && !userId.Ref? ==> es[0].userId == None
  {
    var cast := CastUserId(NullUnlessId(userId));
    if online && action != "" then [HistoryEntry(cast.value, action, now, StoredDetails(details))] else []
  }

  /** The discrepancy: with the store up, a failure logged as "anonymous" is
      lost as written and recorded (with a null user) once corrected. */
  lemma AnonymousEntryLost(action: string, now: int)
    requires action != ""
    ensures LoggedAsWritten(true, Label("anonymous"), action, EmptyDetails, now) == []
    ensures Logged(true, Label("anonymous"), action, EmptyDetails, now)
         == [HistoryEntry(None, action, now, None)]
  {
  }

  /** Where the source works, the correction changes nothing: for a document
      id or a falsy value both write the same entry. */
  lemma LoggedAgreesOnIds(online: bool, userId: UserRef, action: string, details: Option<Json>, now: int)
    requires !userId.Label? || userId.text == ""
    ensures Logged(online, userId, action, details, now) == LoggedAsWritten(online, userId, action, details, now)
  {
  }

  /** `logAction(userId, action, details)` with the corrected user reference.
      It never fails: a store error is swallowed and leaves the log as it was. */
  method LogAction(db: Db, userId: UserRef, action: string, details: Option<Json>, now: int)
    requires db.Valid()
    modifies db
    ensures db.Valid()
    ensures db.users == old(db.users) && db.files == old(db.files)
    ensures db.nextId == old(db.nextId) && db.online == old(db.online)
    ensures db.history == old(db.history) + Logged(old(db.online), userId, action, details, now)
  {
    var err := db.CreateHistory(NullUnlessId(userId), action, details, now);
    // A failed write is logged to the console and otherwise ignored.
  }
}
