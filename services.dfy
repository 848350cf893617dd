/** The collaborators the controllers drive: the document store, the
    filesystem, the realtime channel, and the foreign libraries (spreadsheet
    codec, password hashing and token signing), each reduced to the state or
    functions the controllers observe. */
module Services {
  import opened Common
  import opened Models

  /** The message a store call fails with while the store is unreachable. */
  const DbUnavailable := "MongoNetworkError: connection to the database is closed"

  /** The messages of a rejected user insert. */
  const UserValidationFailed := "User validation failed: a required field is missing"
  const DuplicateEmail := "E11000 duplicate key error collection: users index: email_1"

  /** Filters the controllers pass to the store. */
  function OwnedBy(owner: Id): FileDoc -> bool { (f: FileDoc) => f.uploadedBy == owner }
  function NotOwnedBy(owner: Id): FileDoc -> bool { (f: FileDoc) => f.uploadedBy != owner }
  function KeyIs(owner: Id, name: string): FileDoc -> bool { (f: FileDoc) => f.uploadedBy == owner && f.filename == name }
  function KeyIsNot(owner: Id, name: string): FileDoc -> bool { (f: FileDoc) => !(f.uploadedBy == owner && f.filename == name) }
  function FileIdNotIn(ids: set<Id>): FileDoc -> bool { (f: FileDoc) => f.id !in ids }
  function UserIdIsNot(id: Id): User -> bool { (u: User) => u.id != id }
  function UserIdIs(id: Id): User -> bool { (u: User) => u.id == id }
  function EmailIs(email: string): User -> bool { (u: User) => u.email == email }

  /** No two file records share an (uploadedBy, filename) key. FileSchema
      declares no index for this; only the upsert in the upload path keeps it. */
  ghost predicate OneFilePerKey(files: seq<FileDoc>) {
    forall i, j :: 0 <= i < j < |files| ==>
      !(files[i].uploadedBy == files[j].uploadedBy && files[i].filename == files[j].filename)
  }

  ghost predicate DistinctFileIds(files: seq<FileDoc>) {
    forall i, j :: 0 <= i < j < |files| ==> files[i].id != files[j].id
  }

  /** Users have distinct ids and distinct emails (UserSchema's unique index). */
  ghost predicate DistinctUsers(users: seq<User>) {
    forall i, j :: 0 <= i < j < |users| ==> users[i].id != users[j].id && users[i].email != users[j].email
  }

  /** The position of the record with key (owner, name), if any. */
  function KeyIndex(files: seq<FileDoc>, owner: Id, name: string): (r: Option<nat>)
    ensures r.Some? ==> r.value < |files| && files[r.value].uploadedBy == owner && files[r.value].filename == name
    ensures r.None? ==> forall f :: f in files ==> !(f.uploadedBy == owner && f.filename == name)
  {
    if files == [] then None
    else if files[0].uploadedBy == owner && files[0].filename == name then Some(0)
    else
      match KeyIndex(files[1..], owner, name)
      case Some(i) => Some(i + 1)
      case None => None
  }

  /** `findOneAndUpdate({uploadedBy, filename}, doc, {upsert: true})`: the
      record with doc's key takes doc's fields but keeps its id and creation
      time; without one, doc is inserted. */
  function Upserted(files: seq<FileDoc>, doc: FileDoc): seq<FileDoc> {
    match KeyIndex(files, doc.uploadedBy, doc.filename)
    case Some(i) => files[i := doc.(id := files[i].id, createdAt := files[i].createdAt)]
    case None => files + [doc]
  }

  /** The record `Upserted` leaves under doc's key. */
  function UpsertedRecord(files: seq<FileDoc>, doc: FileDoc): FileDoc {
    match KeyIndex(files, doc.uploadedBy, doc.filename)
    case Some(i) => doc.(id := files[i].id, createdAt := files[i].createdAt)
    case None => doc
  }

  /** Replacing an element that fails `p` by another that fails `p` leaves the
      filter unchanged. */
  lemma {:induction false} FilterUpdateOutside<T(!new)>(s: seq<T>, i: nat, x: T, p: T -> bool)
    requires i < |s| && !p(s[i]) && !p(x)
    ensures Filter(s[i := x], p) == Filter(s, p)
  {
    if i > 0 {
      assert s[i := x][1..] == s[1..][i - 1 := x];
      FilterUpdateOutside(s[1..], i - 1, x, p);
    }
  }

  /** When `s[i]` is the one element satisfying `p`, the filter is exactly it. */
  lemma {:induction false} FilterOnly<T(!new)>(s: seq<T>, i: nat, p: T -> bool)
    requires i < |s| && p(s[i])
    requires forall j :: 0 <= j < |s| && j != i ==> !p(s[j])
    ensures Filter(s, p) == [s[i]]
  {
    if i == 0 {
      FilterNothing(s[1..], p);
    } else {
      assert !p(s[0]);
      FilterOnly(s[1..], i - 1, p);
    }
  }

  lemma {:induction false} FilterNothing<T(!new)>(s: seq<T>, p: T -> bool)
    requires forall j :: 0 <= j < |s| ==> !p(s[j])
    ensures Filter(s, p) == []
  {
    if s != [] {
      FilterNothing(s[1..], p);
    }
  }

  /** Upserting keeps at most one record per key. */
  lemma UpsertKeepsOneFilePerKey(files: seq<FileDoc>, doc: FileDoc)
    requires OneFilePerKey(files)
    ensures OneFilePerKey(Upserted(files, doc))
  {
  }

  /** After an upsert the records under doc's key are exactly one record,
      carrying doc's path, MIME type, decoded data and upload date. */
  lemma UpsertLeavesOneRecord(files: seq<FileDoc>, doc: FileDoc)
    requires OneFilePerKey(files)
    ensures Filter(Upserted(files, doc), KeyIs(doc.uploadedBy, doc.filename)) == [UpsertedRecord(files, doc)]
    ensures var f := UpsertedRecord(files, doc);
      f.uploadedBy == doc.uploadedBy && f.filename == doc.filename && f.filepath == doc.filepath &&
      f.fileMimeType == doc.fileMimeType && f.data == doc.data && f.uploadDate == doc.uploadDate &&
      f.updatedAt == doc.updatedAt
  {
    var p := KeyIs(doc.uploadedBy, doc.filename);
    var r := Upserted(files, doc);
    match KeyIndex(files, doc.uploadedBy, doc.filename)
    case Some(i) =>
      FilterOnly(r, i, p);
    case None =>
      assert forall j :: 0 <= j < |files| ==> !p(files[j]) by {
        forall j | 0 <= j < |files| ensures !p(files[j]) { assert files[j] in files; }
      }
      FilterOnly(r, |files|, p);
  }

  /** An upsert leaves every record with a different key as it was, in the
      same order. */
  lemma UpsertKeepsOtherKeys(files: seq<FileDoc>, doc: FileDoc)
    ensures Filter(Upserted(files, doc), KeyIsNot(doc.uploadedBy, doc.filename))
         == Filter(files, KeyIsNot(doc.uploadedBy, doc.filename))
  {
    var q := KeyIsNot(doc.uploadedBy, doc.filename);
    match KeyIndex(files, doc.uploadedBy, doc.filename)
    case Some(i) =>
      FilterUpdateOutside(files, i, doc.(id := files[i].id, createdAt := files[i].createdAt), q);
    case None =>
      FilterAppend(files, [doc], q);
      assert Filter([doc], q) == [];
      assert Filter(files, q) + [] == Filter(files, q);
  }

  /** The document store: the users, files and history collections in
      insertion order, the next fresh ObjectId, and whether the store answers
      at all (when it does not, every call throws). */
  class Db {
    var users: seq<User>
    var files: seq<FileDoc>
    var history: seq<HistoryEntry>
    var nextId: Id
    var online: bool

    ghost predicate Valid()
      reads this
    {
      && DistinctUsers(users)
      && (forall i :: 0 <= i < |users| ==> users[i].id < nextId && UserSchemaOk(users[i]))
      && DistinctFileIds(files)
      && (forall i :: 0 <= i < |files| ==> files[i].id < nextId)
      && OneFilePerKey(files)
    }

    constructor (online: bool)
      ensures Valid() && this.online == online
      ensures users == [] && files == [] && history == []
    {
      users, files, history := [], [], [];
      nextId := 0;
      this.online := online;
    }

    /** `File.findOneAndUpdate({uploadedBy: owner, filename}, {...}, {upsert: true, new: true})`. */
    method UpsertFile(owner: Id, filename: string, filepath: string, mimeType: string,
                      data: seq<Row>, now: int) returns (r: Result<FileDoc>)
      requires Valid()
      modifies this
      ensures Valid()
      ensures users == old(users) && history == old(history) && online == old(online)
      ensures !old(online) ==> r == Err(DbUnavailable) && files == old(files) && nextId == old(nextId)
      ensures old(online) ==>
        var doc := FileDoc(old(nextId), filename, filepath, mimeType, data, owner, now, now, now);
        && files == Upserted(old(files), doc)
        && r == Ok(UpsertedRecord(old(files), doc))
    {
      if !online {
        return Err(DbUnavailable);
      }
      var doc := FileDoc(nextId, filename, filepath, mimeType, data, owner, now, now, now);
      UpsertKeepsOneFilePerKey(files, doc);
      match KeyIndex(files, owner, filename)
      case Some(i) =>
        var kept := doc.(id := files[i].id, createdAt := files[i].createdAt);
        files := files[i := kept];
        r := Ok(kept);
      case None =>
        files := files + [doc];
        nextId := nextId + 1;
        r := Ok(doc);
    }

    /** `File.deleteOne({_id: id})`. */
    method DeleteFileById(id: Id) returns (err: Option<string>)
      requires Valid()
      modifies this
      ensures Valid()
      ensures users == old(users) && history == old(history) && nextId == old(nextId) && online == old(online)
      ensures err.Some? <==> !old(online)
      ensures files == if old(online) then Filter(old(files), FileIdNotIn({id})) else old(files)
    {
      if !online {
        return Some(DbUnavailable);
      }
      var kept := Filter(files, FileIdNotIn({id}));
      FilterPairwise(files, FileIdNotIn({id}), (a: FileDoc, b: FileDoc) => a.id != b.id);
      FilterPairwise(files, FileIdNotIn({id}),
        (a: FileDoc, b: FileDoc) => !(a.uploadedBy == b.uploadedBy && a.filename == b.filename));
      forall i | 0 <= i < |kept| ensures kept[i].id < nextId {
        assert kept[i] in files;
      }
      files := kept;
      err := None;
    }

    /** `User.deleteOne({_id: id})`. */
    method DeleteUserById(id: Id) returns (err: Option<string>)
      requires Valid()
      modifies this
      ensures Valid()
      ensures files == old(files) && history == old(history) && nextId == old(nextId) && online == old(online)
      ensures err.Some? <==> !old(online)
      ensures users == if old(online) then Filter(old(users), UserIdIsNot(id)) else old(users)
    {
      if !online {
        return Some(DbUnavailable);
      }
      var kept := Filter(users, UserIdIsNot(id));
      FilterPairwise(users, UserIdIsNot(id), (a: User, b: User) => a.id != b.id && a.email != b.email);
      forall i | 0 <= i < |kept| ensures kept[i].id < nextId && UserSchemaOk(kept[i]) {
        assert kept[i] in users;
      }
      users := kept;
      err := None;
    }

    /** `new User({...}).save()`: schema validation (required fields), then
        the unique index on `email`. */
    method InsertUser(name: string, email: string, password: string, isAdmin: Option<bool>, now: int)
      returns (r: Result<User>)
      requires Valid()
      modifies this
      ensures Valid()
      ensures files == old(files) && history == old(history) && online == old(online)
      ensures r.Ok? <==> old(online) && name != "" && email != "" && password != ""
                         && forall u :: u in old(users) ==> u.email != email
      ensures r.Ok? ==> r.value == NewUser(old(nextId), name, email, password, isAdmin, now)
                        && users == old(users) + [r.value] && nextId == old(nextId) + 1
      ensures r.Err? ==> users == old(users) && nextId == old(nextId)
      ensures r.Err? ==> r.message == if !old(online) then DbUnavailable
                                     else if name == "" || email == "" || password == "" then UserValidationFailed
                                     else DuplicateEmail
    {
      if !online {
        return Err(DbUnavailable);
      }
      if name == "" || email == "" || password == "" {
        return Err(UserValidationFailed);
      }
      var i := 0;
      while i < |users|
        invariant 0 <= i <= |users|
        invariant forall k :: 0 <= k < i ==> users[k].email != email
      {
        if users[i].email == email {
          return Err(DuplicateEmail);
        }
        i := i + 1;
      }
      var u := NewUser(nextId, name, email, password, isAdmin, now);
      users := users + [u];
      nextId := nextId + 1;
      r := Ok(u);
    }

    /** `History.create({...})`: the ObjectId cast of `userId`, schema
        validation, then the insert, which keeps the minimized `details`. */
    method CreateHistory(userId: UserRef, action: string, details: Option<Json>, timestamp: int)
      returns (err: Option<string>)
      requires Valid()
      modifies this
      ensures Valid()
      ensures users == old(users) && files == old(files) && nextId == old(nextId) && online == old(online)
      ensures err.None? <==> old(online) && CastUserId(userId).Ok? && action != ""
      ensures history == if err.None?
        then old(history) + [HistoryEntry(CastUserId(userId).value, action, timestamp, StoredDetails(details))]
        else old(history)
    {
      if !online {
        return Some(DbUnavailable);
      }
      var cast := CastUserId(userId);
      if cast.Err? {
        return Some("History validation failed: userId: " + cast.message);
      }
      if action == "" {
        return Some("History validation failed: action: Path `action` is required.");
      }
      history := history + [HistoryEntry(cast.value, action, timestamp, StoredDetails(details))];
      err := None;
    }
  }

  /** Node's message for a failed filesystem call, e.g.
      "ENOENT: no such file or directory, open 'uploads/1/a.csv'". */
  function FsError(code: string, syscall: string, path: string): string {
    code + ": " + FsDescription(code) + ", " + syscall + " '" + path + "'"
  }

  /** The system's text for the two error codes the model raises. */
  function FsDescription(code: string): string {
    if code == "ENOENT" then "no such file or directory"
    else if code == "EACCES" then "permission denied"
    else "unknown error"
  }

  /** What reading `path` yields: its bytes, or the EACCES or ENOENT error. */
  function ReadOutcome(contents: map<string, Bytes>, failing: set<string>, path: string): (r: Result<Bytes>)
    ensures r.Ok? <==> path !in failing && path in contents
    ensures r.Ok? ==> r.value == contents[path]
  {
    if path in failing then Err(FsError("EACCES", "open", path))
    else if path !in contents then Err(FsError("ENOENT", "open", path))
    else Ok(contents[path])
  }

  /** The server's filesystem: file contents by path, and the paths on
      which mkdir, writeFile, readFile and unlink fail with an I/O error
      (permissions, a bad device); `stat` still sees those paths. */
  class FileSystem {
    var contents: map<string, Bytes>
    var failing: set<string>

    constructor (contents: map<string, Bytes>, failing: set<string>)
      ensures this.contents == contents && this.failing == failing
    {
      this.contents := contents;
      this.failing := failing;
    }

    /** `fs.stat(path)` resolves (the `.catch(() => null)` guard turns a
        rejection into "absent"). */
    predicate Exists(path: string)
      reads this
    {
      path in contents
    }

    /** `fs.mkdir(dir, {recursive: true})`: creating an existing directory is
        not an error; directories are implicit in `contents`. */
    method Mkdir(dir: string) returns (err: Option<string>)
      ensures err == if dir in failing then Some(FsError("EACCES", "mkdir", dir)) else None
    {
      err := if dir in failing then Some(FsError("EACCES", "mkdir", dir)) else None;
    }

    /** `fs.writeFile(path, data)`. */
    method WriteFile(path: string, data: Bytes) returns (err: Option<string>)
      modifies this
      ensures failing == old(failing)
      ensures err == if path in failing then Some(FsError("EACCES", "open", path)) else None
      ensures contents == if path in failing then old(contents) else old(contents)[path := data]
    {
      if path in failing {
        return Some(FsError("EACCES", "open", path));
      }
      contents := contents[path := data];
      err := None;
    }

    /** `fs.readFile(path)`. */
    method ReadFile(path: string) returns (r: Result<Bytes>)
      ensures r == ReadOutcome(contents, failing, path)
    {
      if path in failing {
        return Err(FsError("EACCES", "open", path));
      }
      if path !in contents {
        return Err(FsError("ENOENT", "open", path));
      }
      r := Ok(contents[path]);
    }

    /** `fs.unlink(path)`: ENOENT for a missing file, an I/O error on a
        failing path, otherwise the file is gone. */
    method Unlink(path: string) returns (err: Option<string>)
      modifies this
      ensures failing == old(failing)
      ensures err.Some? <==> path in failing || path !in old(contents)
      ensures path in failing ==> err == Some(FsError("EACCES", "unlink", path))
      ensures contents == if err.Some? then old(contents) else old(contents) - {path}
    {
      if path in failing {
        return Some(FsError("EACCES", "unlink", path));
      }
      if path !in contents {
        return Some(FsError("ENOENT", "unlink", path));
      }
      contents := contents - {path};
      err := None;
    }
  }

  /** One message pushed to a user's room on the realtime channel. */
  datatype Event =
    | FileProgress(room: Id, progress: int, message: string)
    | ProcessingError(room: Id, message: string, details: string)
    | AnalysisProgress(room: Id, progress: int, message: string, result: Option<string>)

  /** The realtime channel, seen as the append-only log of everything
      emitted; delivery to clients is fire-and-forget and not modelled. */
  class Channel {
    var log: seq<Event>

    constructor ()
      ensures log == []
    {
      log := [];
    }

    /** `io.to(room).emit(name, payload)`. */
    method Emit(e: Event)
      modifies this
      ensures log == old(log) + [e]
    {
      log := log + [e];
    }
  }

  /** A worksheet as the spreadsheet codec represents it. */
  datatype Sheet = Sheet(cells: seq<seq<Cell>>)

  /** A decoded workbook: sheet names in order and the sheets by name. */
  datatype Workbook = Workbook(sheetNames: seq<string>, sheets: map<string, Sheet>)

  /** `workbook.Sheets[workbook.SheetNames[0]]`, which is undefined for a
      workbook without sheets. */
  function FirstSheet(wb: Workbook): (s: Option<Sheet>)
    ensures s.Some? <==> |wb.sheetNames| > 0 && wb.sheetNames[0] in wb.sheets
  {
    if |wb.sheetNames| > 0 && wb.sheetNames[0] in wb.sheets then Some(wb.sheets[wb.sheetNames[0]]) else None
  }

  /** The spreadsheet library and text decoding, as uninterpreted functions:
      `XLSX.read` (may throw), `sheet_to_json` and `sheet_to_csv` (which
      return [] and "" for an undefined sheet), and UTF-8 decoding. */
  datatype Codec = Codec(
    read: Bytes -> Result<Workbook>,
    sheetToJson: Option<Sheet> -> seq<Row>,
    sheetToCsv: Option<Sheet> -> string,
    utf8: Bytes -> string)

  /** Password hashing and token signing, as uninterpreted functions:
      `bcrypt.hash(password, 10)`, `bcrypt.compare(plain, hash)`,
      `jwt.sign(payload, secret, {expiresIn})` with the lifetime in seconds,
      and `jwt.verify(token, secret)` at a given time, which yields the
      claims or throws (bad signature, malformed, expired). */
  datatype Crypto = Crypto(
    hash: string -> string,
    compare: (string, string) -> bool,
    sign: (TokenPayload, nat) -> string,
    verify: (string, int) -> Option<Claims>)
}
