/** The file controller (controllers/fileController.js): upload with
    progress events, the owner-scoped queries, and the owner-checked
    delete. */
module FileController {
  import opened Common
  import opened Models
  import opened Http
  import opened Services

  const NoSocket := "Server configuration error: Socket.IO not initialized."
  const NoFile := "No file uploaded."
  const Done := "File uploaded and processed successfully!"
  const ProcessingFailed := "Error processing file"

  /** The multipart upload multer hands over: name, MIME type and bytes. */
  datatype Upload = Upload(originalname: string, mimetype: string, buffer: Bytes)

  /** `uploads/<userId>` and `uploads/<userId>/<originalname>`. */
  function UploadDir(u: Id): string { "uploads/" + NatToString(u) }

  function UploadPath(u: Id, name: string): string { UploadDir(u) + "/" + name }

  /** Distinct users get distinct upload directories. */
  lemma UploadDirInjective(u: Id, v: Id)
    requires UploadDir(u) == UploadDir(v)
    ensures u == v
  {
    var p := "uploads/";
    assert NatToString(u) == UploadDir(u)[|p|..];
    assert NatToString(v) == UploadDir(v)[|p|..];
    ParseNatToString(u);
    ParseNatToString(v);
  }

  /** The progress steps of a successful upload, in order. */
  const Steps: seq<(int, string)> := [
    (5, "Starting file upload..."),
    (15, "Upload directory ensured."),
    (40, "File saved to server."),
    (60, "Parsing Excel data..."),
    (80, "Excel data parsed."),
    (95, "File metadata saved to database."),
    (100, Done)]

  function Step(u: Id, i: nat): Event
    requires i < |Steps|
  {
    FileProgress(u, Steps[i].0, Steps[i].1)
  }

  /** The first `k` progress events sent to room `u`. */
  function Progress(u: Id, k: nat): (es: seq<Event>)
    requires k <= |Steps|
    ensures |es| == k
    ensures forall i :: 0 <= i < k ==> es[i] == Step(u, i)
  {
    if k == 0 then [] else Progress(u, k - 1) + [Step(u, k - 1)]
  }

  /** Where a failing upload stops: the number of progress events already
      sent and the error's message. */
  datatype Stop = Stop(sent: nat, error: string)

  /** The step at which the pipeline throws, if any: creating the
      directory, writing the file, decoding the workbook, or the store. */
  function UploadStop(u: Id, f: Upload, failing: set<string>, codec: Codec, online: bool)
    : (s: Option<Stop>)
    ensures s.Some? ==> s.value.sent in {1, 2, 3, 5}
    ensures s.None? <==> UploadDir(u) !in failing && UploadPath(u, f.originalname) !in failing
                         && codec.read(f.buffer).Ok? && online
  {
    if UploadDir(u) in failing then Some(Stop(1, FsError("EACCES", "mkdir", UploadDir(u))))
    else if UploadPath(u, f.originalname) in failing
    then Some(Stop(2, FsError("EACCES", "open", UploadPath(u, f.originalname))))
    else IngestStop(f, codec, online)
  }

  /** Where the upload stops once the file is on disk: decoding the
      workbook, or the store. */
  function IngestStop(f: Upload, codec: Codec, online: bool): Option<Stop> {
    if codec.read(f.buffer).Err? then Some(Stop(3, codec.read(f.buffer).message))
    else if !online then Some(Stop(5, DbUnavailable))
    else None
  }

  /** The rows stored for an upload: the first sheet as JSON rows. */
  function ParsedRows(codec: Codec, buffer: Bytes): seq<Row>
    requires codec.read(buffer).Ok?
  {
    codec.sheetToJson(FirstSheet(codec.read(buffer).value))
  }

  /** The events one upload sends: all seven steps, or the steps before the
      failure followed by a `processing_error`. */
  function UploadEvents(u: Id, stop: Option<Stop>): seq<Event>
    requires stop.Some? ==> stop.value.sent < |Steps|
  {
    match stop
    case None => Progress(u, |Steps|)
    case Some(Stop(k, m)) => Progress(u, k) + [ProcessingError(u, "Error processing file: " + m, m)]
  }

  /** Every upload event goes to the uploader's room, progress strictly
      increases, a successful upload ends at 100%, and a failed one ends
      with `processing_error` and never reports 100%. */
  lemma UploadEventsShape(u: Id, stop: Option<Stop>)
    requires stop.Some? ==> stop.value.sent < |Steps|
    ensures var es := UploadEvents(u, stop);
      && |es| > 0
      && (forall e :: e in es ==> e.room == u)
      && (forall i, j :: 0 <= i < j < |es| && es[i].FileProgress? && es[j].FileProgress?
            ==> es[i].progress < es[j].progress)
      && (stop.None? ==> es[|es| - 1] == FileProgress(u, 100, Done))
      && (stop.Some? ==> es[|es| - 1].ProcessingError?
                         && forall e :: e in es ==> !(e.FileProgress? && e.progress == 100))
  {
    var es := UploadEvents(u, stop);
    var k := if stop.None? then |Steps| else stop.value.sent;
    assert forall i :: 0 <= i < k ==> es[i] == Step(u, i);
    assert forall i :: 0 <= i < |es| && !es[i].FileProgress? ==> i == |es| - 1 && stop.Some?;
  }

  /** `uploadFile`: without a channel handle it answers 500 and without a
      file 400, touching nothing; otherwise it runs the upload pipeline. */
  method UploadFile(io: Channel?, file: Option<Upload>, u: Id, db: Db, fs: FileSystem,
                    codec: Codec, now: int) returns (res: Response<(Id, string)>)
    requires db.Valid()
    modifies io, db, fs
    ensures db.Valid()
    ensures db.users == old(db.users) && db.history == old(db.history) && db.online == old(db.online)
    ensures fs.failing == old(fs.failing)
    ensures io == null ==> res == Response(500, Msg(NoSocket))
    ensures io != null && file.None? ==> res == Response(400, Msg(NoFile)) && io.log == old(io.log)
    ensures io == null || file.None? ==>
      db.files == old(db.files) && db.nextId == old(db.nextId) && fs.contents == old(fs.contents)
    ensures io != null && file.Some? ==> PipelineDone(io, file.value, u, db, fs, codec, now,
      old(io.log), old(db.files), old(db.nextId), old(fs.contents), old(fs.failing), old(db.online), res)
  {
    if io == null {
      return Response(500, Msg(NoSocket));
    }
    if file.None? {
      return Response(400, Msg(NoFile));
    }
    res := Pipeline(io, file.value, u, db, fs, codec, now);
  }

  /** The state after the upload pipeline ran from the given old state: the
      events of `UploadEvents`, the file written once the write step was
      reached, and on success the record upserted under (user, filename); a
      failure answers 500 with the error and leaves the store as it was. */
  ghost predicate PipelineDone(io: Channel, f: Upload, u: Id, db: Db, fs: FileSystem, codec: Codec, now: int,
                               log0: seq<Event>, files0: seq<FileDoc>, nextId0: Id,
                               contents0: map<string, Bytes>, failing0: set<string>, online0: bool,
                               res: Response<(Id, string)>)
    reads io, db, fs
  {
    var stop := UploadStop(u, f, failing0, codec, online0);
    && io.log == log0 + UploadEvents(u, stop)
    && fs.contents == (if stop.Some? && stop.value.sent < 3 then contents0
                       else contents0[UploadPath(u, f.originalname) := f.buffer])
    && (stop.Some? ==> res == Response(500, MsgError(ProcessingFailed, stop.value.error))
                       && db.files == files0 && db.nextId == nextId0)
    && (stop.None? ==>
          var doc := FileDoc(nextId0, f.originalname, UploadPath(u, f.originalname), f.mimetype,
                             ParsedRows(codec, f.buffer), u, now, now, now);
          && db.files == Upserted(files0, doc)
          && res == Response(200, MsgData(Done, (UpsertedRecord(files0, doc).id, f.originalname))))
  }

  /** The `try` block of `uploadFile` and its `catch`. */
  method Pipeline(io: Channel, f: Upload, u: Id, db: Db, fs: FileSystem, codec: Codec, now: int)
    returns (res: Response<(Id, string)>)
    requires db.Valid()
    modifies io, db, fs
    ensures db.Valid()
    ensures db.users == old(db.users) && db.history == old(db.history) && db.online == old(db.online)
    ensures fs.failing == old(fs.failing)
    ensures PipelineDone(io, f, u, db, fs, codec, now, old(io.log), old(db.files), old(db.nextId),
                         old(fs.contents), old(fs.failing), old(db.online), res)
  {
    ghost var log0 := io.log;
    var err := SaveFile(io, u, f, fs);
    if err.Some? {
      res := Fail(io, u, err.value);
      return;
    }
    res := Ingest(io, u, f, db, codec, now, log0);
  }

  /** The rest of the `try` block once the file is on disk: decode the
      workbook, upsert the record, and report each step; or the `catch`
      block when decoding or the store fails. */
  method Ingest(io: Channel, u: Id, f: Upload, db: Db, codec: Codec, now: int, ghost log0: seq<Event>)
    returns (res: Response<(Id, string)>)
    requires db.Valid() && io.log == log0 + Progress(u, 3)
    modifies io, db
    ensures db.Valid()
    ensures db.users == old(db.users) && db.history == old(db.history) && db.online == old(db.online)
    ensures var stop := IngestStop(f, codec, old(db.online));
      && io.log == log0 + UploadEvents(u, stop)
      && (stop.Some? ==> res == Response(500, MsgError(ProcessingFailed, stop.value.error))
                         && db.files == old(db.files) && db.nextId == old(db.nextId))
      && (stop.None? ==>
            var doc := FileDoc(old(db.nextId), f.originalname, UploadPath(u, f.originalname), f.mimetype,
                               ParsedRows(codec, f.buffer), u, now, now, now);
            && db.files == Upserted(old(db.files), doc)
            && res == Response(200, MsgData(Done, (UpsertedRecord(old(db.files), doc).id, f.originalname))))
  {
    var workbook := codec.read(f.buffer);
    if workbook.Err? {
      res := Fail(io, u, workbook.message);
      return;
    }
    io.Emit(Step(u, 3));
    var jsonData := codec.sheetToJson(FirstSheet(workbook.value));
    io.Emit(Step(u, 4));
    assert io.log == log0 + Progress(u, 5);
    res := Record(io, u, f, db, jsonData, now, log0);
  }

  /** The last steps of the `try` block: the upsert and its two progress
      events, or the `catch` block when the store fails. */
  method Record(io: Channel, u: Id, f: Upload, db: Db, rows: seq<Row>, now: int, ghost log0: seq<Event>)
    returns (res: Response<(Id, string)>)
    requires db.Valid() && io.log == log0 + Progress(u, 5)
    modifies io, db
    ensures db.Valid()
    ensures db.users == old(db.users) && db.history == old(db.history) && db.online == old(db.online)
    ensures !old(db.online) ==>
      && io.log == log0 + UploadEvents(u, Some(Stop(5, DbUnavailable)))
      && res == Response(500, MsgError(ProcessingFailed, DbUnavailable))
      && db.files == old(db.files) && db.nextId == old(db.nextId)
    ensures old(db.online) ==>
      var doc := FileDoc(old(db.nextId), f.originalname, UploadPath(u, f.originalname), f.mimetype,
                         rows, u, now, now, now);
      && io.log == log0 + UploadEvents(u, None)
      && db.files == Upserted(old(db.files), doc)
      && res == Response(200, MsgData(Done, (UpsertedRecord(old(db.files), doc).id, f.originalname)))
  {
    var saved := db.UpsertFile(u, f.originalname, UploadPath(u, f.originalname), f.mimetype, rows, now);
    if saved.Err? {
      res := Fail(io, u, saved.message);
      return;
    }
    io.Emit(Step(u, 5));
    io.Emit(Step(u, 6));
    assert io.log == log0 + Progress(u, 7);
    res := Response(200, MsgData(Done, (saved.value.id, saved.value.filename)));
  }

  /** The first three steps of the pipeline: the progress events around
      creating the user's directory and writing the file into it, stopping
      at the first that fails. */
  method SaveFile(io: Channel, u: Id, f: Upload, fs: FileSystem) returns (err: Option<string>)
    modifies io, fs
    ensures fs.failing == old(fs.failing)
    ensures var dir := UploadDir(u);
      var path := UploadPath(u, f.originalname);
      && err == (if dir in old(fs.failing) then Some(FsError("EACCES", "mkdir", dir))
                 else if path in old(fs.failing) then Some(FsError("EACCES", "open", path))
                 else None)
      && io.log == old(io.log) + Progress(u, if dir in old(fs.failing) then 1
                                             else if path in old(fs.failing) then 2 else 3)
      && fs.contents == (if err.Some? then old(fs.contents) else old(fs.contents)[path := f.buffer])
  {
    ghost var log0 := io.log;
    io.Emit(Step(u, 0));
    assert io.log == log0 + Progress(u, 1);
    err := fs.Mkdir(UploadDir(u));
    if err.Some? {
      return;
    }
    io.Emit(Step(u, 1));
    assert io.log == log0 + Progress(u, 2);
    err := fs.WriteFile(UploadPath(u, f.originalname), f.buffer);
    if err.Some? {
      return;
    }
    io.Emit(Step(u, 2));
    assert io.log == log0 + Progress(u, 3);
  }

  /** The catch block of `uploadFile`. */
  method Fail(io: Channel, u: Id, message: string) returns (res: Response<(Id, string)>)
    modifies io
    ensures io.log == old(io.log) + [ProcessingError(u, "Error processing file: " + message, message)]
    ensures res == Response(500, MsgError(ProcessingFailed, message))
  {
    io.Emit(ProcessingError(u, "Error processing file: " + message, message));
    res := Response(500, MsgError(ProcessingFailed, message));
  }

  function UploadDate(f: FileDoc): int { f.uploadDate }

  /** The caller's records, newest first (`File.find({uploadedBy}).sort({uploadDate: -1})`). */
  function OwnFilesNewestFirst(files: seq<FileDoc>, u: Id): (r: seq<FileDoc>)
    ensures SortedDesc(r, UploadDate)
    ensures multiset(r) == multiset(Filter(files, OwnedBy(u)))
    ensures forall f :: f in r <==> f in files && f.uploadedBy == u
  {
    var r := SortDesc(Filter(files, OwnedBy(u)), UploadDate);
    assert forall f :: f in r <==> f in Filter(files, OwnedBy(u)) by {
      forall f ensures f in r <==> f in Filter(files, OwnedBy(u)) {
        SortDescMembers(Filter(files, OwnedBy(u)), UploadDate, f);
      }
    }
    r
  }

  /** `getMostRecentFile(userId)`: a record of the user with the latest
      upload date, or null when the user has none or the store throws. */
  function MostRecentFile(files: seq<FileDoc>, online: bool, u: Id): (r: Option<FileDoc>)
    ensures !online ==> r.None?
    ensures online ==> (r.None? <==> forall f :: f in files ==> f.uploadedBy != u)
    ensures r.Some? ==> r.value in files && r.value.uploadedBy == u
                        && forall f :: f in files && f.uploadedBy == u ==> f.uploadDate <= r.value.uploadDate
  {
    var s := OwnFilesNewestFirst(files, u);
    if !online || s == [] then None
    else
      HeadIsNewest(s);
      Some(s[0])
  }

  /** The head of a list sorted newest first has the latest date. */
  lemma HeadIsNewest(s: seq<FileDoc>)
    requires SortedDesc(s, UploadDate) && s != []
    ensures forall f :: f in s ==> f.uploadDate <= s[0].uploadDate
  {
    forall f | f in s ensures f.uploadDate <= s[0].uploadDate {
      var k :| 0 <= k < |s| && s[k] == f;
      assert k == 0 || UploadDate(s[0]) >= UploadDate(s[k]);
    }
  }

  /** What an Express handler does with a request: answer it, or let an
      exception escape (the promise rejects and no response is sent). */
  datatype Outcome<T> = Replied(response: Response<T>) | Unhandled(error: string)

  const FetchFailed := "Error fetching files"

  /** `getFiles` as written: its `catch` block reads `userId`, which was
      declared inside the `try` block, so a store error turns into a
      ReferenceError that escapes the handler. */
  function GetFilesAsWritten(files: seq<FileDoc>, online: bool, u: Id): Outcome<seq<FileDoc>> {
    if online then Replied(Response(200, Data(OwnFilesNewestFirst(files, u))))
    else Unhandled("ReferenceError: userId is not defined")
  }

  /** `getFiles` as intended: the caller's records newest first, or the 500
      response carrying the store's error. */
  function GetFiles(files: seq<FileDoc>, online: bool, u: Id): (r: Response<seq<FileDoc>>)
    ensures r.status == 200 <==> online
    ensures !online ==> r == Response(500, MsgError(FetchFailed, DbUnavailable))
    ensures online ==> r.body.Data? && SortedDesc(r.body.payload, UploadDate)
                       && (forall f :: f in r.body.payload <==> f in files && f.uploadedBy == u)
                       && multiset(r.body.payload) == multiset(Filter(files, OwnedBy(u)))
  {
    if online then Response(200, Data(OwnFilesNewestFirst(files, u)))
    else Response(500, MsgError(FetchFailed, DbUnavailable))
  }

  /** The discrepancy: when the store throws, the handler as written sends
      nothing, while the intended handler answers 500; otherwise they agree. */
  lemma GetFilesStoreError(files: seq<FileDoc>, online: bool, u: Id)
    ensures !online ==> GetFilesAsWritten(files, online, u).Unhandled?
                        && GetFiles(files, online, u).status == 500
    ensures online ==> GetFilesAsWritten(files, online, u) == Replied(GetFiles(files, online, u))
  {
  }

  /** `File.findOne({_id: id, uploadedBy: u})`. */
  function OwnedRecord(files: seq<FileDoc>, id: Id, u: Id): (r: Option<FileDoc>)
    ensures r.None? <==> forall f :: f in files ==> !(f.id == id && f.uploadedBy == u)
    ensures r.Some? ==> r.value in files && r.value.id == id && r.value.uploadedBy == u
  {
    if files == [] then None
    else if files[0].id == id && files[0].uploadedBy == u then Some(files[0])
    else
      assert files == [files[0]] + files[1..];
      OwnedRecord(files[1..], id, u)
  }

  /** Deleting by a unique id removes exactly that record: what is left is
      the records before it followed by the records after it. */
  lemma DeleteByIdRemovesOne(files: seq<FileDoc>, k: nat)
    requires DistinctFileIds(files) && k < |files|
    ensures Filter(files, FileIdNotIn({files[k].id})) == files[..k] + files[k + 1..]
    ensures multiset(Filter(files, FileIdNotIn({files[k].id}))) == multiset(files) - multiset{files[k]}
  {
    var before, after := files[..k], files[k + 1..];
    assert files == before + [files[k]] + after;
    OthersKept(files, k);
    FilterDropsOne(before, files[k], after, FileIdNotIn({files[k].id}));
  }

  /** With distinct ids, every record but the k-th passes the id filter. */
  lemma OthersKept(files: seq<FileDoc>, k: nat)
    requires DistinctFileIds(files) && k < |files|
    ensures Filter(files[..k], FileIdNotIn({files[k].id})) == files[..k]
    ensures Filter(files[k + 1..], FileIdNotIn({files[k].id})) == files[k + 1..]
  {
    var p := FileIdNotIn({files[k].id});
    var before, after := files[..k], files[k + 1..];
    forall j | 0 <= j < |before| ensures p(before[j]) {
      assert before[j] == files[j];
    }
    forall j | 0 <= j < |after| ensures p(after[j]) {
      assert after[j] == files[k + 1 + j];
    }
    FilterAllKept(before, p);
    FilterAllKept(after, p);
  }

  const DeleteFailed := "Error deleting file"
  const NotFoundOrNotOwned := "File not found or not authorized to delete."
  const Deleted := "File deleted successfully."

  /** `deleteFile`: only a record with that id owned by the caller is
      removed, after its stored file (if present) has been unlinked; an
      unlink failure answers 500 and keeps the record. */
  method DeleteFile(db: Db, fs: FileSystem, u: Id, fileId: Id) returns (res: Response<()>)
    requires db.Valid()
    modifies db, fs
    ensures db.Valid()
    ensures db.users == old(db.users) && db.history == old(db.history)
    ensures db.nextId == old(db.nextId) && db.online == old(db.online) && fs.failing == old(fs.failing)
    ensures !old(db.online) ==> res == Response(500, MsgError(DeleteFailed, DbUnavailable))
                                && db.files == old(db.files) && fs.contents == old(fs.contents)
    ensures old(db.online) ==>
      var rec := OwnedRecord(old(db.files), fileId, u);
      && (rec.None? ==> res == Response(404, Msg(NotFoundOrNotOwned))
                        && db.files == old(db.files) && fs.contents == old(fs.contents))
      && (rec.Some? ==>
            var p := rec.value.filepath;
            var unlink := p != "" && p in old(fs.contents);
            if unlink && p in fs.failing then
              res == Response(500, MsgError(DeleteFailed, FsError("EACCES", "unlink", p)))
              && db.files == old(db.files) && fs.contents == old(fs.contents)
            else
              res == Response(200, Msg(Deleted))
              && db.files == Filter(old(db.files), FileIdNotIn({fileId}))
              && fs.contents == (if unlink then old(fs.contents) - {p} else old(fs.contents)))
  {
    if !db.online {
      return Response(500, MsgError(DeleteFailed, DbUnavailable));
    }
    var rec := OwnedRecord(db.files, fileId, u);
    if rec.None? {
      return Response(404, Msg(NotFoundOrNotOwned));
    }
    var p := rec.value.filepath;
    if p != "" && fs.Exists(p) {
      var err := fs.Unlink(p);
      if err.Some? {
        return Response(500, MsgError(DeleteFailed, err.value));
      }
    }
    var err := db.DeleteFileById(fileId);
    res := Response(200, Msg(Deleted));
  }

  /** A successful delete removes exactly the caller's record and leaves
      every other record in place. */
  lemma DeleteFileRemovesOnlyTarget(files: seq<FileDoc>, fileId: Id, u: Id)
    requires DistinctFileIds(files) && OwnedRecord(files, fileId, u).Some?
    ensures var f := OwnedRecord(files, fileId, u).value;
      multiset(Filter(files, FileIdNotIn({fileId}))) == multiset(files) - multiset{f}
  {
    var k :| 0 <= k < |files| && files[k] == OwnedRecord(files, fileId, u).value;
    DeleteByIdRemovesOne(files, k);
  }
}
