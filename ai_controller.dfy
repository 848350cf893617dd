/** The analysis controller (controllers/aiController.js): summarizes the
    caller's most recent upload, reporting progress on the realtime channel. */
module AiController {
  import opened Common
  import opened Models
  import opened Http
  import opened Services
  import FileController

  const NoSocket := "Server error: Socket.IO not initialized."
  const NoFileFound := "No file found for analysis."
  const Complete := "AI analysis complete."
  const AnalysisFailed := "Error during AI analysis."
  const CsvType := "text/csv"
  const XlsxType := "application/vnd.openxmlformats-officedocument.spreadsheetml.sheet"
  const XlsType := "application/vnd.ms-excel"

  /** The progress messages of an analysis. */
  const Fetching := "Fetching most recent file."
  const NoFileDetail := "No file found for AI analysis. Please upload a file first."
  const ParsingExcel := "Parsing Excel file for AI analysis..."
  const Sending := "Sending data to Gemini AI."
  const UnsupportedType := "Unsupported file type for AI analysis."

  function Preparing(filename: string): string { "Preparing data from \"" + filename + "\" for AI." }
  function UnsupportedMime(mime: string): string { "Unsupported file type: " + mime }
  function UnsupportedDetail(mime: string): string { UnsupportedMime(mime) + ". Please upload a CSV or Excel file." }
  function ErrorMessage(m: string): string { "Error during AI analysis: " + m }
  function ErrorDetail(m: string): string { "Failed to get insights: " + m }

  /** How the stored file is read for the summarizer. */
  datatype Decoder = CsvText | ExcelToCsv | Unsupported

  /** The MIME dispatch: CSV is read as text, the two Excel types are
      converted to CSV, anything else is refused. */
  function DecoderFor(mime: string): (d: Decoder)
    ensures d == CsvText <==> mime == CsvType
    ensures d == ExcelToCsv <==> mime == XlsxType || mime == XlsType
    ensures d == Unsupported <==> mime !in {CsvType, XlsxType, XlsType}
  {
    if mime == CsvType then CsvText
    else if mime == XlsxType || mime == XlsType then ExcelToCsv
    else Unsupported
  }

  /** `content.substring(0, 5000)`. */
  function Truncate(content: string): (t: string)
    ensures |t| == Min(5000, |content|)
    ensures t == content[..|t|]
    ensures |content| <= 5000 ==> t == content
  {
    content[..Min(5000, |content|)]
  }

  const Intro := "Analyze the following data from an Excel/CSV file. Provide a concise summary of key insights, trends, and any notable observations. If it's a medicine booklet, highlight expiry dates, quantities, and suggest any immediate actions."

  /** The prompt sent to the summarizer. */
  function Prompt(filename: string, content: string): string {
    Intro + "\n        \n        File Name: " + filename + "\n        File Content:\n"
      + Truncate(content) + "... (truncated for brevity if very large)"
  }

  /** The prompt carries the first 5000 characters of the content, or all
      of it when shorter, and nothing past them. */
  lemma PromptEmbedsTruncatedContent(filename: string, content: string)
    ensures var head := Intro + "\n        \n        File Name: " + filename + "\n        File Content:\n";
      var p := Prompt(filename, content);
      var t := Truncate(content);
      |p| == |head| + |t| + |"... (truncated for brevity if very large)"|
      && p[|head|..|head| + |t|] == t
      && |t| == Min(5000, |content|) && t == content[..|t|]
  {
  }

  /** `emitProgress`: one `ai_analysis_progress` event to the user's room;
      nothing at all while the channel handle is unset. */
  method EmitProgress(io: Channel?, u: Id, progress: int, message: string, result: Option<string>)
    modifies io
    ensures io != null ==> io.log == old(io.log) + [AnalysisProgress(u, progress, message, result)]
  {
    if io != null {
      io.Emit(AnalysisProgress(u, progress, message, result));
    }
  }

  /** The text handed to the summarizer, or the error thrown while reading
      it: CSV bytes are decoded as UTF-8, an Excel workbook has its first
      sheet converted to CSV. */
  function Content(d: Decoder, path: string, contents: map<string, Bytes>, failing: set<string>,
                   codec: Codec): (r: Result<string>)
    requires d != Unsupported
    ensures ReadOutcome(contents, failing, path).Err? ==> r == Err(ReadOutcome(contents, failing, path).message)
    ensures r.Ok? <==> && ReadOutcome(contents, failing, path).Ok?
                       && (d == CsvText || codec.read(ReadOutcome(contents, failing, path).value).Ok?)
    ensures r.Ok? && d == CsvText ==> r.value == codec.utf8(contents[path])
    ensures r.Ok? && d != CsvText ==> r.value == codec.sheetToCsv(FirstSheet(codec.read(contents[path]).value))
    ensures r.Err? && ReadOutcome(contents, failing, path).Ok? ==>
              d != CsvText && r == Err(codec.read(contents[path]).message)
  {
    match ReadOutcome(contents, failing, path)
    case Err(m) => Err(m)
    case Ok(bytes) =>
      if d == CsvText then Ok(codec.utf8(bytes))
      else match codec.read(bytes)
        case Err(m) => Err(m)
        case Ok(wb) => Ok(codec.sheetToCsv(FirstSheet(wb)))
  }

  /** The events and the response of one analysis. */
  datatype Analysis = Analysis(events: seq<Event>, response: Response<string>)

  /** The `catch` block: a 0% event with the error, then a 500. */
  function Failure(u: Id, m: string): Analysis {
    Analysis([AnalysisProgress(u, 0, ErrorMessage(m), Some(ErrorDetail(m)))],
             Response(500, MsgError(AnalysisFailed, m)))
  }

  /** The 20% event, sent only before converting an Excel workbook. */
  function ParsingEvent(u: Id): Event {
    AnalysisProgress(u, 20, ParsingExcel, None)
  }

  /** Everything after reading the content: the 30% and 60% events, the
      summarizer call and its 100% event; or the failure of the read or of
      the call. */
  function Summarized(u: Id, f: FileDoc, content: Result<string>, summarize: string -> Result<string>): Analysis {
    match content
    case Err(m) => Failure(u, m)
    case Ok(c) =>
      var sent := [AnalysisProgress(u, 30, Preparing(f.filename), None),
                   AnalysisProgress(u, 60, Sending, None)];
      match summarize(Prompt(f.filename, c))
      case Err(m) => var e := Failure(u, m); Analysis(sent + e.events, e.response)
      case Ok(text) => Analysis(sent + [AnalysisProgress(u, 100, Complete, Some(text))],
                                Response(200, MsgData(Complete, text)))
  }

  /** What `analyzeData` does for user `u` once the channel is set, given
      the user's most recent file (None when there is none or the lookup
      failed), the filesystem, the codec and the summarizer. */
  function Analyze(u: Id, recent: Option<FileDoc>, contents: map<string, Bytes>, failing: set<string>,
                   codec: Codec, summarize: string -> Result<string>): Analysis
  {
    var start := [AnalysisProgress(u, 10, Fetching, None)];
    if recent.None? then
      Analysis(start + [AnalysisProgress(u, 0, NoFileFound,
                                         Some(NoFileDetail))],
               Response(404, Msg(NoFileFound)))
    else
      var a := Found(u, recent.value, contents, failing, codec, summarize);
      Analysis(start + a.events, a.response)
  }

  /** The analysis of a file that was found: refused unless its MIME type
      is supported, otherwise read and summarized. */
  function Found(u: Id, f: FileDoc, contents: map<string, Bytes>, failing: set<string>,
                 codec: Codec, summarize: string -> Result<string>): Analysis
  {
    var d := DecoderFor(f.fileMimeType);
    if d == Unsupported then
      Analysis([AnalysisProgress(u, 0, UnsupportedType,
                                 Some(UnsupportedDetail(f.fileMimeType)))],
               Response(400, Msg(UnsupportedMime(f.fileMimeType))))
    else
      var rest := Summarized(u, f, Content(d, f.filepath, contents, failing, codec), summarize);
      if d == ExcelToCsv then Analysis([ParsingEvent(u)] + rest.events, rest.response) else rest
  }

  /** The events all go to room `u` as progress events; every one before
      the last is at least `lo` and below 100, and they strictly increase. */
  ghost predicate Climbs(es: seq<Event>, u: Id, lo: int) {
    && |es| >= 1
    && (forall e :: e in es ==> e.AnalysisProgress? && e.room == u)
    && (forall i :: 0 <= i < |es| - 1 ==> lo <= es[i].progress < 100)
    && (forall i, j :: 0 <= i < j < |es| - 1 ==> es[i].progress < es[j].progress)
  }

  /** How an analysis reports to user `u`: its events climb from `lo`; the
      last is at 100% exactly when the response is a 200, and then carries
      the insights the response returns; otherwise it is at 0%. */
  ghost predicate Reports(a: Analysis, u: Id, lo: int) {
    && Climbs(a.events, u, lo)
    && var last := a.events[|a.events| - 1];
    && (a.response.status == 200 <==> last.progress == 100)
    && (a.response.status != 200 ==> last.progress == 0)
    && (a.response.status == 200 ==> a.response.body.MsgData? && last.result == Some(a.response.body.payload))
  }

  /** An earlier event below the first keeps the events climbing, from a
      lower floor, and leaves the last event where it was. */
  lemma ClimbsPrepend(e: Event, es: seq<Event>, u: Id, lo: int, floor: int)
    requires Climbs(es, u, lo)
    requires e.AnalysisProgress? && e.room == u && floor <= e.progress < lo <= 100
    ensures Climbs([e] + es, u, floor)
    ensures ([e] + es)[|es|] == es[|es| - 1]
  {
    var es2 := [e] + es;
    forall x | x in es2 ensures x.AnalysisProgress? && x.room == u {
      if x != e { assert x in es; }
    }
    forall i | 0 <= i < |es2| - 1 ensures floor <= es2[i].progress < 100 {
      if i > 0 { assert es2[i] == es[i - 1]; }
    }
    forall i, j | 0 <= i < j < |es2| - 1 ensures es2[i].progress < es2[j].progress {
      assert es2[j] == es[j - 1];
      if i > 0 { assert es2[i] == es[i - 1]; }
    }
  }

  /** An earlier progress event keeps the report's shape. */
  lemma ReportsPrepend(e: Event, a: Analysis, u: Id, lo: int, floor: int)
    requires Reports(a, u, lo)
    requires e.AnalysisProgress? && e.room == u && floor <= e.progress < lo <= 100
    ensures Reports(Analysis([e] + a.events, a.response), u, floor)
  {
    ClimbsPrepend(e, a.events, u, lo, floor);
  }

  /** A report of one event, of a failure or of a refusal. */
  lemma ReportsSingle(e: Event, r: Response<string>, u: Id, lo: int)
    requires e.AnalysisProgress? && e.room == u && e.progress == 0 && r.status != 200
    ensures Reports(Analysis([e], r), u, lo)
  {
  }

  /** The tail of a supported analysis reports from 30%. */
  lemma SummarizedProgress(u: Id, f: FileDoc, content: Result<string>, summarize: string -> Result<string>)
    ensures Reports(Summarized(u, f, content, summarize), u, 30)
  {
    var a := Summarized(u, f, content, summarize);
    match content
    case Err(m) =>
      ReportsSingle(a.events[0], a.response, u, 30);
    case Ok(c) =>
      var tail := Analysis(a.events[2..], a.response);
      assert |tail.events| == 1;
      var e60 := AnalysisProgress(u, 60, Sending, None);
      assert Reports(tail, u, 100);
      ReportsPrepend(e60, tail, u, 100, 60);
      ReportsPrepend(AnalysisProgress(u, 30, Preparing(f.filename), None), Analysis([e60] + tail.events, a.response), u, 60, 30);
      assert a.events == [AnalysisProgress(u, 30, Preparing(f.filename), None)] + ([e60] + tail.events);
  }

  /** The analysis of a found file reports from 20%. */
  lemma FoundProgress(u: Id, f: FileDoc, contents: map<string, Bytes>, failing: set<string>,
                      codec: Codec, summarize: string -> Result<string>)
    ensures Reports(Found(u, f, contents, failing, codec, summarize), u, 20)
  {
    var d := DecoderFor(f.fileMimeType);
    if d != Unsupported {
      var content := Content(d, f.filepath, contents, failing, codec);
      SummarizedProgress(u, f, content, summarize);
      if d == ExcelToCsv {
        ReportsPrepend(ParsingEvent(u), Summarized(u, f, content, summarize), u, 30, 20);
      }
    } else {
      ReportsSingle(AnalysisProgress(u, 0, UnsupportedType, Some(UnsupportedDetail(f.fileMimeType))),
                    Response(400, Msg(UnsupportedMime(f.fileMimeType))), u, 20);
    }
  }

  /** Every event of an analysis goes to the user's room; there are at
      least two; progress strictly increases up to the last event, which is
      at 100% exactly when the response is a 200 and then carries the
      insights returned, and is otherwise at 0%. */
  lemma AnalyzeProgress(u: Id, recent: Option<FileDoc>, contents: map<string, Bytes>, failing: set<string>,
                        codec: Codec, summarize: string -> Result<string>)
    ensures var a := Analyze(u, recent, contents, failing, codec, summarize);
      |a.events| >= 2 && Reports(a, u, 10)
  {
    var start := AnalysisProgress(u, 10, Fetching, None);
    if recent.Some? {
      var found := Found(u, recent.value, contents, failing, codec, summarize);
      FoundProgress(u, recent.value, contents, failing, codec, summarize);
      ReportsPrepend(start, found, u, 20, 10);
    } else {
      var none := Analysis([AnalysisProgress(u, 0, NoFileFound, Some(NoFileDetail))], Response(404, Msg(NoFileFound)));
      ReportsSingle(none.events[0], none.response, u, 20);
      ReportsPrepend(start, none, u, 20, 10);
    }
  }

  /** An analysis succeeds exactly when there is a file of a supported type
      whose content reads and the summarizer answers; its events are then
      10%, 20% (Excel only), 30%, 60% and 100% with the insights. */
  lemma AnalyzeSuccessSteps(u: Id, recent: Option<FileDoc>, contents: map<string, Bytes>, failing: set<string>,
                            codec: Codec, summarize: string -> Result<string>)
    ensures var a := Analyze(u, recent, contents, failing, codec, summarize);
      && (a.response.status == 200 <==>
            && recent.Some?
            && DecoderFor(recent.value.fileMimeType) != Unsupported
            && Content(DecoderFor(recent.value.fileMimeType), recent.value.filepath, contents, failing, codec).Ok?
            && summarize(Prompt(recent.value.filename,
                                Content(DecoderFor(recent.value.fileMimeType), recent.value.filepath,
                                        contents, failing, codec).value)).Ok?)
      && (a.response.status == 200 ==>
            && a.response.body.MsgData?
            && a.events == [AnalysisProgress(u, 10, Fetching, None)]
                           + (if DecoderFor(recent.value.fileMimeType) == ExcelToCsv then [ParsingEvent(u)] else [])
                           + [AnalysisProgress(u, 30, Preparing(recent.value.filename), None),
                              AnalysisProgress(u, 60, Sending, None),
                              AnalysisProgress(u, 100, Complete, Some(a.response.body.payload))])
  {
  }

  /** Without a file, or for an unsupported type, the summarizer is never
      consulted: its answers make no difference. */
  lemma AnalyzeSkipsSummarizer(u: Id, recent: Option<FileDoc>, contents: map<string, Bytes>, failing: set<string>,
                               codec: Codec, s1: string -> Result<string>, s2: string -> Result<string>)
    requires recent.None? || DecoderFor(recent.value.fileMimeType) == Unsupported
    ensures Analyze(u, recent, contents, failing, codec, s1) == Analyze(u, recent, contents, failing, codec, s2)
    ensures Analyze(u, recent, contents, failing, codec, s1).response.status == (if recent.None? then 404 else 400)
  {
  }

  /** `analyzeData`: a 500 before any lookup or event when the channel is
      unset; otherwise the events and response of `Analyze` for the user's
      most recent file. */
  method AnalyzeData(io: Channel?, u: Id, db: Db, fs: FileSystem, codec: Codec,
                     summarize: string -> Result<string>) returns (res: Response<string>)
    modifies io
    ensures io == null ==> res == Response(500, Msg(NoSocket))
    ensures io != null ==>
      var a := Analyze(u, FileController.MostRecentFile(db.files, db.online, u), fs.contents, fs.failing,
                       codec, summarize);
      io.log == old(io.log) + a.events && res == a.response
  {
    if io == null {
      return Response(500, Msg(NoSocket));
    }
    var recentFile := FileController.MostRecentFile(db.files, db.online, u);
    res := AnalyzeRecent(io, u, recentFile, fs, codec, summarize);
  }

  /** The `try` block of `analyzeData`, given the outcome of the lookup of
      the most recent file (which itself never throws). */
  method AnalyzeRecent(io: Channel, u: Id, recentFile: Option<FileDoc>, fs: FileSystem, codec: Codec,
                       summarize: string -> Result<string>) returns (res: Response<string>)
    modifies io
    ensures var a := Analyze(u, recentFile, fs.contents, fs.failing, codec, summarize);
      io.log == old(io.log) + a.events && res == a.response
  {
    ghost var start := [AnalysisProgress(u, 10, Fetching, None)];
    EmitProgress(io, u, 10, Fetching, None);
    if recentFile.None? {
      EmitProgress(io, u, 0, NoFileFound, Some(NoFileDetail));
      return Response(404, Msg(NoFileFound));
    }
    res := AnalyzeFile(io, u, recentFile.value, fs, codec, summarize);
    AppendAssoc(old(io.log), start, Found(u, recentFile.value, fs.contents, fs.failing, codec, summarize).events);
  }

  /** The part of `analyzeData` after a file was found. */
  method AnalyzeFile(io: Channel, u: Id, f: FileDoc, fs: FileSystem, codec: Codec,
                     summarize: string -> Result<string>) returns (res: Response<string>)
    modifies io
    ensures var a := Found(u, f, fs.contents, fs.failing, codec, summarize);
      io.log == old(io.log) + a.events && res == a.response
  {
    var d := DecoderFor(f.fileMimeType);
    if d == Unsupported {
      EmitProgress(io, u, 0, UnsupportedType,
                   Some(UnsupportedDetail(f.fileMimeType)));
      return Response(400, Msg(UnsupportedMime(f.fileMimeType)));
    }
    var content := ReadContent(io, u, d, f.filepath, fs, codec);
    res := Summarize(io, u, f, content, summarize);
    if d == ExcelToCsv {
      AppendAssoc(old(io.log), [ParsingEvent(u)], Summarized(u, f, content, summarize).events);
    }
  }

  /** The rest of the `try` block once the content is read, and the
      `catch` block. */
  method Summarize(io: Channel, u: Id, f: FileDoc, content: Result<string>, summarize: string -> Result<string>)
    returns (res: Response<string>)
    modifies io
    ensures io.log == old(io.log) + Summarized(u, f, content, summarize).events
    ensures res == Summarized(u, f, content, summarize).response
  {
    if content.Err? {
      res := Fail(io, u, content.message);
      return;
    }
    EmitProgress(io, u, 30, Preparing(f.filename), None);
    var prompt := Prompt(f.filename, content.value);
    EmitProgress(io, u, 60, Sending, None);
    var answer := summarize(prompt);
    if answer.Err? {
      res := Fail(io, u, answer.message);
      return;
    }
    EmitProgress(io, u, 100, Complete, Some(answer.value));
    res := Response(200, MsgData(Complete, answer.value));
  }

  /** The branch that reads the stored file: the 20% event for Excel, then
      the read and the decoding. */
  method ReadContent(io: Channel, u: Id, d: Decoder, path: string, fs: FileSystem, codec: Codec)
    returns (content: Result<string>)
    requires d != Unsupported
    modifies io
    ensures content == Content(d, path, fs.contents, fs.failing, codec)
    ensures d == ExcelToCsv ==> io.log == old(io.log) + [ParsingEvent(u)]
    ensures d != ExcelToCsv ==> io.log == old(io.log)
  {
    if d == CsvText {
      var bytes := fs.ReadFile(path);
      if bytes.Err? {
        return Err(bytes.message);
      }
      content := Ok(codec.utf8(bytes.value));
    } else {
      EmitProgress(io, u, 20, ParsingExcel, None);
      var excelBuffer := fs.ReadFile(path);
      if excelBuffer.Err? {
        return Err(excelBuffer.message);
      }
      var workbook := codec.read(excelBuffer.value);
      if workbook.Err? {
        return Err(workbook.message);
      }
      content := Ok(codec.sheetToCsv(FirstSheet(workbook.value)));
    }
  }

  /** The `catch` block of `analyzeData`. */
  method Fail(io: Channel, u: Id, m: string) returns (res: Response<string>)
    modifies io
    ensures io.log == old(io.log) + Failure(u, m).events && res == Failure(u, m).response
  {
    EmitProgress(io, u, 0, ErrorMessage(m), Some(ErrorDetail(m)));
    res := Response(500, MsgError(AnalysisFailed, m));
  }
}
