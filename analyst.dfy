/**
 * `AnalystPipeline` of `pipelines/analyst.py`: a research report arriving
 * as a PDF is downloaded, handed to the language model's file analysis, and
 * the analysis is forwarded with the PDF attached. Any exception is reported
 * to the output channel as a notice; the downloaded file is removed whatever
 * happens.
 *
 * As for the unified pipeline, a run is the list of things the pipeline
 * does outside itself, in order, and its result. The download, the model's
 * analysis, the client's send and the undefined helper `_format_via_source`
 * are inputs; an `Err` or a `Some` error stands for the exception raised.
 */
module Analyst {
  import opened Wrappers
  import opened PyStr
  import opened PipelineBase

  const FailedReport := "\U{26A0}\U{FE0F} Failed to process PDF report: "

  /** What `safe_filename(None)` raises: `re.sub` refuses a `None` string. */
  const SubNoneError := "expected string or bytes-like object, got 'NoneType'"

  /** What the pipeline does outside itself. */
  datatype Effect =
    | Download(path: string)
    | Analyze(path: string)
    | Send(request: Request)
    | Cleanup(path: string)

  datatype Trace = Trace(effects: seq<Effect>, result: bool)

  /**
   * The inputs of one run: a download error, the model's analysis, the value
   * of `_format_via_source`, whether the client's send raises, and the
   * temporary directory.
   */
  datatype Inputs = Inputs(
    downloadError: Option<string>,
    analysis: Result<string>,
    via: Result<string>,
    sendRaises: bool,
    tempDir: string)

  /** The request of the `except` clause: the notice for `error` on its own. */
  function Notice(target: string, error: string, w: Inputs): Request {
    ForwardToTarget(target, ErrorNotice(FailedReport, error), "", Markdown, w.sendRaises).request
  }

  /** The rest of the `try` block once the PDF is stored at `path`: analysis, formatting, forwarding with the PDF. */
  function AfterDownload(target: string, path: string, w: Inputs): Trace {
    if w.analysis.Err? then Trace([Analyze(path), Send(Notice(target, w.analysis.error, w))], false)
    else if w.via.Err? then Trace([Analyze(path), Send(Notice(target, w.via.error, w))], false)
    else
      var f := ForwardToTarget(target, WithFooter(w.analysis.value, w.via.value), path, Markdown, w.sendRaises);
      Trace([Analyze(path), Send(f.request)], f.ok)
  }

  /** From the download to `path` on: a failed download leaves nothing to clean up; otherwise the clean-up comes last. */
  function StoredAt(target: string, path: string, w: Inputs): Trace {
    if w.downloadError.Some? then Trace([Download(path), Send(Notice(target, w.downloadError.value, w))], false)
    else
      var rest := AfterDownload(target, path, w);
      Trace([Download(path)] + rest.effects + [Cleanup(path)], rest.result)
  }

  /** What `process(message)` does. */
  function Outcome(m: Incoming, target: string, w: Inputs): Trace {
    if m.document.None? then Trace([], false)
    else
      var d := m.document.value;
      match CheckPdf(d)
      case NotPdf => Trace([], false)
      case NameError => Trace([Send(Notice(target, NoneEndswith, w))], false)
      case IsPdf =>
        match DocumentName(d)
        case None => Trace([Send(Notice(target, SubNoneError, w))], false)
        case Some(name) => StoredAt(target, PdfPath(w.tempDir, name), w)
  }

  /** `process(message)`: the checks before the download, each failing one ending the run. */
  method Process(m: Incoming, target: string, w: Inputs) returns (run: Trace)
    ensures run == Outcome(m, target, w)
  {
    if m.document.None? {
      return Trace([], false);
    }
    var d := m.document.value;
    var check := CheckPdf(d);
    if check == NotPdf {
      return Trace([], false);
    }
    if check == NameError {
      return Trace([Send(Notice(target, NoneEndswith, w))], false);
    }
    var filename := DocumentName(d);
    if filename.None? {
      return Trace([Send(Notice(target, SubNoneError, w))], false);
    }
    run := ProcessPdf(target, PdfPath(w.tempDir, filename.value), w);
  }

  /** `process(message)` from the download to `path` on: the `finally` clause cleans up once `pdf_path` is set. */
  method ProcessPdf(target: string, path: string, w: Inputs) returns (run: Trace)
    ensures run == StoredAt(target, path, w)
  {
    var pdfPath: Option<string> := None;
    var effects := [Download(path)];
    var result := false;
    var raised: Option<string> := None;
    if w.downloadError.Some? {
      raised := w.downloadError;
    } else {
      pdfPath := Some(path);
      var rest := ProcessStored(target, path, w);
      effects := effects + rest.effects;
      result := rest.result;
    }
    if raised.Some? {
      effects := effects + [Send(Notice(target, raised.value, w))];
    }
    if pdfPath.Some? {
      effects := effects + [Cleanup(pdfPath.value)];
    }
    run := Trace(effects, result);
  }

  /** The part of the `try` block of `process` after the download, with its own `except` clause. */
  method ProcessStored(target: string, path: string, w: Inputs) returns (run: Trace)
    ensures run == AfterDownload(target, path, w)
  {
    var effects := [Analyze(path)];
    if w.analysis.Err? {
      return Trace(effects + [Send(Notice(target, w.analysis.error, w))], false);
    }
    if w.via.Err? {
      return Trace(effects + [Send(Notice(target, w.via.error, w))], false);
    }
    var formatted := WithFooter(w.analysis.value, w.via.value);
    var f := ForwardToTarget(target, formatted, path, Markdown, w.sendRaises);
    run := Trace(effects + [Send(f.request)], f.ok);
  }

  // ------------------------------------------------------------------ lemmas

  /** A message without a document, or with one that is not a PDF, is skipped silently. */
  lemma SkippedSilently(m: Incoming, target: string, w: Inputs)
    requires m.document.None? || CheckPdf(m.document.value) == NotPdf
    ensures Outcome(m, target, w) == Trace([], false)
  {
  }

  /**
   * The exception `process` reports, if any, for a document that passed the
   * PDF test (or failed it with an error): the first step that raises.
   */
  function Failure(d: Document, w: Inputs): Option<string>
    requires CheckPdf(d) != NotPdf
  {
    if CheckPdf(d) == NameError then Some(NoneEndswith)
    else if DocumentName(d).None? then Some(SubNoneError)
    else if w.downloadError.Some? then w.downloadError
    else if w.analysis.Err? then Some(w.analysis.error)
    else if w.via.Err? then Some(w.via.error)
    else None
  }

  /** The effects hold exactly one send, at position `k`. */
  predicate SendAt(effects: seq<Effect>, k: nat) {
    k < |effects| && forall j :: 0 <= j < |effects| ==> (effects[j].Send? <==> j == k)
  }

  /** Where the one send of a run on a document that passed the PDF test (or failed it with an error) is. */
  function SendIndex(d: Document, w: Inputs): nat
    requires CheckPdf(d) != NotPdf
  {
    if CheckPdf(d) == NameError || DocumentName(d).None? then 0
    else if w.downloadError.Some? then 1
    else 2
  }

  /** What that send is: the notice of the exception raised, else the footed analysis with the stored PDF. */
  function Reported(d: Document, target: string, path: string, w: Inputs): Request
    requires CheckPdf(d) != NotPdf
  {
    match Failure(d, w)
    case Some(e) => Notice(target, e, w)
    case None => SendFile(target, path, WithFooter(w.analysis.value, w.via.value), Markdown)
  }

  /**
   * Once the PDF is to be stored at `path`: the download comes first; the
   * model analyses that file only after a successful download; the clean-up
   * of that file comes last exactly when the download succeeded.
   */
  lemma StoredAtOrder(target: string, path: string, w: Inputs)
    ensures var run := StoredAt(target, path, w);
      && run.effects[0] == Download(path)
      && (Analyze(path) in run.effects <==> w.downloadError.None?)
      && (w.downloadError.None? <==> run.effects[|run.effects| - 1] == Cleanup(path))
      && (forall i :: 0 <= i < |run.effects| - 1 ==> !run.effects[i].Cleanup?)
  {
    var run := StoredAt(target, path, w);
    if w.downloadError.None? {
      var rest := AfterDownload(target, path, w);
      assert run.effects == [Download(path), Analyze(path), Send(rest.effects[1].request), Cleanup(path)];
    }
  }

  /**
   * Once the PDF is to be stored at `path`: one request is sent, the notice
   * of the step that raised, else the footed analysis with the PDF
   * attached; the result is true exactly when nothing raised and the client
   * sent it.
   */
  lemma StoredAtReports(d: Document, target: string, path: string, w: Inputs)
    requires CheckPdf(d) == IsPdf && DocumentName(d).Some? && path != ""
    ensures var run := StoredAt(target, path, w);
      && SendAt(run.effects, SendIndex(d, w))
      && run.effects[SendIndex(d, w)].request == Reported(d, target, path, w)
      && run.result == (Failure(d, w).None? && !w.sendRaises)
  {
    var run := StoredAt(target, path, w);
    if w.downloadError.None? {
      var rest := AfterDownload(target, path, w);
      assert run.effects == [Download(path), Analyze(path), Send(rest.effects[1].request), Cleanup(path)];
    }
  }

  /**
   * `process`, end to end, on a document that is a PDF or whose name cannot
   * be read: exactly one request is sent, the notice of the exception when
   * one was raised, else the footed analysis with the stored PDF; the result
   * is true exactly when no exception was raised and the client sent it.
   */
  lemma ReportOrNotice(m: Incoming, target: string, w: Inputs)
    requires m.document.Some? && CheckPdf(m.document.value) != NotPdf
    ensures var run := Outcome(m, target, w);
      var d := m.document.value;
      var path := if DocumentName(d).Some? then PdfPath(w.tempDir, DocumentName(d).value) else "";
      && SendAt(run.effects, SendIndex(d, w))
      && run.effects[SendIndex(d, w)].request == Reported(d, target, path, w)
      && run.result == (Failure(d, w).None? && !w.sendRaises)
  {
    var d := m.document.value;
    if CheckPdf(d) == IsPdf && DocumentName(d).Some? {
      var path := PdfPath(w.tempDir, DocumentName(d).value);
      PdfPathInDirectory(w.tempDir, DocumentName(d).value);
      StoredAtReports(d, target, path, w);
    }
  }

  /**
   * The temporary file is cleaned up exactly when the download succeeded,
   * whatever happens afterwards, and the clean-up is the last thing done.
   */
  lemma CleanupOnEveryPath(m: Incoming, target: string, w: Inputs)
    ensures var run := Outcome(m, target, w);
      (run.effects != [] && run.effects[|run.effects| - 1].Cleanup?) <==>
        (&& m.document.Some? && CheckPdf(m.document.value) == IsPdf
         && DocumentName(m.document.value).Some? && w.downloadError.None?)
    ensures var run := Outcome(m, target, w);
      forall i :: 0 <= i < |run.effects| - 1 ==> !run.effects[i].Cleanup?
  {
    if m.document.Some? && CheckPdf(m.document.value) == IsPdf && DocumentName(m.document.value).Some? {
      var path := PdfPath(w.tempDir, DocumentName(m.document.value).value);
      StoredAtOrder(target, path, w);
    }
  }

  /** The notice is the fixed lead and at most 200 characters of the error, cut from its start. */
  lemma NoticeShape(target: string, error: string, w: Inputs)
    ensures var req := Notice(target, error, w);
      && req == SendMessage(target, req.text, Markdown)
      && StartsWith(req.text, FailedReport) && |req.text| <= |FailedReport| + 200
      && StartsWith(error, req.text[|FailedReport|..])
  {
  }
}
