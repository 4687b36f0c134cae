/**
 * `UnifiedPipeline` of `pipelines/unified.py`: a message with a document
 * goes the PDF way, one with text the text way, and anything else is
 * skipped; whatever the language model returns is forwarded with the
 * `from:` footer.
 *
 * A run is the list of things the pipeline does outside itself, in order,
 * and its result. The language model's reply, the download, the client's
 * send and the two helpers the pipeline calls but the code shown does not
 * define (`_get_message_link`, `_format_via_source`) are inputs; an `Err`
 * stands for the exception raised.
 */
module Unified {
  import opened Wrappers
  import opened PyStr
  import opened Helpers
  import opened PipelineBase
  import Translator
  import PdfService

  const FailedMessage := "\U{26A0}\U{FE0F} Failed to process message: "

  /** `_build_message_context(message, has_chinese)`. */
  datatype MessageContext = MessageContext(sourceChannel: string, channelId: int, hasChinese: bool, messageLink: string)

  /** What the pipeline does outside itself. */
  datatype Effect =
    | Download(path: string)
    | AskText(text: string, context: MessageContext)
    | AskDocument(path: string, context: MessageContext)
    | Send(request: Request)
    | Cleanup(path: string)

  datatype Trace = Trace(effects: seq<Effect>, result: bool)

  /**
   * The inputs of one run: an error raised while reading the message's
   * attributes, the two undefined helpers' values, the model's reply (`""`
   * for an empty one), a download error, whether the client's send raises,
   * and the temporary directory.
   */
  datatype Inputs = Inputs(
    readError: Option<string>,
    link: Result<string>,
    via: Result<string>,
    reply: Result<string>,
    downloadError: Option<string>,
    sendRaises: bool,
    tempDir: string)

  /** What `_process_text(message)` does. */
  function TextRun(m: Incoming, target: string, w: Inputs): Trace {
    var text := Translator.ExtractText(m);
    if text.None? || text.value == "" || w.link.Err? then Trace([], false)
    else
      var ask := AskText(text.value, MessageContext(SourceInfo(m), m.chatId, DetectChinese(text.value), w.link.value));
      if w.reply.Err? || w.reply.value == "" || w.via.Err? then Trace([ask], false)
      else
        var f := ForwardToTarget(target, WithFooter(w.reply.value, w.via.value), "", Markdown, w.sendRaises);
        Trace([ask, Send(f.request)], f.ok)
  }

  /** What `_process_document(message)` does after the download to `path` succeeded, before the clean-up. */
  function AfterDownload(m: Incoming, path: string, target: string, w: Inputs): Trace {
    if w.link.Err? then Trace([], false)
    else
      var ask := AskDocument(path, MessageContext(SourceInfo(m), m.chatId, false, w.link.value));
      if w.reply.Err? || w.reply.value == "" || w.via.Err? then Trace([ask], false)
      else
        var f := ForwardToTarget(target, WithFooter(w.reply.value, w.via.value), path, Markdown, w.sendRaises);
        Trace([ask, Send(f.request)], f.ok)
  }

  /** What `_process_document(message)` does once the PDF is to be stored at `path`: the download, then the rest and the clean-up when it succeeded. */
  function DocumentAt(m: Incoming, path: string, target: string, w: Inputs): Trace {
    if w.downloadError.Some? then Trace([Download(path)], false)
    else
      var rest := AfterDownload(m, path, target, w);
      Trace([Download(path)] + rest.effects + [Cleanup(path)], rest.result)
  }

  /**
   * What `_process_document(message)` does: nothing for a document that is
   * not a PDF or whose name cannot be read; otherwise it stores the PDF
   * under its sanitised name.
   */
  function DocumentRun(m: Incoming, d: Document, target: string, w: Inputs): Trace {
    if CheckPdf(d) != IsPdf || DocumentName(d).None? then Trace([], false)
    else DocumentAt(m, PdfPath(w.tempDir, DocumentName(d).value), target, w)
  }

  /** What `process(message)` does. */
  function Outcome(m: Incoming, target: string, w: Inputs): Trace {
    if w.readError.Some? then
      Trace([Send(ForwardToTarget(target, ErrorNotice(FailedMessage, w.readError.value), "", Markdown, w.sendRaises).request)], false)
    else if m.document.Some? then DocumentRun(m, m.document.value, target, w)
    else if m.text != "" || m.raw != "" then TextRun(m, target, w)
    else Trace([], false)
  }

  /** `process(message)`, forwarding to `target`. */
  method Process(m: Incoming, target: string, w: Inputs) returns (run: Trace)
    ensures run == Outcome(m, target, w)
  {
    if w.readError.Some? {
      var errorMsg := ErrorNotice(FailedMessage, w.readError.value);
      var f := ForwardToTarget(target, errorMsg, "", Markdown, w.sendRaises);
      return Trace([Send(f.request)], false);
    }
    if m.document.Some? {
      run := ProcessDocument(m, m.document.value, target, w);
    } else if m.text != "" || m.raw != "" {
      run := ProcessText(m, target, w);
    } else {
      run := Trace([], false);
    }
  }

  /** `_process_text(message)`: every exception ends it with `False`. */
  method ProcessText(m: Incoming, target: string, w: Inputs) returns (run: Trace)
    ensures run == TextRun(m, target, w)
  {
    var text := Translator.ExtractText(m);
    if text.None? || text.value == "" {
      return Trace([], false);
    }
    var hasChinese := DetectChinese(text.value);
    if w.link.Err? {
      return Trace([], false);
    }
    var context := MessageContext(SourceInfo(m), m.chatId, hasChinese, w.link.value);
    var effects := [AskText(text.value, context)];
    if w.reply.Err? || w.reply.value == "" || w.via.Err? {
      return Trace(effects, false);
    }
    var formatted := WithFooter(w.reply.value, w.via.value);
    var f := ForwardToTarget(target, formatted, "", Markdown, w.sendRaises);
    run := Trace(effects + [Send(f.request)], f.ok);
  }

  /** `_process_document(message)`: the `finally` clause cleans up once `pdf_path` is set. */
  method ProcessDocument(m: Incoming, d: Document, target: string, w: Inputs) returns (run: Trace)
    ensures run == DocumentRun(m, d, target, w)
  {
    var pdfPath: Option<string> := None;
    var effects: seq<Effect> := [];
    var result := false;
    if CheckPdf(d) == IsPdf && DocumentName(d).Some? {
      var path := PdfPath(w.tempDir, DocumentName(d).value);
      effects := [Download(path)];
      if w.downloadError.None? {
        pdfPath := Some(path);
        var rest := ProcessDownloaded(m, path, target, w);
        effects := effects + rest.effects;
        result := rest.result;
      }
    }
    if pdfPath.Some? {
      effects := effects + [Cleanup(pdfPath.value)];
    }
    run := Trace(effects, result);
  }

  /** The part of the `try` block of `_process_document` after the download. */
  method ProcessDownloaded(m: Incoming, path: string, target: string, w: Inputs) returns (run: Trace)
    ensures run == AfterDownload(m, path, target, w)
  {
    if w.link.Err? {
      return Trace([], false);
    }
    var context := MessageContext(SourceInfo(m), m.chatId, false, w.link.value);
    var effects := [AskDocument(path, context)];
    if w.reply.Err? || w.reply.value == "" || w.via.Err? {
      return Trace(effects, false);
    }
    var f := ForwardToTarget(target, WithFooter(w.reply.value, w.via.value), path, Markdown, w.sendRaises);
    run := Trace(effects + [Send(f.request)], f.ok);
  }

  // ------------------------------------------------------------------ lemmas

  /**
   * `process` dispatches: a message with a document takes the PDF way even
   * when it has text, so the text is never sent to the model; a message
   * with text or a raw text takes the text way; one with neither does
   * nothing.
   */
  lemma Dispatch(m: Incoming, target: string, w: Inputs)
    requires w.readError.None?
    ensures m.document.Some? ==> Outcome(m, target, w) == DocumentRun(m, m.document.value, target, w)
    ensures m.document.Some? ==> forall e :: e in Outcome(m, target, w).effects ==> !e.AskText?
    ensures m.document.None? && (m.text != "" || m.raw != "") ==> Outcome(m, target, w) == TextRun(m, target, w)
    ensures m.document.None? && m.text == "" && m.raw == "" ==> Outcome(m, target, w) == Trace([], false)
  {
    if m.document.Some? {
      var d := m.document.value;
      if CheckPdf(d) == IsPdf && DocumentName(d).Some? {
        var path := PdfPath(w.tempDir, DocumentName(d).value);
        DocumentAtShape(m, path, target, w);
      }
    }
  }

  /** A document that is not a PDF is refused before any download, and nothing is sent. */
  lemma NonPdfNoDownload(m: Incoming, d: Document, target: string, w: Inputs)
    requires CheckPdf(d) != IsPdf
    ensures DocumentRun(m, d, target, w) == Trace([], false)
  {
  }

  /**
   * Once the PDF's path is known: the download comes first, the clean-up of
   * that same path comes last exactly when the download succeeded, nothing
   * else cleans up, and the model is only ever asked about the document,
   * without Chinese detection.
   */
  lemma DocumentAtShape(m: Incoming, path: string, target: string, w: Inputs)
    ensures var run := DocumentAt(m, path, target, w);
      && |run.effects| >= 1 && run.effects[0] == Download(path)
      && (w.downloadError.None? <==> run.effects[|run.effects| - 1] == Cleanup(path))
      && (forall i :: 0 <= i < |run.effects| - 1 ==> !run.effects[i].Cleanup?)
      && (forall e :: e in run.effects ==> !e.AskText?)
      && (forall e :: e in run.effects && e.AskDocument? ==> !e.context.hasChinese && e.path == path)
  {
  }

  /**
   * The temporary file is cleaned up exactly when the download succeeded,
   * whatever happens afterwards, and the clean-up is the last thing done;
   * nothing is sent before the download.
   */
  lemma CleanupOnEveryPath(m: Incoming, d: Document, target: string, w: Inputs)
    ensures var run := DocumentRun(m, d, target, w);
      && (run.effects != [] ==> run.effects[0].Download?)
      && (run.effects != [] && w.downloadError.None? <==> run.effects != [] && run.effects[|run.effects| - 1] == Cleanup(run.effects[0].path))
      && (forall i :: 0 <= i < |run.effects| - 1 ==> !run.effects[i].Cleanup?)
  {
    if CheckPdf(d) == IsPdf && DocumentName(d).Some? {
      var path := PdfPath(w.tempDir, DocumentName(d).value);
      DocumentAtShape(m, path, target, w);
    }
  }

  /** The request `_format_output`'s text goes out in: as the caption of `file`, or on its own for `""`. */
  function Output(target: string, w: Inputs, file: string): Request
    requires w.reply.Ok? && w.via.Ok?
  {
    if file != "" then SendFile(target, file, WithFooter(w.reply.value, w.via.value), Markdown)
    else SendMessage(target, WithFooter(w.reply.value, w.via.value), Markdown)
  }

  /** A true result means every step succeeded and the footed reply went out. */
  predicate Forwarded(run: Trace, target: string, w: Inputs, file: string) {
    run.result ==>
      && w.readError.None? && !w.sendRaises && w.reply.Ok? && w.reply.value != "" && w.via.Ok?
      && Send(Output(target, w, file)) in run.effects
  }

  /** After the download to a (non-empty) path, a true result means the footed reply went out as that PDF's caption. */
  lemma AfterDownloadIsForward(m: Incoming, path: string, target: string, w: Inputs)
    requires w.readError.None? && path != ""
    ensures Forwarded(DocumentAt(m, path, target, w), target, w, path)
  {
  }

  /** For a text message, a true result means the footed reply went out as a message of its own. */
  lemma TextIsForward(m: Incoming, target: string, w: Inputs)
    requires w.readError.None?
    ensures Forwarded(TextRun(m, target, w), target, w, "")
  {
  }

  /**
   * For a document, a true result means it was a PDF with a name, and the
   * footed reply went out as the caption of the file stored for it.
   */
  lemma DocumentIsForward(m: Incoming, d: Document, target: string, w: Inputs)
    requires w.readError.None?
    ensures DocumentRun(m, d, target, w).result ==>
      && CheckPdf(d) == IsPdf && DocumentName(d).Some?
      && Forwarded(DocumentRun(m, d, target, w), target, w, PdfPath(w.tempDir, DocumentName(d).value))
  {
    if CheckPdf(d) == IsPdf && DocumentName(d).Some? {
      var path := PdfPath(w.tempDir, DocumentName(d).value);
      assert path[|w.tempDir|] == '/';
      AfterDownloadIsForward(m, path, target, w);
    }
  }

  /** The model is asked about a text message with the detector's answer and the message's own source. */
  lemma TextContext(m: Incoming, target: string, w: Inputs)
    ensures forall e :: e in TextRun(m, target, w).effects ==> !e.AskDocument? && !e.Download? && !e.Cleanup?
    ensures forall e :: e in TextRun(m, target, w).effects && e.AskText? ==>
      e.context.hasChinese == DetectChinese(e.text) && e.context.sourceChannel == SourceInfo(m) && e.context.channelId == m.chatId
  {
  }

  /** When reading the message raises, the error notice is the only thing sent, and the result is false. */
  lemma ReadErrorNotice(m: Incoming, target: string, w: Inputs)
    requires w.readError.Some?
    ensures var run := Outcome(m, target, w);
      && !run.result && |run.effects| == 1 && run.effects[0].Send?
      && var req := run.effects[0].request;
         && req.SendMessage? && StartsWith(req.text, FailedMessage) && |req.text| <= |FailedMessage| + 200
  {
  }
}
