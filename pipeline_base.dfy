/**
 * `BasePipeline` of `pipelines/base.py` and the parts of a Telegram message
 * the pipelines read. A pipeline's effect on the output channel is the list
 * of requests it hands to the client; whether the client raises on a request
 * is an input.
 */
module PipelineBase {
  import opened Wrappers
  import opened PyStr
  import Helpers
  import PdfService

  /** The default `parse_mode` of `forward_to_target`. */
  const Markdown := "Markdown"

  /** A request to the Telegram client. */
  datatype Request =
    | SendMessage(target: string, text: string, parseMode: string)
    | SendFile(target: string, file: string, caption: string, parseMode: string)

  /** `forward_to_target`: the request it makes, and the value it returns. */
  datatype Forwarded = Forwarded(request: Request, ok: bool)

  /**
   * `forward_to_target(text, file_path, parse_mode)` on the pipeline's output
   * channel; `filePath` is `""` for no file, and `sendRaises` says whether the
   * client raised.
   */
  function ForwardToTarget(target: string, text: string, filePath: string, parseMode: string, sendRaises: bool): (r: Forwarded)
    ensures r.ok <==> !sendRaises
    ensures r.request.SendFile? <==> filePath != ""
    ensures r.request.target == target && r.request.parseMode == parseMode
    ensures r.request.SendFile? ==> r.request.file == filePath && r.request.caption == text
    ensures r.request.SendMessage? ==> r.request.text == text
  {
    var request := if filePath != "" then SendFile(target, filePath, text, parseMode) else SendMessage(target, text, parseMode);
    Forwarded(request, !sendRaises)
  }

  /** The chat a message came from: the attributes it has. */
  datatype Chat = Chat(title: Option<string>, username: Option<string>)

  /** The attachment of a message: its MIME type, and `message.file.name` when `message.file` is set. */
  datatype Document = Document(mimeType: string, file: Option<FileInfo>)
  datatype FileInfo = FileInfo(name: Option<string>)

  /**
   * The fields of a Telegram message the pipelines read: `text` and `raw`
   * (`message.message`) are `""` when absent; `chat` is `None` when reading
   * `message.chat` raises.
   */
  datatype Incoming = Incoming(text: string, raw: string, chat: Option<Chat>, chatId: int, document: Option<Document>)

  /**
   * `_get_source_info(message)`: the chat's title, else `@username`, else
   * `Channel {chat_id}`; `Unknown Source` when the chat cannot be read.
   */
  function SourceInfo(m: Incoming): (r: string)
    ensures m.chat.None? ==> r == "Unknown Source"
    ensures m.chat.Some? && m.chat.value.title.Some? ==> r == m.chat.value.title.value
    ensures m.chat.Some? && m.chat.value.title.None? ==> StartsWith(r, "@") || StartsWith(r, "Channel ")
  {
    match m.chat
    case None => "Unknown Source"
    case Some(chat) =>
      if chat.title.Some? then chat.title.value
      else if chat.username.Some? then "@" + chat.username.value
      else "Channel " + IntToString(m.chatId)
  }

  /**
   * Without a title, the name is the chat's `@username` when it has one,
   * else `Channel ` followed by the chat id.
   */
  lemma SourceInfoNames(m: Incoming)
    requires m.chat.Some? && m.chat.value.title.None?
    ensures m.chat.value.username.Some? ==> SourceInfo(m) == "@" + m.chat.value.username.value
    ensures m.chat.value.username.None? ==> SourceInfo(m) == "Channel " + IntToString(m.chatId)
  {
  }

  /** The PDF media type. */
  const PdfMime := "application/pdf"

  /** `message.file.name if message.file else 'document.pdf'`; `None` when the file has no name. */
  function DocumentName(d: Document): Option<string> {
    match d.file
    case None => Some("document.pdf")
    case Some(f) => f.name
  }

  /** What the PDF test of the pipelines gives: accept, refuse, or the error raised by `None.endswith`. */
  datatype PdfCheck = IsPdf | NotPdf | NameError

  const NoneEndswith := "'NoneType' object has no attribute 'endswith'"

  /**
   * `mime_type == 'application/pdf' or filename.endswith('.pdf')`: the name is
   * looked at only when the media type is not the PDF one.
   */
  function CheckPdf(d: Document): (r: PdfCheck)
    ensures r == IsPdf <==> d.mimeType == PdfMime || (DocumentName(d).Some? && EndsWith(DocumentName(d).value, ".pdf"))
    ensures r == NameError <==> d.mimeType != PdfMime && DocumentName(d).None?
  {
    if d.mimeType == PdfMime then IsPdf
    else match DocumentName(d)
      case None => NameError
      case Some(name) => if EndsWith(name, ".pdf") then IsPdf else NotPdf
  }

  /**
   * The path `_download_pdf_from_message(message, filename)` of both PDF
   * pipelines stores a document under: the service's temporary directory
   * joined with the sanitised name (`safe_filename` with its default limit
   * of 200).
   */
  function PdfPath(tempDir: string, name: string): string {
    PdfService.TempPath(tempDir, Helpers.SafeFilename(name, 200))
  }

  /**
   * The path is the directory, a `/`, then a non-empty sanitised name free
   * of path separators and other unsafe characters. The names `.` and `..`
   * are such names (`PdfPathDotDot`), so this does not place the file
   * inside the directory.
   */
  lemma PdfPathInDirectory(tempDir: string, name: string)
    ensures var r := PdfPath(tempDir, name);
      && StartsWith(r, tempDir + "/")
      && |r| > |tempDir| + 1
      && Helpers.NoUnsafe(r[|tempDir| + 1..])
  {
    var safe := Helpers.SafeFilename(name, 200);
    assert PdfPath(tempDir, name)[|tempDir| + 1..] == safe;
  }

  /** A document named `..` is stored at the directory's parent: `safe_filename` keeps the name as it is. */
  lemma PdfPathDotDot(tempDir: string)
    ensures PdfPath(tempDir, "..") == tempDir + "/.."
  {
    assert Helpers.Sanitize("..") == "..";
    assert Strip("..") == "..";
  }

  /** The error notice of the pipelines: a fixed lead, then at most 200 characters of the error. */
  function ErrorNotice(lead: string, error: string): (r: string)
    ensures StartsWith(r, lead)
    ensures |r| <= |lead| + 200
    ensures StartsWith(error, r[|lead|..])
    ensures |error| <= 200 ==> r == lead + error
  {
    var cut := PyPrefix(error, 200);
    assert (lead + cut)[|lead|..] == cut;
    lead + cut
  }

  /** The line both pipelines put under their output, before the source. */
  const FromLine := "\n\nfrom: "

  /** `f"""{content}\n\nfrom: {via_source}"""`. */
  function WithFooter(content: string, via: string): string {
    content + FromLine + via
  }

  /**
   * The output starts with the content, unchanged; when the source has no
   * line break, the last line of the output is `from: ` and the source, and
   * the content can be cut back out at the last line break.
   */
  lemma FooterShape(content: string, via: string)
    requires forall i :: 0 <= i < |via| ==> via[i] != '\n'
    ensures var r := WithFooter(content, via);
      && StartsWith(r, content)
      && RFind(r, '\n') == Some(|content| + 1)
      && r[|content| + 2..] == "from: " + via
      && r[..|content|] == content
  {
    var r := WithFooter(content, via);
    assert r[..|content|] == content;
    assert r[|content| + 2..] == "from: " + via;
    assert r[|content| + 1] == '\n';
    forall j | |content| + 1 < j < |r| ensures r[j] != '\n' {
      if j >= |content| + 8 {
        assert r[j] == via[j - |content| - 8];
      }
    }
    LastCharAt(r, '\n', |content| + 1);
  }
}
