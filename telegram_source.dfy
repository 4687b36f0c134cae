/**
 * `TelegramSource` of `sources/telegram_source.py`: the Telegram client as a
 * source. Each new message of a monitored chat is converted to a
 * `SourceMessage` (downloading an attached PDF on the way) and queued; a
 * message whose conversion raises is dropped.
 *
 * The Telegram message is the `Incoming` record the pipelines read, plus its
 * id and date; whether the client's start and the download raise are inputs.
 */
module TelegramSource {
  import opened Wrappers
  import opened PyStr
  import opened PipelineBase
  import opened SourceBase
  import opened SourcePolling

  const ChannelPrefix := "-100"
  const LinkBase := "https://t.me/c/"

  /** `str(chat_id).replace('-100', '')`. */
  function ChatPart(chatId: int): string {
    ReplaceAll(IntToString(chatId), ChannelPrefix, "")
  }

  /** The link to a message: `https://t.me/c/{chat}/{id}`. */
  function MessageUrl(chatId: int, messageId: int): string {
    LinkBase + ChatPart(chatId) + "/" + IntToString(messageId)
  }

  /**
   * A `-100` can only stand at the start of `str(chat_id)`, since a minus
   * sign appears nowhere else: the replacement strips the channel prefix of
   * a channel id and leaves every other id as it is.
   */
  lemma ChatPartStripsPrefix(chatId: int)
    ensures var s := IntToString(chatId);
      ChatPart(chatId) == if StartsWith(s, ChannelPrefix) then s[4..] else s
    ensures chatId >= 0 ==> ChatPart(chatId) == IntToString(chatId)
  {
    var s := IntToString(chatId);
    if StartsWith(s, ChannelPrefix) {
      assert OccursAt(s, ChannelPrefix, 0);
      var tail := s[4..];
      NoMinusNoPrefix(tail);
      assert IndexOf(s, ChannelPrefix) == Some(0);
      assert s[..0] == "" && s[0 + |ChannelPrefix|..] == tail;
      assert Split(s, ChannelPrefix) == ["", tail];
      assert Join(["", tail], "") == "" + "" + Join(["", tail][1..], "");
      assert ["", tail][1..] == [tail];
      assert ChatPart(chatId) == tail;
      assert s[..4][0] == s[0] == '-';
    } else {
      forall v: nat | v + 4 <= |s| ensures !OccursAt(s, ChannelPrefix, v) {
        assert s[v..v + 4][0] == s[v];
        if v == 0 {
          assert s[..4] == s[v..v + 4];
        }
      }
    }
  }

  /** A string without a minus sign has no `-100` in it. */
  lemma NoMinusNoPrefix(t: string)
    requires forall k :: 0 <= k < |t| ==> t[k] != '-'
    ensures IndexOf(t, ChannelPrefix).None?
    ensures Split(t, ChannelPrefix) == [t]
  {
    forall v: nat | v + 4 <= |t| ensures !OccursAt(t, ChannelPrefix, v) {
      assert t[v..v + 4][0] == t[v];
    }
  }

  /** `getattr(chat, 'title', 'Telegram')`, and `'Telegram'` when fetching the chat raises. */
  function SourceName(m: Incoming): string {
    if m.chat.Some? && m.chat.value.title.Some? then m.chat.value.title.value else "Telegram"
  }

  /** `message.text or message.message`, `None` when neither has text. */
  function MessageText(m: Incoming): Option<string> {
    if m.text != "" then Some(m.text) else if m.raw != "" then Some(m.raw) else None
  }

  /**
   * Where the conversion downloads the attachment to: only a PDF (by media
   * type or name) with a name `safe_filename` accepts; for a nameless PDF
   * `safe_filename` raises inside the download's `try`.
   */
  function DownloadTarget(m: Incoming, tempDir: string): (r: Option<string>)
    ensures r.Some? ==> m.document.Some? && CheckPdf(m.document.value) == IsPdf && DocumentName(m.document.value).Some?
  {
    if m.document.Some? && CheckPdf(m.document.value) == IsPdf && DocumentName(m.document.value).Some? then
      Some(PdfPath(tempDir, DocumentName(m.document.value).value))
    else None
  }

  /**
   * `_convert_telegram_message(message)`: `Err` when it raises — the PDF
   * test on a nameless non-PDF, or a message with neither text nor a stored
   * document failing validation. A failed download leaves the message
   * without a document.
   */
  function Convert(m: Incoming, messageId: int, date: int, tempDir: string, downloadError: Option<string>): Result<SourceMessage> {
    if m.document.Some? && CheckPdf(m.document.value) == NameError then Err(NoneEndswith)
    else
      var path := if downloadError.None? then DownloadTarget(m, tempDir) else None;
      var mime := if m.document.Some? then Some(m.document.value.mimeType) else None;
      Validate(SourceMessage(
        MessageText(m), SourceName(m), "telegram_" + IntToString(m.chatId), date, path, mime,
        Some(MessageUrl(m.chatId, messageId)), map["chat_id" := IntToString(m.chatId)], Some(IntToString(messageId))))
  }

  /**
   * A converted message carries the chat's id, link and name; it has a
   * document exactly when the attachment was a PDF that downloaded, and
   * then the document is the downloaded file; and a message is dropped
   * exactly when the PDF test raises or it has neither text nor a document.
   */
  lemma ConvertContract(m: Incoming, messageId: int, date: int, tempDir: string, downloadError: Option<string>)
    ensures var r := Convert(m, messageId, date, tempDir, downloadError);
      && (r.Err? <==>
            || (m.document.Some? && CheckPdf(m.document.value) == NameError)
            || (!Truthy(MessageText(m)) && (downloadError.Some? || DownloadTarget(m, tempDir).None?)))
      && (r.Ok? ==>
            && r.value.sourceId == "telegram_" + IntToString(m.chatId)
            && r.value.url == Some(MessageUrl(m.chatId, messageId))
            && r.value.sourceName == SourceName(m)
            && r.value.text == MessageText(m)
            && r.value.documentPath == (if downloadError.None? then DownloadTarget(m, tempDir) else None)
            && (r.value.documentMimeType.Some? <==> m.document.Some?))
  {
  }

  /** A text message with a PDF whose download fails is still queued, without the document. */
  lemma DownloadFailureKeepsText(m: Incoming, messageId: int, date: int, tempDir: string, error: string)
    requires m.text != "" && m.document.Some? && CheckPdf(m.document.value) == IsPdf
    ensures var r := Convert(m, messageId, date, tempDir, Some(error));
      r.Ok? && r.value.documentPath.None? && r.value.text == Some(m.text)
  {
  }

  /** `TelegramSource`: the monitored chats, the client once created, the `running` flag and the queue. */
  class TelegramSource {
    const name: string
    const sourceId: string
    const monitoredChannels: seq<int>
    const queue: MessageQueue
    var running: bool
    var clientCreated: bool

    /** `monitored_channels or []`. */
    constructor(name: string, sourceId: string, monitored: Option<seq<int>>)
      ensures this.name == name && this.sourceId == sourceId
      ensures monitoredChannels == (if monitored.Some? then monitored.value else [])
      ensures fresh(queue) && queue.items == [] && !running && !clientCreated
    {
      this.name := name;
      this.sourceId := sourceId;
      monitoredChannels := if monitored.Some? then monitored.value else [];
      queue := new MessageQueue();
      running := false;
      clientCreated := false;
    }

    /**
     * `start()`: creates the client and starts it; `clientStart` is what its
     * `start()` returns, `Err` when it or the dialog refresh raises. Only a
     * successful start sets `running`; a failed one leaves it as it was.
     */
    method Start(clientStart: Result<bool>) returns (ok: bool)
      modifies this
      ensures ok <==> clientStart == Ok(true)
      ensures clientCreated
      ensures running == (old(running) || ok)
    {
      clientCreated := true;
      if clientStart != Ok(true) {
        return false;
      }
      running := true;
      ok := true;
    }

    /** `stop()`: clears `running`, and stops the client when one was created (`stoppedClient`). */
    method Stop() returns (stoppedClient: bool)
      modifies this
      ensures !running && clientCreated == old(clientCreated)
      ensures stoppedClient == old(clientCreated)
    {
      running := false;
      stoppedClient := clientCreated;
    }

    /** `_on_message(message)`: the converted message is queued; one whose conversion raises is dropped. */
    method OnMessage(m: Incoming, messageId: int, date: int, tempDir: string, downloadError: Option<string>)
      modifies queue
      ensures var r := Convert(m, messageId, date, tempDir, downloadError);
        queue.items == old(queue.items) + (if r.Ok? then [r.value] else [])
    {
      var r := Convert(m, messageId, date, tempDir, downloadError);
      if r.Ok? {
        queue.Put(r.value);
      }
    }

  }
}
