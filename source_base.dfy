/**
 * `sources/base.py`: the `SourceMessage` record every source produces, its
 * validation and predicates, and the `running` flag and default health check
 * of `BaseSource`.
 */
module SourceBase {
  import opened Wrappers
  import opened PyStr

  /** The defaults of the record's fields. */
  const DefaultSourceName := "Unknown Source"
  const DefaultSourceId := "unknown"
  const MissingContent := "SourceMessage must have either text or document_path"

  /**
   * A `SourceMessage`. Metadata values are kept as strings; the timestamp is
   * an abstract clock reading; a document path is never falsy in Python, so
   * `not document_path` is `documentPath == None`.
   */
  datatype SourceMessage = SourceMessage(
    text: Option<string>,
    sourceName: string,
    sourceId: string,
    timestamp: int,
    documentPath: Option<string>,
    documentMimeType: Option<string>,
    url: Option<string>,
    metadata: map<string, string>,
    messageId: Option<string>)

  /** Python's truthiness of an optional string. */
  predicate Truthy(s: Option<string>) {
    s.Some? && s.value != ""
  }

  /** `__post_init__`: a message needs text or a document, else `ValueError`. */
  function Validate(m: SourceMessage): (r: Result<SourceMessage>)
    ensures r.Ok? <==> Truthy(m.text) || m.documentPath.Some?
    ensures r.Ok? ==> r.value == m
    ensures r.Err? ==> r.error == MissingContent
  {
    if !Truthy(m.text) && m.documentPath.None? then Err(MissingContent) else Ok(m)
  }

  /** Construction with every optional field left at its default. */
  function NewMessage(text: Option<string>, documentPath: Option<string>, timestamp: int): (r: Result<SourceMessage>)
    ensures r.Ok? <==> Truthy(text) || documentPath.Some?
    ensures r.Ok? ==> && r.value.sourceName == DefaultSourceName && r.value.sourceId == DefaultSourceId
                      && r.value.metadata == map[] && r.value.url.None? && r.value.messageId.None?
                      && r.value.text == text && r.value.documentPath == documentPath
  {
    Validate(SourceMessage(text, DefaultSourceName, DefaultSourceId, timestamp, documentPath, None, None, map[], None))
  }

  /** `has_document()`: a document path is set, whatever it names. */
  predicate HasDocument(m: SourceMessage): (r: bool)
    ensures r <==> m.documentPath.Some?
  {
    m.documentPath.Some?
  }

  /** `has_text()`: the stripped text is not empty. */
  predicate HasText(m: SourceMessage) {
    m.text.Some? && |Strip(m.text.value)| > 0
  }

  /** `has_text()` holds exactly when the text has a character that is not whitespace. */
  lemma HasTextIffNonSpace(m: SourceMessage)
    requires m.text.Some?
    ensures HasText(m) <==> NonSpace(m.text.value) != ""
  {
    var t := m.text.value;
    var r := Strip(t);
    NonSpaceStrip(t);
    StripEnds(t);
    if r != "" {
      assert NonSpace(r) == [r[0]] + NonSpace(r[1..]);
    }
  }

  /**
   * Validation asks only for a non-empty text, so whitespace-only text
   * passes: a valid message can have neither text nor a document as the
   * predicates see it.
   */
  lemma ValidWithoutTextOrDocument()
    ensures var r := NewMessage(Some(" "), None, 0);
      r.Ok? && !HasText(r.value) && !HasDocument(r.value)
  {
    assert Strip(" ") == "";
  }

  /** `get_source_link()`: a Markdown link when the URL is set and non-empty, else the name. */
  function SourceLink(m: SourceMessage): (r: string)
    ensures Truthy(m.url) ==> r == "[" + m.sourceName + "](" + m.url.value + ")"
    ensures !Truthy(m.url) ==> r == m.sourceName
  {
    if Truthy(m.url) then "[" + m.sourceName + "](" + m.url.value + ")" else m.sourceName
  }

  /**
   * `BaseSource`: a named source with a `running` flag. Starting, stopping
   * and producing messages belong to each kind of source.
   */
  class BaseSource {
    const name: string
    const sourceId: string
    var running: bool

    constructor(name: string, sourceId: string)
      ensures this.name == name && this.sourceId == sourceId && !running
    {
      this.name := name;
      this.sourceId := sourceId;
      running := false;
    }

    /** The default `health_check()`: healthy exactly while running. */
    function HealthCheck(): (r: bool)
      reads this
      ensures r <==> running
    {
      running
    }
  }
}
