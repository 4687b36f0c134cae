/**
 * `RSSSource` of `sources/examples/rss_source.py`: a feed polled at a fixed
 * interval. Each entry not seen before and not older than `max_age` is
 * converted to a `SourceMessage` and queued, and its key remembered.
 *
 * The parsed feed (`feedparser.parse`), the clock and Python's `hash` are
 * inputs: a feed that could not be fetched is an `Err`, a time is a number
 * of seconds, and `titleHash` is `hash` on titles.
 */
module RssSource {
  import opened Wrappers
  import opened PyStr
  import opened SourceBase
  import opened SourcePolling

  const DefaultName := "RSS Feed"
  const Untitled := "Untitled"

  /** What `entry.title` raises for an entry without a title. */
  const MissingTitle := "object has no attribute 'title'"
  /** What `entry['content'][0]` raises for an empty content list. */
  const EmptyContent := "list index out of range"

  /** One element of `entry.content`: its `value`, when it has one. */
  datatype ContentPart = ContentPart(value: Option<string>)

  /** The fields of a feed entry the source reads; `published` is `published_parsed` as a time. */
  datatype FeedEntry = FeedEntry(
    id: Option<string>,
    link: Option<string>,
    title: Option<string>,
    summary: Option<string>,
    content: Option<seq<ContentPart>>,
    published: Option<int>,
    author: Option<string>)

  /** A parsed feed: its `bozo` flag (a parse error), its title and its entries. */
  datatype Feed = Feed(bozo: bool, title: Option<string>, entries: seq<FeedEntry>)

  /**
   * `entry.get('id', entry.get('link', str(hash(entry.title))))`: the id,
   * else the link, else the title's hash. The default is computed before
   * the lookups, so an entry without a title raises even when it has an id.
   */
  function EntryKey(e: FeedEntry, titleHash: string -> int): (r: Result<string>)
    ensures r.Ok? <==> e.title.Some?
    ensures r.Ok? && e.id.Some? ==> r.value == e.id.value
    ensures r.Ok? && e.id.None? && e.link.Some? ==> r.value == e.link.value
    ensures r.Ok? && e.id.None? && e.link.None? ==> r.value == IntToString(titleHash(e.title.value))
  {
    if e.title.None? then Err(MissingTitle)
    else if e.id.Some? then Ok(e.id.value)
    else if e.link.Some? then Ok(e.link.value)
    else Ok(IntToString(titleHash(e.title.value)))
  }

  /** `entry.get('content', [{}])[0].get('value', summary)`; an empty content list raises. */
  function Content(e: FeedEntry): Result<string> {
    var summary := e.summary.GetOr("");
    match e.content
    case None => Ok(summary)
    case Some(parts) => if parts == [] then Err(EmptyContent) else Ok(parts[0].value.GetOr(summary))
  }

  /** The message text: the title in bold, a blank line, the content. */
  function EntryText(title: string, content: string): string {
    "**" + title + "**\n\n" + content
  }

  /** `_convert_entry(entry)` at time `now`. */
  function Convert(e: FeedEntry, name: string, sourceId: string, now: int): Result<SourceMessage> {
    match Content(e)
    case Err(error) => Err(error)
    case Ok(content) =>
      Validate(SourceMessage(
        Some(EntryText(e.title.GetOr(Untitled), content)), name, sourceId, e.published.GetOr(now),
        None, None, e.link, map["author" := e.author.GetOr("")], if e.id.Some? then e.id else e.link))
  }

  /** An entry with a publication time more than `maxAge` seconds before `now`. */
  predicate TooOld(e: FeedEntry, now: int, maxAge: int) {
    e.published.Some? && now - e.published.value > maxAge
  }

  /** An entry as the poll's loop sees it: its key, then the age check and the conversion. */
  function ToEntry(e: FeedEntry, name: string, sourceId: string, now: int, maxAge: int, titleHash: string -> int): Entry<string> {
    Entry(EntryKey(e, titleHash),
      if TooOld(e, now, maxAge) then Ok(None)
      else match Convert(e, name, sourceId, now)
        case Err(error) => Err(error)
        case Ok(m) => Ok(Some(m)))
  }

  /**
   * The entries of a feed, in order: entry `j` is keyed by `EntryKey`; a
   * too-old one is skipped; any other fails exactly on an empty content
   * list and otherwise carries its conversion.
   */
  function Entries(feed: Feed, name: string, sourceId: string, now: int, maxAge: int, titleHash: string -> int): (r: seq<Entry<string>>)
    ensures |r| == |feed.entries|
    ensures forall j :: 0 <= j < |r| ==> r[j].key == EntryKey(feed.entries[j], titleHash)
    ensures forall j :: 0 <= j < |r| && TooOld(feed.entries[j], now, maxAge) ==> r[j].next == Ok(None)
    ensures forall j :: 0 <= j < |r| && !TooOld(feed.entries[j], now, maxAge) ==>
      && (r[j].next.Err? <==> feed.entries[j].content == Some([]))
      && (r[j].next.Ok? ==> r[j].next.value == Some(Convert(feed.entries[j], name, sourceId, now).value))
  {
    seq(|feed.entries|, j requires 0 <= j < |feed.entries| => ToEntry(feed.entries[j], name, sourceId, now, maxAge, titleHash))
  }

  // ------------------------------------------------------------------ lemmas

  /**
   * A converted entry is always a valid message (its text is never empty):
   * the bold title (`Untitled` when it has none), a blank line, then the
   * first content value or else the summary; its timestamp is the
   * publication time when there is one; its link and id are the entry's.
   */
  lemma ConvertContract(e: FeedEntry, name: string, sourceId: string, now: int)
    ensures var r := Convert(e, name, sourceId, now);
      var title := e.title.GetOr(Untitled);
      && (r.Err? <==> e.content == Some([]))
      && (r.Ok? ==>
            && r.value.text.Some? && StartsWith(r.value.text.value, "**" + title + "**\n\n")
            && r.value.text.value[|title| + 6..] == Content(e).value
            && (e.content.None? || e.content.value[0].value.None? ==> Content(e).value == e.summary.GetOr(""))
            && r.value.timestamp == (if e.published.Some? then e.published.value else now)
            && r.value.url == e.link
            && r.value.messageId == (if e.id.Some? then e.id else e.link)
            && r.value.sourceName == name && r.value.sourceId == sourceId)
  {
    var title := e.title.GetOr(Untitled);
    if Content(e).Ok? {
      var text := EntryText(title, Content(e).value);
      assert text == ("**" + title + "**\n\n") + Content(e).value;
    }
  }

  /**
   * An entry older than `max_age` is skipped before its conversion, so it
   * is neither queued nor remembered, and every poll looks at it again.
   */
  lemma TooOldSkipped(e: FeedEntry, name: string, sourceId: string, now: int, maxAge: int, titleHash: string -> int)
    requires TooOld(e, now, maxAge)
    ensures ToEntry(e, name, sourceId, now, maxAge, titleHash).next == Ok(None)
  {
  }

  /**
   * A poll over entries that all have titles and are all too old queues
   * nothing and leaves the remembered keys as they were.
   */
  lemma StaleFeedQueuesNothing(seen: set<string>, feed: Feed, name: string, sourceId: string, now: int, maxAge: int, titleHash: string -> int)
    requires forall j :: 0 <= j < |feed.entries| ==> feed.entries[j].title.Some? && TooOld(feed.entries[j], now, maxAge)
    ensures ScanFrom(seen, Entries(feed, name, sourceId, now, maxAge, titleHash), 0) == Scanned(seen, [], [], false)
  {
    var entries := Entries(feed, name, sourceId, now, maxAge, titleHash);
    forall j | 0 <= j < |entries|
      ensures entries[j].key.Ok? && (entries[j].key.value in seen || entries[j].next == Ok(None))
    {
      TooOldSkipped(feed.entries[j], name, sourceId, now, maxAge, titleHash);
    }
    ScanQuiet(seen, entries, 0);
  }

  /**
   * Two entries with the same id are one article: once the first is queued,
   * the second is skipped, whatever its title or content.
   */
  lemma SameIdQueuedOnce(seen: set<string>, a: FeedEntry, b: FeedEntry, name: string, sourceId: string, now: int, maxAge: int, titleHash: string -> int)
    requires a.id.Some? && a.id == b.id && a.title.Some? && b.title.Some?
    requires !TooOld(a, now, maxAge) && a.content != Some([]) && a.id.value !in seen
    ensures var r := ScanFrom(seen, [ToEntry(a, name, sourceId, now, maxAge, titleHash), ToEntry(b, name, sourceId, now, maxAge, titleHash)], 0);
      |r.queued| == 1 && r.keys == [a.id.value] && !r.aborted
  {
    ConvertContract(a, name, sourceId, now);
    var ea, eb := ToEntry(a, name, sourceId, now, maxAge, titleHash), ToEntry(b, name, sourceId, now, maxAge, titleHash);
    var m := Convert(a, name, sourceId, now).value;
    assert ea == Entry(Ok(a.id.value), Ok(Some(m)));
    assert eb.key == Ok(a.id.value);
    var entries := [ea, eb];
    assert ScanFrom(seen + {a.id.value}, entries, 1) == ScanFrom(seen + {a.id.value}, entries, 2);
    assert ScanFrom(seen, entries, 0) == Scanned(seen + {a.id.value}, [m], [a.id.value], false);
  }

  /** `RSSSource`: the feed, the name (which `start` may replace), the intervals and the polling state. */
  class RssSource {
    const feedUrl: string
    var name: string
    const sourceId: string
    /** Seconds between polls. */
    const pollInterval: int
    /** `max_age` in seconds. */
    const maxAge: int
    const poller: Poller<string>

    /** `name or "RSS Feed"`, and `rss_` and the URL's hash when no id is given. */
    constructor(feedUrl: string, name: Option<string>, sourceId: Option<string>, pollMinutes: int, maxAgeHours: int, urlHash: int)
      ensures this.feedUrl == feedUrl
      ensures this.name == (if name.Some? && name.value != "" then name.value else DefaultName)
      ensures this.sourceId == (if sourceId.Some? && sourceId.value != "" then sourceId.value else DefaultId("rss_", urlHash))
      ensures pollInterval == pollMinutes * 60 && maxAge == maxAgeHours * 3600
      ensures fresh(poller) && fresh(poller.queue) && !poller.running && poller.seen == {} && poller.queue.items == []
    {
      this.feedUrl := feedUrl;
      this.name := if name.Some? && name.value != "" then name.value else DefaultName;
      this.sourceId := if sourceId.Some? && sourceId.value != "" then sourceId.value else DefaultId("rss_", urlHash);
      pollInterval := pollMinutes * 60;
      maxAge := maxAgeHours * 3600;
      poller := new Poller();
    }

    /**
     * `start()` with the feed the test fetch got: a fetch that raises or a
     * bozo feed fails; otherwise the source runs, and a source still named
     * "RSS Feed" takes the feed's title when it has one.
     */
    method Start(fetched: Result<Feed>) returns (ok: bool)
      modifies this, poller
      ensures ok <==> fetched.Ok? && !fetched.value.bozo
      ensures name == (if ok && old(name) == DefaultName && fetched.value.title.Some? then fetched.value.title.value else old(name))
      ensures poller.running == (old(poller.running) || ok) && poller.seen == old(poller.seen)
    {
      if fetched.Err? || fetched.value.bozo {
        return false;
      }
      if name == DefaultName && fetched.value.title.Some? {
        name := fetched.value.title.value;
      }
      poller.running := true;
      ok := true;
    }

    method Stop()
      modifies poller
      ensures !poller.running && poller.seen == old(poller.seen)
    {
      poller.Stop();
    }

    /**
     * One round of `_poll_feed()` at time `now`: a feed that could not be
     * fetched, or a bozo one, changes nothing; otherwise the entries are
     * scanned as `Entries` gives them.
     */
    method PollOnce(fetched: Result<Feed>, now: int, titleHash: string -> int) returns (count: nat)
      modifies poller, poller.queue
      ensures fetched.Err? || fetched.value.bozo ==>
        count == 0 && poller.seen == old(poller.seen) && poller.queue.items == old(poller.queue.items)
      ensures fetched.Ok? && !fetched.value.bozo ==>
        AfterPoll(old(poller.seen), old(poller.queue.items), Entries(fetched.value, name, sourceId, now, maxAge, titleHash),
                  poller.seen, poller.queue.items, count)
      ensures poller.running == old(poller.running)
    {
      if fetched.Err? || fetched.value.bozo {
        return 0;
      }
      count := poller.Poll(Entries(fetched.value, name, sourceId, now, maxAge, titleHash));
    }
  }
}
