/**
 * `WebScraperSource` of `sources/examples/webscraper_source.py`: a page
 * scraped at a fixed interval. The elements the CSS selector matches become
 * items (their stripped text and the link they hold), and every item whose
 * text hash has not been seen is queued as a `SourceMessage`.
 *
 * The HTTP response, the parse and selection of the page (as the list of
 * matched elements), `urljoin`, the clock and Python's `hash` are inputs.
 */
module WebScraperSource {
  import opened Wrappers
  import opened PyStr
  import opened SourceBase
  import opened SourcePolling

  const DefaultName := "Web Scraper"
  const UserAgent := "Mozilla/5.0 (compatible; IntelligenceBot/1.0)"

  /**
   * A matched element: `get_text(strip=True)`, and its first `<a>`: `None`
   * when there is none, else that link's `href`, `None` when it has none.
   */
  datatype Element = Element(text: string, link: Option<Option<string>>)

  /** A fetched page: its HTTP status and the elements the selector matched. */
  datatype Page = Page(status: int, elements: seq<Element>)

  /** A scraped item: `{'text': ..., 'url': ..., 'metadata': {}}`. */
  datatype ScrapedItem = ScrapedItem(text: string, url: Option<string>)

  /** The item's link: the `href`, made absolute against the page when it starts with `/`. */
  function ItemUrl(e: Element, pageUrl: string, urljoin: (string, string) -> string): (r: Option<string>)
    ensures r.None? <==> e.link.None? || e.link.value.None?
    ensures r.Some? && !StartsWith(e.link.value.value, "/") ==> r.value == e.link.value.value
    ensures r.Some? && StartsWith(e.link.value.value, "/") ==> r.value == urljoin(pageUrl, e.link.value.value)
  {
    match e.link
    case None => None
    case Some(href) =>
      match href
      case None => None
      case Some(h) => if h != "" && StartsWith(h, "/") then Some(urljoin(pageUrl, h)) else Some(h)
  }

  /** The items of `elements[k..]`: one per element with text, in order. */
  function ItemsFrom(elements: seq<Element>, k: nat, pageUrl: string, urljoin: (string, string) -> string): seq<ScrapedItem>
    decreases |elements| - k
  {
    if k >= |elements| then []
    else if elements[k].text == "" then ItemsFrom(elements, k + 1, pageUrl, urljoin)
    else [ScrapedItem(elements[k].text, ItemUrl(elements[k], pageUrl, urljoin))] + ItemsFrom(elements, k + 1, pageUrl, urljoin)
  }

  /** `_scrape_page()`: `Err` when the request raises, no items for a status other than 200. */
  function Scraped(fetched: Result<Page>, pageUrl: string, urljoin: (string, string) -> string): Result<seq<ScrapedItem>> {
    match fetched
    case Err(error) => Err(error)
    case Ok(page) => if page.status != 200 then Ok([]) else Ok(ItemsFrom(page.elements, 0, pageUrl, urljoin))
  }

  /** The loop of `_scrape_page()` over the matched elements. */
  method ScrapePage(fetched: Result<Page>, pageUrl: string, urljoin: (string, string) -> string) returns (r: Result<seq<ScrapedItem>>)
    ensures r == Scraped(fetched, pageUrl, urljoin)
  {
    if fetched.Err? {
      return Err(fetched.error);
    }
    var page := fetched.value;
    if page.status != 200 {
      return Ok([]);
    }
    var items: seq<ScrapedItem> := [];
    var i := 0;
    while i < |page.elements|
      invariant 0 <= i <= |page.elements|
      invariant ItemsFrom(page.elements, 0, pageUrl, urljoin) == items + ItemsFrom(page.elements, i, pageUrl, urljoin)
      decreases |page.elements| - i
    {
      var element := page.elements[i];
      if element.text != "" {
        var item := ScrapedItem(element.text, ItemUrl(element, pageUrl, urljoin));
        assert items + ([item] + ItemsFrom(page.elements, i + 1, pageUrl, urljoin))
            == (items + [item]) + ItemsFrom(page.elements, i + 1, pageUrl, urljoin);
        items := items + [item];
      }
      i := i + 1;
    }
    assert items + [] == items;
    r := Ok(items);
  }

  /** The elements of `elements[k..]` that have text, in page order. */
  function TextElements(elements: seq<Element>, k: nat): (r: seq<Element>)
    ensures forall i :: 0 <= i < |r| ==> r[i].text != "" && r[i] in elements
    decreases |elements| - k
  {
    if k >= |elements| then []
    else if elements[k].text == "" then TextElements(elements, k + 1)
    else [elements[k]] + TextElements(elements, k + 1)
  }

  /**
   * Elements without text are skipped and each other one gives one item, in
   * page order: item `i` is the text and link of the `i`-th element with
   * text, so every item has text.
   */
  lemma {:induction false} ItemsFromContract(elements: seq<Element>, k: nat, pageUrl: string, urljoin: (string, string) -> string)
    ensures var items := ItemsFrom(elements, k, pageUrl, urljoin);
      var kept := TextElements(elements, k);
      && |items| == |kept|
      && forall i :: 0 <= i < |items| ==>
           items[i].text != "" && items[i] == ScrapedItem(kept[i].text, ItemUrl(kept[i], pageUrl, urljoin))
    decreases |elements| - k
  {
    if k < |elements| {
      ItemsFromContract(elements, k + 1, pageUrl, urljoin);
      var items := ItemsFrom(elements, k, pageUrl, urljoin);
      var rest := ItemsFrom(elements, k + 1, pageUrl, urljoin);
      var kept := TextElements(elements, k);
      var keptRest := TextElements(elements, k + 1);
      if elements[k].text != "" {
        assert items == [ScrapedItem(elements[k].text, ItemUrl(elements[k], pageUrl, urljoin))] + rest;
        assert kept == [elements[k]] + keptRest;
        forall i | 0 <= i < |items|
          ensures items[i].text != "" && items[i] == ScrapedItem(kept[i].text, ItemUrl(kept[i], pageUrl, urljoin))
        {
          if i > 0 {
            assert items[i] == rest[i - 1];
            assert kept[i] == keptRest[i - 1];
          }
        }
      }
    }
  }

  /** An item as the poll's loop sees it: keyed by its text's hash, and queued with its own link (`None` when it has none). */
  function ToEntry(item: ScrapedItem, name: string, sourceId: string, now: int, textHash: string -> int): Entry<int> {
    var m := Validate(SourceMessage(Some(item.text), name, sourceId, now, None, None, item.url, map[], None));
    Entry(Ok(textHash(item.text)), match m case Err(error) => Err(error) case Ok(m) => Ok(Some(m)))
  }

  /**
   * The items of a scrape, in order: item `j` is keyed by its text's hash,
   * and becomes a message of this source, stamped `now`, with its own text
   * and link, exactly when its text is not empty.
   */
  function Entries(items: seq<ScrapedItem>, name: string, sourceId: string, now: int, textHash: string -> int): (r: seq<Entry<int>>)
    ensures |r| == |items|
    ensures forall j :: 0 <= j < |items| ==> r[j].key == Ok(textHash(items[j].text))
    ensures forall j :: 0 <= j < |items| ==> (r[j].next.Ok? <==> items[j].text != "") && r[j].next != Ok(None)
    ensures forall j :: 0 <= j < |items| && r[j].next.Ok? ==>
      var m := r[j].next.value.value;
      m.text == Some(items[j].text) && m.url == items[j].url && m.timestamp == now && m.sourceName == name && m.sourceId == sourceId
  {
    seq(|items|, j requires 0 <= j < |items| => ToEntry(items[j], name, sourceId, now, textHash))
  }

  /**
   * A scraped item is always queued when its hash is unseen, with the
   * item's text and link: an element without a link gives a message
   * without a URL, not the page's URL.
   */
  lemma ScrapedItemQueued(e: Element, pageUrl: string, urljoin: (string, string) -> string, name: string, sourceId: string, now: int, textHash: string -> int)
    requires e.text != ""
    ensures var entry := ToEntry(ScrapedItem(e.text, ItemUrl(e, pageUrl, urljoin)), name, sourceId, now, textHash);
      && entry.key == Ok(textHash(e.text)) && entry.next.Ok? && entry.next.value.Some?
      && entry.next.value.value.text == Some(e.text)
      && (e.link.None? ==> entry.next.value.value.url.None?)
  {
  }

  /** `WebScraperSource`: page, selector, headers and the polling state. */
  class WebScraperSource {
    const url: string
    const cssSelector: string
    const name: string
    const sourceId: string
    /** Seconds between scrapes. */
    const scrapeInterval: int
    const headers: map<string, string>
    const poller: Poller<int>

    /** `name or "Web Scraper"`, `scraper_` and the URL's hash when no id is given, and the bot's user agent when no headers are. */
    constructor(url: string, cssSelector: string, name: Option<string>, sourceId: Option<string>, scrapeMinutes: int,
                headers: Option<map<string, string>>, urlHash: int)
      ensures this.url == url && this.cssSelector == cssSelector
      ensures this.name == (if name.Some? && name.value != "" then name.value else DefaultName)
      ensures this.sourceId == (if sourceId.Some? && sourceId.value != "" then sourceId.value else DefaultId("scraper_", urlHash))
      ensures scrapeInterval == scrapeMinutes * 60
      ensures this.headers == (if headers.Some? && headers.value != map[] then headers.value else map["User-Agent" := UserAgent])
      ensures fresh(poller) && fresh(poller.queue) && !poller.running && poller.seen == {} && poller.queue.items == []
    {
      this.url := url;
      this.cssSelector := cssSelector;
      this.name := if name.Some? && name.value != "" then name.value else DefaultName;
      this.sourceId := if sourceId.Some? && sourceId.value != "" then sourceId.value else DefaultId("scraper_", urlHash);
      scrapeInterval := scrapeMinutes * 60;
      this.headers := if headers.Some? && headers.value != map[] then headers.value else map["User-Agent" := UserAgent];
      poller := new Poller();
    }

    /** `start()`: the test request must answer 200; a request that raises fails too. */
    method Start(status: Result<int>) returns (ok: bool)
      modifies poller
      ensures ok <==> status == Ok(200)
      ensures poller.running == (old(poller.running) || ok) && poller.seen == old(poller.seen)
    {
      if status != Ok(200) {
        return false;
      }
      poller.running := true;
      ok := true;
    }

    method Stop()
      modifies poller
      ensures !poller.running && poller.seen == old(poller.seen)
    {
      poller.Stop();
    }

    /** One round of `_scrape_loop()` at time `now`: a scrape that raises changes nothing. */
    method PollOnce(fetched: Result<Page>, now: int, textHash: string -> int, urljoin: (string, string) -> string) returns (count: nat)
      modifies poller, poller.queue
      ensures var r := Scraped(fetched, url, urljoin);
        && (r.Err? ==> count == 0 && poller.seen == old(poller.seen) && poller.queue.items == old(poller.queue.items))
        && (r.Ok? ==> AfterPoll(old(poller.seen), old(poller.queue.items), Entries(r.value, name, sourceId, now, textHash),
                                poller.seen, poller.queue.items, count))
      ensures poller.running == old(poller.running)
    {
      var items := ScrapePage(fetched, url, urljoin);
      if items.Err? {
        return 0;
      }
      count := poller.Poll(Entries(items.value, name, sourceId, now, textHash));
    }
  }
}
