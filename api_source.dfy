/**
 * `APISource` of `sources/examples/api_source.py`: a REST endpoint polled at
 * a fixed interval. Each poll turns the decoded JSON body into items (dicts
 * with `text`, `id`, `url`, ...) with a transform, and every item whose id
 * has not been seen is queued as a `SourceMessage`. `CoinGeckoTrendingSource`
 * is the same source with a transform that lists the trending coins.
 *
 * The HTTP response, the clock and Python's `hash` are inputs; JSON numbers
 * are integers and a time is a number of seconds.
 */
module ApiSource {
  import opened Wrappers
  import opened PyStr
  import opened SourceBase
  import opened SourcePolling

  const DefaultName := "API Source"
  const Authorization := "Authorization"
  const TrendingHeader := "**\U{1F525} Trending Cryptocurrencies**\n\n"
  const TrendingUrl := "https://www.coingecko.com/en/coins/trending"
  /** `coins[:7]`: at most this many coins are listed. */
  const TrendingLimit := 7

  /** The exceptions the transforms and the poll can raise. */
  const NotIterable := "object is not iterable"
  const Unhashable := "unhashable type"
  const NoTextKey := "KeyError: 'text'"
  const NoGet := "object has no attribute 'get'"
  const NotSliceable := "object is not subscriptable"

  /** A decoded JSON value, as `response.json()` gives it. */
  datatype Json =
    | JNull
    | JBool(b: bool)
    | JNumber(n: int)
    | JString(s: string)
    | JArray(elems: seq<Json>)
    | JObject(fields: map<string, Json>)
  {
    /** Python's truth value of the decoded value. */
    predicate Truthy() {
      match this
      case JNull => false
      case JBool(b) => b
      case JNumber(n) => n != 0
      case JString(s) => s != ""
      case JArray(elems) => elems != []
      case JObject(fields) => fields != map[]
    }

    /** Lists and dicts cannot be hashed (nor be set members). */
    predicate Hashable() {
      !JArray? && !JObject?
    }

    /** `str()` of a value; lists and dicts are rendered as the empty string. */
    function Str(): string {
      match this
      case JNull => "None"
      case JBool(b) => if b then "True" else "False"
      case JNumber(n) => IntToString(n)
      case JString(s) => s
      case _ => ""
    }
  }

  /** A dict of JSON values, as the transforms build them. */
  type Item = map<string, Json>

  /** `d.get(key)`. */
  function Get(d: Item, key: string): Json {
    if key in d then d[key] else JNull
  }

  /** Python's `a or b`. */
  function Or(a: Json, b: Json): Json {
    if a.Truthy() then a else b
  }

  // ------------------------------------------------------------------ headers

  /** `headers or {}`, with `Authorization: Bearer {api_key}` added when the key is truthy. */
  function Headers(given: Option<map<string, string>>, apiKey: Option<string>): map<string, string> {
    var base := given.GetOr(map[]);
    if apiKey.Some? && apiKey.value != "" then base[Authorization := "Bearer " + apiKey.value] else base
  }

  /**
   * The key's header is sent exactly when a key is given; every other
   * header is the caller's, and without a key the headers are the caller's
   * (none by default).
   */
  lemma HeadersAuthorization(given: Option<map<string, string>>, apiKey: Option<string>)
    ensures var h := Headers(given, apiKey);
      var base := given.GetOr(map[]);
      && (apiKey.Some? && apiKey.value != "" ==> Authorization in h && h[Authorization] == "Bearer " + apiKey.value)
      && (apiKey.None? || apiKey.value == "" ==> h == base)
      && (forall k :: k != Authorization ==> (k in h <==> k in base) && (k in base ==> h[k] == base[k]))
  {
  }

  // ------------------------------------------------------ the default transform

  /** The first of the wrapper keys `data`, `results`, `items` that a dict has, else the value itself. */
  function Unwrap(data: Json): Json {
    if !data.JObject? then data
    else if "data" in data.fields then data.fields["data"]
    else if "results" in data.fields then data.fields["results"]
    else if "items" in data.fields then data.fields["items"]
    else data
  }

  /**
   * What the transform iterates: a lone dict as a one-element list, a list
   * as itself; iterating a string gives strings, none of them a dict, and a
   * number, a boolean or `None` cannot be iterated.
   */
  function Elements(data: Json): Result<seq<Json>> {
    var d := Unwrap(data);
    match d
    case JObject(_) => Ok([d])
    case JArray(elems) => Ok(elems)
    case JString(_) => Ok([])
    case _ => Err(NotIterable)
  }

  /** `item.get('text') or item.get('description') or item.get('content')`. */
  function ItemText(d: Item): Json {
    Or(Or(Get(d, "text"), Get(d, "description")), Get(d, "content"))
  }

  /** An element the default transform keeps: a dict with a truthy text. */
  predicate Kept(e: Json) {
    e.JObject? && ItemText(e.fields).Truthy()
  }

  /** The item built from a kept element; `hash(text)` is computed whether or not there is an id, and raises for a list or dict. */
  function ItemOf(d: Item, hash: Json -> int): Result<Item> {
    var text := ItemText(d);
    if !text.Hashable() then Err(Unhashable)
    else Ok(map[
      "id" := if "id" in d then d["id"] else JNumber(hash(text)),
      "text" := text,
      "url" := Or(Get(d, "url"), Get(d, "link")),
      "timestamp" := Or(Get(d, "timestamp"), Get(d, "created_at")),
      "metadata" := JObject(d)])
  }

  /** The items of `elems[k..]`. */
  function ItemsFrom(elems: seq<Json>, k: nat, hash: Json -> int): Result<seq<Item>>
    decreases |elems| - k
  {
    if k >= |elems| then Ok([])
    else if !Kept(elems[k]) then ItemsFrom(elems, k + 1, hash)
    else match ItemOf(elems[k].fields, hash)
      case Err(error) => Err(error)
      case Ok(item) =>
        match ItemsFrom(elems, k + 1, hash)
        case Err(error) => Err(error)
        case Ok(rest) => Ok([item] + rest)
  }

  /** `_default_transform(data)`. */
  function DefaultItems(data: Json, hash: Json -> int): Result<seq<Item>> {
    match Elements(data)
    case Err(error) => Err(error)
    case Ok(elems) => ItemsFrom(elems, 0, hash)
  }

  /** The loop of `_default_transform`: the kept elements' items, in order. */
  method DefaultTransform(data: Json, hash: Json -> int) returns (r: Result<seq<Item>>)
    ensures r == DefaultItems(data, hash)
  {
    var elems := Elements(data);
    if elems.Err? {
      return Err(elems.error);
    }
    var items: seq<Item> := [];
    match ItemsFrom(elems.value, 0, hash) {
      case Err(_) =>
      case Ok(rest) => assert items + rest == rest;
    }
    var i := 0;
    while i < |elems.value|
      invariant 0 <= i <= |elems.value|
      invariant ItemsFrom(elems.value, 0, hash) ==
        match ItemsFrom(elems.value, i, hash)
        case Err(error) => Err(error)
        case Ok(rest) => Ok(items + rest)
      decreases |elems.value| - i
    {
      var e := elems.value[i];
      if Kept(e) {
        var item := ItemOf(e.fields, hash);
        if item.Err? {
          return Err(item.error);
        }
        match ItemsFrom(elems.value, i + 1, hash) {
          case Err(_) =>
          case Ok(rest) => assert items + ([item.value] + rest) == (items + [item.value]) + rest;
        }
        items := items + [item.value];
      }
      i := i + 1;
    }
    assert items + [] == items;
    r := Ok(items);
  }

  /** An item the poll can take: a truthy, hashable text and an id. */
  predicate Ready(item: Item) {
    && "text" in item && item["text"].Truthy() && item["text"].Hashable()
    && "id" in item
  }

  /** The texts of the elements of `elems[k..]` the transform keeps, in order. */
  function KeptTexts(elems: seq<Json>, k: nat): seq<Json>
    decreases |elems| - k
  {
    if k >= |elems| then []
    else if Kept(elems[k]) then [ItemText(elems[k].fields)] + KeptTexts(elems, k + 1)
    else KeptTexts(elems, k + 1)
  }

  /**
   * The default transform fails exactly when a kept element's text is a list
   * or a dict; otherwise its items carry exactly the kept texts, in order,
   * and each is ready for the poll.
   */
  lemma {:induction false} ItemsFromContract(elems: seq<Json>, k: nat, hash: Json -> int)
    ensures var r := ItemsFrom(elems, k, hash);
      && (r.Ok? <==> forall j :: k <= j < |elems| && Kept(elems[j]) ==> ItemText(elems[j].fields).Hashable())
      && (r.Ok? ==> |r.value| == |KeptTexts(elems, k)|
                    && forall i :: 0 <= i < |r.value| ==> Ready(r.value[i]) && r.value[i]["text"] == KeptTexts(elems, k)[i])
    decreases |elems| - k
  {
    if k < |elems| {
      ItemsFromContract(elems, k + 1, hash);
      if Kept(elems[k]) && ItemOf(elems[k].fields, hash).Ok? {
        var r := ItemsFrom(elems, k, hash);
        if r.Ok? {
          var rest := ItemsFrom(elems, k + 1, hash).value;
          assert r.value == [ItemOf(elems[k].fields, hash).value] + rest;
          forall i | 0 <= i < |r.value|
            ensures Ready(r.value[i]) && r.value[i]["text"] == KeptTexts(elems, k)[i]
          {
            if i > 0 {
              assert r.value[i] == rest[i - 1];
            }
          }
        }
      }
    }
  }

  // ------------------------------------------------------ the trending transform

  /** One line of the trending list: number, bold name, symbol and rank. */
  function CoinLine(number: nat, name: Json, symbol: Json, rank: Json): string {
    NatToString(number) + ". **" + name.Str() + "** ($" + symbol.Str() + ") - Rank #" + rank.Str()
  }

  /** `d.get(key, default)`. */
  function GetOr(d: Item, key: string, default: Json): Json {
    if key in d then d[key] else default
  }

  /** The line of one entry of `coins`: its `item` dict's name, symbol and rank, with their defaults. */
  function CoinEntryLine(number: nat, entry: Json): Result<string> {
    if !entry.JObject? then Err(NoGet)
    else
      var coin := GetOr(entry.fields, "item", JObject(map[]));
      if !coin.JObject? then Err(NoGet)
      else Ok(CoinLine(number,
        GetOr(coin.fields, "name", JString("Unknown")),
        GetOr(coin.fields, "symbol", JString("???")),
        GetOr(coin.fields, "market_cap_rank", JString("N/A"))))
  }

  /** How many coins are listed: `len(coins[:7])`. */
  function Listed(coins: seq<Json>): nat {
    if |coins| < TrendingLimit then |coins| else TrendingLimit
  }

  /** The line of the coin at position `i`, numbered from 1. */
  function LineAt(coins: seq<Json>, i: nat): Result<string>
    requires i < |coins|
  {
    CoinEntryLine(i + 1, coins[i])
  }

  /** The lines of the listed coins from position `k` on, numbered from `k + 1`. */
  function LinesFrom(coins: seq<Json>, k: nat): Result<seq<string>>
    decreases |coins| - k
  {
    if k >= Listed(coins) then Ok([])
    else match LineAt(coins, k)
      case Err(error) => Err(error)
      case Ok(line) =>
        match LinesFrom(coins, k + 1)
        case Err(error) => Err(error)
        case Ok(rest) => Ok([line] + rest)
  }

  /** The one item of a non-empty trending list. */
  function TrendingItem(coins: Json, lines: seq<string>, hourStamp: string, now: int): Item {
    map[
      "id" := JString("trending_" + hourStamp),
      "text" := JString(TrendingHeader + Join(lines, "\n")),
      "url" := JString(TrendingUrl),
      "timestamp" := JNumber(now),
      "metadata" := JObject(map["coins" := coins])]
  }

  /**
   * `_transform_trending(data)` in the hour `hourStamp` (`%Y%m%d%H`) at time
   * `now`: nothing when there are no coins, else one item listing them.
   */
  function TrendingItems(data: Json, hourStamp: string, now: int): Result<seq<Item>> {
    if !data.JObject? then Err(NoGet)
    else
      var coins := GetOr(data.fields, "coins", JArray([]));
      if !coins.Truthy() then Ok([])
      else if !coins.JArray? then Err(NotSliceable)
      else match LinesFrom(coins.elems, 0)
        case Err(error) => Err(error)
        case Ok(lines) => Ok([TrendingItem(coins, lines, hourStamp, now)])
  }

  /** The loop of `_transform_trending`: one line per listed coin, then the one item. */
  method TrendingTransform(data: Json, hourStamp: string, now: int) returns (r: Result<seq<Item>>)
    ensures r == TrendingItems(data, hourStamp, now)
  {
    if !data.JObject? {
      return Err(NoGet);
    }
    var coins := GetOr(data.fields, "coins", JArray([]));
    if !coins.Truthy() {
      return Ok([]);
    }
    if !coins.JArray? {
      return Err(NotSliceable);
    }
    var lines: seq<string> := [];
    match LinesFrom(coins.elems, 0) {
      case Err(_) =>
      case Ok(rest) => assert lines + rest == rest;
    }
    var i := 0;
    while i < Listed(coins.elems)
      invariant 0 <= i <= |coins.elems|
      invariant LinesFrom(coins.elems, 0) ==
        match LinesFrom(coins.elems, i)
        case Err(error) => Err(error)
        case Ok(rest) => Ok(lines + rest)
      decreases |coins.elems| - i
    {
      var line := CoinEntryLine(i + 1, coins.elems[i]);
      assert line == LineAt(coins.elems, i);
      if line.Err? {
        return Err(line.error);
      }
      match LinesFrom(coins.elems, i + 1) {
        case Err(_) =>
        case Ok(rest) => assert lines + ([line.value] + rest) == (lines + [line.value]) + rest;
      }
      lines := lines + [line.value];
      i := i + 1;
    }
    assert lines + [] == lines;
    r := Ok([TrendingItem(coins, lines, hourStamp, now)]);
  }

  /**
   * The listed coins: the first seven at most, in order, the line of the
   * `i`-th numbered `i + 1`.
   */
  lemma {:induction false} LinesFromContract(coins: seq<Json>, k: nat)
    requires k <= Listed(coins)
    ensures var r := LinesFrom(coins, k);
      r.Ok? ==>
        && |r.value| == Listed(coins) - k
        && forall i :: k <= i < Listed(coins) ==> LineAt(coins, i) == Ok(r.value[i - k])
    decreases |coins| - k
  {
    if k < Listed(coins) {
      LinesFromContract(coins, k + 1);
      var r := LinesFrom(coins, k);
      if r.Ok? {
        var rest := LinesFrom(coins, k + 1).value;
        assert r.value == [LineAt(coins, k).value] + rest;
        forall i | k < i < Listed(coins)
          ensures LineAt(coins, i) == Ok(r.value[i - k])
        {
          assert r.value[i - k] == rest[i - (k + 1)];
        }
      }
    }
  }

  /** The trending transform raises exactly when one of the listed coins is not a dict or has an `item` that is not one. */
  lemma {:induction false} LinesFromFails(coins: seq<Json>, k: nat)
    ensures LinesFrom(coins, k).Err? <==> exists i :: k <= i < Listed(coins) && LineAt(coins, i).Err?
    decreases |coins| - k
  {
    if k < Listed(coins) {
      if LineAt(coins, k).Err? {
        assert LinesFrom(coins, k).Err?;
      } else {
        LinesFromFails(coins, k + 1);
        assert LinesFrom(coins, k).Err? <==> LinesFrom(coins, k + 1).Err?;
        if exists i :: k <= i < Listed(coins) && LineAt(coins, i).Err? {
          var i :| k <= i < Listed(coins) && LineAt(coins, i).Err?;
          assert i != k;
        }
      }
    }
  }

  /**
   * The trending transform gives no item when the coins are missing or
   * empty, and otherwise (when nothing raises) exactly one, whose text is
   * the header and then one line per listed coin, at most seven.
   */
  lemma TrendingShape(data: Json, hourStamp: string, now: int)
    requires data.JObject?
    ensures var coins := GetOr(data.fields, "coins", JArray([]));
      var r := TrendingItems(data, hourStamp, now);
      && (!coins.Truthy() ==> r == Ok([]))
      && (coins.Truthy() && r.Ok? ==>
            && coins.JArray? && |r.value| == 1
            && var lines := LinesFrom(coins.elems, 0).value;
            && r.value[0]["text"] == JString(TrendingHeader + Join(lines, "\n"))
            && |lines| == Listed(coins.elems)
            && r.value[0]["id"] == JString("trending_" + hourStamp))
  {
    var coins := GetOr(data.fields, "coins", JArray([]));
    if coins.Truthy() && coins.JArray? {
      LinesFromContract(coins.elems, 0);
    }
  }

  // ------------------------------------------------------------------ polling

  /** Which transform the source applies: the default one, the trending one, or the caller's. */
  datatype Transform =
    | DefaultTransformer
    | TrendingTransformer
    | CustomTransformer(apply: Json -> Result<seq<Item>>)

  /**
   * An item as the poll's loop sees it. The key is `item.get('id',
   * hash(item['text']))`: the text is looked up and hashed first, and the
   * key must itself be hashable to be looked for among the seen ones. The
   * message's text is `item['text']`, which must be truthy.
   */
  function ToEntry(item: Item, name: string, sourceId: string, now: int, hash: Json -> int): Entry<Json> {
    var key :=
      if "text" !in item then Err(NoTextKey)
      else if !item["text"].Hashable() then Err(Unhashable)
      else
        var id := if "id" in item then item["id"] else JNumber(hash(item["text"]));
        if id.Hashable() then Ok(id) else Err(Unhashable);
    var text := Get(item, "text");
    var timestamp := match Get(item, "timestamp") case JNumber(t) => t case _ => now;
    var url := match Get(item, "url") case JString(u) => Some(u) case _ => None;
    var messageId := if key.Ok? then Some(key.value.Str()) else None;
    var m := Validate(SourceMessage(
      if text.Truthy() then Some(text.Str()) else None, name, sourceId, timestamp, None, None, url, map[], messageId));
    Entry(key, match m case Err(error) => Err(error) case Ok(m) => Ok(Some(m)))
  }

  /**
   * The items of a poll, in order. Item `j` is keyed by its `id`, else by
   * its text's hash, when the text is present and both are hashable; it is
   * never skipped, and becomes a message of this source exactly when its
   * text is truthy and not a list or a dict (whose `str()` the model takes
   * as empty), with `str()` of the key as the message id.
   */
  function Entries(items: seq<Item>, name: string, sourceId: string, now: int, hash: Json -> int): (r: seq<Entry<Json>>)
    ensures |r| == |items|
    ensures forall j :: 0 <= j < |items| ==>
      (r[j].key.Ok? <==> "text" in items[j] && items[j]["text"].Hashable() && ("id" in items[j] ==> items[j]["id"].Hashable()))
    ensures forall j :: 0 <= j < |items| && r[j].key.Ok? ==>
      r[j].key.value == (if "id" in items[j] then items[j]["id"] else JNumber(hash(items[j]["text"])))
    ensures forall j :: 0 <= j < |items| ==> r[j].next != Ok(None) && (r[j].next.Ok? <==> Get(items[j], "text").Truthy() && Get(items[j], "text").Hashable())
    ensures forall j :: 0 <= j < |items| && r[j].next.Ok? ==>
      var m := r[j].next.value.value;
      && m.text == Some(Get(items[j], "text").Str()) && m.sourceName == name && m.sourceId == sourceId
      && m.messageId == (if r[j].key.Ok? then Some(r[j].key.value.Str()) else None)
  {
    seq(|items|, j requires 0 <= j < |items| => ToEntry(items[j], name, sourceId, now, hash))
  }

  /**
   * Every item of the default transform reaches the queue unless its id is
   * a list or a dict (or already seen): its text is present, truthy and
   * hashable.
   */
  lemma DefaultItemsQueueable(data: Json, hash: Json -> int, name: string, sourceId: string, now: int)
    requires DefaultItems(data, hash).Ok?
    ensures var items := DefaultItems(data, hash).value;
      forall j :: 0 <= j < |items| ==>
        var e := ToEntry(items[j], name, sourceId, now, hash);
        "id" in items[j] && (e.key.Ok? <==> items[j]["id"].Hashable()) && (e.key.Ok? ==> e.next.Ok? && e.next.value.Some?)
  {
    ItemsFromContract(Elements(data).value, 0, hash);
  }

  /** The trending item has a truthy text and its hour's id. */
  lemma TrendingItemReady(coins: Json, lines: seq<string>, hourStamp: string, now: int)
    ensures var item := TrendingItem(coins, lines, hourStamp, now);
      Ready(item) && item["id"] == JString("trending_" + hourStamp)
  {
    var text := TrendingHeader + Join(lines, "\n");
    assert text[0] == '*';
  }

  /** An item with a hashable text and a hashable id is keyed by that id. */
  lemma KeyOfReadyItem(item: Item, name: string, sourceId: string, now: int, hash: Json -> int)
    requires Ready(item) && item["id"].Hashable()
    ensures ToEntry(item, name, sourceId, now, hash).key == Ok(item["id"])
  {
  }

  /**
   * Hourly updates: once the trending item of an hour is remembered, polls
   * in the same hour queue nothing, whatever the coins are by then.
   */
  lemma TrendingOncePerHour(seen: set<Json>, data: Json, hourStamp: string, now: int, name: string, sourceId: string, hash: Json -> int)
    requires TrendingItems(data, hourStamp, now).Ok? && JString("trending_" + hourStamp) in seen
    ensures var items := TrendingItems(data, hourStamp, now).value;
      ScanFrom(seen, Entries(items, name, sourceId, now, hash), 0) == Scanned(seen, [], [], false)
  {
    var items := TrendingItems(data, hourStamp, now).value;
    var entries := Entries(items, name, sourceId, now, hash);
    if items != [] {
      var coins := GetOr(data.fields, "coins", JArray([]));
      TrendingItemReady(coins, LinesFrom(coins.elems, 0).value, hourStamp, now);
      KeyOfReadyItem(items[0], name, sourceId, now, hash);
    }
    ScanQuiet(seen, entries, 0);
  }

  /** `APISource` (and `CoinGeckoTrendingSource`, its trending configuration): endpoint, headers, transform and the polling state. */
  class ApiSource {
    const apiUrl: string
    const name: string
    const sourceId: string
    /** Seconds between polls. */
    const pollInterval: int
    const headers: map<string, string>
    const transform: Transform
    const poller: Poller<Json>

    constructor(apiUrl: string, name: string, sourceId: Option<string>, pollMinutes: int, apiKey: Option<string>,
                headers: Option<map<string, string>>, transform: Option<Transform>, urlHash: int)
      ensures this.apiUrl == apiUrl && this.name == name
      ensures this.sourceId == (if sourceId.Some? && sourceId.value != "" then sourceId.value else DefaultId("api_", urlHash))
      ensures pollInterval == pollMinutes * 60
      ensures this.headers == Headers(headers, apiKey)
      ensures this.transform == (if transform.Some? then transform.value else DefaultTransformer)
      ensures fresh(poller) && fresh(poller.queue) && !poller.running && poller.seen == {} && poller.queue.items == []
    {
      this.apiUrl := apiUrl;
      this.name := name;
      this.sourceId := if sourceId.Some? && sourceId.value != "" then sourceId.value else DefaultId("api_", urlHash);
      pollInterval := pollMinutes * 60;
      this.headers := Headers(headers, apiKey);
      this.transform := if transform.Some? then transform.value else DefaultTransformer;
      poller := new Poller();
    }

    /** `CoinGeckoTrendingSource()`. */
    static method CoinGeckoTrending() returns (s: ApiSource)
      ensures fresh(s) && fresh(s.poller) && fresh(s.poller.queue)
      ensures s.name == "CoinGecko Trending" && s.sourceId == "coingecko_trending" && s.pollInterval == 3600
      ensures s.headers == map[] && s.transform == TrendingTransformer
      ensures !s.poller.running && s.poller.seen == {} && s.poller.queue.items == []
    {
      s := new ApiSource("https://api.coingecko.com/api/v3/search/trending", "CoinGecko Trending",
        Some("coingecko_trending"), 60, None, None, Some(TrendingTransformer), 0);
    }

    /** `start()`: the test request must answer 200 or 201; a request that raises fails too. */
    method Start(status: Result<int>) returns (ok: bool)
      modifies poller
      ensures ok <==> status == Ok(200) || status == Ok(201)
      ensures poller.running == (old(poller.running) || ok) && poller.seen == old(poller.seen)
    {
      if status.Err? || (status.value != 200 && status.value != 201) {
        return false;
      }
      poller.running := true;
      ok := true;
    }

    method Stop()
      modifies poller
      ensures !poller.running && poller.seen == old(poller.seen)
    {
      poller.Stop();
    }

    /** The transform applied to a decoded body. */
    method ApplyTransform(data: Json, hash: Json -> int, hourStamp: string, now: int) returns (r: Result<seq<Item>>)
      ensures r == match transform
        case DefaultTransformer => DefaultItems(data, hash)
        case TrendingTransformer => TrendingItems(data, hourStamp, now)
        case CustomTransformer(apply) => apply(data)
    {
      match transform
      case DefaultTransformer => r := DefaultTransform(data, hash);
      case TrendingTransformer => r := TrendingTransform(data, hourStamp, now);
      case CustomTransformer(apply) => r := apply(data);
    }

    /**
     * One round of `_poll_api()` at time `now`: only a 200 response with a
     * body the transform accepts is scanned; a request that raises, any
     * other status, or a transform that raises changes nothing.
     */
    method PollOnce(response: Result<(int, Json)>, hash: Json -> int, hourStamp: string, now: int) returns (count: nat)
      modifies poller, poller.queue
      ensures response.Err? || response.value.0 != 200 ==>
        count == 0 && poller.seen == old(poller.seen) && poller.queue.items == old(poller.queue.items)
      ensures response.Ok? && response.value.0 == 200 ==>
        var items := match transform
          case DefaultTransformer => DefaultItems(response.value.1, hash)
          case TrendingTransformer => TrendingItems(response.value.1, hourStamp, now)
          case CustomTransformer(apply) => apply(response.value.1);
        && (items.Err? ==> count == 0 && poller.seen == old(poller.seen) && poller.queue.items == old(poller.queue.items))
        && (items.Ok? ==> AfterPoll(old(poller.seen), old(poller.queue.items), Entries(items.value, name, sourceId, now, hash),
                                    poller.seen, poller.queue.items, count))
      ensures poller.running == old(poller.running)
    {
      if response.Err? || response.value.0 != 200 {
        return 0;
      }
      var items := ApplyTransform(response.value.1, hash, hourStamp, now);
      if items.Err? {
        return 0;
      }
      count := poller.Poll(Entries(items.value, name, sourceId, now, hash));
    }
  }
}
