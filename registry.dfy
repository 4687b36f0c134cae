/**
 * `SourceRegistry` of `sources/registry.py`: sources registered under their
 * `source_id`, started and stopped together, their health collected, and
 * their messages handed to one handler.
 *
 * Python's dict keeps insertion order, which `list_sources` and the start
 * and health loops follow: the model keeps that order as `order` next to the
 * `sources` map. What a source's `start()`, `health_check()`, message stream
 * and the handler do is given as functions of the source id or message.
 * The concurrent `gather` runs one source after another here.
 */
module Registry {
  import opened Wrappers
  import opened SourceBase

  /** What awaiting `source.start()` gave: a value (only `True` counts as success) or an exception. */
  datatype StartResult = Started(value: bool) | StartRaised(error: string)

  /** What awaiting `source.health_check()` gave. */
  datatype HealthResult = Healthy(value: bool) | HealthRaised(error: string)

  /** What awaiting the handler on one message gave. */
  datatype HandlerResult = Handled(ok: bool) | HandlerRaised(error: string)

  /** How many of the sources `ids` returned exactly `True` from `start()`. */
  function SuccessCount(ids: seq<string>, start: string -> StartResult): nat {
    if ids == [] then 0
    else SuccessCount(ids[..|ids| - 1], start) + (if start(ids[|ids| - 1]) == Started(true) then 1 else 0)
  }

  /** At least one success exactly when some source returned `True`. */
  lemma {:induction false} SuccessCountPositive(ids: seq<string>, start: string -> StartResult)
    ensures SuccessCount(ids, start) > 0 <==> exists i :: 0 <= i < |ids| && start(ids[i]) == Started(true)
    ensures SuccessCount(ids, start) <= |ids|
  {
    if ids != [] {
      var init := ids[..|ids| - 1];
      SuccessCountPositive(init, start);
      if exists i :: 0 <= i < |init| && start(init[i]) == Started(true) {
        var i :| 0 <= i < |init| && start(init[i]) == Started(true);
        assert ids[i] == init[i];
      }
      if exists i :: 0 <= i < |ids| && start(ids[i]) == Started(true) {
        var i :| 0 <= i < |ids| && start(ids[i]) == Started(true);
        if i < |init| { assert init[i] == ids[i]; }
      }
    }
  }

  /** The value of `health_check()` for one source: `False` when it raised. */
  function HealthValue(r: HealthResult): bool {
    match r
    case Healthy(b) => b
    case HealthRaised(_) => false
  }

  /** One source's stream, handled: the messages in stream order, each with the handler's result. */
  datatype Delivery = Delivery(message: SourceMessage, result: HandlerResult)

  /** The deliveries of the sources `ids`, one source after the other. */
  function Deliveries(ids: seq<string>, stream: string -> seq<SourceMessage>, handler: SourceMessage -> HandlerResult): seq<Delivery> {
    if ids == [] then []
    else
      var last := ids[|ids| - 1];
      Deliveries(ids[..|ids| - 1], stream, handler) + SourceDeliveries(stream(last), handler)
  }

  /** The deliveries of one source's messages, in order. */
  function SourceDeliveries(messages: seq<SourceMessage>, handler: SourceMessage -> HandlerResult): (r: seq<Delivery>)
    ensures |r| == |messages|
    ensures forall j :: 0 <= j < |messages| ==> r[j] == Delivery(messages[j], handler(messages[j]))
  {
    seq(|messages|, j requires 0 <= j < |messages| => Delivery(messages[j], handler(messages[j])))
  }

  /** How many of the deliveries were logged as errors. */
  function ErrorCount(d: seq<Delivery>): nat {
    |set i | 0 <= i < |d| && d[i].result.HandlerRaised?|
  }

  /** The messages of the streams of `ids`, one source after the other. */
  function AllMessages(ids: seq<string>, stream: string -> seq<SourceMessage>): seq<SourceMessage> {
    if ids == [] then [] else AllMessages(ids[..|ids| - 1], stream) + stream(ids[|ids| - 1])
  }

  /**
   * Every message of every stream reaches the handler exactly once and in
   * stream order, whatever the handler does with the ones before it.
   */
  lemma {:induction false} DeliveriesCoverStreams(ids: seq<string>, stream: string -> seq<SourceMessage>, handler: SourceMessage -> HandlerResult)
    ensures var d := Deliveries(ids, stream, handler);
      && |d| == |AllMessages(ids, stream)|
      && forall i :: 0 <= i < |d| ==> d[i].message == AllMessages(ids, stream)[i] && d[i].result == handler(d[i].message)
  {
    if ids != [] {
      DeliveriesCoverStreams(ids[..|ids| - 1], stream, handler);
    }
  }

  class SourceRegistry {
    var sources: map<string, BaseSource>
    /** The keys of `sources` in insertion order. */
    var order: seq<string>
    var running: bool

    /** `order` lists each key of `sources` once. */
    ghost predicate Valid()
      reads this
    {
      && (forall i, j :: 0 <= i < j < |order| ==> order[i] != order[j])
      && (forall id :: id in sources <==> id in order)
    }

    constructor()
      ensures Valid() && sources == map[] && order == [] && !running
    {
      sources := map[];
      order := [];
      running := false;
    }

    /** `register(source)`: a duplicate id is refused with a `ValueError` and changes nothing. */
    method Register(source: BaseSource) returns (r: Result<()>)
      requires Valid()
      modifies this
      ensures Valid()
      ensures r.Err? <==> source.sourceId in old(sources)
      ensures r.Err? ==> sources == old(sources) && order == old(order)
      ensures r.Ok? ==> sources == old(sources)[source.sourceId := source] && order == old(order) + [source.sourceId]
      ensures running == old(running)
    {
      if source.sourceId in sources {
        return Err("Source with ID '" + source.sourceId + "' already registered");
      }
      sources := sources[source.sourceId := source];
      order := order + [source.sourceId];
      return Ok(());
    }

    /** `unregister(source_id)`: removes the id if present, keeping the others in registration order, and does nothing otherwise. */
    method Unregister(sourceId: string)
      requires Valid()
      modifies this
      ensures Valid()
      ensures sources == old(sources) - {sourceId}
      ensures sourceId !in old(sources) ==> order == old(order)
      ensures forall id :: id in order <==> id in old(order) && id != sourceId
      ensures sourceId in old(sources) ==>
        exists i :: 0 <= i < |old(order)| && old(order)[i] == sourceId && order == old(order)[..i] + old(order)[i + 1..]
      ensures running == old(running)
    {
      if sourceId in sources {
        sources := sources - {sourceId};
        var i :| 0 <= i < |order| && order[i] == sourceId;
        RemoveAt(order, i);
        order := order[..i] + order[i + 1..];
      }
    }

    /** `get_source(source_id)`: `KeyError` for an unknown id. */
    method GetSource(sourceId: string) returns (r: Result<BaseSource>)
      ensures r.Ok? <==> sourceId in sources
      ensures r.Ok? ==> r.value == sources[sourceId]
    {
      if sourceId in sources {
        return Ok(sources[sourceId]);
      }
      return Err(sourceId);
    }

    /** `list_sources()`: exactly the registered ids, in insertion order, each once. */
    method ListSources() returns (ids: seq<string>)
      requires Valid()
      ensures ids == order
      ensures forall id :: id in ids <==> id in sources
      ensures |ids| == |sources|
    {
      ids := order;
      KeysCount(order, sources.Keys);
    }

    /**
     * `start_all()`: `False` without touching `running` when nothing is
     * registered; otherwise sets `running` whatever the results, and
     * reports whether at least one source returned `True`.
     */
    method StartAll(start: string -> StartResult) returns (ok: bool)
      requires Valid()
      modifies this
      ensures ok <==> SuccessCount(order, start) > 0
      ensures running == (old(running) || |sources| > 0)
      ensures sources == old(sources) && order == old(order)
    {
      if |order| == 0 {
        KeysCount(order, sources.Keys);
        return false;
      }
      KeysCount(order, sources.Keys);
      var successCount := 0;
      var k := 0;
      while k < |order|
        invariant 0 <= k <= |order|
        invariant successCount == SuccessCount(order[..k], start)
      {
        var result := start(order[k]);
        if result == Started(true) {
          successCount := successCount + 1;
        }
        assert order[..k + 1][..k] == order[..k];
        k := k + 1;
      }
      assert order[..k] == order;
      running := true;
      return successCount > 0;
    }

    /**
     * `stop_all()`: clears `running`, then awaits every registered source's
     * `stop()` in registration order; `gather` collects each outcome, an
     * exception included, so a source whose `stop()` raises stops neither
     * the others nor the caller. `outcomes[i]` is the exception of the
     * `i`-th source's `stop()`, or `None`.
     */
    method StopAll(stop: string -> Option<string>) returns (stopped: seq<string>, outcomes: seq<Option<string>>)
      requires Valid()
      modifies this
      ensures !running
      ensures sources == old(sources) && order == old(order)
      ensures stopped == order
      ensures |outcomes| == |order| && forall i :: 0 <= i < |order| ==> outcomes[i] == stop(order[i])
    {
      running := false;
      stopped, outcomes := [], [];
      var k := 0;
      while k < |order|
        invariant 0 <= k <= |order|
        invariant stopped == order[..k]
        invariant |outcomes| == k && forall i :: 0 <= i < k ==> outcomes[i] == stop(order[i])
      {
        var outcome := stop(order[k]);
        stopped := stopped + [order[k]];
        outcomes := outcomes + [outcome];
        k := k + 1;
      }
    }

    /** `health_check()`: one entry per registered id, `False` for a source whose check raised. */
    method HealthCheck(health: string -> HealthResult) returns (r: map<string, bool>)
      requires Valid()
      ensures r.Keys == sources.Keys
      ensures forall id :: id in r ==> r[id] == HealthValue(health(id))
      ensures forall id :: id in r && health(id).HealthRaised? ==> !r[id]
    {
      r := map[];
      var k := 0;
      while k < |order|
        invariant 0 <= k <= |order|
        invariant forall id :: id in r <==> id in order[..k]
        invariant forall id :: id in r ==> r[id] == HealthValue(health(id))
      {
        var id := order[k];
        match health(id) {
          case Healthy(b) => r := r[id := b];
          case HealthRaised(_) => r := r[id := false];
        }
        assert order[..k + 1] == order[..k] + [id];
        k := k + 1;
      }
      assert order[..k] == order;
    }

    /**
     * `process_messages(handler)`: nothing at all without sources; otherwise
     * every message of every source's stream goes to the handler, and a
     * handler that raises on one message is logged and does not stop the rest.
     * Returns the deliveries and how many of them were logged as errors.
     */
    method ProcessMessages(stream: string -> seq<SourceMessage>, handler: SourceMessage -> HandlerResult)
      returns (delivered: seq<Delivery>, errors: nat)
      requires Valid()
      ensures |sources| == 0 ==> delivered == [] && errors == 0
      ensures delivered == Deliveries(order, stream, handler)
      ensures errors == ErrorCount(delivered)
    {
      delivered := [];
      errors := 0;
      if |sources| == 0 {
        KeysCount(order, sources.Keys);
        assert order == [];
        return;
      }
      var k := 0;
      while k < |order|
        invariant 0 <= k <= |order|
        invariant delivered == Deliveries(order[..k], stream, handler)
        invariant errors == ErrorCount(delivered)
      {
        delivered, errors := DeliverSource(stream(order[k]), handler, delivered, errors);
        assert order[..k + 1][..k] == order[..k];
        k := k + 1;
      }
      assert order[..k] == order;
    }
  }

  /**
   * The loop over one source's messages: each goes to the handler, and one
   * whose handler raises is counted as an error without stopping the loop.
   */
  method DeliverSource(messages: seq<SourceMessage>, handler: SourceMessage -> HandlerResult, before: seq<Delivery>, errorsBefore: nat)
    returns (delivered: seq<Delivery>, errors: nat)
    requires errorsBefore == ErrorCount(before)
    ensures delivered == before + SourceDeliveries(messages, handler)
    ensures errors == ErrorCount(delivered)
  {
    delivered, errors := before, errorsBefore;
    var j := 0;
    while j < |messages|
      invariant 0 <= j <= |messages|
      invariant delivered == before + SourceDeliveries(messages[..j], handler)
      invariant errors == ErrorCount(delivered)
    {
      var result := handler(messages[j]);
      ErrorsGrow(delivered, Delivery(messages[j], result));
      if result.HandlerRaised? {
        errors := errors + 1;
      }
      assert SourceDeliveries(messages[..j + 1], handler) == SourceDeliveries(messages[..j], handler) + [Delivery(messages[j], result)];
      delivered := delivered + [Delivery(messages[j], result)];
      j := j + 1;
    }
    assert messages[..j] == messages;
  }

  /** The number of logged errors grows by one exactly when the new delivery's handler raised. */
  lemma ErrorsGrow(d: seq<Delivery>, x: Delivery)
    ensures ErrorCount(d + [x]) == ErrorCount(d) + (if x.result.HandlerRaised? then 1 else 0)
  {
    var before := set i | 0 <= i < |d| && d[i].result.HandlerRaised?;
    var after := set i | 0 <= i < |d + [x]| && (d + [x])[i].result.HandlerRaised?;
    if x.result.HandlerRaised? {
      assert after == before + {|d|};
    } else {
      assert after == before;
    }
  }

  /** Removing the `i`-th of distinct ids keeps the others distinct and drops only that id. */
  lemma RemoveAt(order: seq<string>, i: nat)
    requires i < |order|
    requires forall a, b :: 0 <= a < b < |order| ==> order[a] != order[b]
    ensures var rest := order[..i] + order[i + 1..];
      && (forall a, b :: 0 <= a < b < |rest| ==> rest[a] != rest[b])
      && (forall id :: id in rest <==> id in order && id != order[i])
  {
    var rest := order[..i] + order[i + 1..];
    forall a, b | 0 <= a < b < |rest| ensures rest[a] != rest[b] {
      var a' := if a < i then a else a + 1;
      var b' := if b < i then b else b + 1;
      assert rest[a] == order[a'] && rest[b] == order[b'];
    }
    forall id ensures id in rest <==> id in order && id != order[i] {
      if id in order && id != order[i] {
        var k :| 0 <= k < |order| && order[k] == id;
        if k < i { assert rest[k] == id; } else { assert rest[k - 1] == id; }
      }
      if id in rest {
        var k :| 0 <= k < |rest| && rest[k] == id;
        var k' := if k < i then k else k + 1;
        assert order[k'] == id;
      }
    }
  }

  /** A list of distinct keys is as long as the key set it enumerates. */
  lemma {:induction false} KeysCount(order: seq<string>, keys: set<string>)
    requires forall i, j :: 0 <= i < j < |order| ==> order[i] != order[j]
    requires forall id :: id in keys <==> id in order
    ensures |order| == |keys|
  {
    if order != [] {
      var last := order[|order| - 1];
      var init := order[..|order| - 1];
      forall id ensures id in keys - {last} <==> id in init {
        if id in init {
          var k :| 0 <= k < |init| && init[k] == id;
          assert order[k] == id;
        }
        if id in order && id != last {
          var k :| 0 <= k < |order| && order[k] == id;
          assert init[k] == id;
        }
      }
      KeysCount(init, keys - {last});
    }
  }
}
