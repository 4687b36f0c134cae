/**
 * What the polling sources of `sources/` have in common: the message queue
 * (`asyncio.Queue`) their callbacks and pollers put into and their
 * `get_messages` takes from, the deduplicating scan over the items of one
 * poll (an item is queued when its key has not been seen, and its key is
 * then remembered), and the cut of the remembered keys from more than 1000
 * to 500.
 */
module SourcePolling {
  import opened Wrappers
  import opened PyStr
  import opened SourceBase

  /** Above this many remembered keys, a poll cuts them down to `SeenKeep`. */
  const SeenLimit := 1000
  const SeenKeep := 500

  /** `asyncio.Queue` of messages: `put` appends, `get` takes the oldest. */
  class MessageQueue {
    var items: seq<SourceMessage>

    constructor()
      ensures items == []
    {
      items := [];
    }

    method Put(m: SourceMessage)
      modifies this
      ensures items == old(items) + [m]
    {
      items := items + [m];
    }

    /** `get()` bounded by a timeout: `None` when nothing arrives in time. */
    method Get() returns (m: Option<SourceMessage>)
      modifies this
      ensures old(items) == [] ==> m.None? && items == []
      ensures old(items) != [] ==> m == Some(old(items)[0]) && items == old(items)[1..]
    {
      if items == [] {
        return None;
      }
      m := Some(items[0]);
      items := items[1..];
    }
  }

  /**
   * One round of `get_messages()` of every source: nothing once the source
   * is stopped, otherwise the oldest queued message, if one arrives before
   * the one-second timeout.
   */
  method NextMessage(running: bool, queue: MessageQueue) returns (m: Option<SourceMessage>)
    modifies queue
    ensures !running ==> m.None? && queue.items == old(queue.items)
    ensures running && old(queue.items) == [] ==> m.None? && queue.items == []
    ensures running && old(queue.items) != [] ==> m == Some(old(queue.items)[0]) && queue.items == old(queue.items)[1..]
  {
    if !running {
      return None;
    }
    m := queue.Get();
  }

  /**
   * One item of a poll, as the scan sees it: its key (`Err` when computing
   * it raises), and what the steps after the seen-check give — a message to
   * queue, `None` for an item skipped without being remembered, or `Err`
   * when they raise.
   */
  datatype Entry<K> = Entry(key: Result<K>, next: Result<Option<SourceMessage>>)

  /** The outcome of a scan: the keys remembered, the messages queued with their keys, and whether an exception ended it. */
  datatype Scanned<K> = Scanned(seen: set<K>, queued: seq<SourceMessage>, keys: seq<K>, aborted: bool)

  /** The scan of `entries[k..]` with `seen` remembered; an exception ends the poll, keeping what was done. */
  function ScanFrom<K>(seen: set<K>, entries: seq<Entry<K>>, k: nat): Scanned<K>
    decreases |entries| - k
  {
    if k >= |entries| then Scanned(seen, [], [], false)
    else match entries[k].key
      case Err(_) => Scanned(seen, [], [], true)
      case Ok(key) =>
        if key in seen then ScanFrom(seen, entries, k + 1)
        else match entries[k].next
          case Err(_) => Scanned(seen, [], [], true)
          case Ok(None) => ScanFrom(seen, entries, k + 1)
          case Ok(Some(m)) =>
            var rest := ScanFrom(seen + {key}, entries, k + 1);
            Scanned(rest.seen, [m] + rest.queued, [key] + rest.keys, rest.aborted)
  }

  /**
   * The loop over a poll's items: each item with an unseen key is put on
   * the queue and its key remembered; `count` is the poll's `new_count`.
   */
  method Scan<K>(seen0: set<K>, entries: seq<Entry<K>>, queue: MessageQueue) returns (seen: set<K>, count: nat, aborted: bool)
    modifies queue
    ensures var r := ScanFrom(seen0, entries, 0);
      && seen == r.seen && queue.items == old(queue.items) + r.queued
      && count == |r.queued| && aborted == r.aborted
  {
    seen, count, aborted := seen0, 0, false;
    ghost var queued: seq<SourceMessage> := [];
    ghost var keys: seq<K> := [];
    var i := 0;
    while i < |entries|
      invariant 0 <= i <= |entries|
      invariant queue.items == old(queue.items) + queued && count == |queued|
      invariant var r := ScanFrom(seen, entries, i);
        ScanFrom(seen0, entries, 0) == Scanned(r.seen, queued + r.queued, keys + r.keys, r.aborted)
      decreases |entries| - i
    {
      var entry := entries[i];
      if entry.key.Err? {
        aborted := true;
        break;
      }
      var key := entry.key.value;
      if key !in seen {
        if entry.next.Err? {
          aborted := true;
          break;
        }
        if entry.next.value.Some? {
          var m := entry.next.value.value;
          queue.Put(m);
          ghost var rest := ScanFrom(seen + {key}, entries, i + 1);
          assert queued + ([m] + rest.queued) == (queued + [m]) + rest.queued;
          assert keys + ([key] + rest.keys) == (keys + [key]) + rest.keys;
          queued, keys := queued + [m], keys + [key];
          seen := seen + {key};
          count := count + 1;
        }
      }
      i := i + 1;
    }
    assert queued + [] == queued && keys + [] == keys;
  }

  /**
   * What a scan does to the remembered keys: they grow by exactly the keys
   * of the queued messages, one per message, none of which was remembered
   * before and no two alike.
   */
  lemma {:induction false} ScanAccounting<K>(seen: set<K>, entries: seq<Entry<K>>, k: nat)
    ensures var r := ScanFrom(seen, entries, k);
      && |r.queued| == |r.keys|
      && (forall x :: x in r.seen <==> x in seen || x in r.keys)
      && (forall i :: 0 <= i < |r.keys| ==> r.keys[i] !in seen)
      && (forall i, j :: 0 <= i < j < |r.keys| ==> r.keys[i] != r.keys[j])
    decreases |entries| - k
  {
    if k < |entries| && entries[k].key.Ok? {
      var key := entries[k].key.value;
      if key in seen || entries[k].next == Ok(None) {
        ScanAccounting(seen, entries, k + 1);
      } else if entries[k].next.Ok? {
        ScanAccounting(seen + {key}, entries, k + 1);
        var rest := ScanFrom(seen + {key}, entries, k + 1);
        var r := ScanFrom(seen, entries, k);
        assert r.keys == [key] + rest.keys;
        forall i | 0 <= i < |r.keys| ensures r.keys[i] !in seen {
          if i > 0 {
            assert r.keys[i] == rest.keys[i - 1];
          }
        }
        forall i, j | 0 <= i < j < |r.keys| ensures r.keys[i] != r.keys[j] {
          assert r.keys[j] == rest.keys[j - 1];
          if i > 0 {
            assert r.keys[i] == rest.keys[i - 1];
          }
        }
      }
    }
  }

  /**
   * After a scan that no exception ended, every item from `k` on has a key,
   * and that key is remembered unless the item was skipped without it.
   */
  lemma {:induction false} ScanCovers<K>(seen: set<K>, entries: seq<Entry<K>>, k: nat, j: nat)
    requires k <= j < |entries| && !ScanFrom(seen, entries, k).aborted
    ensures entries[j].key.Ok?
    ensures entries[j].key.value in ScanFrom(seen, entries, k).seen || entries[j].next == Ok(None)
    decreases |entries| - k
  {
    var key := entries[k].key.value;
    var next := if key in seen || entries[k].next == Ok(None) then seen else seen + {key};
    if j > k {
      ScanCovers(next, entries, k + 1, j);
    } else {
      ScanAccounting(next, entries, k + 1);
    }
  }

  /** A scan whose every item is already remembered or skipped changes nothing. */
  lemma {:induction false} ScanQuiet<K>(seen: set<K>, entries: seq<Entry<K>>, k: nat)
    requires forall j :: k <= j < |entries| ==>
      entries[j].key.Ok? && (entries[j].key.value in seen || entries[j].next == Ok(None))
    ensures ScanFrom(seen, entries, k) == Scanned(seen, [], [], false)
    decreases |entries| - k
  {
    if k < |entries| {
      ScanQuiet(seen, entries, k + 1);
    }
  }

  /**
   * Deduplication: polling the same items again, with at least the keys the
   * first poll remembered, queues nothing (unless the first poll was ended
   * by an exception).
   */
  lemma RescanQueuesNothing<K>(seen: set<K>, entries: seq<Entry<K>>, later: set<K>)
    requires !ScanFrom(seen, entries, 0).aborted
    requires ScanFrom(seen, entries, 0).seen <= later
    ensures ScanFrom(later, entries, 0) == Scanned(later, [], [], false)
  {
    forall j | 0 <= j < |entries|
      ensures entries[j].key.Ok? && (entries[j].key.value in later || entries[j].next == Ok(None))
    {
      ScanCovers(seen, entries, 0, j);
    }
    ScanQuiet(later, entries, 0);
  }

  /** Every finite set has subsets of every smaller size. */
  lemma {:induction false} SubsetOfSize<K>(s: set<K>, n: nat)
    requires n <= |s|
    ensures exists t :: t <= s && |t| == n
  {
    if n > 0 {
      var x :| x in s;
      SubsetOfSize(s - {x}, n - 1);
      var t :| t <= s - {x} && |t| == n - 1;
      assert t + {x} <= s && |t + {x}| == n;
    } else {
      assert {} <= s;
    }
  }

  /**
   * The clean-up after a poll: more than 1000 remembered keys are cut to
   * 500 of them. Which 500 follows the iteration order of Python's set, so
   * the model keeps an arbitrary subset of that size.
   */
  method Trim<K>(seen: set<K>) returns (kept: set<K>)
    ensures |seen| > SeenLimit ==> kept <= seen && |kept| == SeenKeep
    ensures |seen| <= SeenLimit ==> kept == seen
  {
    if |seen| > SeenLimit {
      SubsetOfSize(seen, SeenKeep);
      kept :| kept <= seen && |kept| == SeenKeep;
    } else {
      kept := seen;
    }
  }

  /**
   * The id a polling source gets when none is given: `prefix` and the
   * hash of its URL modulo 100000 (Python's `%` with a positive modulus,
   * like Dafny's, is never negative).
   */
  function DefaultId(prefix: string, urlHash: int): (r: string)
    ensures StartsWith(r, prefix) && |r| > |prefix|
    ensures forall k :: |prefix| <= k < |r| ==> IsDigit(r[k])
  {
    prefix + NatToString(urlHash % 100000)
  }

  /**
   * What one poll over `entries` leaves behind, from the remembered keys
   * `seen0` and the queue `items0`: the messages of the unseen keys are
   * queued, `count` of them, and the remembered keys are those of the scan,
   * cut to 500 when there are more than 1000 and no exception ended it.
   */
  ghost predicate AfterPoll<K>(seen0: set<K>, items0: seq<SourceMessage>, entries: seq<Entry<K>>,
                               seen: set<K>, items: seq<SourceMessage>, count: nat)
  {
    var r := ScanFrom(seen0, entries, 0);
    && items == items0 + r.queued && count == |r.queued|
    && (r.aborted || |r.seen| <= SeenLimit ==> seen == r.seen)
    && (!r.aborted && |r.seen| > SeenLimit ==> seen <= r.seen && |seen| == SeenKeep)
  }

  /**
   * The polling state of the example sources (RSS, API, web scraper): the
   * `running` flag, the remembered keys, and the queue `get_messages`
   * reads.
   */
  class Poller<K(==)> {
    var running: bool
    var seen: set<K>
    const queue: MessageQueue

    constructor()
      ensures !running && seen == {} && fresh(queue) && queue.items == []
    {
      running := false;
      seen := {};
      queue := new MessageQueue();
    }

    /** `stop()`: clears `running`; the queue and the remembered keys stay. */
    method Stop()
      modifies this
      ensures !running && seen == old(seen)
    {
      running := false;
    }

    /**
     * The body of a poll loop once the items are in hand: the scan, then,
     * unless an exception ended it, the clean-up of the remembered keys.
     */
    method Poll(entries: seq<Entry<K>>) returns (count: nat)
      modifies this, queue
      ensures AfterPoll(old(seen), old(queue.items), entries, seen, queue.items, count)
      ensures running == old(running)
    {
      var scanned, n, aborted := Scan(seen, entries, queue);
      count := n;
      if aborted {
        seen := scanned;
      } else {
        seen := Trim(scanned);
      }
    }
  }
}
