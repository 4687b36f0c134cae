/**
 * `TelegramClientWrapper` of `core/telegram_client.py`: the `_running` flag
 * that `start` and `stop` set, the handler list that `on_new_message` grows,
 * and the reconnect loop of `run_until_disconnected`, whose delay starts at
 * 5 seconds, doubles up to 300 after each disconnect and goes back to 5
 * after a successful reconnect.
 *
 * Telethon's client is replaced by its observable answers: whether it is
 * connected, how `client.start` ends, and, for each round of the reconnect
 * loop, how listening ended (an `Episode`).
 */
module TelegramClient {

  /** The first reconnect delay, and the cap of the doubling. */
  const InitialDelay := 5
  const MaxReconnectDelay := 300

  /**
   * How one call of `client.run_until_disconnected()` ends, with the value of
   * `_running` the loop reads next (a concurrent `stop` clears it):
   * it returns; it raises `FloodWaitError` asking for `seconds`; or it raises
   * anything else, after which `connected` is what `is_connected()` answers
   * and `connectOk` says whether `connect()` succeeds.
   */
  datatype Episode =
    | Returned(running: bool)
    | FloodWait(seconds: int, running: bool)
    | Disconnected(running: bool, connected: bool, connectOk: bool)

  /** What the loop does, in order. */
  datatype LoopAction = Listen | FloodSleep(seconds: int) | Backoff(seconds: int) | Connect(ok: bool)

  /** The wrapper's flags, the loop's `reconnect_delay`, and the actions so far. */
  datatype LoopState = LoopState(running: bool, connected: bool, delay: int, actions: seq<LoopAction>)

  function Min(a: int, b: int): int {
    if a <= b then a else b
  }

  /** One round of the `while self._running` loop. */
  function Step(s: LoopState, e: Episode): LoopState {
    var listened := s.actions + [Listen];
    match e
    case Returned(r) => s.(running := r, actions := listened)
    case FloodWait(seconds, r) => s.(running := r, actions := listened + [FloodSleep(seconds)])
    case Disconnected(r, c, ok) =>
      if !r then s.(running := false, actions := listened)
      else
        var doubled := Min(s.delay * 2, MaxReconnectDelay);
        var slept := listened + [Backoff(s.delay)];
        if c then LoopState(true, true, doubled, slept)
        else LoopState(true, ok, if ok then InitialDelay else doubled, slept + [Connect(ok)])
  }

  /** The loop from the `k`-th episode on, until `_running` is false or the episodes run out. */
  function LoopFrom(s: LoopState, episodes: seq<Episode>, k: nat): LoopState
    requires k <= |episodes|
    decreases |episodes| - k
  {
    if !s.running || k == |episodes| then s else LoopFrom(Step(s, episodes[k]), episodes, k + 1)
  }

  /** The delays the loop can hold: 5 doubled at most six times, or the cap. */
  predicate ValidDelay(d: int) {
    d == 5 || d == 10 || d == 20 || d == 40 || d == 80 || d == 160 || d == 300
  }

  /** A round keeps the delay among the valid ones, and waits only for a valid delay. */
  lemma StepKeepsDelay(s: LoopState, e: Episode)
    requires ValidDelay(s.delay)
    ensures ValidDelay(Step(s, e).delay)
    ensures forall a :: a in Step(s, e).actions[|s.actions|..] && a.Backoff? ==> a.seconds == s.delay
  {
    var t := Step(s, e);
    assert t.actions[..|s.actions|] == s.actions;
  }

  predicate BackoffsValid(actions: seq<LoopAction>) {
    forall a :: a in actions && a.Backoff? ==> ValidDelay(a.seconds)
  }

  /**
   * Starting from 5, the reconnect delay stays in {5, 10, 20, 40, 80, 160,
   * 300}, and so does every reconnect wait.
   */
  lemma {:induction false} LoopKeepsDelay(s: LoopState, episodes: seq<Episode>, k: nat)
    requires k <= |episodes|
    requires ValidDelay(s.delay) && BackoffsValid(s.actions)
    ensures ValidDelay(LoopFrom(s, episodes, k).delay)
    ensures BackoffsValid(LoopFrom(s, episodes, k).actions)
    decreases |episodes| - k
  {
    if s.running && k < |episodes| {
      var t := Step(s, episodes[k]);
      StepKeepsDelay(s, episodes[k]);
      assert t.actions == s.actions + t.actions[|s.actions|..];
      LoopKeepsDelay(t, episodes, k + 1);
    }
  }

  /**
   * A flood wait sleeps exactly the seconds asked for and leaves the delay
   * alone; after a disconnect the wait uses the delay before doubling, a
   * successful connect resets it to 5, a failed one keeps the doubled value,
   * and an already connected client is not reconnected.
   */
  lemma StepCases(s: LoopState, e: Episode)
    ensures e.FloodWait? ==> Step(s, e).delay == s.delay && Step(s, e).actions == s.actions + [Listen, FloodSleep(e.seconds)]
    ensures e.Returned? ==> Step(s, e).delay == s.delay
    ensures e.Disconnected? && e.running ==>
      && Step(s, e).actions[..|s.actions| + 2] == s.actions + [Listen, Backoff(s.delay)]
      && Step(s, e).delay == (if !e.connected && e.connectOk then InitialDelay else Min(2 * s.delay, MaxReconnectDelay))
      && (Connect(e.connectOk) in Step(s, e).actions[|s.actions|..] <==> !e.connected)
    ensures e.Disconnected? && !e.running ==> Step(s, e) == s.(running := false, actions := s.actions + [Listen])
  {
    if e.Disconnected? && e.running {
      var t := Step(s, e);
      assert t.actions[..|s.actions| + 2] == s.actions + [Listen, Backoff(s.delay)];
      if e.connected {
        assert t.actions[|s.actions|..] == [Listen, Backoff(s.delay)];
      } else {
        assert t.actions[|s.actions|..] == [Listen, Backoff(s.delay), Connect(e.connectOk)];
      }
    }
  }

  /** The loop stops at the first round after which `_running` is false: later episodes never happen. */
  lemma {:induction false} LoopStopsWhenStopped(s: LoopState, episodes: seq<Episode>, k: nat, i: nat)
    requires k <= i < |episodes| && !episodes[i].running
    ensures LoopFrom(s, episodes, k) == LoopFrom(s, episodes[..i + 1], k)
    ensures !LoopFrom(s, episodes, k).running
    decreases i - k
  {
    var prefix := episodes[..i + 1];
    if s.running {
      assert prefix[k] == episodes[k];
      if k < i {
        LoopStopsWhenStopped(Step(s, episodes[k]), episodes, k + 1, i);
      }
    }
  }

  /** A registered message handler: the chats it listens to. */
  datatype Handler = Handler(chatIds: seq<int>)

  /** How `client.start(phone)` and the authorisation check end. */
  datatype StartOutcome = StartRaises | NotAuthorized | Authorized

  class ClientWrapper {
    var running: bool
    /** What `client.is_connected()` answers. */
    var connected: bool
    var handlers: seq<Handler>
    /** Whether the session file exists. */
    const sessionExists: bool

    constructor(sessionExists: bool)
      ensures !running && !connected && handlers == [] && this.sessionExists == sessionExists
    {
      running := false;
      connected := false;
      handlers := [];
      this.sessionExists := sessionExists;
    }

    /**
     * `start(force_login)`: refuses without connecting when the session file
     * is missing or a login is forced; sets `_running` only once the user is
     * authorised.
     */
    method Start(forceLogin: bool, outcome: StartOutcome) returns (ok: bool)
      modifies this
      ensures ok <==> !forceLogin && sessionExists && outcome == Authorized
      ensures running == (old(running) || ok)
      ensures connected == (if !forceLogin && sessionExists && outcome != StartRaises then true else old(connected))
      ensures handlers == old(handlers)
    {
      if forceLogin || !sessionExists {
        return false;
      }
      if outcome == StartRaises {
        return false;
      }
      connected := true;
      if outcome == NotAuthorized {
        return false;
      }
      running := true;
      return true;
    }

    /** `stop()`: always clears `_running`, disconnects only a connected client, and never raises. */
    method Stop(disconnectRaises: bool)
      modifies this
      ensures !running
      ensures connected == (old(connected) && disconnectRaises)
      ensures handlers == old(handlers)
    {
      running := false;
      if connected && !disconnectRaises {
        connected := false;
      }
    }

    /** `is_running()`: the wrapper's own flag and the client's connection must both hold. */
    function IsRunning(): (r: bool)
      reads this
      ensures r <==> running && connected
    {
      running && connected
    }

    /** `on_new_message(chat_ids, handler)`: exactly one wrapper is appended. */
    method OnNewMessage(chatIds: seq<int>)
      modifies this
      ensures handlers == old(handlers) + [Handler(chatIds)]
      ensures running == old(running) && connected == old(connected)
    {
      handlers := handlers + [Handler(chatIds)];
    }

    /** `run_until_disconnected()`, over the episodes the client goes through. */
    method RunUntilDisconnected(episodes: seq<Episode>) returns (actions: seq<LoopAction>)
      modifies this
      ensures var s := LoopFrom(LoopState(old(running), old(connected), InitialDelay, []), episodes, 0);
        running == s.running && connected == s.connected && actions == s.actions
      ensures handlers == old(handlers)
    {
      ghost var start := LoopState(running, connected, InitialDelay, []);
      var reconnectDelay := InitialDelay;
      var maxReconnectDelay := MaxReconnectDelay;
      actions := [];
      var k := 0;
      while running && k < |episodes|
        invariant 0 <= k <= |episodes|
        invariant LoopFrom(start, episodes, 0) == LoopFrom(LoopState(running, connected, reconnectDelay, actions), episodes, k)
        invariant handlers == old(handlers)
      {
        var e := episodes[k];
        ghost var before := LoopState(running, connected, reconnectDelay, actions);
        actions := actions + [Listen];
        match e {
          case Returned(r) =>
            running := r;
          case FloodWait(seconds, r) =>
            actions := actions + [FloodSleep(seconds)];
            running := r;
          case Disconnected(r, c, ok) =>
            running := r;
            if !running {
              assert LoopState(running, connected, reconnectDelay, actions) == Step(before, e);
              k := k + 1;
              break;
            }
            actions := actions + [Backoff(reconnectDelay)];
            reconnectDelay := Min(reconnectDelay * 2, maxReconnectDelay);
            connected := c;
            if !connected {
              actions := actions + [Connect(ok)];
              connected := ok;
              if ok {
                reconnectDelay := InitialDelay;
              }
            }
        }
        assert LoopState(running, connected, reconnectDelay, actions) == Step(before, e);
        k := k + 1;
      }
    }
  }
}
