/** The two sliding-window counters of the server's abuse monitor, proved equal to a filter
    over everything that was ever recorded. Times are readings of a steady clock in nanoseconds. */
module AbuseMonitor {

  const COMMAND_FLOOD_THRESHOLD := 10
  const COMMAND_FLOOD_WINDOW := 1_000_000_000
  const RECONNECT_THRESHOLD := 5
  const RECONNECT_WINDOW := 10_000_000_000

  /** The recorded times that are at most `window` older than `now`, in order. */
  function Recent(history: seq<int>, now: int, window: int): seq<int> {
    if history == [] then []
    else if now - history[0] > window then Recent(history[1..], now, window)
    else [history[0]] + Recent(history[1..], now, window)
  }

  /** A history as a steady clock produces it. */
  predicate Steady(history: seq<int>) {
    forall i, j :: 0 <= i < j < |history| ==> history[i] <= history[j]
  }

  /** What is left of a deque after the loop that pops stale times off its front. */
  function Expire(deque: seq<int>, now: int, window: int): seq<int> {
    if deque != [] && now - deque[0] > window then Expire(deque[1..], now, window) else deque
  }

  /** The deque after recording a whole history, one time after the other. */
  function Replay(history: seq<int>, window: int): seq<int> {
    if history == [] then []
    else
      var now := history[|history| - 1];
      Expire(Replay(history[..|history| - 1], window) + [now], now, window)
  }

  lemma {:induction false} RecentAppend(history: seq<int>, t: int, now: int, window: int)
    ensures Recent(history + [t], now, window)
         == Recent(history, now, window) + (if now - t > window then [] else [t])
  {
    if history == [] {
    } else {
      assert (history + [t])[1..] == history[1..] + [t];
      RecentAppend(history[1..], t, now, window);
    }
  }

  /** Filtering at a later time may start from the result of filtering at an earlier time. */
  lemma {:induction false} RecentLater(history: seq<int>, earlier: int, now: int, window: int)
    requires earlier <= now
    ensures Recent(Recent(history, earlier, window), now, window) == Recent(history, now, window)
  {
    if history == [] {
    } else {
      RecentLater(history[1..], earlier, now, window);
      var kept := Recent(history[1..], earlier, window);
      assert ([history[0]] + kept)[1..] == kept;
    }
  }

  lemma {:induction false} RecentSteady(history: seq<int>, now: int, window: int)
    requires Steady(history)
    ensures Steady(Recent(history, now, window))
    ensures forall i :: 0 <= i < |Recent(history, now, window)| ==> Recent(history, now, window)[i] in history
  {
    if history == [] {
    } else {
      RecentSteady(history[1..], now, window);
    }
  }

  /** Popping stale times off the front of a steady deque removes exactly the stale ones. */
  lemma {:induction false} ExpireIsRecent(deque: seq<int>, now: int, window: int)
    requires Steady(deque)
    ensures Expire(deque, now, window) == Recent(deque, now, window)
  {
    if deque == [] {
    } else if now - deque[0] > window {
      ExpireIsRecent(deque[1..], now, window);
    } else {
      NoneStale(deque, now, window);
    }
  }

  lemma {:induction false} NoneStale(deque: seq<int>, now: int, window: int)
    requires forall i :: 0 <= i < |deque| ==> now - deque[i] <= window
    ensures Recent(deque, now, window) == deque
  {
    if deque != [] {
      NoneStale(deque[1..], now, window);
    }
  }

  /** After any history of a steady clock the deque is the filter of that whole history. */
  lemma {:induction false} ReplayIsRecent(history: seq<int>, window: int)
    requires history != [] && Steady(history)
    ensures Replay(history, window) == Recent(history, history[|history| - 1], window)
  {
    var past, now := history[..|history| - 1], history[|history| - 1];
    assert history == past + [now];
    if past == [] {
      ExpireIsRecent([now], now, window);
    } else {
      ReplayIsRecent(past, window);
      RecordIsRecent(past, past[|past| - 1], now, window);
    }
  }

  /** One recording step: from the filter of the past to the filter of the past and the present. */
  lemma RecordIsRecent(past: seq<int>, last: int, now: int, window: int)
    requires Steady(past + [now]) && last <= now
    ensures Expire(Recent(past, last, window) + [now], now, window) == Recent(past + [now], now, window)
  {
    var deque := Recent(past, last, window);
    assert Steady(past) by {
      assert forall i :: 0 <= i < |past| ==> (past + [now])[i] == past[i];
    }
    RecentSteady(past, last, window);
    assert forall i :: 0 <= i < |past| ==> (past + [now])[i] <= (past + [now])[|past|];
    forall i | 0 <= i < |deque| ensures deque[i] <= now {
      var j :| 0 <= j < |past| && past[j] == deque[i];
      assert (past + [now])[j] <= (past + [now])[|past|];
    }
    ExpireIsRecent(deque + [now], now, window);
    RecentAppend(deque, now, now, window);
    RecentLater(past, last, now, window);
    RecentAppend(past, now, now, window);
  }

  /** More than `k` times are recent exactly if the one `k` places before the last is. */
  lemma {:induction false} CrowdedMeans(history: seq<int>, now: int, window: int, k: nat)
    requires history != [] && Steady(history) && now == history[|history| - 1] && window >= 0
    ensures |Recent(history, now, window)| > k <==> |history| > k && now - history[|history| - 1 - k] <= window
    decreases |history|
  {
    if now - history[0] <= window {
      NoneStale(history, now, window);
    } else if |history| > 1 {
      var rest := history[1..];
      CrowdedMeans(rest, now, window, k);
      assert forall i :: 0 <= i < |rest| ==> rest[i] == history[i + 1];
    }
  }

  /** A command floods exactly if the tenth before it in its session came within the last second. */
  lemma FloodMeans(history: seq<int>)
    requires history != [] && Steady(history)
    ensures
      var n, now := |history|, history[|history| - 1];
      |Recent(history, now, COMMAND_FLOOD_WINDOW)| > COMMAND_FLOOD_THRESHOLD <==> n > 10 && now - history[n - 11] <= 1_000_000_000
  {
    CrowdedMeans(history, history[|history| - 1], COMMAND_FLOOD_WINDOW, COMMAND_FLOOD_THRESHOLD);
  }

  /** A connection is too rapid exactly if the fifth before it from its address came within the last ten seconds. */
  lemma RapidMeans(history: seq<int>)
    requires history != [] && Steady(history)
    ensures
      var n, now := |history|, history[|history| - 1];
      |Recent(history, now, RECONNECT_WINDOW)| > RECONNECT_THRESHOLD <==> n > 5 && now - history[n - 6] <= 10_000_000_000
  {
    CrowdedMeans(history, history[|history| - 1], RECONNECT_WINDOW, RECONNECT_THRESHOLD);
  }

  /** One session's command counter. */
  class CommandRateTracker {
    var timestamps: seq<int>
    ghost var history: seq<int>

    ghost predicate Valid()
      reads this
    {
      && Steady(history)
      && (history == [] ==> timestamps == [])
      && (history != [] ==> timestamps == Recent(history, history[|history| - 1], COMMAND_FLOOD_WINDOW))
    }

    constructor ()
      ensures Valid() && history == []
    {
      timestamps, history := [], [];
    }

    method RecordAndCheckFlood(now: int) returns (flooding: bool)
      requires Valid()
      requires Steady(history + [now])
      modifies this
      ensures Valid() && history == old(history) + [now]
      ensures timestamps == Recent(history, now, COMMAND_FLOOD_WINDOW)
      ensures flooding <==> |Recent(history, now, COMMAND_FLOOD_WINDOW)| > COMMAND_FLOOD_THRESHOLD
    {
      ghost var past := history;
      timestamps := timestamps + [now];
      history := history + [now];
      ghost var pushed := timestamps;
      while timestamps != [] && now - timestamps[0] > COMMAND_FLOOD_WINDOW
        invariant history == past + [now]
        invariant Expire(timestamps, now, COMMAND_FLOOD_WINDOW) == Expire(pushed, now, COMMAND_FLOOD_WINDOW)
        decreases |timestamps|
      {
        timestamps := timestamps[1..];
      }
      if past == [] {
        RecordIsRecent(past, now, now, COMMAND_FLOOD_WINDOW);
      } else {
        assert (past + [now])[|past| - 1] <= (past + [now])[|past|];
        RecordIsRecent(past, past[|past| - 1], now, COMMAND_FLOOD_WINDOW);
      }
      flooding := |timestamps| > COMMAND_FLOOD_THRESHOLD;
    }
  }

  /** The times at which one address connected, out of the log of all connections. */
  function ConnectionsOf(log: seq<(string, int)>, ip: string): seq<int> {
    if log == [] then []
    else
      ConnectionsOf(log[..|log| - 1], ip) + (if log[|log| - 1].0 == ip then [log[|log| - 1].1] else [])
  }

  /** `deques` holds, for `ip`, the filter of all the times at which it connected. */
  ghost predicate Tracks(deques: map<string, seq<int>>, times: seq<int>, ip: string) {
    && Steady(times)
    && (ip in deques <==> times != [])
    && (times != [] ==> deques[ip] == Recent(times, times[|times| - 1], RECONNECT_WINDOW))
  }

  lemma ConnectionsAppend(log: seq<(string, int)>, ip: string, now: int, other: string)
    ensures ConnectionsOf(log + [(ip, now)], other) == ConnectionsOf(log, other) + (if ip == other then [now] else [])
  {
    assert (log + [(ip, now)])[..|log|] == log;
  }

  /** Pushing the present onto an address's deque and popping the stale times gives the filter of its history. */
  lemma PoppedIsRecent(deques: map<string, seq<int>>, past: seq<int>, ip: string, now: int)
    requires Tracks(deques, past, ip) && Steady(past + [now])
    ensures Expire((if ip in deques then deques[ip] else []) + [now], now, RECONNECT_WINDOW) == Recent(past + [now], now, RECONNECT_WINDOW)
  {
    if past == [] {
      RecordIsRecent(past, now, now, RECONNECT_WINDOW);
    } else {
      assert (past + [now])[|past| - 1] <= (past + [now])[|past|];
      RecordIsRecent(past, past[|past| - 1], now, RECONNECT_WINDOW);
    }
  }

  lemma StillTracks(deques: map<string, seq<int>>, log: seq<(string, int)>, ip: string, now: int, deque: seq<int>)
    requires forall other :: Tracks(deques, ConnectionsOf(log, other), other)
    requires Steady(ConnectionsOf(log, ip) + [now]) && deque == Recent(ConnectionsOf(log, ip) + [now], now, RECONNECT_WINDOW)
    ensures forall other :: Tracks(deques[ip := deque], ConnectionsOf(log + [(ip, now)], other), other)
  {
    hide ConnectionsOf, Recent, Steady;
    forall other ensures Tracks(deques[ip := deque], ConnectionsOf(log + [(ip, now)], other), other) {
      ConnectionsAppend(log, ip, now, other);
      assert Tracks(deques, ConnectionsOf(log, other), other);
      var times := ConnectionsOf(log, other);
      if other == ip {
        assert (times + [now])[|times + [now]| - 1] == now;
      } else {
        assert times + [] == times;
      }
    }
  }

  /** The per-address connection counter; the accept loop is its only caller. */
  class ReconnectMonitor {
    var deques: map<string, seq<int>>
    ghost var log: seq<(string, int)>

    ghost predicate Valid()
      reads this
    {
      forall ip :: Tracks(deques, ConnectionsOf(log, ip), ip)
    }

    constructor ()
      ensures Valid() && log == []
    {
      deques, log := map[], [];
    }

    method RecordConnection(ip: string, now: int) returns (rapid: bool)
      requires Valid()
      requires Steady(ConnectionsOf(log, ip) + [now])
      modifies this
      ensures Valid() && log == old(log) + [(ip, now)]
      ensures rapid <==> |Recent(ConnectionsOf(log, ip), now, RECONNECT_WINDOW)| > RECONNECT_THRESHOLD
      ensures forall other :: other != ip ==> (other in deques <==> other in old(deques))
      ensures forall other :: other != ip && other in deques ==> deques[other] == old(deques[other])
    {
      hide ConnectionsOf, Tracks, Recent, Steady;
      ghost var past := ConnectionsOf(log, ip);
      assert Tracks(deques, past, ip);
      PoppedIsRecent(deques, past, ip, now);
      var history := if ip in deques then deques[ip] else [];
      history := history + [now];
      ghost var pushed := history;
      while history != [] && now - history[0] > RECONNECT_WINDOW
        invariant Expire(history, now, RECONNECT_WINDOW) == Expire(pushed, now, RECONNECT_WINDOW)
        decreases |history|
      {
        history := history[1..];
      }
      StillTracks(deques, log, ip, now, history);
      ConnectionsAppend(log, ip, now, ip);
      deques := deques[ip := history];
      log := log + [(ip, now)];
      rapid := |history| > RECONNECT_THRESHOLD;
    }
  }
}
