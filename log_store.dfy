/**
 * The process-wide log buffer (src/utils/log-store.js): at most 200 entries,
 * newest first. `addLog` inserts at the front and drops the oldest entry once
 * the buffer has grown past the cap; `getRecentLogs` hands out a copy.
 */
module LogStore {

  const MaxLogs: nat := 200

  /** One buffered line; `timestamp` is the ISO time string taken at insertion. */
  datatype LogEntry = LogEntry(timestamp: string, level: string, message: string)

  /** The buffer after `logs.unshift(e)` followed by the overflow `logs.pop()`. */
  function Added(logs: seq<LogEntry>, e: LogEntry): (r: seq<LogEntry>)
    ensures 1 <= |r| <= |logs| + 1 && r[0] == e && r[1..] == logs[..|r| - 1]
    ensures |logs| <= MaxLogs ==> |r| == Min(|logs| + 1, MaxLogs)
  {
    var grown := [e] + logs;
    if |grown| > MaxLogs then grown[..|grown| - 1] else grown
  }

  /** The buffer reached from the empty one by adding `entries` in order. */
  function Replay(entries: seq<LogEntry>): seq<LogEntry>
  {
    if |entries| == 0 then [] else Added(Replay(entries[..|entries| - 1]), entries[|entries| - 1])
  }

  function Min(a: nat, b: nat): nat
  {
    if a <= b then a else b
  }

  /** Reference view: the `MaxLogs` most recent of `entries`, most recent first. */
  function NewestFirst(entries: seq<LogEntry>): (r: seq<LogEntry>)
    ensures |r| == Min(|entries|, MaxLogs)
  {
    seq(Min(|entries|, MaxLogs), i requires 0 <= i < Min(|entries|, MaxLogs) => entries[|entries| - 1 - i])
  }

  /** Adding keeps the buffer within the cap and puts the new entry at index 0. */
  lemma AddedBoundedFront(logs: seq<LogEntry>, e: LogEntry)
    requires |logs| <= MaxLogs
    ensures |Added(logs, e)| <= MaxLogs
    ensures Added(logs, e)[0] == e
  {
  }

  /** Below the cap nothing is evicted: the old buffer follows the new entry intact. */
  lemma AddedBelowCap(logs: seq<LogEntry>, e: LogEntry)
    requires |logs| < MaxLogs
    ensures Added(logs, e) == [e] + logs
  {
  }

  /** At the cap the oldest entry, the last one, is evicted and nothing else. */
  lemma AddedAtCap(logs: seq<LogEntry>, e: LogEntry)
    requires |logs| == MaxLogs
    ensures Added(logs, e) == [e] + logs[..MaxLogs - 1]
    ensures |Added(logs, e)| == MaxLogs
  {
    assert ([e] + logs)[..MaxLogs] == [e] + logs[..MaxLogs - 1];
  }

  /**
   * However many entries have been added, the buffer holds exactly the 200
   * most recent of them (all of them while there are fewer), most recent first.
   */
  lemma {:induction false} ReplayKeepsNewest(entries: seq<LogEntry>)
    ensures Replay(entries) == NewestFirst(entries)
  {
    if |entries| > 0 {
      var n := |entries|;
      var init := entries[..n - 1];
      ReplayKeepsNewest(init);
      var grown := [entries[n - 1]] + NewestFirst(init);
      var r := Replay(entries);
      assert r == Added(NewestFirst(init), entries[n - 1]);
      assert |r| == Min(n, MaxLogs);
      forall i | 0 <= i < |r|
        ensures r[i] == NewestFirst(entries)[i]
      {
        if i > 0 {
          assert grown[i] == NewestFirst(init)[i - 1] == init[n - 2 - (i - 1)];
        }
      }
    }
  }

  /** The buffer itself: the module-level array `logs`. */
  class Store {
    var logs: seq<LogEntry>

    ghost predicate Valid()
      reads this
    {
      |logs| <= MaxLogs
    }

    /** The empty buffer the module starts with. */
    constructor ()
      ensures Valid() && logs == []
    {
      logs := [];
    }

    /** `addLog(level, message)`, stamped with the clock reading `timestamp`. */
    method AddLog(level: string, message: string, timestamp: string)
      requires Valid()
      modifies this
      ensures Valid()
      ensures logs == Added(old(logs), LogEntry(timestamp, level, message))
    {
      logs := [LogEntry(timestamp, level, message)] + logs;
      if |logs| > MaxLogs {
        logs := logs[..|logs| - 1];
      }
    }

    /** `getRecentLogs()`: `logs.slice(0, MAX_LOGS)`, which is the whole buffer. */
    method GetRecentLogs() returns (recent: seq<LogEntry>)
      requires Valid()
      ensures recent == logs
    {
      recent := logs[..Min(|logs|, MaxLogs)];
    }
  }
}
