/** The client debug logger (utils/logger.ts): a list of formatted entries,
    capped at the 1000 most recent. */
module DebugLogger {
  import opened Common
  import opened LogWindow

  const MaxLogs: nat := 1000

  /** `[${timestamp}] ${message}` followed by ` | ${json}` only when the data
      argument is truthy; `data` is `Some(JSON.stringify(data))` in that case. */
  function Entry(timestamp: string, message: string, data: Option<string>): (e: string)
    ensures var head := "[" + timestamp + "] " + message;
      && |head| <= |e| && e[..|head|] == head
      && (data.None? ==> e == head)
      && (data.Some? ==> e[|head|..] == " | " + data.value)
  {
    var head := "[" + timestamp + "] " + message;
    if data.Some? then head + " | " + data.value else head
  }

  class Logger {
    /** The entries kept, oldest first. */
    var logs: seq<string>
    /** Every entry logged since the last clear. */
    ghost var history: seq<string>

    /** The buffer holds the most recent entries of the history, no more than the cap. */
    ghost predicate Valid()
      reads this
    {
      logs == KeepLast(history, MaxLogs) && |logs| <= MaxLogs
    }

    constructor ()
      ensures Valid() && logs == [] && history == []
    {
      logs := [];
      history := [];
    }

    /** `log(message, data)`: format the entry, push it, keep the last 1000. */
    method Log(timestamp: string, message: string, data: Option<string>)
      requires Valid()
      modifies this
      ensures Valid()
      ensures history == old(history) + [Entry(timestamp, message, data)]
      ensures logs == KeepLast(old(logs) + [Entry(timestamp, message, data)], MaxLogs)
      ensures |old(logs)| < MaxLogs ==> logs == old(logs) + [Entry(timestamp, message, data)]
      ensures |logs| <= MaxLogs && logs[|logs| - 1] == Entry(timestamp, message, data)
    {
      var entry := Entry(timestamp, message, data);
      ghost var extended := history + [entry];
      var pushed := logs + [entry];
      assert KeepLast(pushed, MaxLogs) == KeepLast(extended, MaxLogs) by {
        KeepLastPush(history, entry, MaxLogs);
      }
      assert |KeepLast(pushed, MaxLogs)| <= MaxLogs && KeepLast(pushed, MaxLogs)[|KeepLast(pushed, MaxLogs)| - 1] == entry by {
        PushThenKeep(logs, entry, MaxLogs);
      }
      if |pushed| > MaxLogs {
        logs := pushed[|pushed| - MaxLogs..];
      } else {
        logs := pushed;
      }
      assert logs == KeepLast(pushed, MaxLogs);
      history := extended;
    }

    /** `clearLogs()` */
    method ClearLogs()
      modifies this
      ensures Valid() && logs == [] && history == []
    {
      logs := [];
      history := [];
    }

    /** `getLogs()`: the current entries, unchanged. */
    method GetLogs() returns (r: seq<string>)
      requires Valid()
      ensures r == logs == KeepLast(history, MaxLogs)
    {
      r := logs;
    }
  }
}
