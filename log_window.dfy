/** The "push, then keep only the last N" step shared by the client debug
    logger (utils/logger.ts) and the in-memory debug log route
    (app/api/debug-logs/route.ts). */
module LogWindow {

  /** `if (logs.length > n) logs = logs.slice(-n)`: the last min(n, |s|) elements. */
  function KeepLast<T>(s: seq<T>, n: nat): (r: seq<T>)
    ensures |r| == if |s| <= n then |s| else n
    ensures r == s[|s| - |r|..]
  {
    if |s| > n then s[|s| - n..] else s
  }

  /** Pushing one entry and trimming: at most `n` entries, the newest last,
      the oldest dropped first, and nothing dropped below the cap. */
  lemma PushThenKeep<T>(buffer: seq<T>, x: T, n: nat)
    requires n > 0
    ensures var r := KeepLast(buffer + [x], n);
      && |r| <= n
      && r[|r| - 1] == x
      && r == (buffer + [x])[|buffer| + 1 - |r|..]
      && (|buffer| < n ==> r == buffer + [x] && |r| == |buffer| + 1)
  {
  }

  /** Trimming before the push loses nothing the trim after it would keep:
      pushing onto the last `n` entries of a history and trimming gives the
      last `n` entries of the extended history. */
  lemma {:induction false} KeepLastPush<T>(history: seq<T>, x: T, n: nat)
    ensures KeepLast(KeepLast(history, n) + [x], n) == KeepLast(history + [x], n)
  {
    var k := KeepLast(history, n);
    var full := history + [x];
    if n > 0 && |history| > n {
      assert k + [x] == full[|history| - n..];
      assert (k + [x])[1..] == full[|full| - n..];
    }
  }
}
