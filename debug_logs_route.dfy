/** The in-memory debug log API route (app/api/debug-logs/route.ts): a
    module-level list of posted payloads, capped at the 100 most recent. */
module DebugLogsRoute {
  import opened Common
  import opened LogWindow

  const MaxStored: nat := 100

  /** The JSON responses of the route. */
  datatype Reply<T> = Saved | SaveFailed(status: int, error: string) | Listing(logs: seq<T>)

  /** The module-level `logs` array and its two handlers; `T` is the type of
      a posted JSON payload. */
  class LogStore<T> {
    var logs: seq<T>
    /** Every payload stored since the module was loaded. */
    ghost var history: seq<T>

    ghost predicate Valid()
      reads this
    {
      logs == KeepLast(history, MaxStored) && |logs| <= MaxStored
    }

    constructor ()
      ensures Valid() && logs == [] && history == []
    {
      logs := [];
      history := [];
    }

    /** `POST`: `body` is the parsed request body, `Threw` when it does not
        parse; a parsed payload is pushed and the last 100 are kept. */
    method Post(body: Call<T>) returns (r: Reply<T>)
      requires Valid()
      modifies this
      ensures Valid()
      ensures body.Threw? ==> r == SaveFailed(500, "Error guardando log") && logs == old(logs) && history == old(history)
      ensures body.Returned? ==> r == Saved
      ensures body.Returned? ==> history == old(history) + [body.value]
      ensures body.Returned? ==> logs == KeepLast(old(logs) + [body.value], MaxStored)
    {
      if body.Threw? {
        r := SaveFailed(500, "Error guardando log");
      } else {
        var payload := body.value;
        ghost var extended := history + [payload];
        var pushed := logs + [payload];
        assert KeepLast(pushed, MaxStored) == KeepLast(extended, MaxStored) by {
          KeepLastPush(history, payload, MaxStored);
        }
        if |pushed| > MaxStored {
          logs := pushed[|pushed| - MaxStored..];
        } else {
          logs := pushed;
        }
        history := extended;
        r := Saved;
      }
    }

    /** `GET`: the stored payloads, unchanged. */
    method Get() returns (r: Reply<T>)
      requires Valid()
      ensures r == Listing(logs) && r.logs == KeepLast(history, MaxStored)
    {
      r := Listing(logs);
    }
  }
}
