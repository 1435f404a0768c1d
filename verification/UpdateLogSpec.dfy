/** The timed update log of a membership list (utils/membership.go). */
module UpdateLogSpec {
  import opened Types

  /** How long a record is piggybacked. */
  const WINDOW := 5 * SECOND

  /** The records no older than the window at `now`, in order. */
  function Live(log: seq<Update>, now: int): seq<Update> {
    if log == [] then []
    else
      var rest := Live(log[..|log| - 1], now);
      if log[|log| - 1].stamp > now - WINDOW then rest + [log[|log| - 1]] else rest
  }

  function Prefix(log: seq<Update>, limit: nat): seq<Update> {
    log[..Min(limit, |log|)]
  }
}
