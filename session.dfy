/** The per-connection session state: a dictionary from key to value that
    survives reruns of the page and that the auth flow and the prediction
    pages read and update in place. */
module SessionState {
  import opened Prediction

  /** The values the application stores in the session. */
  datatype Value =
    | Bool(b: bool)
    | Str(s: string)
    | NoneValue
    | History(entries: seq<PredictionRecord>)

  /** Python truthiness of a stored value, as `if value:` reads it. */
  predicate Truthy(v: Value)
  {
    match v
    case Bool(b) => b
    case Str(s) => s != ""
    case NoneValue => false
    case History(entries) => entries != []
  }

  /** The value under key, or None when the key is absent, as
      session_state.get(key) answers. */
  function GetOrNone(vars: map<string, Value>, key: string): Value
  {
    if key in vars then vars[key] else NoneValue
  }

  class Session {
    var vars: map<string, Value>

    /** A new connection starts with no keys set. */
    constructor ()
      ensures vars == map[]
    {
      vars := map[];
    }
  }
}
