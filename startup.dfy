/**
 * The earlier, start-up-only variant of the exporter
 * (src/pactbroker_exporter.go): it reads its settings with `getEnv`, counts
 * the participants once with `checkPacticipants`, and `main` raises the
 * `pacticipants_total` counter once per participant before serving.
 */
module Startup {
  import opened Wrappers

  /** `os.Getenv`: the value of the variable, or "" when it is not set. */
  function OsGetenv(env: map<string, string>, key: string): string
  {
    if key in env then env[key] else ""
  }

  /** `getEnv`: the variable's value, or `defaultValue` when that value is
      empty (unset or set to ""). */
  function GetEnv(env: map<string, string>, key: string, defaultValue: string): (r: string)
    ensures OsGetenv(env, key) == "" ==> r == defaultValue
    ensures OsGetenv(env, key) != "" ==> r == OsGetenv(env, key)
  {
    var value := OsGetenv(env, key);
    if |value| == 0 then defaultValue else value
  }

  /** A non-empty default is never turned into an empty setting. */
  lemma GetEnvNeverEmpty(env: map<string, string>, key: string, defaultValue: string)
    requires defaultValue != ""
    ensures GetEnv(env, key, defaultValue) != ""
  {
  }

  /** Setting a variable to a non-empty value overrides the default, and
      setting it to "" is the same as leaving it unset. */
  lemma GetEnvOverride(env: map<string, string>, key: string, value: string, defaultValue: string)
    ensures value != "" ==> GetEnv(env[key := value], key, defaultValue) == value
    ensures GetEnv(env[key := ""], key, defaultValue) == GetEnv(env - {key}, key, defaultValue)
  {
  }

  /** What `json.Unmarshal` into a map makes of a read body, seen through
      `result["pacticipants"].([]interface{})`: the length of that array, or
      None when the key is missing or not an array (the type assertion then
      panics). */
  datatype StartupBody = BodyUnreadable | Decoded(pacticipants: Option<nat>)

  /** What `http.Get(url)` produced; no status check is made, so any
      response goes on to be read. */
  datatype GetReply = GetFailed | Got(body: StartupBody)

  datatype StartupError = GetError | ReadError

  /** A return of `checkPacticipants` (count and error), or a panic of its
      type assertion. */
  datatype CheckOutcome = Returned(count: nat, err: Option<StartupError>) | Panicked

  const PacticipantsPath: string := "/pacticipants"

  /** `checkPacticipants` with the network as an oracle from URL to reply. */
  function CheckPacticipants(dataSourceName: string, get: string -> GetReply): (r: CheckOutcome)
    ensures r.Returned? && r.err.Some? ==> r.count == 0
    ensures r == Returned(0, Some(GetError)) <==> get(dataSourceName + PacticipantsPath).GetFailed?
    ensures r == Returned(0, Some(ReadError)) <==> get(dataSourceName + PacticipantsPath) == Got(BodyUnreadable)
    ensures r.Panicked? <==> get(dataSourceName + PacticipantsPath) == Got(Decoded(None))
    ensures r.Returned? && r.err.None? <==>
              get(dataSourceName + PacticipantsPath).Got? &&
              get(dataSourceName + PacticipantsPath).body.Decoded? &&
              get(dataSourceName + PacticipantsPath).body.pacticipants.Some?
    ensures r.Returned? && r.err.None? ==>
              r.count == get(dataSourceName + PacticipantsPath).body.pacticipants.value
  {
    match get(dataSourceName + PacticipantsPath)
    case GetFailed => Returned(0, Some(GetError))
    case Got(BodyUnreadable) => Returned(0, Some(ReadError))
    case Got(Decoded(None)) => Panicked
    case Got(Decoded(Some(n))) => Returned(n, None)
  }

  /** How the start-up ends: serving metrics, `log.Fatal` on an error, or
      a crash from the panic. */
  datatype RunOutcome = Serving | Fatal(error: StartupError) | Crashed

  /** The two process-wide metrics of the start-up variant. */
  class StartupMetrics {
    /** The `pactbroker_up` gauge. */
    var up: nat
    /** The `pactbroker_pacticipants_total` counter. */
    var pacticipantsTotal: nat

    constructor ()
      ensures up == 0 && pacticipantsTotal == 0
    {
      up := 0;
      pacticipantsTotal := 0;
    }

    /** The body of `main` up to serving: `up` is set to 1 before the check
        whatever its result, and on success the counter grows by exactly the
        number of participants, one increment at a time. */
    method Run(dataSourceName: string, get: string -> GetReply) returns (outcome: RunOutcome)
      modifies this
      ensures up == 1
      ensures match CheckPacticipants(dataSourceName, get)
        case Returned(n, None) => outcome == Serving && pacticipantsTotal == old(pacticipantsTotal) + n
        case Returned(_, Some(e)) => outcome == Fatal(e) && pacticipantsTotal == old(pacticipantsTotal)
        case Panicked => outcome == Crashed && pacticipantsTotal == old(pacticipantsTotal)
    {
      up := 1;
      var checked := CheckPacticipants(dataSourceName, get);
      if checked.Panicked? {
        return Crashed;
      }
      if checked.err.Some? {
        return Fatal(checked.err.value);
      }
      var pacticipants := checked.count;
      var i := 0;
      while i < pacticipants
        invariant i <= pacticipants
        invariant up == 1
        invariant pacticipantsTotal == old(pacticipantsTotal) + i
      {
        pacticipantsTotal := pacticipantsTotal + 1;
        i := i + 1;
      }
      outcome := Serving;
    }
  }
}
