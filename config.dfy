/** Configuration the three entry points read from the process environment. */
module Config {
  import opened Options

  /** The process environment, variable name to value. */
  type Environment = map<string, string>

  const DEFAULT_USER_ID: string := "current_user"

  /** `os.getenv(name)`: the variable's value, or None when it is unset. */
  function GetEnv(env: Environment, name: string): (v: Option<string>)
    ensures v.Some? <==> name in env
    ensures v.Some? ==> v.value == env[name]
  {
    if name in env then Some(env[name]) else None
  }

  /**
   * `os.getenv('USER_ID', 'current_user')`: the identity every agent request
   * carries. A set variable is taken as it is, even when empty.
   */
  function UserIdFrom(env: Environment): (id: string)
    ensures "USER_ID" in env ==> id == env["USER_ID"]
    ensures "USER_ID" !in env ==> id == DEFAULT_USER_ID
  {
    GetEnv(env, "USER_ID").GetOr(DEFAULT_USER_ID)
  }

  /** The variable holding the OpenWeatherMap key the agent's prompt refers to. */
  const WEATHER_KEY_VAR: string := "OPENWEATHER_API_KEY"

  /** What the start-up banner says about the weather key. */
  datatype KeyNotice = SetKeyReminder | WeatherReady

  /** The variable holding the Mem0 key of the memory tool. */
  const MEM0_KEY_VAR: string := "MEM0_API_KEY"

  /** `not os.getenv(name)`: the variable is unset or empty. */
  predicate Unconfigured(env: Environment, name: string) {
    name !in env || env[name] == ""
  }

  /** The warnings both command-line programs print while they load. */
  datatype LoadWarning = Mem0KeyMissing | WeatherKeyMissing

  /** The two `if not ...` checks made at load time, in the order they print. */
  function LoadWarnings(env: Environment): (w: seq<LoadWarning>)
    ensures Mem0KeyMissing in w <==> Unconfigured(env, MEM0_KEY_VAR)
    ensures WeatherKeyMissing in w <==> Unconfigured(env, WEATHER_KEY_VAR)
    ensures |w| <= 2 && (|w| == 2 ==> w == [Mem0KeyMissing, WeatherKeyMissing])
  {
    (if GetEnv(env, MEM0_KEY_VAR).GetOr("") == "" then [Mem0KeyMissing] else [])
    + (if GetEnv(env, WEATHER_KEY_VAR).GetOr("") == "" then [WeatherKeyMissing] else [])
  }
}
