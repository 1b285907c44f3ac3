/**
 * The process environment as both services' `Config` classes read it:
 * `os.getenv(name)` and `os.getenv(name, default)`, and the list of
 * required variables `_validate_environment` finds unusable.
 */
module Environment {
  import opened Wrappers
  import opened Text

  type Env = map<string, string>

  /** `os.getenv(name)`. */
  function GetEnv(env: Env, name: string): (r: Option<string>)
    ensures r.Some? <==> name in env
    ensures r.Some? ==> r.value == env[name]
  {
    if name in env then Some(env[name]) else None
  }

  /** `os.getenv(name, default)`: an empty value is kept, only an unset one is replaced. */
  function GetEnvOr(env: Env, name: string, default: string): (r: string)
    ensures name in env ==> r == env[name]
    ensures name !in env ==> r == default
  {
    GetEnv(env, name).GetOr(default)
  }

  /** `not value or value.strip() == ""`: unset, empty, or nothing but whitespace. */
  predicate Blank(value: Option<string>) {
    value.None? || value.value == "" || Strip(value.value) == ""
  }

  /** The required variables, in order, that `unusable` rejects: what the validation loop collects. */
  function MissingVars(env: Env, vars: seq<string>, unusable: Option<string> -> bool): (r: seq<string>)
    ensures |r| <= |vars|
  {
    if vars == [] then []
    else
      var last := vars[|vars| - 1];
      MissingVars(env, vars[..|vars| - 1], unusable) + (if unusable(GetEnv(env, last)) then [last] else [])
  }

  /** A variable is reported missing exactly when it is required and its value is unusable. */
  lemma {:induction false} MissingVarsMembers(env: Env, vars: seq<string>, unusable: Option<string> -> bool, name: string)
    ensures name in MissingVars(env, vars, unusable) <==> name in vars && unusable(GetEnv(env, name))
  {
    if vars != [] {
      var init := vars[..|vars| - 1];
      MissingVarsMembers(env, init, unusable, name);
      assert vars == init + [vars[|vars| - 1]];
    }
  }

  /** The `ValueError` text naming the missing variables. */
  function MissingMessage(missing: seq<string>): string {
    "Missing required environment variables: " + Join(", ", missing) + ". Please set them in your .env file or environment."
  }
}
