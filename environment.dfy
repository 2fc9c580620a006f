/**
 * The process environment as a finite map, read the way `os.getenv` reads it,
 * and Python's truthiness for the optional strings it returns.
 */
module Environment {
  import opened Wrappers

  type Env = map<string, string>

  /** `os.getenv(name)`: the value if the variable is set, `None` otherwise. */
  function GetEnv(env: Env, name: string): (r: Option<string>)
    ensures r.Some? <==> name in env
    ensures r.Some? ==> r.value == env[name]
  {
    if name in env then Some(env[name]) else None
  }

  /** `os.getenv(name, default)`: a variable set to `""` yields `""`, not the default. */
  function GetEnvOr(env: Env, name: string, default: string): (r: string)
    ensures name in env ==> r == env[name]
    ensures name !in env ==> r == default
  {
    GetEnv(env, name).GetOr(default)
  }

  /** Python truthiness of an optional string: present and non-empty. */
  predicate Truthy(v: Option<string>) {
    v.Some? && v.value != ""
  }

  /** Python's `v or fallback` for an optional string. */
  function Or(v: Option<string>, fallback: string): (r: string)
    ensures Truthy(v) ==> r == v.value
    ensures !Truthy(v) ==> r == fallback
  {
    if Truthy(v) then v.value else fallback
  }
}
