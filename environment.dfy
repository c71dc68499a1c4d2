/** The process environment as a finite map: a variable is set iff its name is a key. */
module Environment {
  import opened Wrappers
  import Numerals

  type Env = map<string, string>

  /** `os.environ.get(name)`. */
  function Get(env: Env, name: string): Option<string> {
    if name in env then Some(env[name]) else None
  }

  /** `os.environ.get(name, default)`: the default only when the variable is unset. */
  function GetOr(env: Env, name: string, default: string): string {
    if name in env then env[name] else default
  }

  /** The variable is set and non-empty (a truthy `os.environ.get(name)`). */
  predicate IsSet(env: Env, name: string) {
    name in env && env[name] != []
  }

  /** `int(os.environ.get(name, default))` with an integer default; `None` where `int()`
      raises. */
  function IntOr(env: Env, name: string, default: int): (r: Option<int>)
    ensures name !in env ==> r == Some(default)
    ensures name in env ==> r == Numerals.ParseInt(env[name])
  {
    if name !in env then Some(default) else Numerals.ParseInt(env[name])
  }
}
