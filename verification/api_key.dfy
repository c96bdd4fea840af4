/** The two API-key getters (`get_scrapecreators_api_key` and
    `get_gemini_api_key`): a module-level variable that caches the key read
    from the command line, or failing that from the environment. */
module ApiKey {
  import opened Wrappers
  import opened PyText

  datatype KeyError =
    | FlagWithoutValue  // the flag is the last command-line argument
    | NoKey             // neither the flag nor a non-empty variable

  /** Reading the key afresh: the argument after the first `flag` on the
      command line wins over the environment variable (`env` is its value,
      None when unset, and an empty value counts as unset). */
  function Resolve(flag: string, argv: seq<string>, env: Option<string>): Result<string, KeyError> {
    if flag in argv then
      var k := IndexOf(argv, flag) + 1;
      if k < |argv| then Success(argv[k]) else Failure(FlagWithoutValue)
    else if env.Some? && env.value != "" then Success(env.value)
    else Failure(NoKey)
  }

  /** The command line decides whenever it carries the flag: the key is the
      element after the flag's first occurrence, the environment is never
      consulted, and a flag in last position is an error. */
  lemma FlagTakesPriority(flag: string, argv: seq<string>, env: Option<string>, i: nat)
    requires i < |argv| && argv[i] == flag && flag !in argv[..i]
    ensures i + 1 < |argv| ==> Resolve(flag, argv, env) == Success(argv[i + 1])
    ensures i + 1 == |argv| ==> Resolve(flag, argv, env) == Failure(FlagWithoutValue)
    ensures Resolve(flag, argv, env) == Resolve(flag, argv, None)
  {
  }

  /** Without the flag the key is the environment variable's value, and
      having neither source is an error. */
  lemma EnvironmentFallback(flag: string, argv: seq<string>, env: Option<string>)
    requires flag !in argv
    ensures Resolve(flag, argv, env).Success? <==> env.Some? && env.value != ""
    ensures Resolve(flag, argv, env).Success? ==> Resolve(flag, argv, env).value == env.value
  {
  }

  /** The cached key of one service; `flag` is its command-line flag. */
  class KeyCache {
    const flag: string
    var key: Option<string>

    constructor (flag: string)
      ensures this.flag == flag && key == None
    {
      this.flag := flag;
      key := None;
    }

    /** Once a key is cached it is returned without looking at the command
        line or the environment again; until then the key is resolved and,
        on success, cached. */
    method Get(argv: seq<string>, env: Option<string>) returns (r: Result<string, KeyError>)
      modifies this
      ensures old(key).Some? ==> r == Success(old(key).value) && key == old(key)
      ensures old(key).None? ==> r == Resolve(flag, argv, env)
      ensures old(key).None? ==> key == if r.Success? then Some(r.value) else None
      ensures r.Success? ==> key == Some(r.value)
    {
      if key.None? {
        r := Resolve(flag, argv, env);
        if r.Success? {
          key := Some(r.value);
        }
      } else {
        r := Success(key.value);
      }
    }
  }
}
