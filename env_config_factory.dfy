/**
 * The default configuration factory: it decides whether mutations are
 * blocked by reading the BLOCK_MUTATIONS environment variable afresh on
 * every call. The process environment is passed in as a map.
 */
module EnvConfigFactory {

  datatype Option<T> = None | Some(value: T)

  /** The process environment: variable names to their string values. */
  type Environment = map<string, string>

  /** The variable the factory reads. */
  const BLOCK_MUTATIONS: string := "BLOCK_MUTATIONS"

  /** The one value that turns blocking on. */
  const ENABLED: string := "true"

  /** Reading a variable: an unset variable reads as undefined (None). */
  function Lookup(env: Environment, name: string): (v: Option<string>)
    ensures v.Some? <==> name in env
    ensures v.Some? ==> v.value == env[name]
  {
    if name in env then Some(env[name]) else None
  }

  /**
   * `shouldBlockMutations`: strict equality of the variable with "true";
   * undefined, the empty string, "TRUE", "1" and "yes" all give false.
   */
  function ShouldBlockMutations(env: Environment): (block: bool)
    ensures block <==> BLOCK_MUTATIONS in env && env[BLOCK_MUTATIONS] == "true"
  {
    Lookup(env, BLOCK_MUTATIONS) == Some(ENABLED)
  }

  /** Setting the variable to a value blocks exactly when that value is "true". */
  lemma BlocksExactlyOnTrue(env: Environment, v: string)
    ensures ShouldBlockMutations(env[BLOCK_MUTATIONS := v]) <==> v == "true"
  {
  }

  /** With the variable unset the factory never blocks. */
  lemma UnsetDoesNotBlock(env: Environment)
    requires BLOCK_MUTATIONS !in env
    ensures !ShouldBlockMutations(env)
  {
  }

  /** Every value other than the exact lower-case "true" leaves mutations allowed. */
  lemma OtherValuesDoNotBlock(env: Environment)
    requires BLOCK_MUTATIONS in env && env[BLOCK_MUTATIONS] != "true"
    ensures !ShouldBlockMutations(env)
  {
  }

  /** The comparison is case-sensitive and does no truthy coercion. */
  lemma StrictComparison(env: Environment)
    ensures !ShouldBlockMutations(env[BLOCK_MUTATIONS := "false"])
    ensures !ShouldBlockMutations(env[BLOCK_MUTATIONS := "TRUE"])
    ensures !ShouldBlockMutations(env[BLOCK_MUTATIONS := "yes"])
    ensures !ShouldBlockMutations(env[BLOCK_MUTATIONS := "1"])
    ensures !ShouldBlockMutations(env[BLOCK_MUTATIONS := ""])
  {
  }

  /**
   * Nothing is cached: the answer is a function of the current value of
   * BLOCK_MUTATIONS alone, so two environments that agree on it agree on
   * the answer, whatever else they hold.
   */
  lemma DependsOnlyOnVariable(env1: Environment, env2: Environment)
    requires Lookup(env1, BLOCK_MUTATIONS) == Lookup(env2, BLOCK_MUTATIONS)
    ensures ShouldBlockMutations(env1) == ShouldBlockMutations(env2)
  {
  }

  /** Changing or removing any other variable does not change the answer. */
  lemma OtherVariablesIrrelevant(env: Environment, name: string, v: string)
    requires name != BLOCK_MUTATIONS
    ensures ShouldBlockMutations(env[name := v]) == ShouldBlockMutations(env)
    ensures ShouldBlockMutations(env - {name}) == ShouldBlockMutations(env)
  {
  }
}
