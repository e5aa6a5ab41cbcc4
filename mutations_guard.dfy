/**
 * The request gate `MutationsGuard.canActivate`. For each request it
 * looks at, in this order:
 *   1. the merged @AllowMutations() metadata of the handler and its class,
 *   2. the injected config factory's `shouldBlockMutations()`,
 *   3. the request's HTTP method, upper-cased, against the four mutation verbs.
 * The metadata lookup is an input (false stands for an absent marker), the
 * factory is an oracle whose calls are counted, and the ForbiddenException
 * the guard throws is the Denied decision carrying the same message.
 */
module MutationsGuard {
  import opened HttpMethods
  import opened TestedMethods
  import EnvConfigFactory

  /** What the guard reports: the request proceeds, or 403 Forbidden with a message. */
  datatype Decision = Allowed | Denied(message: string)

  /** A decision together with the number of times the config factory was asked. */
  datatype Activation = Activation(decision: Decision, factoryCalls: nat)

  const DENIAL_PREFIX: string := "HTTP "

  const DENIAL_SUFFIX: string := " mutations are currently blocked. Use @AllowMutations() decorator to override."

  /**
   * The ForbiddenException text for an already upper-cased method: "HTTP ",
   * the verb, then the fixed two-sentence hint.
   */
  function DenialMessage(verb: string): (msg: string)
    ensures |msg| == |DENIAL_PREFIX| + |verb| + |DENIAL_SUFFIX|
    ensures msg[..|DENIAL_PREFIX|] == DENIAL_PREFIX
    ensures msg[|DENIAL_PREFIX|..|DENIAL_PREFIX| + |verb|] == verb
    ensures msg[|DENIAL_PREFIX| + |verb|..] == DENIAL_SUFFIX
  {
    DENIAL_PREFIX + verb + DENIAL_SUFFIX
  }

  /**
   * `canActivate`: an override lets the request through without asking the
   * factory; otherwise the factory is asked once, and only a mutation verb
   * under an active block is refused.
   */
  function CanActivate(allowedByDecorator: bool, shouldBlockMutations: () -> bool, requestMethod: string)
    : (r: Activation)
    ensures r.factoryCalls == if allowedByDecorator then 0 else 1
    ensures r.decision.Denied? <==>
      !allowedByDecorator && shouldBlockMutations() && IsMutationMethod(requestMethod)
    ensures r.decision.Denied? ==> r.decision.message == DenialMessage(ToUpper(requestMethod))
  {
    if allowedByDecorator then
      Activation(Allowed, 0)
    else
      var blockMutations := shouldBlockMutations();
      if !blockMutations then
        Activation(Allowed, 1)
      else
        var verb := ToUpper(requestMethod);
        if verb in MUTATION_METHODS then
          Activation(Denied(DenialMessage(verb)), 1)
        else
          Activation(Allowed, 1)
  }

  /** Different verbs give different messages: the message identifies the refused verb. */
  lemma DenialMessageInjective(verb1: string, verb2: string)
    requires DenialMessage(verb1) == DenialMessage(verb2)
    ensures verb1 == verb2
  {
  }

  /** An override allows every method and never consults the factory. */
  lemma OverrideAllowsWithoutConsulting(shouldBlockMutations: () -> bool, requestMethod: string)
    ensures CanActivate(true, shouldBlockMutations, requestMethod) == Activation(Allowed, 0)
  {
  }

  /** Without an override and with blocking off, every method is allowed. */
  lemma BlockingOffAllowsEverything(shouldBlockMutations: () -> bool, requestMethod: string)
    requires !shouldBlockMutations()
    ensures CanActivate(false, shouldBlockMutations, requestMethod) == Activation(Allowed, 1)
  {
  }

  /**
   * Without an override and with blocking on, the outcome is decided by the
   * method alone: a mutation verb in any case is refused, anything else passes.
   */
  lemma BlockingOnDecidesByMethod(shouldBlockMutations: () -> bool, requestMethod: string)
    requires shouldBlockMutations()
    ensures CanActivate(false, shouldBlockMutations, requestMethod).decision ==
      if exists k :: 0 <= k < |MUTATION_METHODS| && SameIgnoringCase(requestMethod, MUTATION_METHODS[k])
      then Denied(DenialMessage(ToUpper(requestMethod)))
      else Allowed
  {
  }

  /** A method and its upper-cased spelling always get the same outcome. */
  lemma CaseInsensitive(allowedByDecorator: bool, shouldBlockMutations: () -> bool, requestMethod: string)
    ensures CanActivate(allowedByDecorator, shouldBlockMutations, requestMethod) ==
            CanActivate(allowedByDecorator, shouldBlockMutations, ToUpper(requestMethod))
  {
    ToUpperIdempotent(requestMethod);
  }

  /** Safe, extension, WebDAV and custom methods pass whatever the flags say. */
  lemma NonMutationMethodsAllowed(allowedByDecorator: bool, shouldBlockMutations: () -> bool, requestMethod: string)
    requires requestMethod in SAFE_METHODS + EXTENSION_METHODS + WEBDAV_METHODS + CUSTOM_METHODS
    ensures CanActivate(allowedByDecorator, shouldBlockMutations, requestMethod).decision == Allowed
  {
    SafeMethodsNotClassified();
    ExtensionMethodsNotClassified();
    WebDavMethodsNotClassified();
    CustomMethodsNotClassified();
  }

  /** With blocking on, a safe method such as GET passes after one factory call. */
  lemma BlockedGetAllowed(shouldBlockMutations: () -> bool)
    requires shouldBlockMutations()
    ensures CanActivate(false, shouldBlockMutations, "GET") == Activation(Allowed, 1)
  {
  }

  /**
   * With blocking on, lower-case "post" is refused, and the message names
   * the upper-cased verb.
   */
  lemma BlockedLowerCasePostDenied(shouldBlockMutations: () -> bool)
    requires shouldBlockMutations()
    ensures CanActivate(false, shouldBlockMutations, "post") == Activation(
      Denied("HTTP " + "POST" + " mutations are currently blocked. Use @AllowMutations() decorator to override."), 1)
  {
    PostInLowerCase();
  }

  /**
   * The guard wired to the default factory: a request is refused exactly
   * when there is no override, BLOCK_MUTATIONS is the string "true" in the
   * environment of this call, and the method is a mutation verb.
   */
  lemma WithEnvironmentFactory(allowedByDecorator: bool, env: EnvConfigFactory.Environment, requestMethod: string)
    ensures
      var r := CanActivate(allowedByDecorator, () => EnvConfigFactory.ShouldBlockMutations(env), requestMethod);
      r.decision.Denied? <==>
      && !allowedByDecorator
      && EnvConfigFactory.BLOCK_MUTATIONS in env
      && env[EnvConfigFactory.BLOCK_MUTATIONS] == "true"
      && IsMutationMethod(requestMethod)
  {
  }
}
