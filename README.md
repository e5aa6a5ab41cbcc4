# nestjs-mutations-guard: the request gate, modelled in Dafny

This is a model of the decision logic of `nestjs-mutations-guard`. That package is a NestJS
guard for read-only or maintenance mode. When mutations are blocked, it refuses every request
whose HTTP method is POST, PUT, PATCH or DELETE. Routes and controllers marked
`@AllowMutations()` pass anyway.

The project has four modules:

- `HttpMethods` (`http_methods.dfy`) holds the fixed list `MUTATION_METHODS` and ASCII
  upper-casing (`ToUpper`). It also holds the guard's case-insensitive membership test
  (`IsMutationMethod`), with lemmas about how it classifies tokens.
- `TestedMethods` (`tested_methods.dfy`) holds the safe, extension, WebDAV and custom method
  lists that the repository's tests classify. The package itself defines none of them. The
  module proves that the guard classifies none of them as a mutation.
- `EnvConfigFactory` (`env_config_factory.dfy`) models the default config factory. It is a
  function of the process environment, passed in as a `map<string, string>`, and answers true
  only when `BLOCK_MUTATIONS` is exactly `"true"`.
- `MutationsGuard` (`mutations_guard.dfy`) models `canActivate` as a function of three things:
  - the merged override metadata, as a `bool` where false stands for an absent marker;
  - the config factory, as an oracle `() -> bool`;
  - the request's method string.

  It returns the decision (`Allowed`, or `Denied(message)` in place of the thrown
  `ForbiddenException`) together with the number of times the factory was called. Keeping that
  count in the result makes "the factory is not consulted under an override" a stated property.

Three details follow the code exactly, where a looser reading of the package is possible:

- The denial message names the `@AllowMutations()` decorator.
- The message interpolates the upper-cased method. The `method` interpolated at
  `src/guards/mutations.guard.ts:43` is the const bound to the upper-cased `request.method` at :37.
- The override test is JavaScript truthiness, not `=== true`. With a `bool` input the two agree.

## Model

| member | source | states |
|---|---|---|
| `HttpMethods.ToUpper` | src/guards/mutations.guard.ts:37 | upper-casing keeps the token's length |
| `HttpMethods.ToUpperAt` | src/guards/mutations.guard.ts:37 | each position of the result is the upper case of the same position of the input: a–z move down 32 code points, every other character is kept, and no lower-case letter is left |
| `HttpMethods.ToUpperIdempotent` | src/guards/mutations.guard.ts:37 | upper-casing an upper-cased token changes nothing |
| `HttpMethods.UpperWordIsFixed` | src/constants/metadata.constants.test.ts:141-151 | a token made only of upper-case letters is its own upper case |
| `HttpMethods.MutationMethodsDistinct` | src/constants/metadata.constants.test.ts:53-62 | the mutation list has exactly four entries and no repeats |
| `HttpMethods.MutationMethodsUpperCase` | src/constants/metadata.constants.test.ts:135-139 | every listed verb is non-empty, all upper-case letters, and unchanged by upper-casing |
| `TestedMethods.SafeMethodsDisjoint` | src/constants/metadata.constants.test.ts:64-79 | none of GET, HEAD, OPTIONS and TRACE is in the mutation list |
| `HttpMethods.MutationMethodCaseInsensitive` | src/guards/mutations.guard.ts:37-40 | a token is classified as a mutation exactly when its upper-cased form is |
| `HttpMethods.IsMutationMethod` | src/guards/mutations.guard.ts:37-40 | the guard's test (upper-case, then membership in the list) holds exactly when the token spells one of the four verbs letter for letter, ignoring case (an independent reference definition), in both directions |
| `HttpMethods.UpperInListIffSameIgnoringCase` | src/guards/mutations.guard.ts:37-40 | the upper-cased token is in the list exactly when the token equals one of the listed verbs, ignoring case |
| `HttpMethods.SameIgnoringCaseAsCanonical` | src/guards/mutations.guard.ts:37-40 | compared with a token already in upper case, case-blind equality is the same as equality after upper-casing |
| `HttpMethods.NonLetterTokenIsNotMutation` | src/constants/metadata.constants.test.ts:101-108 | any token with a character that is not an ASCII letter (such as "M-SEARCH") is never a mutation |
| `HttpMethods.UpperWordOutsideListIsNotMutation` | src/guards/mutations.guard.ts:39-40 | an upper-case token not in the list is not a mutation |
| `HttpMethods.MutationVerbsClassified` | src/guards/mutations.guard.test.ts:109-116 | POST, PUT, PATCH and DELETE are all mutations |
| `HttpMethods.PostInLowerCase` | src/guards/mutations.guard.test.ts:128-131 | "post" upper-cases to "POST" and is a mutation |
| `TestedMethods.SafeMethodsNotClassified` | src/constants/metadata.constants.test.ts:83-91 | GET, HEAD, OPTIONS, TRACE and the empty token are not mutations |
| `TestedMethods.WebDavMethodsNotClassified` | src/constants/metadata.constants.test.ts:165-173 | PROPFIND, PROPPATCH, MKCOL, COPY, MOVE, LOCK and UNLOCK are not mutations |
| `TestedMethods.ExtensionMethodsNotClassified` | src/constants/metadata.constants.test.ts:101-108 | CONNECT, LINK, UNLINK, PURGE, SEARCH, SUBSCRIBE, UNSUBSCRIBE, NOTIFY and M-SEARCH are not mutations |
| `TestedMethods.CustomMethodsNotClassified` | src/constants/metadata.constants.test.ts:155-163 | CUSTOM, SPECIAL, ACTION and WEBHOOK are not mutations |
| `EnvConfigFactory.Lookup` | src/factories/env-config.factory.ts:7-8 | reading a variable gives its value when it is set and undefined (None) when it is not |
| `EnvConfigFactory.ShouldBlockMutations` | src/factories/env-config.factory.ts:6-9 | blocking is on exactly when BLOCK_MUTATIONS is set and equal to "true" |
| `EnvConfigFactory.BlocksExactlyOnTrue` | tests/env-config.factory.test.ts:17-21 | setting the variable to v turns blocking on exactly when v is "true" |
| `EnvConfigFactory.UnsetDoesNotBlock` | tests/env-config.factory.test.ts:29-33 | an unset variable never blocks |
| `EnvConfigFactory.OtherValuesDoNotBlock` | tests/env-config.factory.test.ts:35-39 | every value other than "true" leaves mutations allowed |
| `EnvConfigFactory.StrictComparison` | src/factories/env-config.factory.ts:8 | "false", "TRUE", "yes", "1" and "" all give false: the comparison is case-sensitive, with no truthy coercion |
| `EnvConfigFactory.DependsOnlyOnVariable` | src/factories/env-config.factory.ts:6-8 | the environment is read afresh on each call: environments that agree on BLOCK_MUTATIONS give the same answer |
| `EnvConfigFactory.OtherVariablesIrrelevant` | src/factories/env-config.factory.ts:7-8 | setting or removing any other variable does not change the answer |
| `MutationsGuard.CanActivate` | src/guards/mutations.guard.ts:20-48 | the factory is called 0 times under an override and once otherwise; a request is Denied exactly when there is no override, the factory says block, and the method is a mutation verb; a denial's message is the one built from the upper-cased method |
| `MutationsGuard.DenialMessage` | src/guards/mutations.guard.ts:42-44 | the message is "HTTP ", then the verb, then " mutations are currently blocked. Use @AllowMutations() decorator to override.", and its length is the sum of the three parts |
| `MutationsGuard.DenialMessageInjective` | src/guards/mutations.guard.ts:42-44 | different verbs give different messages, so the message identifies the refused verb |
| `MutationsGuard.OverrideAllowsWithoutConsulting` | src/guards/mutations.guard.ts:21-28 | with the override every method is Allowed and the factory is called zero times |
| `MutationsGuard.BlockingOffAllowsEverything` | src/guards/mutations.guard.ts:30-34 | with no override and blocking off, every method is Allowed after exactly one factory call |
| `MutationsGuard.BlockingOnDecidesByMethod` | src/guards/mutations.guard.ts:36-47 | with no override and blocking on, the decision is Denied with the message for the upper-cased method when the method spells a mutation verb in any case, and Allowed otherwise |
| `MutationsGuard.CaseInsensitive` | src/guards/mutations.guard.ts:37 | a method and its upper-cased spelling get identical results, message and call count included |
| `MutationsGuard.NonMutationMethodsAllowed` | src/guards/mutations.guard.ts:39-47 | safe, extension, WebDAV and custom methods are Allowed whatever the override and the factory say |
| `MutationsGuard.BlockedGetAllowed` | src/guards/mutations.guard.test.ts:45-57 | with blocking on, GET is Allowed after one factory call |
| `MutationsGuard.BlockedLowerCasePostDenied` | src/guards/mutations.guard.ts:36-44 | with blocking on, "post" is Denied with the message "HTTP POST mutations are currently blocked. Use @AllowMutations() decorator to override." |
| `MutationsGuard.WithEnvironmentFactory` | src/modules/mutations-guard.module.ts:11 | with the default factory, a request is Denied exactly when there is no override, BLOCK_MUTATIONS is "true" in the current environment, and the method is a mutation verb |

## Left out

- `Reflector.getAllAndOverride`, the framework code that merges handler and class metadata, is not modelled. Its merged result is the `bool` input. Any truthy metadata counts as true and an absent marker as false.
- `ForbiddenException` and its mapping to HTTP 403 are not modelled. A denial is the value `Denied(message)`.
- A config factory that throws is not modelled. The guard does not catch the exception, so there is no behaviour to state.
- The factory is modelled as an oracle that gives the same answer each time it is asked. The guard asks it at most once per request.
- `HttpMethods.ToUpper`: only ASCII letters are upper-cased. JavaScript's full-Unicode `toUpperCase` also maps a few non-ASCII characters onto ASCII letters: 'ſ' (long s) becomes "S", 'ı' (dotless i) becomes "I", and the ligature 'ﬆ' becomes "ST". So the source refuses "poſt" and "poﬆ" as POST under a block, and the model allows them. The model agrees with the source on every method written in ASCII.
- A missing or non-string `request.method` is not modelled. The source would throw on `toUpperCase`, and the model's method is always a string.
- The module registration (`register`/`forRoot`, `APP_GUARD`, the provider token), the `@AllowMutations()` decorator, the usage examples (including the clock-based factory), `src/index.ts` and the test tooling are not modelled. They are framework glue, not decision logic. The default-factory choice appears only as the factory passed in `MutationsGuard.WithEnvironmentFactory`.
- `src/constants/metadata.constants.ts` is not part of this model as a file. Its `MUTATION_METHODS` list is modelled as `HttpMethods.MUTATION_METHODS`, from the four verbs its test file fixes. Only its framework keys, `ALLOW_MUTATIONS_KEY` and `MUTATIONS_CONFIG_TOKEN`, are left out.
