/**
 * The method lists the repository's test suite classifies, with the
 * classification the guard gives each of them. The guard itself defines
 * only the four mutation verbs; these lists are test vectors.
 */
module TestedMethods {
  import opened HttpMethods

  /** The tests' safe methods: those of section 4.2.1 of RFC 7231. */
  const SAFE_METHODS: seq<string> := ["GET", "HEAD", "OPTIONS", "TRACE"]

  /** The tests' other registered and widely used extension methods. */
  const EXTENSION_METHODS: seq<string> :=
    ["CONNECT", "LINK", "UNLINK", "PURGE", "SEARCH", "SUBSCRIBE",
     "UNSUBSCRIBE", "NOTIFY", "M-SEARCH"]

  /** The tests' WebDAV methods (RFC 4918). */
  const WEBDAV_METHODS: seq<string> :=
    ["PROPFIND", "PROPPATCH", "MKCOL", "COPY", "MOVE", "LOCK", "UNLOCK"]

  /** The tests' application-defined tokens. */
  const CUSTOM_METHODS: seq<string> := ["CUSTOM", "SPECIAL", "ACTION", "WEBHOOK"]

  /** No safe method is in the mutation list. */
  lemma SafeMethodsDisjoint()
    ensures forall m :: m in SAFE_METHODS ==> m !in MUTATION_METHODS
  {
  }

  /** The safe methods and the empty token are not mutations. */
  lemma SafeMethodsNotClassified()
    ensures forall m :: m in SAFE_METHODS ==> !IsMutationMethod(m)
    ensures !IsMutationMethod("")
  {
    forall m | m in SAFE_METHODS ensures !IsMutationMethod(m) {
      UpperWordOutsideListIsNotMutation(m);
    }
  }

  /** WebDAV methods are not mutations, although several of them change resources. */
  lemma WebDavMethodsNotClassified()
    ensures forall m :: m in WEBDAV_METHODS ==> !IsMutationMethod(m)
  {
    forall m | m in WEBDAV_METHODS ensures !IsMutationMethod(m) {
      UpperWordOutsideListIsNotMutation(m);
    }
  }

  /** The remaining extension methods are not mutations. */
  lemma ExtensionMethodsNotClassified()
    ensures forall m :: m in EXTENSION_METHODS ==> !IsMutationMethod(m)
  {
    forall m | m in EXTENSION_METHODS ensures !IsMutationMethod(m) {
      if m == "M-SEARCH" {
        NonLetterTokenIsNotMutation(m, 1);
      } else {
        UpperWordOutsideListIsNotMutation(m);
      }
    }
  }

  /** Application-defined tokens are not mutations. */
  lemma CustomMethodsNotClassified()
    ensures forall m :: m in CUSTOM_METHODS ==> !IsMutationMethod(m)
  {
    forall m | m in CUSTOM_METHODS ensures !IsMutationMethod(m) {
      UpperWordOutsideListIsNotMutation(m);
    }
  }
}
