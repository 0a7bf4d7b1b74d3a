/** The two registries side by side. */
module Registries {
  import EnvironmentA
  import EnvironmentB

  /** The registries agree on every name except `redirects`, which only the
      four-kind registry accepts; they agree on which kind is multi-namespace. */
  lemma RegistriesDifferOnlyOnRedirects(s: string)
    ensures EnvironmentA.IsValid("redirects") && !EnvironmentB.IsValid("redirects")
    ensures s != "redirects" ==> (EnvironmentA.IsValid(s) <==> EnvironmentB.IsValid(s))
    ensures EnvironmentA.HasMultipleNamespaces(s) <==> EnvironmentB.HasMultipleNamespaces(s)
  {
  }
}
