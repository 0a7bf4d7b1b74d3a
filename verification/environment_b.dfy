/** The environment registry of `src/Environment.ts`: the same shape as
    `EnvironmentA`, but with three kinds and no `redirects`. */
module EnvironmentB {
  import Strings

  /** The `Environment` enum, in declaration order. */
  datatype Environment = Admin | Staging | Production
  {
    /** The string each enum member stands for. */
    function Value(): string
    {
      match this
      case Admin => "admin"
      case Staging => "staging"
      case Production => "production"
    }
  }

  const Members: seq<Environment> := [Admin, Staging, Production]

  /** `Object.values(Environment)`: the member strings in declaration order. */
  function Values(): seq<string>
  {
    seq(|Members|, i requires 0 <= i < |Members| => Members[i].Value())
  }

  /** `EnvironmentIsValid`: membership in the enum's values, and so exactly the
      three names of the enum. */
  predicate IsValid(value: string): (r: bool)
    ensures r <==> value in {"admin", "staging", "production"}
  {
    Strings.Includes(Values(), value)
  }

  /** `EnvironmentHasMultipleNamespaces`: only the staging kind holds several
      namespaces, and any kind that does is a valid one. */
  predicate HasMultipleNamespaces(environment: string): (r: bool)
    ensures r ==> IsValid(environment)
  {
    environment == Staging.Value()
  }

  /** Of the valid kinds, exactly `staging` is multi-namespace. */
  lemma MultipleNamespacesExactlyStaging(s: string)
    ensures HasMultipleNamespaces(s) <==> s == "staging"
    ensures IsValid(s) && !HasMultipleNamespaces(s) <==> s in {"admin", "production"}
  {
  }

  /** Neither the blank name, `unknown`, nor `redirects` is a kind here. */
  lemma BlankUnknownAndRedirectsInvalid()
    ensures !IsValid("") && !IsValid("unknown") && !IsValid("redirects")
  {
  }

  /** Every enum member is valid, and the valid names are exactly the members' values. */
  lemma ValidExactlyMemberValues(s: string)
    ensures IsValid(s) <==> exists e: Environment :: e.Value() == s
  {
    if s == "admin" { assert Admin.Value() == s; }
    if s == "staging" { assert Staging.Value() == s; }
    if s == "production" { assert Production.Value() == s; }
  }
}
