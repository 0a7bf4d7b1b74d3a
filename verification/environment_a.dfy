/** The environment registry of `src/environment.ts`: four kinds, of which
    only `staging` holds several namespaces at once. */
module EnvironmentA {
  import Strings

  /** The `Environment` enum, in declaration order. */
  datatype Environment = Admin | Redirects | Staging | Production
  {
    /** The string each enum member stands for. */
    function Value(): string
    {
      match this
      case Admin => "admin"
      case Redirects => "redirects"
      case Staging => "staging"
      case Production => "production"
    }
  }

  const Members: seq<Environment> := [Admin, Redirects, Staging, Production]

  /** `Object.values(Environment)`: the member strings in declaration order. */
  function Values(): seq<string>
  {
    seq(|Members|, i requires 0 <= i < |Members| => Members[i].Value())
  }

  /** `EnvironmentIsValid`: membership in the enum's values, and so exactly the
      four names of the enum. */
  predicate IsValid(value: string): (r: bool)
    ensures r <==> value in {"admin", "redirects", "staging", "production"}
  {
    Strings.Includes(Values(), value)
  }

  /** `EnvironmentHasMultipleNamespaces`: only the staging kind holds several
      namespaces, and any kind that does is a valid one. */
  predicate HasMultipleNamespaces(environment: string): (r: bool)
    ensures r ==> IsValid(environment)
  {
    environment == Staging.Value()
  }

  /** Of the valid kinds, exactly `staging` is multi-namespace; `admin`,
      `redirects` and `production` are single-namespace. */
  lemma MultipleNamespacesExactlyStaging(s: string)
    ensures HasMultipleNamespaces(s) <==> s == "staging"
    ensures IsValid(s) && !HasMultipleNamespaces(s) <==> s in {"admin", "redirects", "production"}
  {
  }

  /** Neither the blank name nor `unknown` is a kind. */
  lemma BlankAndUnknownInvalid()
    ensures !IsValid("") && !IsValid("unknown")
  {
  }

  /** Every enum member is valid, and the valid names are exactly the members' values. */
  lemma ValidExactlyMemberValues(s: string)
    ensures IsValid(s) <==> exists e: Environment :: e.Value() == s
  {
    if s == "admin" { assert Admin.Value() == s; }
    if s == "redirects" { assert Redirects.Value() == s; }
    if s == "staging" { assert Staging.Value() == s; }
    if s == "production" { assert Production.Value() == s; }
  }
}
