/** The `DeploymentEnvironment` class of `src/deployment_environment.ts`:
    validated against the four-kind registry, with a label parser. */
module DeploymentEnvironmentA {
  import opened Wrappers
  import opened Deployment
  import Strings
  import EnvironmentA

  /** The values the constructor can produce: a registered kind; a
      multi-namespace kind keeps whatever namespace it was given unless that
      was blank (absent is allowed); every other kind has no namespace. */
  predicate Valid(d: DeploymentEnvironment)
  {
    && EnvironmentA.IsValid(d.environment)
    && if EnvironmentA.HasMultipleNamespaces(d.environment)
       then d.namespace != Some("")
       else d.namespace == None
  }

  /** The constructor, with the namespace as JavaScript passes it: a string or,
      from `FromLabel`, possibly `undefined` (`None`). The kind is checked
      first, so an unknown kind is reported whatever the namespace; only
      `staging` rejects a blank namespace, and only `staging` keeps one. */
  function Construct(environment: string, namespace: Option<string>): (r: Result<DeploymentEnvironment, Error>)
    ensures !EnvironmentA.IsValid(environment) ==> r == Failure(InvalidEnvironment(environment))
    ensures environment == "staging" && namespace == Some("") ==> r == Failure(InvalidNamespace(""))
    ensures r.Success? <==>
              environment in {"admin", "redirects", "staging", "production"}
              && !(environment == "staging" && namespace == Some(""))
    ensures r.Success? ==> Valid(r.value) && r.value.environment == environment
    ensures r.Success? ==> r.value.namespace == if environment == "staging" then namespace else None
  {
    if !EnvironmentA.IsValid(environment) then
      Failure(InvalidEnvironment(environment))
    else if EnvironmentA.HasMultipleNamespaces(environment) then
      if namespace == Some("") then Failure(InvalidNamespace(namespace.value))
      else Success(DeploymentEnvironment(environment, namespace))
    else
      Success(DeploymentEnvironment(environment, None))
  }

  /** `new DeploymentEnvironment(environment, namespace)` called with a string
      namespace, as the constructor's signature demands: a successful result
      has a namespace exactly when it is `staging`, and then it is the one given. */
  function New(environment: string, namespace: string): (r: Result<DeploymentEnvironment, Error>)
    ensures r.Success? <==>
              EnvironmentA.IsValid(environment) && !(environment == "staging" && namespace == "")
    ensures r.Success? ==> r.value.environment == environment
    ensures r.Success? ==> (r.value.namespace.Some? <==> environment == "staging")
    ensures r.Success? && r.value.namespace.Some? ==> r.value.namespace.value == namespace != ""
  {
    Construct(environment, Some(namespace))
  }

  /** Every value the invariant admits is built by the constructor from its own fields. */
  lemma ConstructReachesEveryValid(d: DeploymentEnvironment)
    requires Valid(d)
    ensures Construct(d.environment, d.namespace) == Success(d)
  {
  }

  /** `toString`: `kind/namespace` for the multi-namespace kind, the kind alone
      otherwise. The string starts with the kind; exactly for the
      multi-namespace kind it goes on with a `/` and the rendered namespace. */
  function ToString(d: DeploymentEnvironment): (s: string)
    ensures d.environment <= s
    ensures EnvironmentA.HasMultipleNamespaces(d.environment) <==> |s| > |d.environment|
    ensures |s| > |d.environment| ==> s[|d.environment|] == '/'
    ensures |s| > |d.environment| ==> s[|d.environment| + 1..] == Interpolate(d.namespace)
  {
    if EnvironmentA.HasMultipleNamespaces(d.environment) then
      d.environment + "/" + Interpolate(d.namespace)
    else
      d.environment
  }

  /** `fromLabel`: split the label name at every `/`, take the first part as
      the kind and the second, if there is one, as the namespace. A label
      without `/` passes an absent namespace, which is not blank and so is
      not rejected even for `staging`. */
  function FromLabel(name: string): (r: Result<DeploymentEnvironment, Error>)
    ensures '/' !in name ==> r == Construct(name, None)
    ensures r.Success? ==> Valid(r.value)
    ensures r.Success? && r.value.namespace.Some? ==> '/' !in r.value.namespace.value
  {
    var parts := Strings.Split(name, '/');
    Construct(parts[0], if |parts| >= 2 then Some(parts[1]) else None)
  }

  /** A label `kind/namespace` is read as that kind and that namespace. */
  lemma FromLabelKindAndNamespace(kind: string, namespace: string)
    requires '/' !in kind && '/' !in namespace
    ensures FromLabel(kind + "/" + namespace) == Construct(kind, Some(namespace))
  {
    Strings.SplitAtFirst(kind, '/', namespace);
    assert Strings.Split(kind + "/" + namespace, '/') == [kind, namespace];
  }

  /** Only the first two `/`-separated parts of a label count: in
      `kind/namespace/rest` the rest is dropped. */
  lemma FromLabelDropsTail(kind: string, namespace: string, rest: string)
    requires '/' !in kind && '/' !in namespace
    ensures FromLabel(kind + "/" + namespace + "/" + rest) == Construct(kind, Some(namespace))
  {
    var tail := namespace + "/" + rest;
    assert kind + "/" + namespace + "/" + rest == kind + "/" + tail;
    Strings.SplitAtFirst(kind, '/', tail);
    Strings.SplitAtFirst(namespace, '/', rest);
    var parts := Strings.Split(kind + "/" + tail, '/');
    assert parts == [kind] + ([namespace] + Strings.Split(rest, '/'));
    assert parts[0] == kind && parts[1] == namespace;
  }

  /** A staging label whose namespace part is empty is rejected with the
      namespace error. */
  lemma FromLabelEmptyNamespace()
    ensures FromLabel("staging/") == Failure(InvalidNamespace(""))
  {
    FromLabelKindAndNamespace("staging", "");
    assert "staging" + "/" + "" == "staging/";
  }

  /** A single-namespace kind drops the namespace part of its label. */
  lemma FromLabelDropsProductionNamespace()
    ensures FromLabel("production/x") == Success(DeploymentEnvironment("production", None))
  {
    FromLabelKindAndNamespace("production", "x");
    assert "production" + "/" + "x" == "production/x";
  }

  /** Parts after the second are ignored: `staging/a/b` has namespace `a`. */
  lemma FromLabelNestedNamespace()
    ensures FromLabel("staging/a/b") == Success(DeploymentEnvironment("staging", Some("a")))
  {
    FromLabelDropsTail("staging", "a", "b");
    assert "staging" + "/" + "a" + "/" + "b" == "staging/a/b";
  }

  /** Read as a label, the string of a staging value with a `/`-free
      namespace has exactly two parts: the kind and the namespace. */
  lemma ToStringSplitsIntoKindAndNamespace(d: DeploymentEnvironment)
    requires EnvironmentA.HasMultipleNamespaces(d.environment)
    requires d.namespace.Some? && '/' !in d.namespace.value
    ensures Strings.Split(ToString(d), '/') == [d.environment, d.namespace.value]
  {
    var parts := [d.environment, d.namespace.value];
    assert Strings.Join(parts, '/') == ToString(d) by {
      assert Strings.Join(parts[1..], '/') == d.namespace.value;
    }
    Strings.SplitJoin(parts, '/');
  }

  /** Round trip: a value whose canonical string is a well-formed label (the
      staging namespace present and free of `/`) is parsed back from it. */
  lemma RoundTrip(d: DeploymentEnvironment)
    requires Valid(d)
    requires EnvironmentA.HasMultipleNamespaces(d.environment) ==>
               d.namespace.Some? && '/' !in d.namespace.value
    ensures FromLabel(ToString(d)) == Success(d)
  {
    if EnvironmentA.HasMultipleNamespaces(d.environment) {
      FromLabelKindAndNamespace(d.environment, d.namespace.value);
    } else {
      assert '/' !in d.environment;
    }
  }

  /** Round trip for everything the typed constructor builds: whenever
      `new DeploymentEnvironment(k, ns)` succeeds and `ns` has no `/`, parsing
      its string gives the same value back. A single-namespace kind drops its
      namespace, so there any namespace will do. */
  lemma NewRoundTrip(environment: string, namespace: string)
    requires New(environment, namespace).Success?
    requires environment == "staging" ==> '/' !in namespace
    ensures FromLabel(ToString(New(environment, namespace).value)) == New(environment, namespace)
  {
    RoundTrip(New(environment, namespace).value);
  }

  /** No single-namespace kind starts with `staging/`. */
  lemma StagingPrefixOnlyOnStaging(k: string)
    requires k in {"admin", "redirects", "production"}
    ensures !("staging/" <= k)
  {
    assert k[0] != 's';
  }

  /** The canonical string identifies a value among those with a present
      staging namespace: two such values with the same string are equal. */
  lemma ToStringInjective(d1: DeploymentEnvironment, d2: DeploymentEnvironment)
    requires Valid(d1) && Valid(d2)
    requires EnvironmentA.HasMultipleNamespaces(d1.environment) ==> d1.namespace.Some?
    requires EnvironmentA.HasMultipleNamespaces(d2.environment) ==> d2.namespace.Some?
    ensures ToString(d1) == ToString(d2) ==> d1 == d2
  {
    var s1, s2 := ToString(d1), ToString(d2);
    var m1 := EnvironmentA.HasMultipleNamespaces(d1.environment);
    var m2 := EnvironmentA.HasMultipleNamespaces(d2.environment);
    EnvironmentA.MultipleNamespacesExactlyStaging(d1.environment);
    EnvironmentA.MultipleNamespacesExactlyStaging(d2.environment);
    if m1 {
      assert s1 == "staging/" + d1.namespace.value;
    }
    if m2 {
      assert s2 == "staging/" + d2.namespace.value;
    }
    if m1 && !m2 {
      assert s1 != s2 by {
        assert "staging/" <= s1;
        StagingPrefixOnlyOnStaging(s2);
      }
    } else if !m1 && m2 {
      assert s1 != s2 by {
        assert "staging/" <= s2;
        StagingPrefixOnlyOnStaging(s1);
      }
    } else if m1 && m2 && s1 == s2 {
      assert d1.namespace.value == s1[8..];
      assert d2.namespace.value == s2[8..];
    }
  }

  /** Re-parsing the canonical string of a parsed label gives the same result,
      except for a bare `staging` label (see `BareStagingBreaksRoundTrip`). */
  lemma FromLabelCanonical(name: string)
    ensures FromLabel(name).Success? && FromLabel(name).value != DeploymentEnvironment("staging", None) ==>
              FromLabel(ToString(FromLabel(name).value)) == FromLabel(name)
  {
    if FromLabel(name).Success? && FromLabel(name).value != DeploymentEnvironment("staging", None) {
      RoundTrip(FromLabel(name).value);
    }
  }

  /** As written, the label `staging` builds a staging value with no
      namespace; its string is `staging/undefined`, which parses to a
      different value, and which it shares with the namespace `undefined`. */
  lemma BareStagingBreaksRoundTrip()
    ensures FromLabel("staging") == Success(DeploymentEnvironment("staging", None))
    ensures ToString(DeploymentEnvironment("staging", None)) == "staging/undefined"
    ensures ToString(DeploymentEnvironment("staging", Some("undefined"))) == "staging/undefined"
    ensures FromLabel("staging/undefined") == Success(DeploymentEnvironment("staging", Some("undefined")))
  {
    FromLabelKindAndNamespace("staging", "undefined");
    assert "staging" + "/" + "undefined" == "staging/undefined";
  }

  /** The label parser as evidently intended: a missing namespace segment is
      read as the blank namespace, so a staging label without one is
      rejected. It agrees with `FromLabel` on every label containing `/`, and
      every staging value it produces carries a non-blank namespace. */
  function FromLabelStrict(name: string): (r: Result<DeploymentEnvironment, Error>)
    ensures '/' in name ==> r == FromLabel(name)
    ensures '/' !in name ==> r == Construct(name, Some(""))
    ensures r.Success? ==> Valid(r.value)
    ensures r.Success? && EnvironmentA.HasMultipleNamespaces(r.value.environment) ==>
              r.value.namespace.Some? && r.value.namespace.value != "" && '/' !in r.value.namespace.value
  {
    var parts := Strings.Split(name, '/');
    Construct(parts[0], Some(if |parts| >= 2 then parts[1] else ""))
  }

  /** The strict parser rejects the bare staging label with the namespace error. */
  lemma StrictRejectsBareStaging()
    ensures FromLabelStrict("staging") == Failure(InvalidNamespace(""))
  {
    assert '/' !in "staging";
  }

  /** With the strict parser the round trip holds for every value it produces:
      parsing the canonical string of a parsed label gives the same result. */
  lemma StrictRoundTrip(name: string)
    ensures FromLabelStrict(name).Success? ==>
              FromLabelStrict(ToString(FromLabelStrict(name).value)) == FromLabelStrict(name)
  {
    if FromLabelStrict(name).Failure? {
      return;
    }
    var d := FromLabelStrict(name).value;
    RoundTrip(d);
    if EnvironmentA.HasMultipleNamespaces(d.environment) {
      assert '/' in ToString(d) by { assert ToString(d)[7] == '/'; }
    } else {
      assert '/' !in ToString(d);
    }
  }
}
