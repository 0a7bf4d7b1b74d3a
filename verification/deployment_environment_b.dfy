/** The `DeploymentEnvironment` class of `src/DeploymentEnvironment.ts`:
    it accepts only `staging` and `production` and has no label parser. */
module DeploymentEnvironmentB {
  import opened Wrappers
  import opened Deployment
  import EnvironmentB
  import DeploymentEnvironmentA

  /** The values the constructor can produce: `production` with no namespace,
      or `staging` with a non-blank one. */
  predicate Valid(d: DeploymentEnvironment)
  {
    || d == DeploymentEnvironment(EnvironmentB.Environment.Production.Value(), None)
    || (d.environment == EnvironmentB.Environment.Staging.Value() && d.namespace.Some? && d.namespace.value != "")
  }

  /** The constructor. Any kind but `staging` and `production` fails with the
      environment error, before the namespace is looked at, so even the
      registered `admin` is refused; every kind but `production` needs a
      non-blank namespace, which it keeps; `production` drops its namespace. */
  function New(environment: string, namespace: string): (r: Result<DeploymentEnvironment, Error>)
    ensures r == Failure(InvalidEnvironment(environment)) <==> environment !in {"staging", "production"}
    ensures r == Failure(InvalidNamespace("")) <==> environment == "staging" && namespace == ""
    ensures r.Success? <==> environment == "production" || (environment == "staging" && namespace != "")
    ensures r.Success? ==> Valid(r.value) && r.value.environment == environment
    ensures r.Success? ==> EnvironmentB.IsValid(r.value.environment)
    ensures r.Success? ==> (r.value.namespace.Some? <==> EnvironmentB.HasMultipleNamespaces(environment))
    ensures r.Success? && r.value.namespace.Some? ==> r.value.namespace.value == namespace
  {
    if environment != EnvironmentB.Environment.Staging.Value() && environment != EnvironmentB.Environment.Production.Value() then
      Failure(InvalidEnvironment(environment))
    else if environment != EnvironmentB.Environment.Production.Value() then
      if namespace == "" then Failure(InvalidNamespace(namespace))
      else Success(DeploymentEnvironment(environment, Some(namespace)))
    else
      Success(DeploymentEnvironment(environment, None))
  }

  /** Every value the invariant admits is built by the constructor. */
  lemma NewReachesEveryValid(d: DeploymentEnvironment)
    requires Valid(d)
    ensures New(d.environment, if d.namespace.Some? then d.namespace.value else "") == Success(d)
  {
  }

  /** The cases the tests in test/DeploymentEnvironment.test.ts exercise. */
  lemma NewExamples()
    ensures New("production", "") == Success(DeploymentEnvironment("production", None))
    ensures New("staging", "magenta") == Success(DeploymentEnvironment("staging", Some("magenta")))
    ensures New("", "") == Failure(InvalidEnvironment(""))
    ensures New("unknown", "") == Failure(InvalidEnvironment("unknown"))
    ensures New("staging", "") == Failure(InvalidNamespace(""))
    ensures New("admin", "x") == Failure(InvalidEnvironment("admin"))
  {
  }

  /** The error texts the tests in test/DeploymentEnvironment.test.ts expect. */
  lemma NewErrorMessages()
    ensures New("", "").error.Message() == "invalid environment: ''"
    ensures New("unknown", "").error.Message() == "invalid environment: 'unknown'"
    ensures New("staging", "").error.Message() == "invalid namespace: ''"
  {
    NewExamples();
    assert InvalidEnvironment("").Message() == "invalid environment: '" + "" + "'";
    assert InvalidEnvironment("unknown").Message() == "invalid environment: '" + "unknown" + "'";
    assert InvalidNamespace("").Message() == "invalid namespace: '" + "" + "'";
  }

  /** `toString`: `production` alone, anything else as `kind/namespace`. The
      string starts with the kind; for every kind but `production` it goes on
      with a `/` and the rendered namespace. */
  function ToString(d: DeploymentEnvironment): (s: string)
    ensures d.environment <= s
    ensures d.environment != "production" <==> |s| > |d.environment|
    ensures |s| > |d.environment| ==> s[|d.environment|] == '/'
    ensures |s| > |d.environment| ==> s[|d.environment| + 1..] == Interpolate(d.namespace)
  {
    if d.environment == EnvironmentB.Environment.Production.Value() then
      d.environment
    else
      d.environment + "/" + Interpolate(d.namespace)
  }

  /** The strings the tests in test/DeploymentEnvironment.test.ts expect. */
  lemma ToStringExamples()
    ensures ToString(New("production", "").value) == "production"
    ensures ToString(New("staging", "magenta").value) == "staging/magenta"
  {
    NewExamples();
    assert ToString(DeploymentEnvironment("staging", Some("magenta"))) == "staging" + "/" + "magenta";
  }

  /** The canonical string identifies a value: two constructible values with
      the same string are equal. */
  lemma ToStringInjective(d1: DeploymentEnvironment, d2: DeploymentEnvironment)
    requires Valid(d1) && Valid(d2)
    ensures ToString(d1) == ToString(d2) ==> d1 == d2
  {
    var s1, s2 := ToString(d1), ToString(d2);
    if d1.environment == "staging" && d2.environment == "staging" && s1 == s2 {
      assert d1.namespace.value == s1[8..];
      assert d2.namespace.value == s2[8..];
    } else if d1.environment == "staging" && d2.environment != "staging" {
      assert s1 != s2 by { assert s1[0] != s2[0]; }
    } else if d1.environment != "staging" && d2.environment == "staging" {
      assert s1 != s2 by { assert s1[0] != s2[0]; }
    }
  }

  /** Both classes agree on the kinds this one accepts: for `staging` and
      `production` they build the same value or throw the same error. */
  lemma AgreesWithAOnStagingAndProduction(environment: string, namespace: string)
    requires environment in {"staging", "production"}
    ensures New(environment, namespace) == DeploymentEnvironmentA.New(environment, namespace)
  {
  }

  /** The classes differ on the other registered kinds: `admin` (and, in the
      four-kind registry, `redirects`) is built by the first class and
      refused by this one. */
  lemma DiffersFromAOnOtherKinds(environment: string, namespace: string)
    requires environment in {"admin", "redirects"}
    ensures DeploymentEnvironmentA.New(environment, namespace) == Success(DeploymentEnvironment(environment, None))
    ensures New(environment, namespace) == Failure(InvalidEnvironment(environment))
  {
  }

  /** Every value this class builds renders the same under both classes'
      `toString`, and the first class's label parser reads it back when the
      namespace holds no `/`. */
  lemma LabelOfValueParsesBack(d: DeploymentEnvironment)
    requires Valid(d)
    requires d.namespace.Some? ==> '/' !in d.namespace.value
    ensures DeploymentEnvironmentA.ToString(d) == ToString(d)
    ensures DeploymentEnvironmentA.FromLabel(ToString(d)) == Success(d)
  {
    DeploymentEnvironmentA.RoundTrip(d);
  }
}
