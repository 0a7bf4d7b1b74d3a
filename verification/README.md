# Deployment environments of trigger-deploy, in Dafny

trigger-deploy is a CI step that decides which deployment environments to
notify when code changes. Its core is a small value type, the
*deployment environment*: an environment kind (`admin`, `staging`,
`production`, ...) with an optional *namespace*. Only `staging` holds
several namespaces at once. Each deployment environment has a canonical
string, `kind` or `kind/namespace`, which doubles as the name of the label
that selects it.

The repository has two parallel copies of this core, and they behave
differently. The model keeps them apart:

- **Copy A**, `src/environment.ts` and `src/deployment_environment.ts`.
  Modules `EnvironmentA` and `DeploymentEnvironmentA`. The registry has four
  kinds, including `redirects`. The constructor accepts every registered
  kind. It keeps a namespace only for `staging`, and rejects `staging` with
  a blank namespace. `fromLabel` parses a label name.
- **Copy B**, `src/Environment.ts` and `src/DeploymentEnvironment.ts`.
  Modules `EnvironmentB` and `DeploymentEnvironmentB`. The registry has three
  kinds. The constructor accepts only `staging` and `production`, so it
  refuses the registered `admin`. Every kind other than `production` needs a
  non-blank namespace. The tests in `test/DeploymentEnvironment.test.ts`
  exercise this copy.

Shared pieces:

- `Wrappers`: `Option` and `Result`. `None` stands for JavaScript's
  `undefined`, and `Failure` stands for a thrown `Error`.
- `Strings`: `Array.prototype.includes`, plus `String.prototype.split` with a
  one-character separator, and its inverse `Join`.
- `Deployment`: the record both classes build. Its namespace is
  `Option<string>`, so an absent namespace and a blank one are different
  values. The module also holds the two errors and their message texts, and
  the template-literal rendering of an absent value as `undefined`.
- `Registries`: compares the two registries.

Two points of the code that the model follows closely:

- **A label with no `/`.** The destructuring at
  `src/deployment_environment.ts:11` leaves the namespace `undefined`. The
  blank check at line 23 is `=== ''`, which `undefined` does not meet. So
  `fromLabel` of `staging` succeeds with no namespace, and `toString` then
  renders it as `staging/undefined`. `DeploymentEnvironmentA.FromLabel`
  models this, and Findings below records the consequence.
- **How labels are split.** `split('/')` cuts at every `/`, and the
  destructuring keeps only the first two parts. So `staging/a/b` has
  namespace `a`, not `a/b`.

`test/DeploymentEnvironment.test.ts` imports `../src/Deploymentenvironment`.
That path matches only `src/DeploymentEnvironment.ts`, and only on a
case-insensitive file system. So its expectations are modelled against
copy B.

## Model

| member | source | states |
|---|---|---|
| Strings.Includes | src/environment.ts:8-10 | the enum-values scan finds a string exactly when it is among the values |
| Strings.Split | src/deployment_environment.ts:11 | splitting at every separator gives at least one part, no part holds the separator, joining the parts gives the label back, and a label without separator is its own single part |
| Strings.SplitAtFirst | src/deployment_environment.ts:11 | a label `a/b` with no separator in `a` splits into `a` followed by the parts of `b` |
| Strings.SplitJoin | src/deployment_environment.ts:11 | splitting undoes joining when no part holds the separator |
| Deployment.Error.Message | src/deployment_environment.ts:17-24 | the message is `invalid environment: '` or `invalid namespace: '`, by kind of error, then the offending string, then a closing `'`; `MessageInjective` shows the text determines the error |
| Deployment.MessageInjective | src/deployment_environment.ts:16-25 | the thrown message determines the error: its kind and the offending string |
| EnvironmentA.IsValid | src/environment.ts:1-10 | a name is valid exactly when it is `admin`, `redirects`, `staging` or `production` |
| EnvironmentA.HasMultipleNamespaces | src/environment.ts:12-16 | a multi-namespace kind is always a valid kind |
| EnvironmentA.MultipleNamespacesExactlyStaging | src/environment.ts:1-16 | multi-namespace holds exactly for `staging`; the valid single-namespace kinds are exactly `admin`, `redirects`, `production` |
| EnvironmentA.BlankAndUnknownInvalid | src/environment.ts:8-10 | the blank name and `unknown` are not kinds |
| EnvironmentA.ValidExactlyMemberValues | src/environment.ts:1-10 | the valid names are exactly the values of the enum's members |
| DeploymentEnvironmentA.Construct | src/deployment_environment.ts:15-29 | an unregistered kind fails with the environment error naming it, whatever the namespace; `staging` with a blank namespace fails with the namespace error; otherwise it succeeds with that kind, keeping the namespace (even absent) only for `staging` |
| DeploymentEnvironmentA.New | src/deployment_environment.ts:15-29 | with a string namespace: success exactly for a registered kind other than blank-namespaced `staging`; the result has a namespace exactly when it is `staging`, and it is the non-blank one given |
| DeploymentEnvironmentA.ConstructReachesEveryValid | src/deployment_environment.ts:15-29 | every value meeting the class invariant is built by the constructor from its own fields |
| DeploymentEnvironmentA.FromLabel | src/deployment_environment.ts:10-13 | a label without `/` is the bare kind with an absent namespace; every parsed value meets the class invariant, and its namespace never holds `/` |
| DeploymentEnvironmentA.FromLabelKindAndNamespace | src/deployment_environment.ts:10-13 | `kind/ns` is constructed from `kind` and `ns` |
| DeploymentEnvironmentA.FromLabelDropsTail | src/deployment_environment.ts:10-13 | in `kind/ns/rest` the rest is ignored |
| DeploymentEnvironmentA.FromLabelEmptyNamespace | src/deployment_environment.ts:10-28 | `staging/` fails with the namespace error for `''` |
| DeploymentEnvironmentA.FromLabelDropsProductionNamespace | src/deployment_environment.ts:10-28 | `production/x` gives `production` with no namespace |
| DeploymentEnvironmentA.FromLabelNestedNamespace | src/deployment_environment.ts:10-28 | `staging/a/b` gives `staging` with namespace `a` |
| DeploymentEnvironmentA.ToString | src/deployment_environment.ts:31-37 | the string is the kind alone for a single-namespace kind, and `kind/namespace` (an absent namespace rendered `undefined`) for the multi-namespace kind; `ToStringSplitsIntoKindAndNamespace`, `RoundTrip`, `ToStringInjective` and `BareStagingBreaksRoundTrip` give its relation to `fromLabel` |
| DeploymentEnvironmentA.ToStringSplitsIntoKindAndNamespace | src/deployment_environment.ts:31-37 | the string of a staging value with a `/`-free namespace splits at `/` into exactly the kind and the namespace |
| DeploymentEnvironmentA.RoundTrip | src/deployment_environment.ts:10-37 | parsing the string of any valid value whose staging namespace is present and free of `/` gives the value back |
| DeploymentEnvironmentA.NewRoundTrip | src/deployment_environment.ts:10-37 | for every successful `new DeploymentEnvironment(k, ns)`, `fromLabel(toString(e))` is `e`, provided a `staging` namespace has no `/`; single-namespace kinds drop the namespace, so any one will do there |
| DeploymentEnvironmentA.ToStringInjective | src/deployment_environment.ts:31-37 | two valid values with present staging namespaces and equal strings are equal |
| DeploymentEnvironmentA.FromLabelCanonical | src/deployment_environment.ts:10-37 | re-parsing the string of a parsed label gives the same result, unless the result was namespace-less `staging` |
| DeploymentEnvironmentA.BareStagingBreaksRoundTrip | src/deployment_environment.ts:10-37 | the label `staging` parses to namespace-less `staging`, whose string `staging/undefined` it shares with namespace `undefined` and which parses to that other value |
| DeploymentEnvironmentA.FromLabelStrict | src/deployment_environment.ts:10-28 | corrected parser: same as `fromLabel` on labels with `/`; without `/` the namespace is blank; every staging result has a non-blank namespace |
| DeploymentEnvironmentA.StrictRejectsBareStaging | src/deployment_environment.ts:10-28 | the corrected parser rejects `staging` with the namespace error |
| DeploymentEnvironmentA.StrictRoundTrip | src/deployment_environment.ts:10-37 | with the corrected parser, re-parsing the string of any parsed label gives the same result |
| EnvironmentB.IsValid | src/Environment.ts:1-9 | a name is valid exactly when it is `admin`, `staging` or `production` |
| EnvironmentB.HasMultipleNamespaces | src/Environment.ts:11-15 | a multi-namespace kind is always a valid kind |
| EnvironmentB.MultipleNamespacesExactlyStaging | src/Environment.ts:1-15 | multi-namespace holds exactly for `staging`; the valid single-namespace kinds are `admin` and `production` |
| EnvironmentB.BlankUnknownAndRedirectsInvalid | src/Environment.ts:1-9 | the blank name, `unknown` and `redirects` are not kinds in this registry |
| EnvironmentB.ValidExactlyMemberValues | src/Environment.ts:1-9 | the valid names are exactly the values of the enum's members |
| Registries.RegistriesDifferOnlyOnRedirects | src/Environment.ts:1-15 | the two registries agree on every name but `redirects`, and on which kind is multi-namespace |
| DeploymentEnvironmentB.New | src/DeploymentEnvironment.ts:7-24 | environment error exactly for kinds other than `staging`/`production` (so `admin` and `''` too); namespace error exactly for blank-namespaced `staging`; success otherwise, with a registered kind, and a namespace present exactly for `staging` and equal to the one given |
| DeploymentEnvironmentB.NewReachesEveryValid | src/DeploymentEnvironment.ts:7-24 | every value meeting the class invariant is built by the constructor |
| DeploymentEnvironmentB.NewExamples | test/DeploymentEnvironment.test.ts:3-31 | the outcomes the tests expect, plus `admin` refused |
| DeploymentEnvironmentB.NewErrorMessages | test/DeploymentEnvironment.test.ts:15-31 | the thrown texts the tests expect: `invalid environment: ''`, `invalid environment: 'unknown'`, `invalid namespace: ''` |
| DeploymentEnvironmentB.ToStringExamples | test/DeploymentEnvironment.test.ts:33-41 | `production` and `staging/magenta` as the tests expect |
| DeploymentEnvironmentB.ToString | src/DeploymentEnvironment.ts:26-32 | the string is `production` alone for `production`, and `kind/namespace` (an absent namespace rendered `undefined`) for every other kind; `ToStringExamples`, `ToStringInjective` and `LabelOfValueParsesBack` give its meaning |
| DeploymentEnvironmentB.ToStringInjective | src/DeploymentEnvironment.ts:26-32 | two constructible values with equal strings are equal |
| DeploymentEnvironmentB.AgreesWithAOnStagingAndProduction | src/DeploymentEnvironment.ts:7-24 | for `staging` and `production` both classes' constructors give the same result |
| DeploymentEnvironmentB.DiffersFromAOnOtherKinds | src/DeploymentEnvironment.ts:8-13 | `admin` and `redirects` are built by copy A and refused by copy B |
| DeploymentEnvironmentB.LabelOfValueParsesBack | src/DeploymentEnvironment.ts:26-32 | both classes render a copy-B value alike, and copy A's label parser reads it back when its namespace has no `/` |

## Findings

| source | as written | input that shows it | evidently intended | confidence | as-written member | corrected member |
|---|---|---|---|---|---|---|
| src/deployment_environment.ts:11-27 | a label with no `/` passes an `undefined` namespace, which the `=== ''` check lets through, so `staging` is built without a namespace and renders as `staging/undefined` | label `staging` | a staging label without a namespace is rejected with `invalid namespace: ''`, so every staging value has a namespace and the round trip holds | high (not executed) | DeploymentEnvironmentA.BareStagingBreaksRoundTrip | DeploymentEnvironmentA.StrictRoundTrip |

## Left out

- `src/main.ts`: it reads action inputs and reports failure. The event dispatch, the configured-minus-reserved staging computation and the deployment creation exist there only as comments, so there is no code to model.
- `test/main.test.ts`: it starts a Node process on the built bundle. That is process I/O only.
- Calls to the hosting platform's API (creating deployments, listing labels and pull requests), concurrent fan-out and JSON output: all external or asynchronous, and not implemented in the core files.
- Error objects are modelled by their kind and offending string. `Error.Message()` gives the text; stack traces and the `Error` class are not modelled.
