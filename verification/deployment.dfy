/** The value both `DeploymentEnvironment` classes build, and the two errors
    their constructors throw. */
module Deployment {
  import opened Wrappers

  /** An environment kind with an optional namespace. Both classes of the
      program have exactly these two fields; which combinations are reachable
      depends on the class that built the value. */
  datatype DeploymentEnvironment = DeploymentEnvironment(environment: string, namespace: Option<string>)

  /** The two ways construction fails, each carrying the offending string. */
  datatype Error = InvalidEnvironment(environment: string) | InvalidNamespace(namespace: string)
  {
    /** The text of the thrown `Error`: a fixed phrase naming the kind of
        error, then the offending string between single quotes at the end. */
    function Message(): (m: string)
      ensures "invalid " <= m && m[|m| - 1] == '\''
      ensures InvalidEnvironment? ==> "invalid environment: '" <= m
      ensures InvalidNamespace? ==> "invalid namespace: '" <= m
      ensures InvalidEnvironment? ==> |m| == 23 + |environment| && m[22..|m| - 1] == environment
      ensures InvalidNamespace? ==> |m| == 21 + |namespace| && m[20..|m| - 1] == namespace
    {
      match this
      case InvalidEnvironment(e) => "invalid environment: '" + e + "'"
      case InvalidNamespace(n) => "invalid namespace: '" + n + "'"
    }
  }

  /** How a template literal `${x}` renders an optional string: an absent value
      prints as the word `undefined`. */
  function Interpolate(x: Option<string>): string
  {
    match x
    case Some(s) => s
    case None => "undefined"
  }

  /** An error message determines the error: the kind of error and the
      offending string can both be read back from the text. */
  lemma MessageInjective(e1: Error, e2: Error)
    ensures e1.Message() == e2.Message() ==> e1 == e2
  {
    var m1, m2 := e1.Message(), e2.Message();
    if m1 == m2 {
      assert m1[8] == m2[8];
      match e1
      case InvalidEnvironment(x) =>
        assert m1[8] == 'e';
        var y := e2.environment;
        assert x == m1[22..|m1| - 1];
        assert y == m2[22..|m2| - 1];
      case InvalidNamespace(x) =>
        assert m1[8] == 'n';
        var y := e2.namespace;
        assert x == m1[20..|m1| - 1];
        assert y == m2[20..|m2| - 1];
    }
  }
}
