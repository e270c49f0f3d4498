/** The error taxonomy of the topology model: the exception classes that the
    link rules, the registry and the factories raise, and the class tree that
    groups the four connection errors under TopologyConnectionError. */
module Exceptions {

  /** Every exception the core raises, one constructor per concrete class. */
  datatype Error =
    | ConnectionBetweenSameSatelliteForbidden
    | InterSatelliteConnection
    | GroundStationConnection
    | UserTerminalConnection
    | SimulationContext
    | TopologyObjectNotFound

  /** The classes an `except` clause can name: Python's Exception, the
      grouping class TopologyConnectionError, or one concrete error class. */
  datatype ErrorClass =
    | AnyException
    | TopologyConnectionError
    | Exactly(error: Error)

  /** An operation that either completes with a value or raises an error. */
  datatype Result<T> = Ok(value: T) | Err(error: Error)

  /** The direct base class of each concrete error class, as declared. */
  function ErrorBaseOf(e: Error): ErrorClass
  {
    match e
    case ConnectionBetweenSameSatelliteForbidden => TopologyConnectionError
    case InterSatelliteConnection => TopologyConnectionError
    case GroundStationConnection => TopologyConnectionError
    case UserTerminalConnection => TopologyConnectionError
    case SimulationContext => AnyException
    case TopologyObjectNotFound => AnyException
  }

  /** The method resolution order of a raised error, most specific first;
      TopologyConnectionError itself derives from Exception. */
  function ErrorMro(e: Error): (mro: seq<ErrorClass>)
  {
    if ErrorBaseOf(e) == TopologyConnectionError
    then [Exactly(e), TopologyConnectionError, AnyException]
    else [Exactly(e), AnyException]
  }

  /** `isinstance(e, c)`: whether an `except c` clause catches `e`. */
  predicate Catches(c: ErrorClass, e: Error)
  {
    c in ErrorMro(e)
  }

  /** The four errors a rejected `connect` can raise. */
  predicate IsConnectionError(e: Error)
  {
    e.ConnectionBetweenSameSatelliteForbidden? || e.InterSatelliteConnection?
    || e.GroundStationConnection? || e.UserTerminalConnection?
  }

  /** TopologyConnectionError catches exactly the four connection errors. */
  lemma CaughtAsTopologyConnectionError(e: Error)
    ensures Catches(TopologyConnectionError, e) <==> IsConnectionError(e)
  {
  }

  /** Every error is an Exception. */
  lemma CaughtAsException(e: Error)
    ensures Catches(AnyException, e)
  {
  }

  /** The concrete error classes are siblings or cousins: none derives from
      another, so an `except` naming one of them catches only that one. */
  lemma ConcreteClassesAreDisjoint(e: Error, f: Error)
    ensures Catches(Exactly(f), e) <==> e == f
  {
  }

  /** The registry errors are not TopologyConnectionErrors. */
  lemma RegistryErrorsAreNotConnectionErrors()
    ensures !Catches(TopologyConnectionError, SimulationContext)
    ensures !Catches(TopologyConnectionError, TopologyObjectNotFound)
  {
  }
}
