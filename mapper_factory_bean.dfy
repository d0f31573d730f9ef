/** MapperFactoryBean: the factory bean behind every scanned mapper interface. Its
    two fields are changed by setters; its initialisation check registers the
    interface in the MyBatis Configuration shared by every session of the factory,
    and the object it hands out is the session's proxy for that interface.

    What lies behind the Configuration (parsing the interface's annotations and XML
    when it is added) is an input: the failure addMapper throws, if any. The check
    of the parent class SqlSessionDaoSupport is an input too. */
module FactoryBean {
  import opened Common

  /** A mapper interface (a Class<T>), by name. */
  datatype MapperType = MapperType(name: string)

  /** The proxy a session returns for a mapper interface. */
  datatype MapperProxy = MapperProxy(mapperType: MapperType)

  /** MapperRegistry.getMapper over a set of known interfaces: a proxy for a known
      interface, a BindingException for an unknown one or for null. */
  function MapperOf(mappers: set<MapperType>, mapperInterface: Option<MapperType>): (r: Result<MapperProxy, Error>)
    ensures r.Success? <==> mapperInterface.Some? && mapperInterface.value in mappers
    ensures r.Success? ==> r.value.mapperType == mapperInterface.value
    ensures r.Failure? ==> r.error.Binding?
  {
    if mapperInterface.Some? && mapperInterface.value in mappers then Success(MapperProxy(mapperInterface.value))
    else Failure(Binding("Type is not known to the MapperRegistry."))
  }

  /** The shared MyBatis Configuration, reduced to the interfaces its mapper registry knows. */
  class Configuration {
    var mappers: set<MapperType>

    constructor ()
      ensures mappers == {}
    {
      mappers := {};
    }

    predicate HasMapper(m: MapperType)
      reads this
    {
      m in mappers
    }

    /** addMapper: registers the interface, or throws `failure` and keeps the
        registry as it was (MyBatis removes a half-loaded mapper again). */
    method AddMapper(m: MapperType, failure: Option<Error>) returns (r: Outcome<Error>)
      modifies this
      ensures failure.None? ==> r == Pass && mappers == old(mappers) + {m}
      ensures failure.Some? ==> r == Fail(failure.value) && mappers == old(mappers)
    {
      if failure.Some? {
        return Fail(failure.value);
      }
      mappers := mappers + {m};
      r := Pass;
    }
  }

  /** MyBatis's thread-local ErrorContext, reduced to how often it has been reset. */
  class ErrorContext {
    var resets: nat

    constructor ()
      ensures resets == 0
    {
      resets := 0;
    }

    method Reset()
      modifies this
      ensures resets == old(resets) + 1
    {
      resets := resets + 1;
    }
  }

  const MapperInterfaceRequired := "Property 'mapperInterface' is required"

  /** What checkDaoConfig does: its outcome, the mappers the configuration knows
      afterwards, and whether it reset the error context. */
  datatype Check = Check(outcome: Outcome<Error>, mappers: set<MapperType>, resetsErrorContext: bool)

  /** An add is attempted exactly when the parent check passed, the interface is set,
      addToConfig holds and the configuration does not know the interface yet. */
  predicate AddAttempted(superCheck: Outcome<Error>, mapperInterface: Option<MapperType>, addToConfig: bool, mappers: set<MapperType>) {
    superCheck.Pass? && mapperInterface.Some? && addToConfig && mapperInterface.value !in mappers
  }

  /** checkDaoConfig on a configuration that knows `mappers`, with the parent's check
      outcome and the failure addMapper would throw. */
  function Checked(
    superCheck: Outcome<Error>,
    mapperInterface: Option<MapperType>,
    addToConfig: bool,
    mappers: set<MapperType>,
    addFailure: Option<Error>): (c: Check)
    // the parent's failure propagates first, a missing interface is refused next
    ensures superCheck.Fail? ==> c == Check(superCheck, mappers, false)
    ensures superCheck.Pass? && mapperInterface.None? ==>
              c == Check(Fail(IllegalArgument(MapperInterfaceRequired)), mappers, false)
    // the configuration only ever gains the mapper interface, and only through an attempted add
    ensures c.mappers == if AddAttempted(superCheck, mapperInterface, addToConfig, mappers) && addFailure.None?
                         then mappers + {mapperInterface.value} else mappers
    // an exception from the add surfaces as an IllegalArgumentException caused by it;
    // a java.lang.Error escapes `catch (Exception e)` and propagates unwrapped
    ensures AddAttempted(superCheck, mapperInterface, addToConfig, mappers) && addFailure.Some? ==>
              c.outcome == Fail(if IsException(addFailure.value) then IllegalArgumentCausedBy(addFailure.value)
                                else addFailure.value)
    // the error context is reset after every attempt, whatever its outcome, and never otherwise
    ensures c.resetsErrorContext <==> AddAttempted(superCheck, mapperInterface, addToConfig, mappers)
    // a passing check leaves the interface set, and known whenever addToConfig holds
    ensures c.outcome.Pass? <==>
              superCheck.Pass? && mapperInterface.Some?
              && !(AddAttempted(superCheck, mapperInterface, addToConfig, mappers) && addFailure.Some?)
    ensures c.outcome.Pass? && addToConfig ==> mapperInterface.value in c.mappers
  {
    if superCheck.Fail? then Check(superCheck, mappers, false)
    else if mapperInterface.None? then Check(Fail(IllegalArgument(MapperInterfaceRequired)), mappers, false)
    else if addToConfig && mapperInterface.value !in mappers then
      if addFailure.Some? && IsException(addFailure.value) then
        Check(Fail(IllegalArgumentCausedBy(addFailure.value)), mappers, true)
      else if addFailure.Some? then Check(Fail(addFailure.value), mappers, true)
      else Check(Pass, mappers + {mapperInterface.value}, true)
    else Check(Pass, mappers, false)
  }

  /** checkDaoConfig is idempotent: after a passing check, a second one passes without
      attempting an add, whatever addMapper would do, and changes nothing. */
  lemma CheckIdempotent(
    superCheck: Outcome<Error>,
    mapperInterface: Option<MapperType>,
    addToConfig: bool,
    mappers: set<MapperType>,
    addFailure: Option<Error>,
    secondFailure: Option<Error>)
    requires Checked(superCheck, mapperInterface, addToConfig, mappers, addFailure).outcome.Pass?
    ensures var first := Checked(superCheck, mapperInterface, addToConfig, mappers, addFailure);
            Checked(superCheck, mapperInterface, addToConfig, first.mappers, secondFailure) == Check(Pass, first.mappers, false)
  {
  }

  /** After a passing check with addToConfig, the factory bean's object is the proxy of
      exactly its interface. */
  lemma CheckedThenObject(
    superCheck: Outcome<Error>,
    mapperInterface: Option<MapperType>,
    mappers: set<MapperType>,
    addFailure: Option<Error>)
    requires Checked(superCheck, mapperInterface, true, mappers, addFailure).outcome.Pass?
    ensures var c := Checked(superCheck, mapperInterface, true, mappers, addFailure);
            MapperOf(c.mappers, mapperInterface) == Success(MapperProxy(mapperInterface.value))
  {
  }

  /** MapperFactoryBean<T>: a mapper interface, the addToConfig flag, and the
      Configuration its session (the SqlSessionTemplate of SqlSessionDaoSupport) reaches. */
  class MapperFactoryBean {
    var mapperInterface: Option<MapperType>
    var addToConfig: bool
    const configuration: Configuration

    /** The no-argument constructor: no interface yet, addToConfig true. */
    constructor (configuration: Configuration)
      ensures mapperInterface.None? && addToConfig && this.configuration == configuration
    {
      mapperInterface := None;
      addToConfig := true;
      this.configuration := configuration;
    }

    /** The constructor the scanned bean definitions call with the interface (which Java lets be null). */
    constructor WithInterface(configuration: Configuration, mapperInterface: Option<MapperType>)
      ensures this.mapperInterface == mapperInterface && addToConfig && this.configuration == configuration
    {
      this.mapperInterface := mapperInterface;
      addToConfig := true;
      this.configuration := configuration;
    }

    function GetMapperInterface(): (r: Option<MapperType>)
      reads this
    {
      mapperInterface
    }

    function IsAddToConfig(): (r: bool)
      reads this
    {
      addToConfig
    }

    /** setMapperInterface: the getter returns the new interface; the flag is kept. */
    method SetMapperInterface(m: Option<MapperType>)
      modifies this
      ensures GetMapperInterface() == m && IsAddToConfig() == old(IsAddToConfig())
    {
      mapperInterface := m;
    }

    /** setAddToConfig: the getter returns the new flag; the interface is kept. */
    method SetAddToConfig(flag: bool)
      modifies this
      ensures IsAddToConfig() == flag && GetMapperInterface() == old(GetMapperInterface())
    {
      addToConfig := flag;
    }

    /** checkDaoConfig, with the parent's check outcome and addMapper's failure as inputs. */
    method CheckDaoConfig(superCheck: Outcome<Error>, addFailure: Option<Error>, errorContext: ErrorContext)
      returns (r: Outcome<Error>)
      modifies configuration, errorContext
      ensures var c := Checked(superCheck, mapperInterface, addToConfig, old(configuration.mappers), addFailure);
              && r == c.outcome
              && configuration.mappers == c.mappers
              && errorContext.resets == old(errorContext.resets) + (if c.resetsErrorContext then 1 else 0)
    {
      if superCheck.Fail? {
        return superCheck;
      }
      if mapperInterface.None? {
        return Fail(IllegalArgument(MapperInterfaceRequired));
      }
      r := Pass;
      if addToConfig && !configuration.HasMapper(mapperInterface.value) {
        // try
        var added := configuration.AddMapper(mapperInterface.value, addFailure);
        // catch (Exception e); a java.lang.Error passes through the catch
        if added.Fail? && IsException(added.error) {
          r := Fail(IllegalArgumentCausedBy(added.error));
        } else if added.Fail? {
          r := Fail(added.error);
        }
        // finally
        errorContext.Reset();
      }
    }

    /** getObject: the session's proxy for the interface, or the registry's BindingException. */
    function GetObject(): (r: Result<MapperProxy, Error>)
      reads this, configuration
      ensures r.Success? <==> mapperInterface.Some? && configuration.HasMapper(mapperInterface.value)
      ensures r.Success? ==> r.value == MapperProxy(mapperInterface.value)
    {
      MapperOf(configuration.mappers, mapperInterface)
    }

    /** getObjectType: the mapper interface. */
    function GetObjectType(): (r: Option<MapperType>)
      reads this
    {
      mapperInterface
    }

    /** isSingleton: always true. */
    function IsSingleton(): (r: bool)
      reads this
      ensures r
    {
      true
    }

    /** The type the bean declares is the type of every object it hands out. */
    lemma ObjectOfObjectType()
      ensures GetObject().Success? ==> GetObjectType() == Some(GetObject().value.mapperType)
    {
    }
  }
}
