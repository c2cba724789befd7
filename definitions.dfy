/** The data model of the Hyperf dependency-injection container: entry names,
    the values it hands out, the definitions it resolves them from, and the
    errors it reports. */
module Definitions {

  /** An entry name: a class name, an interface name or an alias. */
  type Name = string

  /** A value the container hands out. Object identity is stood in for by
      equality: two `get` calls return "the same object" when they return
      equal values. */
  datatype Value =
    | ContainerSelf           // the container itself (`$this`)
    | ProxyFactoryObject      // the proxy factory the container owns
    | Null                    // PHP `null`, a legitimate resolved value
    | Instance(id: nat)       // any other object or scalar a resolver builds

  /** The part of a definition the container itself inspects. Only
      `ObjectDefinition` is told apart (by `has`); the rest is the resolver's. */
  datatype Definition =
    | ValueDefinition(value: Value)
    | ObjectDefinition(className: Name, instantiable: bool)
    | FactoryDefinition(factory: Name)

  /** Per-call parameters that `make` forwards to the resolver. */
  type Parameters = map<string, Value>

  /** What the argument of `has` is at run time: a string, or anything else. */
  datatype Identifier = Str(name: Name) | NonString

  /** A failure raised while a definition is resolved (constructor or factory
      errors, non-instantiable classes, missing dependencies, ...). */
  datatype Failure = Failure(reason: string)

  datatype Error =
    | NotFound(name: Name)      // NotFoundException: no definition for the name
    | InvalidArgument           // InvalidArgumentException: `has` given a non-string
    | Raised(failure: Failure)  // whatever the resolver threw, passed on unwrapped

  datatype Option<T> = None | Some(value: T)

  datatype Result<T, E> = Ok(value: T) | Err(error: E)

  /** The resolver: from a definition and the call's parameters to a value or a
      failure. It is a pure function, so it cannot read or write the
      container's tables. */
  type Resolver = (Definition, Parameters) -> Result<Value, Failure>

  /** Passes a resolver failure on to the caller of `make` unchanged. */
  function Propagate(r: Result<Value, Failure>): (e: Result<Value, Error>)
    ensures e.Ok? <==> r.Ok?
    ensures r.Ok? ==> e.value == r.value
    ensures r.Err? ==> e.error == Raised(r.error)
  {
    match r
    case Ok(v) => Ok(v)
    case Err(f) => Err(Raised(f))
  }

  /** The definition source's `getDefinition`: the definition registered for
      `name`, or "not found". */
  function Lookup(definitions: map<Name, Definition>, name: Name): (d: Option<Definition>)
    ensures d.Some? <==> name in definitions
    ensures d.Some? ==> d.value == definitions[name]
  {
    if name in definitions then Some(definitions[name]) else None
  }

  /** The test `has` applies to a definition it found: an object definition
      answers with its instantiable flag, every other kind is available. */
  predicate Available(d: Definition) {
    if d.ObjectDefinition? then d.instantiable else true
  }
}
