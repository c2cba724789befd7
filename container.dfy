/** `Hyperf\Di\Container`: the object whose two tables `get`, `make`, `has`
    and the protected `setDefinition` update in place. Each state-changing
    method is proved to move the object from `old(State())` to the state the
    matching function of `ContainerSpec` gives, and to return that function's
    outcome; what those functions promise is proved in `ContainerProperties`.
    The accessors and `ResolveDefinition` change nothing and state what they
    return. */
module Di {
  import opened Definitions
  import opened Sources
  import Spec = ContainerSpec

  class Container {
    /** The singleton cache of `get`; a key mapped to `Null` is present. */
    var resolvedEntries: map<Name, Value>
    /** Memoized source lookups; `None` records "looked up, not found". */
    var fetchedDefinitions: map<Name, Option<Definition>>
    const definitionSource: DefinitionSource
    const definitionResolver: Resolver
    const proxyFactory: Value

    /** The abstract state the functions of `ContainerSpec` act on. */
    ghost function State(): Spec.State
      reads this, definitionSource
    {
      Spec.State(resolvedEntries, fetchedDefinitions,
                 definitionSource.definitions, definitionSource.queries)
    }

    constructor (source: DefinitionSource, resolver: Resolver)
      ensures definitionSource == source && definitionResolver == resolver
      ensures proxyFactory == ProxyFactoryObject
      ensures State() == Spec.Init(source.definitions, source.queries)
    {
      definitionSource := source;
      definitionResolver := resolver;
      proxyFactory := ProxyFactoryObject;
      resolvedEntries := map[Spec.ContainerClass := ContainerSelf,
                             Spec.ContainerInterface := ContainerSelf,
                             Spec.ProxyFactoryClass := ProxyFactoryObject];
      fetchedDefinitions := map[];
    }

    /** Builds a fresh value for `name` every time; never touches the
        singleton cache. */
    method Make(name: Name, parameters: Parameters) returns (r: Result<Value, Error>)
      modifies this`fetchedDefinitions, definitionSource`queries
      ensures var step := Spec.Make(old(State()), definitionResolver, name, parameters);
              State() == step.next && r == step.out
    {
      var definition := GetDefinition(name);
      if definition.None? {
        return Err(NotFound(name));
      }
      r := ResolveDefinition(definition.value, parameters);
    }

    method Get(name: Name) returns (r: Result<Value, Error>)
      modifies this`resolvedEntries, this`fetchedDefinitions, definitionSource`queries
      ensures var step := Spec.Get(old(State()), definitionResolver, name);
              State() == step.next && r == step.out
    {
      if name in resolvedEntries {
        return Ok(resolvedEntries[name]);
      }
      r := Make(name, map[]);
      if r.Ok? {
        resolvedEntries := resolvedEntries[name := r.value];
      }
    }

    method Has(id: Identifier) returns (r: Result<bool, Error>)
      modifies this`fetchedDefinitions, definitionSource`queries
      ensures var step := Spec.Has(old(State()), id);
              State() == step.next && r == step.out
    {
      if id.NonString? {
        return Err(InvalidArgument);
      }
      var name := id.name;
      if name in resolvedEntries {
        return Ok(true);
      }
      var definition := GetDefinition(name);
      if definition.None? {
        return Ok(false);
      }
      return Ok(Available(definition.value));
    }

    method GetProxyFactory() returns (f: Value)
      ensures f == proxyFactory
    {
      f := proxyFactory;
    }

    method GetDefinitionSource() returns (source: DefinitionSource)
      ensures source == definitionSource
    {
      source := definitionSource;
    }

    method SetDefinition(name: Name, definition: Definition)
      modifies this`resolvedEntries, this`fetchedDefinitions, definitionSource`definitions
      ensures State() == Spec.SetDefinition(old(State()), name, definition)
    {
      if name in resolvedEntries {
        resolvedEntries := resolvedEntries - {name};
      }
      fetchedDefinitions := map[];
      definitionSource.AddDefinition(name, definition);
    }

    method GetDefinition(name: Name) returns (d: Option<Definition>)
      modifies this`fetchedDefinitions, definitionSource`queries
      ensures var step := Spec.FetchDefinition(old(State()), name);
              State() == step.next && d == step.out
    {
      if name !in fetchedDefinitions {
        var fetched := definitionSource.GetDefinition(name);
        fetchedDefinitions := fetchedDefinitions[name := fetched];
      }
      d := fetchedDefinitions[name];
    }

    method ResolveDefinition(definition: Definition, parameters: Parameters) returns (r: Result<Value, Error>)
      ensures r.Ok? <==> definitionResolver(definition, parameters).Ok?
      ensures r.Ok? ==> r.value == definitionResolver(definition, parameters).value
      ensures r.Err? ==> r.error == Raised(definitionResolver(definition, parameters).error)
    {
      r := Propagate(definitionResolver(definition, parameters));
    }
  }
}
