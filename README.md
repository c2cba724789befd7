# Hyperf DI container, modelled in Dafny

This project models the dependency-injection container of Hyperf,
`Hyperf\Di\Container` (`src/di/src/Container.php`). Given an entry name, the
container hands out a value. It keeps two in-memory tables:

- `resolvedEntries` is the singleton cache read and filled by `get`. A name
  stored with the value `null` counts as present.
- `fetchedDefinitions` memoizes lookups in the definition source. A name stored
  with `null` records "looked up, not found".

The public operations are the following:

- `make` builds a value from the name's definition on every call.
- `get` reads through the singleton cache.
- `has` answers whether an entry can be produced.

The protected `setDefinition`, callable only from a subclass, evicts the
name's cached value, clears the whole definition cache, and registers the new
definition with the source.

The constructor pre-registers the container under its class and interface
names and the proxy factory under its class name.

Files:

- `definitions.dfy` (module `Definitions`) holds the data model. It has values,
  definitions, the argument of `has`, errors, and the resolver's type.
- `container_spec.dfy` (module `ContainerSpec`) is the container as a state
  machine. Each operation is a function from the state before a call to the
  state after it and the call's outcome. The state is the two tables, the
  source's table and the log of names the source was asked for. The module
  also defines runs of several calls (`Op`, `Run`).
- `container_properties.dfy` (module `ContainerProperties`) holds the lemmas
  that state what the container promises of those functions.
- `sources.dfy` (module `Sources`) is the definition source as a class over a
  map. It has `GetDefinition` and `AddDefinition`, plus a ghost log of queries.
- `container.dfy` (module `Di`) is the `Container` class. Its map fields are
  updated in place. Each state-changing method is proved to take the object
  from `old(State())` to the state the matching `ContainerSpec` function gives,
  and to return that function's outcome. The accessors and
  `ResolveDefinition` change nothing and state what they return.

Abstractions:

- Object identity is stood in for by equality of values. `Value` names the
  container itself, the proxy factory, `null`, and any other built value.
- The resolver (`ResolverDispatcher`) is a pure function
  `(Definition, Parameters) -> Result<Value, Failure>`. It is held in a
  constant field. It therefore cannot read or change the container's tables.
  The real resolver calls back into `get` for dependencies, so this is an
  abstraction.
- A failure from the resolver reaches the caller as `Raised(failure)`. The tag
  only keeps it apart from the container's own `NotFound` in the model; the
  failure itself is passed on unchanged.
- The definition source is a `map` from names to definitions.
- The container's methods do not require the definition cache to agree with
  the source. `getDefinitionSource` hands the source out, and an
  `addDefinition` made on it directly leaves the cache stale, as in the code.
  The lemmas that need agreement assume the predicate `Coherent`. That
  predicate holds after construction and is kept by every operation
  (`RunKeepsCoherent`), `setDefinition` included.

## Model

| member | source | states |
|---|---|---|
| `ContainerSpec.Init` | src/di/src/Container.php:59-70 | a new container's definition cache is empty, so coherent with any source |
| `ContainerProperties.InitRegistersSelf` | src/di/src/Container.php:65-69 | after construction the singleton cache holds exactly three names; the container's class and interface names map to the container and the proxy factory's class name maps to the proxy factory; the definition cache is empty |
| `ContainerProperties.GetSelfEntries` | src/di/src/Container.php:65-69 | on a new container, `get` of the container's class or interface name returns the container, and of the proxy factory's class name the proxy factory, changing nothing |
| `Di.Container.constructor` | src/di/src/Container.php:59-70 | stores the source and resolver, creates the proxy factory, and leaves the object in the initial state |
| `ContainerSpec.FetchDefinition` | src/di/src/Container.php:163-171 | the answer is memoized under the name; earlier memoized answers are kept; a hit changes nothing; a miss asks the source once for that name and answers what the source holds for it, in any state; neither the singleton cache nor the source changes |
| `Di.Container.GetDefinition` | src/di/src/Container.php:163-171 | the object's new state and result are those of `FetchDefinition` |
| `ContainerProperties.FetchAgreesWithSource` | src/di/src/Container.php:163-171 | with a coherent cache, the memoized lookup returns exactly what the source holds, and the cache stays coherent |
| `ContainerProperties.RepeatedFetchAsksOnce` | src/di/src/Container.php:165-170 | a second lookup of the same name is answered from the cache, changes nothing, and returns the first answer; two lookups ask the source at most once; a cached name is not asked again |
| `ContainerProperties.ApplyAsksOnlyOnMiss` | src/di/src/Container.php:166-167 | a call other than `setDefinition` keeps every memoized name and asks the source at most once more for a name, only for one it then caches |
| `ContainerProperties.SourceAskedAtMostOnce` | src/di/src/Container.php:163-171 | over any run of `get`/`make`/`has` calls, the source is asked for a name at most once, and never for a name already cached |
| `ContainerProperties.ApplyKeepsCoherent` | src/di/src/Container.php:152-171 | every operation keeps the definition cache in agreement with the source |
| `ContainerProperties.RunKeepsCoherent` | src/di/src/Container.php:152-171 | any run of operations keeps the definition cache in agreement with the source |
| `ContainerProperties.ConstructedContainerStaysCoherent` | src/di/src/Container.php:158-167 | over any run of `get`/`make`/`has`/`setDefinition` calls from construction, a memoized lookup answers what the source holds at that moment |
| `ContainerSpec.Make` | src/di/src/Container.php:85-94 | in every state, stale definition cache included: `make` fails with NotFound exactly when the memoized lookup yields "not found", and otherwise returns the resolver's outcome for the looked-up definition and the given parameters; it leaves the singleton cache as it was, and its only state change is the definition lookup's |
| `Di.Container.Make` | src/di/src/Container.php:85-94 | the object's new state and result are those of `ContainerSpec.Make` |
| `ContainerProperties.MakeResolvesDefinition` | src/di/src/Container.php:85-94 | with a coherent cache, `make` fails with NotFound exactly when the source has no definition, and otherwise returns the resolver's outcome for that definition and the given parameters |
| `ContainerProperties.MakeIgnoresResolvedEntries` | src/di/src/Container.php:85-94 | whatever the singleton cache holds, `make` returns the same outcome and leaves the same definition cache |
| `Di.Container.ResolveDefinition` | src/di/src/Container.php:176-179 | returns the resolver's value, or its failure unchanged, for the definition and parameters |
| `ContainerSpec.Get` | src/di/src/Container.php:102-110 | a hit returns the stored value, `Null` included, and changes no state (no lookup, no source query); a successful `get` leaves its value stored under the name; a failed one stores nothing and happens only on a miss; no other entry of the singleton cache changes |
| `Di.Container.Get` | src/di/src/Container.php:102-110 | the object's new state and result are those of `ContainerSpec.Get` |
| `ContainerProperties.ResolvedEntryPersists` | src/di/src/Container.php:105-108 | a resolved name keeps its value through any run of calls without a `setDefinition` of that name |
| `ContainerProperties.GetIsStable` | src/di/src/Container.php:102-110 | once `get(name)` has returned a value, a later `get(name)` returns the same value and changes nothing, whatever other calls come between, until `setDefinition(name, ...)` |
| `ContainerProperties.FailedGetStoresNothing` | src/di/src/Container.php:108 | when `make` fails inside `get`, the name stays unresolved and the state is the one `make` left |
| `ContainerProperties.GetMissIsMake` | src/di/src/Container.php:108-109 | on a miss `get` returns what `make(name)` without parameters returns, and leaves the same definition cache and source query log |
| `ContainerSpec.Has` | src/di/src/Container.php:120-140 | in every state, stale definition cache included: `has` fails, with InvalidArgument, exactly for a non-string name; it answers true for a resolved name; otherwise it answers whether the memoized lookup found a definition that is not a non-instantiable object definition; it never changes the singleton cache or the source; for a non-string or an already-resolved name it changes nothing at all; otherwise its only state change is the definition lookup's |
| `Di.Container.Has` | src/di/src/Container.php:120-140 | the object's new state and result are those of `ContainerSpec.Has` |
| `ContainerProperties.HasDecides` | src/di/src/Container.php:126-139 | with a coherent cache, for a string name, `has` is true exactly when the name is resolved, or the source has a definition that is not a non-instantiable object definition; both directions are stated |
| `ContainerProperties.HasTrueRulesOutNotFound` | src/di/src/Container.php:112-116 | in any state, stale definition cache included, when `has` answers true a following `get` does not fail with the container's own NotFound for that name |
| `ContainerProperties.HasFalseMeansNotFound` | src/di/src/Container.php:130-132 | in every state, stale cache included: when `has` answers false because the memoized lookup finds no definition, a following `get` fails with NotFound |
| `Di.Container.GetProxyFactory` | src/di/src/Container.php:142-145 | returns the proxy factory created by the constructor |
| `Di.Container.GetDefinitionSource` | src/di/src/Container.php:147-150 | returns the source given to the constructor |
| `ContainerSpec.SetDefinition` | src/di/src/Container.php:152-161 | the singleton cache loses exactly the name and nothing else; the definition cache is empty; the source's table gains or replaces only the name's definition; the source is not queried |
| `Di.Container.SetDefinition` | src/di/src/Container.php:152-161 | the object's new state is that of `ContainerSpec.SetDefinition` |
| `ContainerProperties.SetDefinitionEvictsOnlyName` | src/di/src/Container.php:154-157 | every other resolved name keeps its value |
| `ContainerProperties.SetDefinitionRestoresCoherence` | src/di/src/Container.php:158-160 | clearing the whole cache makes it coherent whatever it held before, and the next lookup of the name yields the new definition |
| `ContainerProperties.GetAfterSetDefinitionUsesIt` | src/di/src/Container.php:152-161 | after `setDefinition(name, d)` the next `get(name)` returns the resolver's outcome for `d`, never a value cached under the old definition |
| `Sources.DefinitionSource.GetDefinition` | src/di/src/Container.php:167 | returns `Lookup` of its table, the registered definition or "not found", and logs the query |
| `Sources.DefinitionSource.AddDefinition` | src/di/src/Container.php:160 | registers or replaces the definition for the name |

## Left out

- `ResolverDispatcher` is not part of this model. That covers constructor and
  factory slot resolution, parameter overrides, cycle detection and lazy proxies.
  The resolver is a pure function, so the model has no recursive `get` calls
  from inside a resolution.
- `ProxyFactory` is not part of this model. It appears only as the value
  `ProxyFactoryObject`.
- How a real definition source discovers definitions (reflection, annotations)
  is not modelled. The source is a plain map.
- `Di.Container.Make`: two `make` calls with the same definition and parameters
  return equal values. The model cannot show that they are distinct instances,
  because the resolver is a pure function.
- `get` and `make` take string names only. Calling them with a non-string
  raises PHP's own `TypeError` (under `strict_types`) or array-key coercion,
  which is not modelled. The non-string case is modelled for `has`, which
  checks it itself.
- Exception messages (`sprintf`, `get_class`, `gettype`) are not modelled. Each
  exception is only an `Error` variant.
- `src/nats/src/Driver/NatsDriver.php` is not part of this model. It is a pooled
  network client built on coroutine channels with a timeout, so it is I/O and
  concurrency code.
- `Op` and `Run` cover only calls on the container. An `addDefinition` made
  directly on the source obtained from `getDefinitionSource` is not one of
  them, so `RunKeepsCoherent` and `ConstructedContainerStaysCoherent` say
  nothing about runs that include one. The single-call contracts of
  `ContainerSpec` hold in such a stale state as well.
- Concurrent use of one container is not modelled. Every call runs to
  completion before the next one starts.
