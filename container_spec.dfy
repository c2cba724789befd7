/** The container's behaviour as a state machine over its two tables and its
    definition source. Each public operation of `Hyperf\Di\Container` is a
    function from the state before the call to the state after it and the
    call's outcome; the class in module `Di` is proved to follow these
    functions, and the lemmas in module `ContainerProperties` state what the
    container promises of them. */
module ContainerSpec {
  import opened Definitions

  /** Names the constructor registers the container under, and the proxy
      factory's class name. */
  const ContainerClass: Name := "Hyperf\\Di\\Container"
  const ContainerInterface: Name := "Psr\\Container\\ContainerInterface"
  const ProxyFactoryClass: Name := "Hyperf\\Di\\ProxyFactory"

  /** Everything a call can observe or change.
      `resolvedEntries` is the singleton cache of `get`; `fetchedDefinitions`
      memoizes source lookups, `None` meaning "looked up, not found";
      `definitions` is the source's table and `queries` the names the source
      has been asked for, oldest first. */
  datatype State = State(
    resolvedEntries: map<Name, Value>,
    fetchedDefinitions: map<Name, Option<Definition>>,
    definitions: map<Name, Definition>,
    queries: seq<Name>)

  /** The state after a call, and what the call returned. */
  datatype Step<T> = Step(next: State, out: T)

  /** Every memoized lookup agrees with the source. */
  ghost predicate Coherent(s: State) {
    forall name :: name in s.fetchedDefinitions ==>
      s.fetchedDefinitions[name] == Lookup(s.definitions, name)
  }

  /** How often the source has been asked for `name`. */
  function Asked(s: State, name: Name): (n: nat) {
    multiset(s.queries)[name]
  }

  function SelfEntries(): (entries: map<Name, Value>) {
    map[ContainerClass := ContainerSelf,
        ContainerInterface := ContainerSelf,
        ProxyFactoryClass := ProxyFactoryObject]
  }

  /** `__construct`: the three self-entries, an empty definition cache. */
  function Init(definitions: map<Name, Definition>, queries: seq<Name>): (s: State)
    ensures Coherent(s)
  {
    State(SelfEntries(), map[], definitions, queries)
  }

  /** Private `getDefinition`: asks the source only on a cache miss, and
      caches the answer, "not found" included. */
  function FetchDefinition(s: State, name: Name): (r: Step<Option<Definition>>)
    ensures name in r.next.fetchedDefinitions && r.next.fetchedDefinitions[name] == r.out
    ensures forall other :: other in s.fetchedDefinitions ==>
      other in r.next.fetchedDefinitions && r.next.fetchedDefinitions[other] == s.fetchedDefinitions[other]
    ensures r.next.fetchedDefinitions.Keys == s.fetchedDefinitions.Keys + {name}
    ensures r.next.resolvedEntries == s.resolvedEntries && r.next.definitions == s.definitions
    ensures name in s.fetchedDefinitions ==> r.next == s
    ensures name !in s.fetchedDefinitions ==> r.next.queries == s.queries + [name]
    ensures name !in s.fetchedDefinitions ==> r.out == Lookup(s.definitions, name)
  {
    if name in s.fetchedDefinitions then
      Step(s, s.fetchedDefinitions[name])
    else
      var d := Lookup(s.definitions, name);
      Step(s.(fetchedDefinitions := s.fetchedDefinitions[name := d],
              queries := s.queries + [name]), d)
  }

  /** `make`: look the definition up, fail with NotFound when there is none,
      otherwise hand it to the resolver. The singleton cache is neither read
      nor written. */
  function Make(s: State, resolve: Resolver, name: Name, parameters: Parameters): (r: Step<Result<Value, Error>>)
    ensures r.next.resolvedEntries == s.resolvedEntries
    ensures r.next == FetchDefinition(s, name).next
    ensures r.out == Err(NotFound(name)) <==> FetchDefinition(s, name).out.None?
    ensures FetchDefinition(s, name).out.Some? ==>
            r.out == Propagate(resolve(FetchDefinition(s, name).out.value, parameters))
  {
    var f := FetchDefinition(s, name);
    match f.out
    case None => Step(f.next, Err(NotFound(name)))
    case Some(d) => Step(f.next, Propagate(resolve(d, parameters)))
  }

  /** `get`: a hit returns the stored value, `Null` included, and changes
      nothing; a miss stores what `make(name)` returns, but only if it
      returns. */
  function Get(s: State, resolve: Resolver, name: Name): (r: Step<Result<Value, Error>>)
    ensures name in s.resolvedEntries ==> r == Step(s, Ok(s.resolvedEntries[name]))
    ensures r.out.Ok? ==> name in r.next.resolvedEntries && r.next.resolvedEntries[name] == r.out.value
    ensures r.out.Err? ==> r.next.resolvedEntries == s.resolvedEntries && name !in s.resolvedEntries
    ensures r.next.resolvedEntries - {name} == s.resolvedEntries - {name}
    ensures r.next.definitions == s.definitions
  {
    if name in s.resolvedEntries then
      Step(s, Ok(s.resolvedEntries[name]))
    else
      var m := Make(s, resolve, name, map[]);
      match m.out
      case Ok(v) => Step(m.next.(resolvedEntries := m.next.resolvedEntries[name := v]), m.out)
      case Err(_) => m
  }

  /** `has`: InvalidArgument for a non-string; true for a resolved entry;
      otherwise decided by the (memoized) definition. */
  function Has(s: State, id: Identifier): (r: Step<Result<bool, Error>>)
    ensures r.out.Err? <==> id.NonString?
    ensures r.out.Err? ==> r.out.error == InvalidArgument
    ensures r.next.resolvedEntries == s.resolvedEntries && r.next.definitions == s.definitions
    ensures (id.NonString? || id.name in s.resolvedEntries) ==> r.next == s
    ensures id.Str? && id.name !in s.resolvedEntries ==> r.next == FetchDefinition(s, id.name).next
    ensures id.Str? && id.name in s.resolvedEntries ==> r.out == Ok(true)
    ensures id.Str? && id.name !in s.resolvedEntries ==>
            r.out == Ok(FetchDefinition(s, id.name).out.Some? && Available(FetchDefinition(s, id.name).out.value))
  {
    match id
    case NonString => Step(s, Err(InvalidArgument))
    case Str(name) =>
      if name in s.resolvedEntries then
        Step(s, Ok(true))
      else
        var f := FetchDefinition(s, name);
        match f.out
        case None => Step(f.next, Ok(false))
        case Some(d) => Step(f.next, Ok(Available(d)))
  }

  /** `setDefinition`: evict the name's cached value, drop the whole
      definition cache, register the definition with the source. */
  function SetDefinition(s: State, name: Name, definition: Definition): (r: State)
    ensures name !in r.resolvedEntries
    ensures r.resolvedEntries == s.resolvedEntries - {name}
    ensures r.fetchedDefinitions == map[]
    ensures r.definitions == s.definitions[name := definition]
    ensures r.queries == s.queries
  {
    State(s.resolvedEntries - {name}, map[], s.definitions[name := definition], s.queries)
  }

  // ---------------------------------------------------------------------
  // Sequences of calls

  datatype Op =
    | GetOp(name: Name)
    | MakeOp(name: Name, parameters: Parameters)
    | HasOp(id: Identifier)
    | SetOp(name: Name, definition: Definition)

  function Apply(s: State, resolve: Resolver, op: Op): (t: State) {
    match op
    case GetOp(name) => Get(s, resolve, name).next
    case MakeOp(name, parameters) => Make(s, resolve, name, parameters).next
    case HasOp(id) => Has(s, id).next
    case SetOp(name, definition) => SetDefinition(s, name, definition)
  }

  function Run(s: State, resolve: Resolver, ops: seq<Op>): (t: State)
    decreases |ops|
  {
    if ops == [] then s else Run(Apply(s, resolve, ops[0]), resolve, ops[1..])
  }

  /** No call in `ops` is a `setDefinition` of `name`. */
  predicate KeepsDefinition(ops: seq<Op>, name: Name) {
    forall i :: 0 <= i < |ops| ==> !(ops[i].SetOp? && ops[i].name == name)
  }

  /** No call in `ops` is a `setDefinition` at all. */
  predicate NoSetDefinition(ops: seq<Op>) {
    forall i :: 0 <= i < |ops| ==> !ops[i].SetOp?
  }
}
