/** What the container promises, proved of the state machine in
    `ContainerSpec`. */
module ContainerProperties {
  import opened Definitions
  import opened ContainerSpec

  // ---------------------------------------------------------------------
  // Construction

  /** The constructor registers exactly three entries: the container under its
      class and interface names, the proxy factory under its class name. */
  lemma InitRegistersSelf(definitions: map<Name, Definition>, queries: seq<Name>)
    ensures Init(definitions, queries).resolvedEntries.Keys
            == {ContainerClass, ContainerInterface, ProxyFactoryClass}
    ensures |Init(definitions, queries).resolvedEntries| == 3
    ensures Init(definitions, queries).resolvedEntries[ContainerClass] == ContainerSelf
    ensures Init(definitions, queries).resolvedEntries[ContainerInterface] == ContainerSelf
    ensures Init(definitions, queries).resolvedEntries[ProxyFactoryClass] == ProxyFactoryObject
    ensures Init(definitions, queries).fetchedDefinitions == map[]
  {
  }

  /** On a new container, `get` of each self-entry answers from the singleton
      cache: the container or the proxy factory, with no lookup and no change. */
  lemma GetSelfEntries(definitions: map<Name, Definition>, queries: seq<Name>, resolve: Resolver)
    ensures var s := Init(definitions, queries);
            Get(s, resolve, ContainerClass) == Step(s, Ok(ContainerSelf))
    ensures var s := Init(definitions, queries);
            Get(s, resolve, ContainerInterface) == Step(s, Ok(ContainerSelf))
    ensures var s := Init(definitions, queries);
            Get(s, resolve, ProxyFactoryClass) == Step(s, Ok(ProxyFactoryObject))
  {
    InitRegistersSelf(definitions, queries);
  }

  // ---------------------------------------------------------------------
  // The definition cache

  /** While the cache is coherent, the memoized lookup answers exactly what
      the source would, and the cache stays coherent. */
  lemma FetchAgreesWithSource(s: State, name: Name)
    requires Coherent(s)
    ensures FetchDefinition(s, name).out == Lookup(s.definitions, name)
    ensures Coherent(FetchDefinition(s, name).next)
  {
  }

  /** Two lookups in a row ask the source at most once: the second is answered
      from the cache, changes nothing and agrees with the first. */
  lemma RepeatedFetchAsksOnce(s: State, name: Name)
    ensures var first := FetchDefinition(s, name);
            FetchDefinition(first.next, name) == Step(first.next, first.out)
    ensures Asked(FetchDefinition(FetchDefinition(s, name).next, name).next, name)
            <= Asked(s, name) + 1
    ensures name in s.fetchedDefinitions ==>
            Asked(FetchDefinition(s, name).next, name) == Asked(s, name)
  {
  }

  /** One call that is not a `setDefinition` keeps every memoized lookup, and
      asks the source at most for the one name it adds to the cache. */
  lemma ApplyAsksOnlyOnMiss(s: State, resolve: Resolver, op: Op, name: Name)
    requires !op.SetOp?
    ensures var t := Apply(s, resolve, op);
            && s.fetchedDefinitions.Keys <= t.fetchedDefinitions.Keys
            && (name in s.fetchedDefinitions ==> Asked(t, name) == Asked(s, name))
            && (name !in t.fetchedDefinitions ==> Asked(t, name) == Asked(s, name))
            && Asked(t, name) <= Asked(s, name) + 1
  {
  }

  /** Memoization: over any run of calls without `setDefinition`, the source
      is asked for a name at most once, and not at all if the name was already
      cached. */
  lemma {:induction false} SourceAskedAtMostOnce(s: State, resolve: Resolver, ops: seq<Op>, name: Name)
    requires NoSetDefinition(ops)
    ensures Asked(Run(s, resolve, ops), name)
            <= Asked(s, name) + (if name in s.fetchedDefinitions then 0 else 1)
    decreases |ops|
  {
    if ops != [] {
      var t := Apply(s, resolve, ops[0]);
      ApplyAsksOnlyOnMiss(s, resolve, ops[0], name);
      assert NoSetDefinition(ops[1..]) by {
        forall i | 0 <= i < |ops[1..]| ensures !ops[1..][i].SetOp? {
          assert ops[1..][i] == ops[i + 1];
        }
      }
      SourceAskedAtMostOnce(t, resolve, ops[1..], name);
    }
  }

  /** Every call keeps the definition cache coherent with the source; for
      `setDefinition` this is what clearing the whole cache buys. */
  lemma ApplyKeepsCoherent(s: State, resolve: Resolver, op: Op)
    requires Coherent(s)
    ensures Coherent(Apply(s, resolve, op))
  {
  }

  lemma {:induction false} RunKeepsCoherent(s: State, resolve: Resolver, ops: seq<Op>)
    requires Coherent(s)
    ensures Coherent(Run(s, resolve, ops))
    decreases |ops|
  {
    if ops != [] {
      ApplyKeepsCoherent(s, resolve, ops[0]);
      RunKeepsCoherent(Apply(s, resolve, ops[0]), resolve, ops[1..]);
    }
  }

  /** Over any run of `get`, `make`, `has` and `setDefinition` calls from
      construction, a lookup answers what the source holds at that moment. */
  lemma ConstructedContainerStaysCoherent(definitions: map<Name, Definition>, resolve: Resolver, ops: seq<Op>, name: Name)
    ensures FetchDefinition(Run(Init(definitions, []), resolve, ops), name).out
            == Lookup(Run(Init(definitions, []), resolve, ops).definitions, name)
  {
    RunKeepsCoherent(Init(definitions, []), resolve, ops);
    FetchAgreesWithSource(Run(Init(definitions, []), resolve, ops), name);
  }

  // ---------------------------------------------------------------------
  // make

  /** `make` fails with NotFound exactly when the source has no definition;
      otherwise it returns the resolver's outcome for that definition and the
      given parameters. */
  lemma MakeResolvesDefinition(s: State, resolve: Resolver, name: Name, parameters: Parameters)
    requires Coherent(s)
    ensures Make(s, resolve, name, parameters).out
            == if name in s.definitions then Propagate(resolve(s.definitions[name], parameters))
               else Err(NotFound(name))
    ensures Make(s, resolve, name, parameters).out == Err(NotFound(name)) <==> name !in s.definitions
  {
  }

  /** `make` never looks at the singleton cache: whatever it holds, the
      outcome and the definition cache afterwards are the same. */
  lemma MakeIgnoresResolvedEntries(s: State, entries: map<Name, Value>, resolve: Resolver, name: Name, parameters: Parameters)
    ensures Make(s.(resolvedEntries := entries), resolve, name, parameters).out
            == Make(s, resolve, name, parameters).out
    ensures Make(s.(resolvedEntries := entries), resolve, name, parameters).next
            == Make(s, resolve, name, parameters).next.(resolvedEntries := entries)
  {
  }

  // ---------------------------------------------------------------------
  // get

  /** A name `get` has returned stays resolved to the same value as long as no
      `setDefinition` of that name intervenes, whatever else is called. */
  lemma {:induction false} ResolvedEntryPersists(s: State, resolve: Resolver, ops: seq<Op>, name: Name)
    requires name in s.resolvedEntries
    requires KeepsDefinition(ops, name)
    ensures name in Run(s, resolve, ops).resolvedEntries
    ensures Run(s, resolve, ops).resolvedEntries[name] == s.resolvedEntries[name]
    decreases |ops|
  {
    if ops != [] {
      var t := Apply(s, resolve, ops[0]);
      assert !(ops[0].SetOp? && ops[0].name == name);
      assert name in t.resolvedEntries && t.resolvedEntries[name] == s.resolvedEntries[name] by {
        match ops[0] {
          case GetOp(n) =>
            if n != name {
              assert name in Get(s, resolve, n).next.resolvedEntries - {n};
            }
          case MakeOp(_, _) =>
          case HasOp(_) =>
          case SetOp(n, _) =>
            assert name in s.resolvedEntries - {n};
        }
      }
      assert KeepsDefinition(ops[1..], name) by {
        forall i | 0 <= i < |ops[1..]| ensures !(ops[1..][i].SetOp? && ops[1..][i].name == name) {
          assert ops[1..][i] == ops[i + 1];
        }
      }
      ResolvedEntryPersists(t, resolve, ops[1..], name);
    }
  }

  /** Singleton identity: once `get(name)` has returned a value, every later
      `get(name)` returns that same value, until `setDefinition(name, ...)`. */
  lemma GetIsStable(s: State, resolve: Resolver, name: Name, ops: seq<Op>)
    requires Get(s, resolve, name).out.Ok?
    requires KeepsDefinition(ops, name)
    ensures var first := Get(s, resolve, name);
            var later := Run(first.next, resolve, ops);
            Get(later, resolve, name) == Step(later, first.out)
  {
    var first := Get(s, resolve, name);
    ResolvedEntryPersists(first.next, resolve, ops, name);
  }

  /** A `get` that fails leaves no entry behind: the next `get` of the same
      name calls `make` again. */
  lemma FailedGetStoresNothing(s: State, resolve: Resolver, name: Name)
    requires Get(s, resolve, name).out.Err?
    ensures name !in Get(s, resolve, name).next.resolvedEntries
    ensures Get(s, resolve, name).next == Make(s, resolve, name, map[]).next
  {
  }

  /** On a miss `get` returns what `make(name)` with no parameters returns,
      and leaves the definition cache and the source's query log as `make`
      does. */
  lemma GetMissIsMake(s: State, resolve: Resolver, name: Name)
    requires name !in s.resolvedEntries
    ensures Get(s, resolve, name).out == Make(s, resolve, name, map[]).out
    ensures Get(s, resolve, name).next.fetchedDefinitions
            == Make(s, resolve, name, map[]).next.fetchedDefinitions
    ensures Get(s, resolve, name).next.queries == Make(s, resolve, name, map[]).next.queries
  {
  }

  // ---------------------------------------------------------------------
  // has

  /** With a coherent cache, the decision table of `has` for a string name,
      against the source's table: true when resolved,
      otherwise false without a definition, the instantiable flag for an
      object definition, and true for any other definition. */
  lemma HasDecides(s: State, name: Name)
    requires Coherent(s)
    ensures Has(s, Str(name)).out
            == Ok(name in s.resolvedEntries
                  || (name in s.definitions && Available(s.definitions[name])))
    ensures Has(s, Str(name)).out == Ok(false)
            <==> name !in s.resolvedEntries
                 && (name !in s.definitions
                     || (s.definitions[name].ObjectDefinition? && !s.definitions[name].instantiable))
  {
  }

  /** The promise of `has`: when it answers true, a following `get` may still
      fail, but not with the container's own NotFound for that name. */
  lemma HasTrueRulesOutNotFound(s: State, resolve: Resolver, name: Name)
    requires Has(s, Str(name)).out == Ok(true)
    ensures Get(Has(s, Str(name)).next, resolve, name).out != Err(NotFound(name))
  {
  }

  /** In any state, stale cache included: when `has` answers false because the
      memoized lookup finds no definition, a following `get` fails with
      NotFound. */
  lemma HasFalseMeansNotFound(s: State, resolve: Resolver, name: Name)
    requires FetchDefinition(s, name).out.None?
    requires Has(s, Str(name)).out == Ok(false)
    ensures Get(Has(s, Str(name)).next, resolve, name).out == Err(NotFound(name))
  {
  }

  // ---------------------------------------------------------------------
  // setDefinition

  /** `setDefinition` evicts only the given name: every other resolved entry
      survives with its value. */
  lemma SetDefinitionEvictsOnlyName(s: State, name: Name, definition: Definition, other: Name)
    requires other != name && other in s.resolvedEntries
    ensures other in SetDefinition(s, name, definition).resolvedEntries
    ensures SetDefinition(s, name, definition).resolvedEntries[other] == s.resolvedEntries[other]
  {
  }

  /** Clearing the whole definition cache makes it coherent again, whatever it
      held before; the next lookup of the name yields the new definition. */
  lemma SetDefinitionRestoresCoherence(s: State, name: Name, definition: Definition)
    ensures Coherent(SetDefinition(s, name, definition))
    ensures FetchDefinition(SetDefinition(s, name, definition), name).out == Some(definition)
  {
  }

  /** Invalidation: after `setDefinition(name, d)` the next `get(name)`
      resolves `d`, never a value cached under the previous definition. */
  lemma GetAfterSetDefinitionUsesIt(s: State, resolve: Resolver, name: Name, definition: Definition)
    ensures Get(SetDefinition(s, name, definition), resolve, name).out
            == Propagate(resolve(definition, map[]))
  {
  }
}
