/** The definition source the container consults, reduced to its interface:
    a table of definitions behind `getDefinition` and `addDefinition`. How a
    real source discovers definitions (reflection, annotations, configuration)
    is not part of this model. */
module Sources {
  import opened Definitions

  class DefinitionSource {
    var definitions: map<Name, Definition>
    /** Every name `GetDefinition` has been asked for, oldest first. */
    ghost var queries: seq<Name>

    constructor (definitions: map<Name, Definition>)
      ensures this.definitions == definitions && queries == []
    {
      this.definitions := definitions;
      queries := [];
    }

    method GetDefinition(name: Name) returns (d: Option<Definition>)
      modifies this`queries
      ensures d == Lookup(definitions, name)
      ensures queries == old(queries) + [name]
    {
      d := Lookup(definitions, name);
      queries := queries + [name];
    }

    method AddDefinition(name: Name, definition: Definition)
      modifies this`definitions
      ensures definitions == old(definitions)[name := definition]
    {
      definitions := definitions[name := definition];
    }
  }
}
