/**
  Clients of the factory, showing what callers can rely on from the
  contracts of `registerType` and `create` alone.
*/
module FactoryScenarios {
  import opened CppTypes
  import opened ObjectFactory

  /** Registering `first` and then `second` under the same identifier makes
      `create` produce `second`, never `first`. */
  method ReregisteredIdentifierCreatesNewType<Identifier(==)>(base: ClassType, id: Identifier, first: ClassType, second: ClassType)
    returns (p: Instance?)
    requires Registrable(base, first) && Registrable(base, second)
    ensures p != null && p.dynamicType == second
  {
    var f := new Factory<Identifier>(base);
    f.RegisterType(first, id);
    f.RegisterType(second, id);
    p := f.Create(id);
  }

  /** Two identifiers registered in either order each create their own class. */
  method IndependentIdentifiers<Identifier(==)>(base: ClassType, id1: Identifier, c1: ClassType, id2: Identifier, c2: ClassType, firstOneFirst: bool)
    returns (p1: Instance?, p2: Instance?)
    requires id1 != id2
    requires Registrable(base, c1) && Registrable(base, c2)
    ensures p1 != null && p1.dynamicType == c1
    ensures p2 != null && p2.dynamicType == c2
  {
    var f := new Factory<Identifier>(base);
    if firstOneFirst {
      f.RegisterType(c1, id1);
      f.RegisterType(c2, id2);
    } else {
      f.RegisterType(c2, id2);
      f.RegisterType(c1, id1);
    }
    p1 := f.Create(id1);
    p2 := f.Create(id2);
  }

  /** Two creations from one registered identifier give two distinct objects
      of the same class. */
  method SuccessiveCreatesAreDistinct<Identifier(==)>(f: Factory<Identifier>, id: Identifier)
    returns (p: Instance?, q: Instance?)
    requires f.Valid() && id in f.creators
    ensures p != null && q != null && p != q
    ensures p.dynamicType == q.dynamicType == f.creators[id].concrete
  {
    p := f.Create(id);
    q := f.Create(id);
  }

  /** A miss does not insert anything: asking again for an unregistered
      identifier still yields null, and the identifier stays unbound. */
  method MissDoesNotInsert<Identifier(==)>(f: Factory<Identifier>, id: Identifier)
    returns (p: Instance?, q: Instance?)
    requires f.Valid() && id !in f.creators
    ensures p == null && q == null
    ensures id !in f.creators
  {
    p := f.Create(id);
    q := f.Create(id);
  }
}
