/**
  The generic object factory: a table from identifiers to creators, where a
  creator allocates a fresh object of one concrete class derived from the
  factory's base class.
*/
module ObjectFactory {
  import opened CppTypes

  datatype Option<T> = None | Some(value: T)

  /** What `registerType<concrete>` demands of its type argument before the
      program is built: `concrete` is-a `base` (the static assertion), and
      `make_unique<concrete>()` compiles, so `concrete` is not abstract and
      has a constructor taking no arguments. */
  predicate Registrable(base: ClassType, concrete: ClassType)
  {
    IsBaseOf(base, concrete) && !concrete.isAbstract && concrete.hasDefaultConstructor
  }

  /** An object allocated by a creator and handed to the caller as an owning
      pointer to the base class; `dynamicType` is its most-derived class. */
  class Instance {
    const dynamicType: ClassType

    constructor (dynamicType: ClassType)
      ensures this.dynamicType == dynamicType
    {
      this.dynamicType := dynamicType;
    }
  }

  /** The creator interface; its one implementation, `ConcreteCreator`, is
      bound to the concrete class it default-constructs. */
  datatype Creator = ConcreteCreator(concrete: ClassType) {

    /** Allocates a new, default-constructed object of the bound class. */
    method Create() returns (p: Instance)
      ensures fresh(p)
      ensures p.dynamicType == concrete
    {
      p := new Instance(concrete);
    }
  }

  /** The creator table, as an abstract value. */
  type Registry<Identifier> = map<Identifier, Creator>

  /** Every creator in `m` builds a class that may be registered with `base`. */
  ghost predicate AllRegistrable<Identifier>(m: Registry<Identifier>, base: ClassType)
  {
    forall id :: id in m ==> Registrable(base, m[id].concrete)
  }

  /** The table after `registerType<concrete>(id)`. */
  function Register<Identifier>(m: Registry<Identifier>, id: Identifier, concrete: ClassType): (r: Registry<Identifier>)
    ensures r.Keys == m.Keys + {id}
    ensures r[id] == ConcreteCreator(concrete)
    ensures forall other :: other in m && other != id ==> r[other] == m[other]
  {
    m[id := ConcreteCreator(concrete)]
  }

  /** The class that `create(id)` allocates from table `m`, or `None` when it
      returns a null pointer. */
  function Produces<Identifier>(m: Registry<Identifier>, id: Identifier): Option<ClassType>
  {
    if id in m then Some(m[id].concrete) else None
  }

  /** After registering `concrete` under `id`, creating `id` allocates
      `concrete` and creating any other identifier allocates what it did
      before. */
  lemma RegisterThenProduces<Identifier>(m: Registry<Identifier>, id: Identifier, concrete: ClassType, other: Identifier)
    ensures Produces(Register(m, id, concrete), id) == Some(concrete)
    ensures other != id ==> Produces(Register(m, id, concrete), other) == Produces(m, other)
  {
  }

  /** Re-registering an identifier discards its previous creator entirely. */
  lemma ReregisterReplaces<Identifier>(m: Registry<Identifier>, id: Identifier, first: ClassType, second: ClassType)
    ensures Register(Register(m, id, first), id, second) == Register(m, id, second)
  {
  }

  /** Registrations under different identifiers do not interfere, so their
      order does not matter. */
  lemma RegistrationsCommute<Identifier>(m: Registry<Identifier>, id1: Identifier, c1: ClassType, id2: Identifier, c2: ClassType)
    requires id1 != id2
    ensures Register(Register(m, id1, c1), id2, c2) == Register(Register(m, id2, c2), id1, c1)
  {
  }

  /** One call `registerType<concrete>(id)`. */
  datatype Registration<Identifier> = Registration(id: Identifier, concrete: ClassType)

  /** The table after the registrations `regs`, performed in order, on `m`. */
  function RegisterAll<Identifier>(m: Registry<Identifier>, regs: seq<Registration<Identifier>>): Registry<Identifier>
    decreases |regs|
  {
    if regs == [] then m
    else
      var last := regs[|regs| - 1];
      Register(RegisterAll(m, regs[..|regs| - 1]), last.id, last.concrete)
  }

  /** The class bound by the latest registration of `id` in `regs`, if any. */
  function LastRegistered<Identifier(==)>(regs: seq<Registration<Identifier>>, id: Identifier): Option<ClassType>
    decreases |regs|
  {
    if regs == [] then None
    else if regs[|regs| - 1].id == id then Some(regs[|regs| - 1].concrete)
    else LastRegistered(regs[..|regs| - 1], id)
  }

  /** After any sequence of registrations, creating `id` allocates the class
      of the latest registration of `id`, whatever was registered under other
      identifiers and in whatever order; an identifier never registered
      produces what it did before. */
  lemma {:induction false} RegisterAllProduces<Identifier>(m: Registry<Identifier>, regs: seq<Registration<Identifier>>, id: Identifier)
    ensures LastRegistered(regs, id).Some? ==> Produces(RegisterAll(m, regs), id) == LastRegistered(regs, id)
    ensures LastRegistered(regs, id).None? ==> Produces(RegisterAll(m, regs), id) == Produces(m, id)
    decreases |regs|
  {
    if regs != [] {
      RegisterAllProduces(m, regs[..|regs| - 1], id);
    }
  }

  /** Registration keeps every creator in the table building a class derived
      from the base class. */
  lemma {:induction false} RegisterAllRegistrable<Identifier>(m: Registry<Identifier>, regs: seq<Registration<Identifier>>, base: ClassType)
    requires AllRegistrable(m, base)
    requires forall i :: 0 <= i < |regs| ==> Registrable(base, regs[i].concrete)
    ensures AllRegistrable(RegisterAll(m, regs), base)
    decreases |regs|
  {
    if regs != [] {
      RegisterAllRegistrable(m, regs[..|regs| - 1], base);
    }
  }

  /** `Factory<Type, Identifier>`: `base` is `Type`, `creators` is the table
      the factory owns. */
  class Factory<Identifier(==)> {
    const base: ClassType
    var creators: Registry<Identifier>

    /** Every creator in the table builds a registrable class. */
    ghost predicate Valid()
      reads this
    {
      AllRegistrable(creators, base)
    }

    /** A new factory has an empty table. */
    constructor (base: ClassType)
      ensures Valid()
      ensures this.base == base && creators == map[]
    {
      this.base := base;
      creators := map[];
    }

    /** `registerType<concrete>(id)`: binds `id` to a creator for `concrete`,
        replacing any creator already bound to `id`. */
    method RegisterType(concrete: ClassType, id: Identifier)
      requires Valid()
      requires Registrable(base, concrete)
      modifies this
      ensures Valid()
      ensures creators == Register(old(creators), id, concrete)
    {
      creators := creators[id := ConcreteCreator(concrete)];
    }

    /** `create(id)`: null when `id` is unbound; otherwise a fresh object of
        the class bound to `id`, which is-a `base`. The table is only read. */
    method Create(id: Identifier) returns (p: Instance?)
      requires Valid()
      ensures unchanged(this)
      ensures p == null <==> Produces(creators, id) == None
      ensures p != null ==> fresh(p) && Produces(creators, id) == Some(p.dynamicType)
      ensures p != null ==> IsBaseOf(base, p.dynamicType)
    {
      if id in creators {
        p := creators[id].Create();
      } else {
        p := null;
      }
    }
  }
}
