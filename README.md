# factory.hpp in Dafny

A model of `sro5h::Factory<Type, Identifier>`, a generic object factory. The
factory owns a table from identifiers to creators. `registerType<C>(id)` binds
`id` to a creator for the concrete class `C`, replacing any earlier binding.
`create(id)` asks the bound creator for a new, default-constructed `C` and
hands it to the caller as an owning pointer to `Type`. It returns a null
pointer when `id` is unbound.

Layout:

- `cpp_types.dfy`, module `CppTypes`: C++ class types (name, direct bases,
  abstractness, presence of a no-argument constructor) and `IsBaseOf`, the
  trait `std::is_base_of` that registration checks.
- `factory.dfy`, module `ObjectFactory`:
  - `Instance`, the allocated product. It records its most-derived class.
  - `Creator`, whose only variant `ConcreteCreator` stands for
    `ConcreteCreator<Type, C>`.
  - The class `Factory`, with the table `creators` that `RegisterType`
    overwrites in place and `Create` only reads.
  - The value-level specification: `Register` (one registration), `Produces`
    (the class `create` would allocate), `RegisterAll` (a sequence of
    registrations) and their lemmas.
- `scenarios.dfy`, module `FactoryScenarios`: client methods that derive the
  promised caller-visible behaviour from the contracts of `RegisterType` and
  `Create` alone.

The compile-time conditions on `registerType<C>` become the precondition
`Registrable(base, C)`. The `static_assert` demands that `C` is-a `Type`.
`make_unique<C>()` demands that `C` is concrete and constructible with no
arguments. A C++ program that breaks either condition is not built, so no
call of `RegisterType` may break it.

The header's `registerType` takes only the identifier, and
`ConcreteCreator::create` constructs with no arguments. The model follows the
header: no constructor arguments are captured at registration.
`example.cpp:32` passes an extra argument `3` for a class that has no
no-argument constructor; that call does not match the header, and the model
does not invent argument storage for it.

## Model

| member | source | states |
|---|---|---|
| `CppTypes.IsBaseOfTransitive` | Factory.hpp:27-28 | the is-a relation checked at registration composes along inheritance chains: a base of a base of `C` is a base of `C` |
| `ObjectFactory.Creator.Create` | Factory.hpp:8-19 | every call of a creator allocates a new object (`fresh`) whose class is exactly the concrete class the creator is bound to |
| `ObjectFactory.Register` | Factory.hpp:29 | after registration the table holds `id`, binds it to a creator for `C`, gains no key other than `id`, and keeps every other identifier's creator |
| `ObjectFactory.RegisterThenProduces` | Factory.hpp:29-34 | after `registerType<C>(id)`, `create(id)` allocates a `C`, and `create` of every other identifier allocates what it did before |
| `ObjectFactory.ReregisterReplaces` | Factory.hpp:29 | registering `id` twice leaves exactly the table of the second registration alone: the earlier creator is discarded |
| `ObjectFactory.RegistrationsCommute` | Factory.hpp:29 | registrations under different identifiers give the same table in either order |
| `ObjectFactory.RegisterAllProduces` | Factory.hpp:26-38 | after any sequence of registrations, `create(id)` allocates the class of the latest registration of `id`; if `id` was never registered it allocates what it did before (null stays null) |
| `ObjectFactory.RegisterAllRegistrable` | Factory.hpp:26-30 | a table whose creators all build classes derived from `Type` keeps that property through any sequence of registrations that pass the compile-time checks |
| `ObjectFactory.Factory.constructor` | Factory.hpp:22-23 | a new factory's table is empty and satisfies the invariant that every creator builds a registrable class |
| `ObjectFactory.Factory.RegisterType` | Factory.hpp:26-30 | requires the static condition on `C`; the new table is the old one with `id` rebound to a creator for `C`; the invariant is kept |
| `ObjectFactory.Factory.Create` | Factory.hpp:32-38 | returns null exactly when `id` is unbound; otherwise a fresh object of the class bound to `id`, which is-a `Type`; the factory's state is unchanged |
| `FactoryScenarios.ReregisteredIdentifierCreatesNewType` | Factory.hpp:29-34 | after registering `first` and then `second` under one identifier, `create` returns a non-null object of class `second` |
| `FactoryScenarios.IndependentIdentifiers` | Factory.hpp:29-34 | two identifiers registered in either order each create an object of their own class |
| `FactoryScenarios.SuccessiveCreatesAreDistinct` | Factory.hpp:18 | two `create` calls on one registered identifier return two different non-null objects of the bound class |
| `FactoryScenarios.MissDoesNotInsert` | Factory.hpp:33-37 | `create` on an unbound identifier returns null, and a second attempt also returns null because the lookup does not insert the identifier |

## Left out

- `example.cpp`: a demonstration whose only effect is console output. Its two-argument `registerType` call does not match the header.
- Constructor arguments captured at registration: the header has none, so the model has none.
- `unique_ptr` ownership, destruction of replaced creators and of products, and virtual dispatch: a product is a fresh `Instance` object carrying its class. The single creator variant stands for the virtual `create`.
- Hashing and the bucket layout of `std::unordered_map`: the table is a Dafny `map`.
- Exceptions thrown by a concrete class's constructor: the model's constructors do not fail.
- Concurrency: the source provides no synchronisation and claims none.
- Template instantiation is modelled only through the `Registrable` precondition. Access control and ambiguity of base classes are not modelled; `std::is_base_of` ignores both.
