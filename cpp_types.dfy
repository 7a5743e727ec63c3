/**
  The C++ class types a factory is instantiated with, and the trait
  `std::is_base_of` that `registerType` checks at compile time.
*/
module CppTypes {

  /** A class type: its name, its direct base classes, whether it declares a
      pure virtual member (is abstract), and whether it can be constructed
      with no arguments. */
  datatype ClassType = ClassType(
    name: string,
    bases: seq<ClassType>,
    isAbstract: bool,
    hasDefaultConstructor: bool)

  /** `std::is_base_of<base, derived>`: the two are the same class, or `base`
      is a direct or indirect base class of `derived`. */
  predicate IsBaseOf(base: ClassType, derived: ClassType)
    decreases derived
  {
    derived == base || exists b :: b in derived.bases && IsBaseOf(base, b)
  }

  /** Inheritance chains compose: a base of a base of `c` is a base of `c`. */
  lemma {:induction false} IsBaseOfTransitive(a: ClassType, b: ClassType, c: ClassType)
    requires IsBaseOf(a, b) && IsBaseOf(b, c)
    ensures IsBaseOf(a, c)
    decreases c
  {
    if c != b {
      var d :| d in c.bases && IsBaseOf(b, d);
      IsBaseOfTransitive(a, b, d);
    }
  }
}
