/**
 * The dimensional unit registry that processdata.py builds at import time
 * (a pint `UnitRegistry`), reduced to what the inventory code asks of it:
 * every known unit name belongs to one dimension family and has a positive
 * factor to that family's base unit. The registry is a value handed to the
 * operations that need it, never an ambient global.
 */
module Units {

  /** A conversion factor to the base unit of a family; never zero. */
  type Factor = x: real | x > 0.0 witness 1.0

  /** The dimension families a kitchen unit can belong to. */
  datatype Family = Volume | Mass | Length | Count

  datatype UnitDef = UnitDef(family: Family, factor: Factor)

  /** Unit name (as typed by the user, e.g. "cup", "gram") to its definition. */
  type Registry = map<string, UnitDef>

  /** What `registry(quantity).to(target)` gives back: a magnitude, or one of
      the two exceptions pint raises. */
  datatype Quantity = Magnitude(value: real) | UndefinedUnit | DimensionalityError

  /** Both units are known and belong to the same family. */
  predicate Convertible(reg: Registry, a: string, b: string)
  {
    a in reg && b in reg && reg[a].family == reg[b].family
  }

  /** The amount `x` of unit `from`, expressed in unit `to`. */
  function To(reg: Registry, x: real, from: string, to: string): (q: Quantity)
    ensures q.UndefinedUnit? <==> from !in reg || to !in reg
    ensures q.DimensionalityError? <==> from in reg && to in reg && !Convertible(reg, from, to)
    ensures q.Magnitude? <==> Convertible(reg, from, to)
    // the physical quantity, measured in the family's base unit, is preserved
    ensures q.Magnitude? ==> q.value * reg[to].factor == x * reg[from].factor
  {
    if from !in reg || to !in reg then UndefinedUnit
    else if reg[from].family != reg[to].family then DimensionalityError
    else Magnitude(x * reg[from].factor / reg[to].factor)
  }

  /** Converting a unit to itself leaves the amount alone. */
  lemma ToSelf(reg: Registry, x: real, u: string)
    requires u in reg
    ensures To(reg, x, u, u) == Magnitude(x)
  {
  }

  /** Converting there and back gives the original amount. */
  lemma ToRoundTrip(reg: Registry, x: real, a: string, b: string)
    requires Convertible(reg, a, b)
    ensures To(reg, x, a, b).Magnitude?
    ensures To(reg, To(reg, x, a, b).value, b, a) == Magnitude(x)
  {
  }

  /** Converting in two steps is the same as converting directly. */
  lemma ToCompose(reg: Registry, x: real, a: string, b: string, c: string)
    requires Convertible(reg, a, b) && Convertible(reg, b, c)
    ensures Convertible(reg, a, c)
    ensures To(reg, To(reg, x, a, b).value, b, c) == To(reg, x, a, c)
  {
  }
}
