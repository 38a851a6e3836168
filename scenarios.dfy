/**
 * Worked examples of the inventory ledger on one small kitchen: a registry
 * with two volume and two mass units, a density row for flour, and a user
 * who keeps flour in grams, milk as a plain count and salt in ounces.
 */
module Scenarios {
  import opened Units
  import opened Model
  import opened ProcessData
  import opened Server

  const Kitchen: Registry := map[
    "cup" := UnitDef(Volume, 16.0),
    "tablespoon" := UnitDef(Volume, 1.0),
    "gram" := UnitDef(Mass, 1.0),
    "ounce" := UnitDef(Mass, 28.0)
  ]

  /** 120 grams of flour fill one cup. */
  const Densities: map<string, Density> := map["flour" := Density(120.0, 1.0, "cup")]

  const Cook: UserId := 1

  const Pantry: Table := map[
    (Cook, "flour") := Row(500.0, "gram"),
    (Cook, "milk") := Row(4.0, NONE_UNIT),
    (Cook, "salt") := Row(10.0, "ounce")
  ]

  /** Two cups of flour at 120 grams a cup take 240 grams from 500. */
  lemma FlourByDensity()
    ensures UpdateAmount(Kitchen, Densities, Pantry, Cook, "flour", "cup", 2.0)
         == Outcome(Pantry[(Cook, "flour") := Row(260.0, "gram")], Ok)
  {
  }

  /** A count in the stored unit is subtracted as it is. */
  lemma MilkByCount()
    ensures UpdateAmount(Kitchen, Densities, Pantry, Cook, "milk", NONE_UNIT, 1.0)
         == Outcome(Pantry[(Cook, "milk") := Row(3.0, NONE_UNIT)], Ok)
  {
  }

  /** Cups of salt cannot be weighed without a density row: the conversion
      gives `None`, the subtraction raises, and the ounces stay as they were. */
  lemma SaltUnresolvable()
    ensures ConvertUnits(Kitchen, Densities, "salt", "cup", 3.0, "ounce") == Unresolvable
    ensures UpdateAmount(Kitchen, Densities, Pantry, Cook, "salt", "cup", 3.0)
         == Outcome(Pantry, Failed(NoneSubtracted))
  {
  }

  /** Flour by the cup, salt by the cup, milk with no unit. */
  const Batch: seq<Item> := [Item("flour", 2.0, "cup"), Item("salt", 3.0, "cup"), Item("milk", 1.0, "")]

  /** A batch whose second line cannot be converted stops there: the first
      line has been taken, the third is never reached. */
  lemma BatchStopsAtUnresolvable()
    ensures CookItems(Kitchen, Densities, Pantry, Cook, Batch)
         == Outcome(Pantry[(Cook, "flour") := Row(260.0, "gram")], Failed(NoneSubtracted))
  {
    assert Batch[..0] == [];
    CookItemsStep(Kitchen, Densities, Pantry, Cook, Batch, 0);
    FlourByDensity();
    var t1 := Pantry[(Cook, "flour") := Row(260.0, "gram")];
    assert UpdateAmount(Kitchen, Densities, t1, Cook, "salt", "cup", 3.0) == Outcome(t1, Failed(NoneSubtracted));
    CookItemsStep(Kitchen, Densities, Pantry, Cook, Batch, 1);
    CookItemsStops(Kitchen, Densities, Pantry, Cook, Batch, 2);
  }

  /** A payload with two top-level keys takes every consumed line twice. */
  lemma CookedPayloadTwoKeys()
    ensures CookRecipe(Kitchen, Densities, Pantry, Cook,
                       CookedIngredients([USED_INGS, "missed_ings"], [Item("milk", 1.0, "")]))
         == Outcome(Pantry[(Cook, "milk") := Row(2.0, NONE_UNIT)], Ok)
  {
    var milk := Item("milk", 1.0, "");
    CookRoundsRepeat(Kitchen, Densities, Pantry, Cook, 2, milk);
  }

  /** Restocking in another unit adds the numbers and keeps the new unit:
      two cups added to 500 grams of flour are stored as 502 cups. */
  lemma RestockInAnotherUnit()
    ensures MergeOne(Pantry, Cook, Item("flour", 2.0, "cup"))[(Cook, "flour")] == Row(502.0, "cup")
  {
  }

  /** A submitted form loses its hidden template row and pairs the rest;
      a name repeated in one submission is inserted once and then added to. */
  lemma FormWithRepeatedName()
    ensures FormItems(["egg", "egg", ""], [6.0, 4.0, 0.0], ["", "", ""])
         == [Item("egg", 6.0, ""), Item("egg", 4.0, "")]
    ensures MergeAll(map[], Cook, [Item("egg", 6.0, ""), Item("egg", 4.0, "")])
         == map[(Cook, "egg") := Row(10.0, "")]
  {
  }
}
