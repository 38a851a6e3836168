/**
 * processdata.py: converting a consumed amount into the unit an ingredient
 * is stored in, decrementing the stored amount, applying a cooked recipe
 * to the inventory, and preparing stored ingredients for display.
 */
module ProcessData {
  import opened Units
  import opened Model

  /** The unit the density table expresses masses in. */
  const GRAM := "gram"
  /** The unit given to unit-less amounts ("2 eggs"). */
  const NONE_UNIT := "none"
  /** The key of the cooked-recipe payload that lists the consumed ingredients. */
  const USED_INGS := "used_ings"

  /** What the conversion hands back: an amount, `None`, or an escaping exception. */
  datatype Conversion = Amount(value: real) | Unresolvable | Raised

  /** A pint result as seen by the caller: any exception escapes. */
  function FromPint(q: Quantity): (c: Conversion)
    ensures c.Amount? <==> q.Magnitude?
    ensures c.Amount? ==> c.value == q.value
    ensures c != Unresolvable
  {
    if q.Magnitude? then Amount(q.value) else Raised
  }

  /** The tail of the density route: `volAmount` of the density row's volume
      unit weighs `volAmount * gram / volume` grams, which are then converted
      to `dbUnit`. A zero reference volume divides by zero. */
  function MassTo(reg: Registry, m: Density, volAmount: real, dbUnit: string): (c: Conversion)
    ensures c != Unresolvable
    ensures c.Amount? <==> m.volume != 0.0 && Convertible(reg, GRAM, dbUnit)
    ensures c.Amount? ==> c.value * reg[dbUnit].factor == volAmount * (m.gram / m.volume) * reg[GRAM].factor
  {
    if m.volume == 0.0 then Raised
    else FromPint(To(reg, volAmount * (m.gram / m.volume), GRAM, dbUnit))
  }

  /**
   * convert_units exactly as written. Two defects shape it: the branch for
   * ingredients without a density row converts to an undefined name, so it
   * always raises; and the density branch converts the amount to the density
   * row's volume unit but then discards that result and uses the original
   * amount as if it were already in that unit.
   */
  function ConvertUnitsAsWritten(reg: Registry, measurements: map<string, Density>, name: string,
                                 unit: string, amount: real, dbUnit: string): (c: Conversion)
    ensures unit == dbUnit ==> c == Amount(amount)
    ensures c != Unresolvable
    ensures unit != dbUnit && name !in measurements ==> c == Raised
    ensures unit != dbUnit && name in measurements ==>
      var m := measurements[name];
      && (c.Amount? <==> (unit == m.volUnit || Convertible(reg, unit, m.volUnit))
                          && m.volume != 0.0 && Convertible(reg, GRAM, dbUnit))
      // the amount is weighed as if it were given in the density row's volume unit
      && (c.Amount? ==> c.value * reg[dbUnit].factor == amount * (m.gram / m.volume) * reg[GRAM].factor)
  {
    if unit == dbUnit then Amount(amount)
    else if name !in measurements then Raised
    else
      var m := measurements[name];
      if m.volUnit != unit && !To(reg, amount, unit, m.volUnit).Magnitude? then Raised
      else MassTo(reg, m, amount, dbUnit)
  }

  /**
   * convert_units as evidently intended, and as the rest of this model uses
   * it: without a density row the amount is converted when the units share a
   * family and is `None` when both are known but of different families; with
   * a density row the amount is first expressed in the row's volume unit and
   * that volume is weighed.
   */
  function ConvertUnits(reg: Registry, measurements: map<string, Density>, name: string,
                        unit: string, amount: real, dbUnit: string): (c: Conversion)
    ensures unit == dbUnit ==> c == Amount(amount)
    ensures c == Unresolvable <==>
      unit != dbUnit && name !in measurements && unit in reg && dbUnit in reg
      && !Convertible(reg, unit, dbUnit)
    ensures unit != dbUnit && name !in measurements ==> (c.Amount? <==> Convertible(reg, unit, dbUnit))
    ensures unit != dbUnit && name in measurements ==>
      var m := measurements[name];
      (c.Amount? <==> (unit == m.volUnit || Convertible(reg, unit, m.volUnit))
                      && m.volume != 0.0 && Convertible(reg, GRAM, dbUnit))
  {
    if unit == dbUnit then Amount(amount)
    else if name !in measurements then
      match To(reg, amount, unit, dbUnit)
      case Magnitude(v) => Amount(v)
      case DimensionalityError => Unresolvable
      case UndefinedUnit => Raised
    else
      var m := measurements[name];
      if m.volUnit == unit then MassTo(reg, m, amount, dbUnit)
      else
        var q := To(reg, amount, unit, m.volUnit);
        if q.Magnitude? then MassTo(reg, m, q.value, dbUnit) else Raised
  }

  /** A converted amount denotes the same physical quantity: without a
      density row, the same amount of the family's base unit; with one, the
      mass (in base units) is the volume (in base units) times the row's
      density. */
  lemma ConvertUnitsMeasures(reg: Registry, measurements: map<string, Density>, name: string,
                             unit: string, amount: real, dbUnit: string)
    requires unit != dbUnit
    requires ConvertUnits(reg, measurements, name, unit, amount, dbUnit).Amount?
    ensures var v := ConvertUnits(reg, measurements, name, unit, amount, dbUnit).value;
      && (name !in measurements ==> v * reg[dbUnit].factor == amount * reg[unit].factor)
      && (name in measurements && unit == measurements[name].volUnit ==>
            var m := measurements[name];
            v * reg[dbUnit].factor == amount * (m.gram / m.volume) * reg[GRAM].factor)
      && (name in measurements && unit != measurements[name].volUnit ==>
            var m := measurements[name];
            v * reg[dbUnit].factor * reg[m.volUnit].factor
            == amount * reg[unit].factor * (m.gram / m.volume) * reg[GRAM].factor)
  {
  }

  /** With a density row, converting the amount first to the row's volume
      unit and then converting that volume gives the same result as converting
      the amount directly: the route through the volume unit does not matter. */
  lemma ConvertUnitsRouteIndependent(reg: Registry, measurements: map<string, Density>,
                                       name: string, unit: string, amount: real, dbUnit: string)
    requires name in measurements
    requires Convertible(reg, unit, measurements[name].volUnit)
    requires unit != dbUnit && measurements[name].volUnit != dbUnit
    ensures ConvertUnits(reg, measurements, name, unit, amount, dbUnit)
         == ConvertUnits(reg, measurements, name, measurements[name].volUnit,
                         To(reg, amount, unit, measurements[name].volUnit).value, dbUnit)
  {
  }

  /** Finding: a volume other than the density row's is weighed as if it were
      given in the row's unit. Sixteen tablespoons of flour, with 120 grams of
      flour per cup and 16 tablespoons to the cup, weigh 1920 grams as written
      instead of 120. */
  lemma DiscardedNormalisation()
    ensures var reg := map["cup" := UnitDef(Volume, 16.0), "tablespoon" := UnitDef(Volume, 1.0),
                           GRAM := UnitDef(Mass, 1.0)];
            var measurements := map["flour" := Density(120.0, 1.0, "cup")];
            && ConvertUnitsAsWritten(reg, measurements, "flour", "tablespoon", 16.0, GRAM) == Amount(1920.0)
            && ConvertUnits(reg, measurements, "flour", "tablespoon", 16.0, GRAM) == Amount(120.0)
  {
  }

  /** Finding: without a density row, even directly convertible units raise
      as written. Three cups of sugar cannot be subtracted from sugar stored
      in tablespoons; the intended conversion gives 48 tablespoons. */
  lemma UndefinedTargetUnit()
    ensures var reg := map["cup" := UnitDef(Volume, 16.0), "tablespoon" := UnitDef(Volume, 1.0)];
            && ConvertUnitsAsWritten(reg, map[], "sugar", "cup", 3.0, "tablespoon") == Raised
            && ConvertUnits(reg, map[], "sugar", "cup", 3.0, "tablespoon") == Amount(48.0)
  {
  }

  // ---------------------------------------------------------------------
  // Rounding and the clamped decrement
  // ---------------------------------------------------------------------

  /** `x` is a whole number of hundredths. */
  predicate IsCents(x: real)
  {
    (x * 100.0).Floor as real == x * 100.0
  }

  /** `x` rounded to two decimals (half away from minus infinity). */
  function Round2(x: real): (r: real)
    ensures x - 0.005 < r <= x + 0.005
    ensures IsCents(r)
  {
    var n := (x * 100.0 + 0.5).Floor;
    assert (n as real / 100.0) * 100.0 == n as real;
    n as real / 100.0
  }

  /** Rounding an amount that already has two decimals leaves it alone. */
  lemma {:induction false} Round2OfCents(x: real)
    requires IsCents(x)
    ensures Round2(x) == x
  {
    var n := (x * 100.0).Floor;
    assert (x * 100.0 + 0.5).Floor == n;
  }

  /** Rounding is idempotent. */
  lemma Round2Idempotent(x: real)
    ensures Round2(Round2(x)) == Round2(x)
  {
    Round2OfCents(Round2(x));
  }

  /** Differences of amounts with two decimals have two decimals. */
  lemma CentsDifference(x: real, y: real)
    requires IsCents(x) && IsCents(y)
    ensures IsCents(x - y)
  {
    var i, j := (x * 100.0).Floor, (y * 100.0).Floor;
    assert (x - y) * 100.0 == (i - j) as real;
  }

  function Max(a: real, b: real): real
  {
    if a < b then b else a
  }

  /** The stored amount after `used` is taken from `stored`. */
  function NewAmount(stored: real, used: real): (r: real)
    ensures r >= 0.0
    ensures IsCents(r)
    ensures used >= stored ==> r == 0.0
    ensures used < stored ==> stored - used - 0.005 < r <= stored - used + 0.005
  {
    var d := Max(stored - used, 0.0);
    assert (d * 100.0 + 0.5).Floor >= 0;
    if used >= stored then
      assert (d * 100.0 + 0.5).Floor == 0;
      Round2(d)
    else Round2(d)
  }

  /** Between amounts with two decimals, the decrement is exact subtraction. */
  lemma {:induction false} NewAmountExact(stored: real, used: real)
    requires IsCents(stored) && IsCents(used) && used <= stored
    ensures NewAmount(stored, used) == stored - used
  {
    CentsDifference(stored, used);
    Round2OfCents(stored - used);
  }

  // ---------------------------------------------------------------------
  // update_ingredient_amount
  // ---------------------------------------------------------------------

  /** The effect of update_ingredient_amount on the ingredient table. A
      missing row, a `None` conversion and a raised conversion all leave the
      table as it was. */
  function UpdateAmount(reg: Registry, measurements: map<string, Density>, t: Table,
                        userId: UserId, name: string, unit: string, amount: real): (o: Outcome)
  {
    var key := (userId, name);
    if key !in t then Outcome(t, Failed(MissingIngredient))
    else
      var row := t[key];
      match ConvertUnits(reg, measurements, name, unit, amount, row.unit)
      case Unresolvable => Outcome(t, Failed(NoneSubtracted))
      case Raised => Outcome(t, Failed(ConversionRaised))
      case Amount(used) => Outcome(t[key := row.(amount := NewAmount(row.amount, used))], Ok)
  }

  /** An update touches at most the amount of the matching row, keeps every
      amount non-negative, and changes nothing when it fails. */
  lemma UpdateAmountUntouched(reg: Registry, measurements: map<string, Density>, t: Table,
                              userId: UserId, name: string, unit: string, amount: real)
    ensures var o := UpdateAmount(reg, measurements, t, userId, name, unit, amount);
      && Untouched(t, o.table, userId, {name})
      && (o.status.Failed? ==> o.table == t)
      && ((userId, name) !in t ==> o.status == Failed(MissingIngredient))
      && (NonNegative(t) ==> NonNegative(o.table))
  {
  }

  /** What the update does to the matching row, by the outcome of the conversion:
      the row keeps its unit, and its amount is decremented exactly when the
      conversion produced an amount. */
  lemma UpdateAmountCases(reg: Registry, measurements: map<string, Density>, t: Table,
                          userId: UserId, name: string, unit: string, amount: real)
    requires (userId, name) in t
    ensures var key := (userId, name);
            var o := UpdateAmount(reg, measurements, t, userId, name, unit, amount);
            var c := ConvertUnits(reg, measurements, name, unit, amount, t[key].unit);
            && (o.status.Ok? <==> c.Amount?)
            && (o.status == Failed(NoneSubtracted) <==> c == Unresolvable)
            && (o.status == Failed(ConversionRaised) <==> c == Raised)
            && (c.Amount? ==> o.table == t[key := Row(NewAmount(t[key].amount, c.value), t[key].unit)])
  {
  }

  method UpdateIngredientAmount(db: Database, reg: Registry, userId: UserId, name: string,
                                unit: string, amount: real) returns (status: Status)
    modifies db`ingredients
    ensures Outcome(db.ingredients, status)
         == UpdateAmount(reg, db.measurements, old(db.ingredients), userId, name, unit, amount)
  {
    var key := (userId, name);
    if key !in db.ingredients {
      return Failed(MissingIngredient);
    }
    var row := db.ingredients[key];
    var used := ConvertUnits(reg, db.measurements, name, unit, amount, row.unit);
    match used
    case Unresolvable =>
      status := Failed(NoneSubtracted);
    case Raised =>
      status := Failed(ConversionRaised);
    case Amount(v) =>
      db.ingredients := db.ingredients[key := row.(amount := NewAmount(row.amount, v))];
      status := Ok;
  }

  // ---------------------------------------------------------------------
  // add_cooked_recipe
  // ---------------------------------------------------------------------

  /** The JSON payload of a cooked recipe: its top-level keys in order, and the list
      stored under "used_ings" when that key is present. */
  datatype CookedIngredients = CookedIngredients(keys: seq<string>, usedIngs: seq<Item>)

  /** An empty unit stands for a unit-less count. */
  function NormalizeUnit(unit: string): (u: string)
    ensures u != ""
    ensures unit != "" ==> u == unit
    ensures unit == "" ==> u == NONE_UNIT
  {
    if unit == "" then NONE_UNIT else unit
  }

  /** The ingredient names the line items mention. */
  function NamesOf(items: seq<Item>): (names: set<string>)
    ensures forall i :: 0 <= i < |items| ==> items[i].name in names
  {
    if items == [] then {} else NamesOf(items[..|items| - 1]) + {items[|items| - 1].name}
  }

  /** `t'` has the rows of `t`, every row keeps its unit, and only rows of
      `userId` named in `names` may have a different amount. */
  predicate Untouched(t: Table, t': Table, userId: UserId, names: set<string>)
  {
    && t'.Keys == t.Keys
    && (forall k :: k in t ==> t'[k].unit == t[k].unit)
    && (forall k :: k in t && (k.0 != userId || k.1 !in names) ==> t'[k] == t[k])
  }

  lemma UntouchedTrans(t: Table, t': Table, t'': Table, userId: UserId, names: set<string>, names': set<string>)
    requires Untouched(t, t', userId, names) && Untouched(t', t'', userId, names')
    ensures Untouched(t, t'', userId, names + names')
    ensures names' <= names ==> Untouched(t, t'', userId, names)
  {
  }

  /** One pass over the consumed items, in order, stopping at the first
      item whose update raises; the updates made before it stay. */
  function CookItems(reg: Registry, measurements: map<string, Density>, t: Table,
                     userId: UserId, items: seq<Item>): Outcome
    decreases |items|
  {
    if items == [] then Outcome(t, Ok)
    else
      var o := CookItems(reg, measurements, t, userId, items[..|items| - 1]);
      if o.status.Failed? then o
      else
        var it := items[|items| - 1];
        UpdateAmount(reg, measurements, o.table, userId, it.name, NormalizeUnit(it.unit), it.amount)
  }

  /** A pass touches only the amounts of the user's rows it names, and
      keeps every amount non-negative. */
  lemma {:induction false} CookItemsUntouched(reg: Registry, measurements: map<string, Density>, t: Table,
                                              userId: UserId, items: seq<Item>)
    ensures Untouched(t, CookItems(reg, measurements, t, userId, items).table, userId, NamesOf(items))
    ensures NonNegative(t) ==> NonNegative(CookItems(reg, measurements, t, userId, items).table)
    decreases |items|
  {
    if items != [] {
      var front := items[..|items| - 1];
      CookItemsUntouched(reg, measurements, t, userId, front);
      var o := CookItems(reg, measurements, t, userId, front);
      if o.status.Ok? {
        var it := items[|items| - 1];
        UpdateAmountUntouched(reg, measurements, o.table, userId, it.name, NormalizeUnit(it.unit), it.amount);
        UntouchedTrans(t, o.table, CookItems(reg, measurements, t, userId, items).table,
                       userId, NamesOf(front), {it.name});
      }
    }
  }

  /** `rounds` passes over the same items, stopping at the first failure. */
  function CookRounds(reg: Registry, measurements: map<string, Density>, t: Table,
                      userId: UserId, rounds: nat, items: seq<Item>): Outcome
  {
    if rounds == 0 then Outcome(t, Ok)
    else
      var o := CookRounds(reg, measurements, t, userId, rounds - 1, items);
      if o.status.Failed? then o else CookItems(reg, measurements, o.table, userId, items)
  }

  /** Repeated passes touch only the amounts of the user's rows the items
      name, and keep every amount non-negative. */
  lemma {:induction false} CookRoundsUntouched(reg: Registry, measurements: map<string, Density>, t: Table,
                                               userId: UserId, rounds: nat, items: seq<Item>)
    ensures Untouched(t, CookRounds(reg, measurements, t, userId, rounds, items).table, userId, NamesOf(items))
    ensures NonNegative(t) ==> NonNegative(CookRounds(reg, measurements, t, userId, rounds, items).table)
  {
    if rounds > 0 {
      CookRoundsUntouched(reg, measurements, t, userId, rounds - 1, items);
      var o := CookRounds(reg, measurements, t, userId, rounds - 1, items);
      if o.status.Ok? {
        var o' := CookItems(reg, measurements, o.table, userId, items);
        CookItemsUntouched(reg, measurements, o.table, userId, items);
        UntouchedTrans(t, o.table, o'.table, userId, NamesOf(items), NamesOf(items));
        assert CookRounds(reg, measurements, t, userId, rounds, items) == o';
      }
    }
  }

  /** The effect of add_cooked_recipe on the ingredient table: the consumed
      list is applied once for every top-level key of the payload. */
  function CookRecipe(reg: Registry, measurements: map<string, Density>, t: Table,
                      userId: UserId, ingredients: CookedIngredients): (o: Outcome)
    ensures ingredients.keys == [] ==> o == Outcome(t, Ok)
    ensures ingredients.keys != [] && USED_INGS !in ingredients.keys ==> o == Outcome(t, Failed(MissingUsedIngs))
  {
    if ingredients.keys == [] then Outcome(t, Ok)
    else if USED_INGS !in ingredients.keys then Outcome(t, Failed(MissingUsedIngs))
    else CookRounds(reg, measurements, t, userId, |ingredients.keys|, ingredients.usedIngs)
  }

  /** Cooking a recipe changes only the amounts of the user's ingredients it
      consumes, never a unit, and never makes an amount negative. */
  lemma CookRecipeUntouched(reg: Registry, measurements: map<string, Density>, t: Table,
                            userId: UserId, ingredients: CookedIngredients)
    ensures Untouched(t, CookRecipe(reg, measurements, t, userId, ingredients).table,
                      userId, NamesOf(ingredients.usedIngs))
    ensures NonNegative(t) ==> NonNegative(CookRecipe(reg, measurements, t, userId, ingredients).table)
  {
    CookRoundsUntouched(reg, measurements, t, userId, |ingredients.keys|, ingredients.usedIngs);
  }

  /** `n` times `x`, as repeated addition. */
  function Times(n: nat, x: real): real
  {
    if n == 0 then 0.0 else Times(n - 1, x) + x
  }

  /** A single consumed item in the stored unit is subtracted once per pass:
      after `n` passes the stored amount has dropped by `n` times the item. */
  lemma {:induction false} CookRoundsRepeat(reg: Registry, measurements: map<string, Density>, t: Table,
                                            userId: UserId, n: nat, it: Item)
    requires (userId, it.name) in t
    requires NormalizeUnit(it.unit) == t[(userId, it.name)].unit
    requires IsCents(t[(userId, it.name)].amount) && IsCents(it.amount)
    requires 0.0 <= it.amount && Times(n, it.amount) <= t[(userId, it.name)].amount
    ensures var key := (userId, it.name);
            CookRounds(reg, measurements, t, userId, n, [it])
            == Outcome(t[key := Row(t[key].amount - Times(n, it.amount), t[key].unit)], Ok)
  {
    var key := (userId, it.name);
    var row := t[key];
    if n == 0 {
      assert Row(row.amount - 0.0, row.unit) == row;
    } else {
      CookRoundsRepeat(reg, measurements, t, userId, n - 1, it);
      var before := row.amount - Times(n - 1, it.amount);
      var t1 := t[key := Row(before, row.unit)];
      CentsMultiple(row.amount, it.amount, n - 1);
      NewAmountExact(before, it.amount);
      CookSingleInStoredUnit(reg, measurements, t1, userId, it);
      assert t1[key := Row(before - it.amount, row.unit)]
          == t[key := Row(row.amount - Times(n, it.amount), row.unit)];
    }
  }

  /** One pass over one item given in the stored unit decrements its row by the item's amount. */
  lemma CookSingleInStoredUnit(reg: Registry, measurements: map<string, Density>, t: Table,
                               userId: UserId, it: Item)
    requires (userId, it.name) in t
    requires NormalizeUnit(it.unit) == t[(userId, it.name)].unit
    ensures var key := (userId, it.name);
            CookItems(reg, measurements, t, userId, [it])
            == Outcome(t[key := Row(NewAmount(t[key].amount, it.amount), t[key].unit)], Ok)
  {
  }

  /** Taking a whole number of two-decimal amounts from a two-decimal amount
      leaves a two-decimal amount. */
  lemma {:induction false} CentsMultiple(a: real, x: real, n: nat)
    requires IsCents(a) && IsCents(x)
    ensures IsCents(a - Times(n, x))
  {
    if n > 0 {
      CentsMultiple(a, x, n - 1);
      CentsDifference(a - Times(n - 1, x), x);
    }
  }

  method AddBookmark(db: Database, userId: UserId, recipeId: RecipeId)
    modifies db`bookmarks
    ensures db.bookmarks == old(db.bookmarks) + [(userId, recipeId)]
  {
    db.bookmarks := db.bookmarks + [(userId, recipeId)];
  }

  method AddCookedRecipe(db: Database, reg: Registry, userId: UserId, recipeId: RecipeId,
                         ingredients: CookedIngredients) returns (status: Status)
    modifies db`usedRecipes, db`ingredients
    ensures db.usedRecipes == old(db.usedRecipes) + [(userId, recipeId)]
    ensures Outcome(db.ingredients, status)
         == CookRecipe(reg, db.measurements, old(db.ingredients), userId, ingredients)
  {
    db.usedRecipes := db.usedRecipes + [(userId, recipeId)];
    ghost var t0 := db.ingredients;
    var items := ingredients.usedIngs;
    for rounds := 0 to |ingredients.keys|
      invariant db.usedRecipes == old(db.usedRecipes) + [(userId, recipeId)]
      invariant rounds > 0 ==> USED_INGS in ingredients.keys
      invariant CookRounds(reg, db.measurements, t0, userId, rounds, items) == Outcome(db.ingredients, Ok)
    {
      if USED_INGS !in ingredients.keys {
        return Failed(MissingUsedIngs);
      }
      status := CookPass(db, reg, userId, items);
      if status.Failed? {
        CookRoundsStops(reg, db.measurements, t0, userId, items, rounds + 1, |ingredients.keys|);
        return;
      }
    }
    status := Ok;
  }

  /** One pass of the inner loop of add_cooked_recipe: each consumed item,
      with an empty unit read as "none", is taken from the inventory in
      order; the first update that raises ends the pass. */
  method CookPass(db: Database, reg: Registry, userId: UserId, items: seq<Item>) returns (status: Status)
    modifies db`ingredients
    ensures Outcome(db.ingredients, status) == CookItems(reg, db.measurements, old(db.ingredients), userId, items)
  {
    ghost var t1 := db.ingredients;
    var i := 0;
    while i < |items|
      invariant 0 <= i <= |items|
      invariant CookItems(reg, db.measurements, t1, userId, items[..i]) == Outcome(db.ingredients, Ok)
    {
      var ing := items[i];
      CookItemsStep(reg, db.measurements, t1, userId, items, i);
      status := UpdateIngredientAmount(db, reg, userId, ing.name, NormalizeUnit(ing.unit), ing.amount);
      if status.Failed? {
        CookItemsStops(reg, db.measurements, t1, userId, items, i + 1);
        return;
      }
      i := i + 1;
    }
    assert items[..i] == items;
    status := Ok;
  }

  /** A pass over one more item continues the pass over the shorter prefix. */
  lemma CookItemsStep(reg: Registry, measurements: map<string, Density>, t: Table,
                      userId: UserId, items: seq<Item>, j: nat)
    requires j < |items|
    requires CookItems(reg, measurements, t, userId, items[..j]).status.Ok?
    ensures CookItems(reg, measurements, t, userId, items[..j + 1])
         == UpdateAmount(reg, measurements, CookItems(reg, measurements, t, userId, items[..j]).table,
                         userId, items[j].name, NormalizeUnit(items[j].unit), items[j].amount)
  {
    assert items[..j + 1][..j] == items[..j];
  }

  /** Once a pass has failed, further passes do nothing. */
  lemma {:induction false} CookRoundsStops(reg: Registry, measurements: map<string, Density>, t: Table,
                                           userId: UserId, items: seq<Item>, r: nat, n: nat)
    requires r <= n
    requires CookRounds(reg, measurements, t, userId, r, items).status.Failed?
    ensures CookRounds(reg, measurements, t, userId, n, items) == CookRounds(reg, measurements, t, userId, r, items)
  {
    if r < n {
      CookRoundsStops(reg, measurements, t, userId, items, r, n - 1);
    }
  }

  /** Once a prefix of the items has failed, the whole pass ends as that prefix did. */
  lemma {:induction false} CookItemsStops(reg: Registry, measurements: map<string, Density>, t: Table,
                                          userId: UserId, items: seq<Item>, j: nat)
    requires j <= |items|
    requires CookItems(reg, measurements, t, userId, items[..j]).status.Failed?
    ensures CookItems(reg, measurements, t, userId, items) == CookItems(reg, measurements, t, userId, items[..j])
    decreases |items| - j
  {
    if j < |items| {
      assert items[..j + 1][..j] == items[..j];
      CookItemsStops(reg, measurements, t, userId, items, j + 1);
    } else {
      assert items[..j] == items;
    }
  }

  // ---------------------------------------------------------------------
  // return_current_ingredients
  // ---------------------------------------------------------------------

  /** The ingredients prepared for display, in the same order: an "s" is
      appended to the unit when there is more than one of a real unit. */
  method ReturnCurrentIngredients(current: seq<Item>) returns (ings: seq<Item>)
    ensures |ings| == |current|
    ensures forall i :: 0 <= i < |current| ==>
      && ings[i].name == current[i].name
      && ings[i].amount == current[i].amount
      && (ings[i].unit == current[i].unit || ings[i].unit == current[i].unit + "s")
      && (ings[i].unit == current[i].unit + "s" <==> current[i].amount > 1.0 && current[i].unit != NONE_UNIT)
  {
    ings := [];
    for i := 0 to |current|
      invariant |ings| == i
      invariant forall j :: 0 <= j < i ==>
        && ings[j].name == current[j].name
        && ings[j].amount == current[j].amount
        && (ings[j].unit == current[j].unit || ings[j].unit == current[j].unit + "s")
        && (ings[j].unit == current[j].unit + "s" <==> current[j].amount > 1.0 && current[j].unit != NONE_UNIT)
    {
      var ingredient := current[i];
      var unit := ingredient.unit;
      if ingredient.amount > 1.0 && ingredient.unit != NONE_UNIT {
        unit := ingredient.unit + "s";
      } else {
        assert |unit| != |ingredient.unit + "s"|;
      }
      ings := ings + [Item(ingredient.name, ingredient.amount, unit)];
    }
  }
}
