/**
 * The inventory logic of server.py: the merge of a submitted ingredient form
 * into the ingredient table (add_new_ingredients), the available / depleted
 * views of a user's stock (index, show_user_profile, show_grocery_list), and
 * the recipe insert and button dispatch of add_used_recipe. Requests, the
 * session, templates and the clock are not part of this model: the user id
 * and the already-parsed form fields are parameters.
 */
module Server {
  import opened Units
  import opened Model
  import opened ProcessData

  // ---------------------------------------------------------------------
  // add_new_ingredients: reading the form
  // ---------------------------------------------------------------------

  /** A form list without its last entry, the hidden template row; an empty
      list stays empty, as slicing with [:-1] does. */
  function DropLast<T>(s: seq<T>): (r: seq<T>)
    ensures |r| == if s == [] then 0 else |s| - 1
    ensures forall i :: 0 <= i < |r| ==> r[i] == s[i]
  {
    if s == [] then [] else s[..|s| - 1]
  }

  function Min(a: nat, b: nat): nat
  {
    if a <= b then a else b
  }

  /** The three lists paired position by position, as far as the shortest goes. */
  function Zip3(names: seq<string>, amounts: seq<real>, units: seq<string>): (r: seq<Item>)
    ensures |r| == Min(Min(|names|, |amounts|), |units|)
    ensures forall i :: 0 <= i < |r| ==> r[i] == Item(names[i], amounts[i], units[i])
  {
    if names == [] || amounts == [] || units == [] then []
    else [Item(names[0], amounts[0], units[0])] + Zip3(names[1..], amounts[1..], units[1..])
  }

  /** The line items of a submitted form: every field list loses its hidden
      template row, and the rest are paired positionally. */
  function FormItems(names: seq<string>, amounts: seq<real>, units: seq<string>): (r: seq<Item>)
    ensures var shortest := Min(Min(|names|, |amounts|), |units|);
            |r| == if shortest == 0 then 0 else shortest - 1
    ensures forall i :: 0 <= i < |r| ==> r[i] == Item(names[i], amounts[i], units[i])
  {
    Zip3(DropLast(names), DropLast(amounts), DropLast(units))
  }

  // ---------------------------------------------------------------------
  // add_new_ingredients: merging into the table
  // ---------------------------------------------------------------------

  /** The amount stored under `k`, or zero when there is no such row. */
  function Stored(t: Table, k: (UserId, string)): real
  {
    if k in t then t[k].amount else 0.0
  }

  /** One submitted line merged into the table: an existing row of the user
      gets the sum of both amounts and the submitted unit, with no conversion
      of what was stored; otherwise a row is inserted as submitted. */
  function MergeOne(t: Table, userId: UserId, it: Item): (r: Table)
    ensures r.Keys == t.Keys + {(userId, it.name)}
    ensures r[(userId, it.name)] == Row(Stored(t, (userId, it.name)) + it.amount, it.unit)
    ensures forall k :: k in t && k != (userId, it.name) ==> r[k] == t[k]
  {
    t[(userId, it.name) := MergedRow(t, (userId, it.name), it)]
  }

  /** The row a submitted line leaves under `key`. */
  function MergedRow(t: Table, key: (UserId, string), it: Item): Row
  {
    if key in t then Row(it.amount + t[key].amount, it.unit) else Row(it.amount, it.unit)
  }

  /** The lines merged one after the other, each committed before the next. */
  function MergeAll(t: Table, userId: UserId, items: seq<Item>): Table
    decreases |items|
  {
    if items == [] then t
    else MergeOne(MergeAll(t, userId, items[..|items| - 1]), userId, items[|items| - 1])
  }

  /** The total amount submitted under `name`. */
  function SumFor(items: seq<Item>, name: string): real
    decreases |items|
  {
    if items == [] then 0.0
    else
      var last := items[|items| - 1];
      SumFor(items[..|items| - 1], name) + (if last.name == name then last.amount else 0.0)
  }

  /** The unit of the last line submitted under `name`. */
  function LastUnitFor(items: seq<Item>, name: string): string
    requires name in NamesOf(items)
    decreases |items|
  {
    var last := items[|items| - 1];
    if last.name == name then last.unit else LastUnitFor(items[..|items| - 1], name)
  }

  /** What a submission leaves in every row: a row the submission names holds
      what was stored plus everything submitted under its name, in the unit
      submitted last; every other row, of this user or any other, is as it
      was, and no row disappears. */
  lemma {:induction false} MergeAllAt(t: Table, userId: UserId, items: seq<Item>, k: (UserId, string))
    ensures var r := MergeAll(t, userId, items);
            && (k in r <==> k in t || (k.0 == userId && k.1 in NamesOf(items)))
            && ((k.0 != userId || k.1 !in NamesOf(items)) && k in t ==> r[k] == t[k])
            && (k.0 == userId && k.1 in NamesOf(items) ==>
                  r[k] == Row(Stored(t, k) + SumFor(items, k.1), LastUnitFor(items, k.1)))
    decreases |items|
  {
    if items != [] {
      var front := items[..|items| - 1];
      var last := items[|items| - 1];
      MergeAllAt(t, userId, front, k);
      var before := MergeAll(t, userId, front);
      if k.0 == userId && k.1 == last.name && k.1 !in NamesOf(front) {
        assert SumFor(front, k.1) == 0.0 by { SumForAbsent(front, k.1); }
        assert Stored(before, k) == Stored(t, k);
      }
    }
  }

  /** Nothing is summed under a name that was never submitted. */
  lemma {:induction false} SumForAbsent(items: seq<Item>, name: string)
    requires name !in NamesOf(items)
    ensures SumFor(items, name) == 0.0
    decreases |items|
  {
    if items != [] {
      SumForAbsent(items[..|items| - 1], name);
    }
  }

  /** Submitting non-negative amounts keeps every stored amount non-negative. */
  lemma {:induction false} MergeAllNonNegative(t: Table, userId: UserId, items: seq<Item>)
    requires NonNegative(t)
    requires forall i :: 0 <= i < |items| ==> items[i].amount >= 0.0
    ensures NonNegative(MergeAll(t, userId, items))
    decreases |items|
  {
    if items != [] {
      MergeAllNonNegative(t, userId, items[..|items| - 1]);
    }
  }

  /** Merging one more line continues the merge of the shorter prefix. */
  lemma MergeAllStep(t: Table, userId: UserId, items: seq<Item>, i: nat)
    requires i < |items|
    ensures MergeAll(t, userId, items[..i + 1]) == MergeOne(MergeAll(t, userId, items[..i]), userId, items[i])
  {
    assert items[..i + 1][..i] == items[..i];
  }

  /** add_new_ingredients: merges the submitted form into the user's rows, one line at a time. */
  method AddNewIngredients(db: Database, userId: UserId, names: seq<string>, amounts: seq<real>,
                           units: seq<string>)
    modifies db`ingredients
    ensures db.ingredients == MergeAll(old(db.ingredients), userId, FormItems(names, amounts, units))
  {
    var items := FormItems(names, amounts, units);
    for i := 0 to |items|
      invariant db.ingredients == MergeAll(old(db.ingredients), userId, items[..i])
    {
      ghost var before := db.ingredients;
      var it := items[i];
      var name, amount, unit := it.name, it.amount, it.unit;
      if (userId, name) in db.ingredients {
        amount := amount + db.ingredients[(userId, name)].amount;
        assert Row(amount, unit) == MergedRow(before, (userId, name), it);
        db.ingredients := db.ingredients[(userId, name) := Row(amount, unit)];
      } else {
        assert Row(amount, unit) == MergedRow(before, (userId, name), it);
        db.ingredients := db.ingredients[(userId, name) := Row(amount, unit)];
      }
      MergeAllStep(old(db.ingredients), userId, items, i);
    }
    assert items[..|items|] == items;
  }

  // ---------------------------------------------------------------------
  // The stock views of the profile page and the grocery list
  // ---------------------------------------------------------------------

  /** The names of all the user's stored ingredients. */
  function Stocked(t: Table, userId: UserId): (r: set<string>)
    ensures forall n :: n in r <==> (userId, n) in t
  {
    set k | k in t && k.0 == userId :: k.1
  }

  /** The user's ingredients with a positive amount, shown as available. */
  function Available(t: Table, userId: UserId): (r: set<string>)
    ensures forall n :: n in r <==> (userId, n) in t && t[(userId, n)].amount > 0.0
  {
    set k | k in t && k.0 == userId && t[k].amount > 0.0 :: k.1
  }

  /** The user's ingredients whose amount is exactly zero: the depleted list
      of the profile page and the grocery list. */
  function Depleted(t: Table, userId: UserId): (r: set<string>)
    ensures forall n :: n in r <==> (userId, n) in t && t[(userId, n)].amount == 0.0
  {
    set k | k in t && k.0 == userId && t[k].amount == 0.0 :: k.1
  }

  /** The available and depleted views never share a name, and they cover the
      user's whole stock exactly when none of the user's amounts is negative. */
  lemma StockPartition(t: Table, userId: UserId)
    ensures Available(t, userId) !! Depleted(t, userId)
    ensures Available(t, userId) + Depleted(t, userId) <= Stocked(t, userId)
    ensures Available(t, userId) + Depleted(t, userId) == Stocked(t, userId)
            <==> forall n :: n in Stocked(t, userId) ==> t[(userId, n)].amount >= 0.0
  {
  }

  /** A row that a consumption takes to zero or below is on the grocery list afterwards. */
  lemma UsedUpIsDepleted(reg: Registry, measurements: map<string, Density>, t: Table,
                         userId: UserId, name: string, unit: string, amount: real)
    requires (userId, name) in t
    requires var c := ConvertUnits(reg, measurements, name, unit, amount, t[(userId, name)].unit);
             c.Amount? && c.value >= t[(userId, name)].amount
    ensures name in Depleted(UpdateAmount(reg, measurements, t, userId, name, unit, amount).table, userId)
  {
  }

  /** Restocking a positive amount onto a non-negative stock makes it available. */
  lemma RestockedIsAvailable(t: Table, userId: UserId, it: Item)
    requires NonNegative(t)
    requires it.amount > 0.0
    ensures it.name in Available(MergeOne(t, userId, it), userId)
  {
  }

  // ---------------------------------------------------------------------
  // add_used_recipe
  // ---------------------------------------------------------------------

  /** add_used_recipe: stores the recipe for the user unless it is already
      stored, then acts on the last word of the button text: "cook" cooks the
      recipe, "bookmarks" bookmarks it, any other word does nothing more. A
      button with no words fails after the recipe was stored. */
  method AddUsedRecipe(db: Database, reg: Registry, userId: UserId, buttonWords: seq<string>,
                       recipeId: RecipeId, title: string, image: string, source: string,
                       ingredients: CookedIngredients) returns (status: Status)
    modifies db`recipes, db`usedRecipes, db`ingredients, db`bookmarks
    ensures db.recipes == if (recipeId, userId) in old(db.recipes) then old(db.recipes)
                          else old(db.recipes)[(recipeId, userId) := RecipeRow(title, image, source)]
    ensures buttonWords == [] ==>
              status == Failed(EmptyButton) && unchanged(db`usedRecipes, db`ingredients, db`bookmarks)
    ensures buttonWords != [] && buttonWords[|buttonWords| - 1] == "cook" ==>
              && db.usedRecipes == old(db.usedRecipes) + [(userId, recipeId)]
              && Outcome(db.ingredients, status)
                 == CookRecipe(reg, db.measurements, old(db.ingredients), userId, ingredients)
              && unchanged(db`bookmarks)
    ensures buttonWords != [] && buttonWords[|buttonWords| - 1] == "bookmarks" ==>
              && db.bookmarks == old(db.bookmarks) + [(userId, recipeId)]
              && status == Ok && unchanged(db`usedRecipes, db`ingredients)
    ensures buttonWords != [] && buttonWords[|buttonWords| - 1] !in {"cook", "bookmarks"} ==>
              status == Ok && unchanged(db`usedRecipes, db`ingredients, db`bookmarks)
  {
    if (recipeId, userId) !in db.recipes {
      db.recipes := db.recipes[(recipeId, userId) := RecipeRow(title, image, source)];
    }
    if buttonWords == [] {
      return Failed(EmptyButton);
    }
    var word := buttonWords[|buttonWords| - 1];
    status := Ok;
    if word == "cook" {
      status := AddCookedRecipe(db, reg, userId, recipeId, ingredients);
    } else if word == "bookmarks" {
      AddBookmark(db, userId, recipeId);
    }
  }
}
