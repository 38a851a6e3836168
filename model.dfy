/**
 * The database tables the inventory code reads and writes. The ORM classes
 * themselves live in model.py, which is not part of this model; here each
 * table is a field of one `Database` object, keyed the way the queries filter
 * it, so that a key can hold at most one row.
 */
module Model {

  type UserId = int
  type RecipeId = int

  /** A stored ingredient of one user: its quantity and the unit it is kept in. */
  datatype Row = Row(amount: real, unit: string)

  /** The ingredient table, keyed by (user id, ingredient name). */
  type Table = map<(UserId, string), Row>

  /** A density reference row: `gram` grams weigh as much as `volume` of `volUnit`. */
  datatype Density = Density(gram: real, volume: real, volUnit: string)

  /** A stored recipe; the table is keyed by (recipe id, user id). */
  datatype RecipeRow = RecipeRow(title: string, imageUrl: string, sourceUrl: string)

  /** A (name, amount, unit) record: an ingredient listed for display, a
      consumed line item of a cooked recipe, or one submitted form line. */
  datatype Item = Item(name: string, amount: real, unit: string)

  /** Why a request stopped early: the exception the source would raise. */
  datatype Abort =
    | MissingIngredient   // the ingredient row does not exist (attribute of None)
    | NoneSubtracted      // the conversion returned None and was subtracted
    | ConversionRaised    // the unit registry raised during conversion
    | MissingUsedIngs     // the cooked-recipe payload has no "used_ings" key
    | EmptyButton         // the button text has no last word

  datatype Status = Ok | Failed(reason: Abort)

  /** A table together with how the operation that produced it ended. */
  datatype Outcome = Outcome(table: Table, status: Status)

  /** Every stored amount is non-negative. */
  predicate NonNegative(t: Table)
  {
    forall k :: k in t ==> t[k].amount >= 0.0
  }

  class Database {
    var ingredients: Table
    var recipes: map<(RecipeId, UserId), RecipeRow>
    var usedRecipes: seq<(UserId, RecipeId)>
    var bookmarks: seq<(UserId, RecipeId)>
    /** The density reference table, keyed by ingredient name; never written. */
    const measurements: map<string, Density>

    constructor (measurements: map<string, Density>)
      ensures this.measurements == measurements
      ensures ingredients == map[] && recipes == map[]
      ensures usedRecipes == [] && bookmarks == []
    {
      this.measurements := measurements;
      ingredients, recipes := map[], map[];
      usedRecipes, bookmarks := [], [];
    }
  }
}
