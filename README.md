# Ingredient inventory ledger — a Dafny model

This project models the inventory logic of a recipe web application that
tracks, per user, how much of each ingredient is in the kitchen.

- `units.dfy` (module `Units`) is the dimensional unit registry the application
  gets from pint. Every unit name has a dimension family and a positive factor
  to that family's base unit. `To` is pint's `.to()`: it gives a magnitude, or
  one of the two exceptions pint raises (undefined unit, dimensionality error).
- `model.dfy` (module `Model`) holds the database tables. The ingredient table
  is a map keyed by (user id, ingredient name). The recipe table is keyed by
  (recipe id, user id). The cooked-recipe and bookmark logs are append-only
  sequences. The density reference table is a map from ingredient name to
  (grams, volume, volume unit). All tables are fields of one `Database`
  object, and the operations update them in place.
- `processdata.dfy` (module `ProcessData`) covers processdata.py:
  - `convert_units`, both exactly as written and as evidently intended (see Findings);
  - the clamped, rounded decrement of `update_ingredient_amount`;
  - the nested loop of `add_cooked_recipe`;
  - `add_bookmark`;
  - the display pluralisation of `return_current_ingredients`.
- `server.dfy` (module `Server`) covers server.py:
  - the form reading and merge loop of `add_new_ingredients`;
  - the available / depleted queries of the profile pages and the grocery list;
  - the recipe insert and button dispatch of `add_used_recipe`.
- `scenarios.dfy` (module `Scenarios`) works the ledger through concrete
  kitchens: weighing flour by density, counting milk, salt that cannot be
  converted, a batch that stops part-way, a payload that repeats every
  decrement, and a restock in a different unit.

An exception that escapes a request handler is modelled as a `Failed` status
naming its cause. The application commits every row as soon as it is written,
so whatever was written before the exception stays written. The table
functions (`UpdateAmount`, `CookItems`, `CookRounds`, `CookRecipe`,
`MergeAll`) say what each request leaves behind. The methods are proved to
leave exactly that state, and lemmas prove the properties of those functions.

Behaviour worth knowing, all proved:

- A consumed amount in the stored unit is subtracted as it is.
- With the corrected conversion (see Findings), any other amount is converted:
  - by the registry when the ingredient has no density row;
  - through its density (grams per volume unit) when it has one.
  As written, an ingredient without a density row always raises
  (processdata.py:86), and the volume conversion of processdata.py:94 is
  discarded.
- With the corrected conversion, a conversion between units of different
  families, with no density row, gives `None`. Subtracting `None` raises, so
  the row keeps its amount and the rest of the cooked recipe is not applied.
- The new amount is `max(stored - used, 0)` rounded to two decimals, so it is
  never negative.
- Every consumed line is applied once per top-level key of the cooked-recipe
  payload, not once in total.
- Restocking an ingredient that is already stored adds the submitted amount to
  the stored one. It also overwrites the unit without converting anything.
- Available ingredients (amount > 0) and depleted ingredients (amount = 0)
  never overlap. They cover a user's whole stock exactly when no amount is
  negative. Decrements and cooked recipes always keep amounts non-negative; a
  restock does so only when the submitted amounts are non-negative, since the
  form accepts any number (server.py:160, 174).

## Model

| member | source | states |
|---|---|---|
| Units.To | processdata.py:97 | the conversion fails as undefined exactly when a unit is unknown, and as a dimensionality error exactly when the known units differ in family; a magnitude denotes the same physical quantity in the target unit |
| Units.ToSelf | processdata.py:4 | converting a unit to itself leaves the amount unchanged |
| Units.ToRoundTrip | processdata.py:4 | converting to a unit of the same family and back gives the original amount |
| Units.ToCompose | processdata.py:4 | converting in two steps within a family equals converting directly |
| ProcessData.FromPint | processdata.py:97 | a pint magnitude becomes an amount; any pint exception escapes and is never `None` |
| ProcessData.MassTo | processdata.py:96-98 | the weighed amount is `volume * gram / volume_ref` grams expressed in the stored unit; a zero reference volume or a non-mass stored unit raises |
| ProcessData.ConvertUnitsAsWritten | processdata.py:73-98 | as written: the same unit returns the amount; without a density row every conversion raises; with one, the original amount is weighed as if it were in the row's volume unit; `None` is never returned |
| ProcessData.ConvertUnits | processdata.py:73-98 | the same unit returns the amount unchanged; `None` exactly when there is no density row and both units are known but differ in family; without a density row, an amount exactly when the units are convertible; with one, an amount exactly when the unit reaches the row's volume unit and grams reach the stored unit |
| ProcessData.ConvertUnitsMeasures | processdata.py:83-98 | a converted amount is the same quantity: without a density row, the same base amount; with one, a mass equal to the volume times the row's density |
| ProcessData.ConvertUnitsRouteIndependent | processdata.py:91-98 | with a density row, converting first to the row's volume unit and then weighing gives the same result as converting directly |
| ProcessData.DiscardedNormalisation | processdata.py:92-96 | 16 tablespoons of flour at 120 g per cup weigh 1920 g as written and 120 g as intended |
| ProcessData.UndefinedTargetUnit | processdata.py:86 | 3 cups of sugar stored in tablespoons raise as written and convert to 48 tablespoons as intended |
| ProcessData.Round2 | processdata.py:66 | the result is within half a hundredth of the input and is a whole number of hundredths |
| ProcessData.Round2OfCents | processdata.py:66 | an amount already in hundredths is left unchanged by rounding |
| ProcessData.Round2Idempotent | processdata.py:66 | rounding twice equals rounding once |
| ProcessData.NewAmount | processdata.py:66 | the new stored amount is never negative, is in hundredths, is zero when at least the stored amount was used, and is otherwise within half a hundredth of the difference |
| ProcessData.NewAmountExact | processdata.py:66 | between amounts in hundredths, using no more than is stored subtracts exactly |
| ProcessData.UpdateAmount | processdata.py:59-70 | the table and status update_ingredient_amount leaves; it has no contract of its own: UpdateAmountUntouched and UpdateAmountCases state its properties, and UpdateIngredientAmount is proved to leave exactly this state |
| ProcessData.UpdateAmountUntouched | processdata.py:59-70 | an update changes no key, no unit and no other row; a failed update changes nothing; a missing row fails; non-negative amounts stay non-negative |
| ProcessData.UpdateAmountCases | processdata.py:62-68 | for an existing row: success exactly when the conversion gives an amount, and then only that row's amount becomes the clamped rounded difference; `None` and a raised conversion fail with the table unchanged |
| ProcessData.UpdateIngredientAmount | processdata.py:59-70 | the method leaves the ingredient table and status that `UpdateAmount` describes, and touches no other table |
| ProcessData.NormalizeUnit | processdata.py:53-54 | an empty unit becomes "none"; any other unit is kept; the result is never empty |
| ProcessData.CookItems | processdata.py:48-56 | the table and status one run of the inner loop leaves; it has no contract of its own: CookItemsUntouched, CookItemsStep and CookItemsStops state its properties, and CookPass is proved to leave exactly this state |
| ProcessData.CookRounds | processdata.py:47-56 | the table and status the outer loop leaves after a number of passes; it has no contract of its own: CookRoundsUntouched, CookRoundsStops and CookRoundsRepeat state its properties |
| ProcessData.CookItemsUntouched | processdata.py:48-56 | one pass over the consumed lines changes only amounts of the user's rows it names, and keeps amounts non-negative |
| ProcessData.CookRoundsUntouched | processdata.py:47-56 | repeated passes change only amounts of the user's rows the lines name, and keep amounts non-negative |
| ProcessData.CookRecipe | processdata.py:47-48 | a payload with no keys changes nothing; a payload with keys but no "used_ings" fails before any update |
| ProcessData.CookRecipeUntouched | processdata.py:39-56 | cooking a recipe changes only amounts of the user's consumed ingredients, never a unit or a key, and never makes an amount negative |
| ProcessData.CookRoundsRepeat | processdata.py:47-56 | a single line given in the stored unit is taken once per pass: after n passes the row has dropped by n times its amount |
| ProcessData.CookSingleInStoredUnit | processdata.py:53-56 | a line given in the stored unit decrements its row by the clamped rounded difference, with no conversion |
| ProcessData.CookItemsStep | processdata.py:48-56 | a pass over one more line applies that line's update to the result of the shorter pass |
| ProcessData.CookItemsStops | processdata.py:48-56 | once a line's update has failed, the pass ends as it stood; later lines are not applied |
| ProcessData.CookRoundsStops | processdata.py:47-56 | once a pass has failed, no later pass is applied |
| ProcessData.AddBookmark | processdata.py:30-36 | the bookmark log gains exactly the (user, recipe) pair at its end |
| ProcessData.AddCookedRecipe | processdata.py:39-56 | the cooked log gains the (user, recipe) pair, and the ingredient table and status are those `CookRecipe` describes |
| ProcessData.CookPass | processdata.py:48-56 | one run of the inner loop leaves the table and status `CookItems` describes |
| ProcessData.ReturnCurrentIngredients | processdata.py:9-27 | same length and order; names and amounts copied; the unit gains an "s" exactly when the amount exceeds 1 and the unit is not "none", and is otherwise unchanged |
| Server.DropLast | server.py:154-156 | the list loses its last entry, keeping the others in place; an empty list stays empty |
| Server.Zip3 | server.py:161 | the lists are paired position by position, as far as the shortest one goes |
| Server.FormItems | server.py:154-161 | the submitted lines are the three form lists paired positionally, one fewer than the shortest list (none for an empty list) |
| Server.MergeOne | server.py:171-184 | an existing row gets stored plus submitted amount and the submitted unit, with no conversion; a missing row is inserted as submitted; no other row changes |
| Server.MergeAll | server.py:166-186 | the table the merge loop leaves, one committed line after another; it has no contract of its own: MergeAllAt and MergeAllNonNegative state its properties, and AddNewIngredients is proved to leave exactly this table |
| Server.MergedRow | server.py:173-184 | the row one submitted line leaves; it has no contract of its own: MergeOne states it |
| Server.MergeAllAt | server.py:166-186 | after a submission, each named row holds its stored amount plus everything submitted under its name, in the last submitted unit; every other row of any user is unchanged and no row disappears |
| Server.MergeAllNonNegative | server.py:166-186 | submitting non-negative amounts keeps every stored amount non-negative |
| Server.AddNewIngredients | server.py:163-186 | the method leaves the table that merging the submitted lines in order describes |
| Server.Stocked | server.py:31 | exactly the names of the user's stored ingredients |
| Server.Available | server.py:32 | exactly the user's ingredients with a positive amount |
| Server.Depleted | server.py:34 | exactly the user's ingredients whose amount is zero; the grocery list (server.py:307) and the profile page (server.py:130) use the same query |
| Server.StockPartition | server.py:32-34 | available and depleted never overlap, both lie within the stock, and together they are the whole stock exactly when no amount is negative |
| Server.UsedUpIsDepleted | processdata.py:66 | an update that uses at least the stored amount puts the ingredient on the grocery list |
| Server.RestockedIsAvailable | server.py:173-184 | restocking a positive amount onto non-negative stock makes the ingredient available |
| Server.AddUsedRecipe | server.py:256-273 | the recipe is stored unless (recipe, user) is already present; then the last button word "cook" cooks the recipe, "bookmarks" bookmarks it, any other word changes nothing more, and an empty button fails after the insert |
| Scenarios.FlourByDensity | processdata.py:91-98 | 2 cups of flour at 120 g per cup take 240 g from 500 g, leaving 260 g |
| Scenarios.MilkByCount | processdata.py:79-80 | 1 "none" of milk taken from 4 leaves 3 |
| Scenarios.SaltUnresolvable | processdata.py:83-89 | 3 cups of salt stored in ounces with no density row give `None`, and the salt row is unchanged |
| Scenarios.BatchStopsAtUnresolvable | processdata.py:48-56 | in a batch of flour, salt and milk, the flour is taken, the salt update fails, and the milk is never reached |
| Scenarios.CookedPayloadTwoKeys | processdata.py:47-48 | a payload with two top-level keys takes one milk twice, leaving 2 of 4 |
| Scenarios.RestockInAnotherUnit | server.py:173-176 | adding 2 cups to 500 grams of flour stores 502 cups |
| Scenarios.FormWithRepeatedName | server.py:154-186 | the hidden row is dropped, and a name submitted twice is inserted once and then added to |

## Findings

| source | as written | input that shows it | evidently intended | confidence | as-written member | corrected member |
|---|---|---|---|---|---|---|
| processdata.py:86 | converts to the undefined name `ing_unit`, so every ingredient without a density row raises `NameError` | 3 cups of sugar, stored in tablespoons, no density row | convert to the stored unit `db_ing_unit`, giving 48 tablespoons, and return `None` for incompatible units | high, not executed | ProcessData.ConvertUnitsAsWritten, ProcessData.UndefinedTargetUnit | ProcessData.ConvertUnits, ProcessData.ConvertUnitsMeasures |
| processdata.py:92-96 | converts the amount to the density row's volume unit, discards the result, and weighs the original amount as if it were in that unit | 16 tablespoons of flour, 120 g per cup, stored in grams | weigh the converted volume: 120 g | high, not executed | ProcessData.ConvertUnitsAsWritten, ProcessData.DiscardedNormalisation | ProcessData.ConvertUnits, ProcessData.ConvertUnitsRouteIndependent |

The rest of the model (the decrement, the cooked-recipe batch and the
scenarios) uses the corrected `ConvertUnits`.

## Left out

- Web layer: Flask routing, templates, `flash`, `redirect`, `jsonify` and the debug toolbar. These are presentation only.
- Registration, login, logout, password hashing and the session. The user id is a parameter.
- The external recipe API (`generate_recipes`, which is not part of this model) and `return_recipe_details`.
- pint's internals:
  - the parsing of `str(amount) + unit`, prefixes, plurals and offset units are not modelled;
  - the registry is a map from exact unit names to a family and a factor;
  - `Raised` covers pint's undefined-unit error and any other escaping exception.
- The name `DimensionalityError` in processdata.py:88 is not imported by processdata.py itself. `ConvertUnits` assumes it reaches the module through `from model import *`. model.py is not part of this model.
- Database mechanics:
  - SQLAlchemy sessions, commits, row order and `.first()` over duplicate rows;
  - the tables are maps keyed so that a key holds at most one row;
  - the cooked and bookmark logs are sequences of (user, recipe) pairs without row ids;
  - the `input_date` timestamp is not kept.
- Request parsing: `float()` of form amounts, `int(recipe_id)`, `json.loads` of the payload, `button.split()`, and missing request arguments. The model receives the parsed values: reals, a recipe id, the payload's keys and its "used_ings" list, and the button words.
- A JSON payload whose "used_ings" entries lack a field is not modelled.
- Round2: models `float("%0.2f" % x)` as rounding half up on exact reals. Binary floating point and its representation error are not modelled, and amounts are unbounded reals.
- Concurrency and transactions. Each request runs sequentially.
- The error response a raised exception produces is not modelled. A `Failed` status stands for it.
- server.py:9 imports `update_cooked_recipe` and `return_db_ingredients` from a module `process_data`. The model binds them to `add_cooked_recipe` and `return_current_ingredients` of processdata.py (`AddCookedRecipe`, `ReturnCurrentIngredients`), which they evidently mean.
- A line whose conversion gives `None` (processdata.py:66) or whose row is missing (processdata.py:63) raises and ends the batch, after the rows already committed; it is not skipped.
- The density table is consulted before any direct conversion (processdata.py:83-92).
- Density rows are matched by exact name (processdata.py:76).
- CookRecipe, AddCookedRecipe: the payload's keys are a sequence and are assumed distinct, as the keys of a JSON object are; a sequence with a repeated key would count one extra pass per repetition.
- The nested loop of `add_cooked_recipe` applies each consumed line once per top-level payload key. The model keeps this as written. The payload's keys come from the front end, so whether more than one key is intended cannot be decided here.
