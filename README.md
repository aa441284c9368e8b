# Betsy webshop — a Dafny model of its domain operations

Betsy is a small marketplace. Users own products, products carry tags,
and buyers purchase products. A purchase lowers the stock and records a
transaction. The data lives in five peewee tables on SQLite: `User`,
`Product`, `Tag`, `ProductTag` and `Transaction`.

This project models the operations in `Betsy_Webshop/main.py` (search,
the two listings, adding a product, updating stock, purchasing, removing
a product, validating product data) over an in-memory model of those
five tables.

- `results.dfy` (module `Results`): the exceptions the operations raise.
  These are peewee's per-table `DoesNotExist`, the `IntegrityError` of a
  unique column, the two `ValueError`s of `purchase_product` and
  `validate_product_data`, and the `OverflowError` of writing an integer
  SQLite cannot store. It also holds `Result`/`Outcome`, which carry a
  value or an exception.
- `text.dfy` (module `Text`): the meaning of `ilike('%term%')`. Both
  sides are ASCII lower-cased and the term must be a substring. The
  executable search `Contains` is proved equal to the reference
  definition `IsInfix`.
- `schema.dfy` (module `Schema`): the five record types of
  `Betsy_Webshop/models.py`, with foreign keys held as row ids.
  - `Consistent` states the constraints that all operations keep.
  - `FitsInteger` is the signed 64-bit range of an SQLite `INTEGER`.
  - `GetById` models `get_by_id`.
  - `ProductsOf` and `TaggedProducts` are the backrefs `user.products`
    and `tag.tagged_products`.
  - `LinkedProducts` follows join rows to their products.
  - `NextId` is SQLite's choice of id for a new row: above every id in
    use, the largest plus one.
- `webshop.dfy` (module `Webshop`): the read-only operations are
  functions of the tables. The store is the class `Store`. It has one
  `map` field per table, and the operations that change it are methods
  with `modifies` frames. These frames name only the tables an operation
  writes.
- `scenarios.dfy` (module `Scenarios`): the data of
  `populate_test_database` as constants, with the outcomes that
  `test_betsy.py` expects stated as lemmas. Methods replay the unit
  tests and a purchase scenario against the method contracts, and
  return what the tests observe.

Behaviour of the code that the model keeps as written:

- Nothing enforces that stock stays non-negative.
  - `update_stock` stores any quantity, including a negative one.
  - `add_product_to_catalog` never calls `validate_product_data`.
  - The methods therefore state when `NonNegativeStock` is preserved: a
    purchase always preserves it; an update preserves it for a
    non-negative quantity; an added product preserves it when its data
    validates.
- `purchase_product` does not check that the quantity is positive. A
  purchase of a negative quantity passes the stock check, raises the
  stock and records a negative transaction (`PurchasesOnNewStore`
  shows this).
- Quantities are Python integers, but the `INTEGER` columns hold signed
  64-bit values. Writing any other value raises `OverflowError`, which
  the methods return as `Overflow`.
  - `update_stock` fails at `save()` and writes nothing.
  - `add_product_to_catalog` fails at the insert and writes nothing.
  - `purchase_product` can fail at either of its two writes. The
    lowered stock may not fit; then nothing is written. Otherwise the
    stock is saved first, and the transaction's quantity may still not
    fit. That happens for a quantity below the 64-bit minimum against a
    negative stock. The stock then stays lowered with no transaction
    recorded, because the two writes are not in one database
    transaction.
- `list_products_per_tag` returns `ProductTag` rows, not products. The
  console follows `product_tag.product` for each row. `LinkedProducts`
  models that step, including its `Product.DoesNotExist` for a join row
  whose product has been removed (`RemoveOnSeed` shows this).
- `remove_product` deletes only the product row. Join rows and
  transactions that name it stay in place. SQLite's foreign-key
  enforcement is off by default, so nothing cascades. `Consistent`
  therefore does not require product references to resolve.

## Model

| member | source | states |
|---|---|---|
| `Schema.GetById` | Betsy_Webshop/main.py:56-57 | a lookup succeeds exactly when the id is in the table and returns that row; otherwise it raises the table's `DoesNotExist` |
| `Schema.ProductsOf` | Betsy_Webshop/models.py:23 | `user.products` holds exactly the products whose owner is the user, with their rows unchanged |
| `Schema.TaggedProducts` | Betsy_Webshop/models.py:32 | `tag.tagged_products` holds exactly the join rows that name the tag, with their rows unchanged |
| `Schema.LinkedProducts` | Betsy_Webshop/main.py:260-263 | following join rows fails with `DoesNotExist(ProductTable)` exactly when some row names a product that is not in the table; otherwise each join row yields the product row it names |
| `Schema.Consistent` | Betsy_Webshop/models.py:12-38 | the unique user and tag names, the owner, tag and buyer foreign keys, and stored quantities within the 64-bit `INTEGER` range |
| `Schema.OwnerBackrefPartitions` | Betsy_Webshop/models.py:18-23 | in a consistent store, each product has an existing owner; it is in its owner's `products` and in no other user's |
| `Schema.NextId` | Betsy_Webshop/main.py:40 | a new row's id is greater than every id in use: the largest id plus one when that is positive, else 1 |
| `Text.ContainsIsInfix` | Betsy_Webshop/main.py:16-18 | the executable substring search returns true exactly when the term occurs at some position of the text |
| `Text.ContainsIgnoringCase` | Betsy_Webshop/main.py:17 | `ilike('%term%')` holds exactly when the lower-cased term occurs in the lower-cased text |
| `Text.LowerIdempotent` | Betsy_Webshop/main.py:17 | lower-casing twice gives the same as lower-casing once |
| `Webshop.SearchLowerTerm` | Betsy_Webshop/main.py:17 | searching for the lower-cased term finds exactly what the term itself finds |
| `Webshop.Search` | Betsy_Webshop/main.py:12-19 | the result holds exactly the products whose lower-cased name or description contains the lower-cased term, with their rows unchanged |
| `Webshop.SearchIgnoresTermCase` | Betsy_Webshop/main.py:17 | two terms that agree after lower-casing find the same products |
| `Webshop.SearchEmptyTerm` | Betsy_Webshop/main.py:17 | the empty term finds every product |
| `Webshop.SearchFindsByName` | Betsy_Webshop/main.py:17 | a product whose name contains the term, ignoring case, is found |
| `Webshop.SearchSkips` | Betsy_Webshop/main.py:17 | a product is not found when both its name and its description lack some letter of the lower-cased term |
| `Webshop.ListUserProducts` | Betsy_Webshop/main.py:22-25 | fails with `DoesNotExist(UserTable)` exactly when the user is absent; otherwise returns exactly the products that user owns |
| `Webshop.ListProductsPerTag` | Betsy_Webshop/main.py:28-31 | fails with `DoesNotExist(TagTable)` exactly when the tag is absent; otherwise returns exactly the join rows naming that tag |
| `Webshop.ValidateProductData` | Betsy_Webshop/main.py:75-81 | passes exactly when name and description are non-empty and price and quantity are non-negative; the empty-field error takes precedence over the negative-number error |
| `Webshop.Store.constructor` | Betsy_Webshop/main.py:212-215 | freshly created tables are empty and consistent |
| `Webshop.Store.CreateUser` | Betsy_Webshop/models.py:12-15 | fails with `IntegrityError(UserTable)` exactly when the name is taken, changing nothing; otherwise adds the user at a fresh id; keeps the store consistent |
| `Webshop.Store.CreateTag` | Betsy_Webshop/models.py:26-27 | fails with `IntegrityError(TagTable)` exactly when the name is taken, changing nothing; otherwise adds the tag at a fresh id; keeps the store consistent |
| `Webshop.Store.AddProductToCatalog` | Betsy_Webshop/main.py:34-41 | fails with `DoesNotExist(UserTable)` when the user is absent, then with `Overflow` when the quantity does not fit an `INTEGER`, changing nothing either way; otherwise adds the product as given, unvalidated, at a fresh id in that user's `products`; only the product table changes |
| `Webshop.Store.UpdateStock` | Betsy_Webshop/main.py:44-48 | fails with `DoesNotExist(ProductTable)` when the product is absent, then with `Overflow` when the new quantity does not fit an `INTEGER`, changing nothing either way; otherwise sets that product's quantity to exactly the new value, of any sign, and changes nothing else |
| `Webshop.Store.PurchaseProduct` | Betsy_Webshop/main.py:51-66 | checks the product, then the buyer, then the stock, then that the lowered stock fits an `INTEGER`; each failure changes nothing. Otherwise it saves the lowered stock, which is 0 or more, in that product only. It then adds exactly one transaction (buyer, product, quantity) at a fresh id and returns it, or fails with `Overflow`, keeping the lowered stock, when the quantity does not fit. Existing transactions never change |
| `Webshop.Store.RemoveProduct` | Betsy_Webshop/main.py:69-72 | fails with `DoesNotExist(ProductTable)` exactly when the product is absent; afterwards the id no longer resolves and every other product is unchanged |
| `Scenarios.SeedNamesAreUnique` | Betsy_Webshop/main.py:125-173 | the seeded user names and tag names are distinct |
| `Scenarios.SeedReferencesResolve` | Betsy_Webshop/main.py:134-199 | every seeded owner, tag and buyer reference names an existing row |
| `Scenarios.SeedQuantitiesFit` | Betsy_Webshop/main.py:134-199 | every seeded stock and purchased quantity fits an `INTEGER`, and no stock is negative |
| `Scenarios.SeedIsConsistent` | Betsy_Webshop/main.py:114-199 | the seed data satisfies the schema's constraints and has no negative stock |
| `Scenarios.SeededStore` | Betsy_Webshop/main.py:114-199 | a store loaded with the seed data is consistent |
| `Scenarios.SearchHoodie` | Betsy_Webshop/test_betsy.py:44-47 | searching "Hoodie" in the seed data finds exactly product 1, the Hoodie |
| `Scenarios.SearchIgnoresCase` | Betsy_Webshop/main.py:148-154 | searching "sock" finds the product named "Socks" |
| `Scenarios.ListJoProducts` | Betsy_Webshop/test_betsy.py:49-51 | user 1 owns exactly two products, ids 1 and 2 |
| `Scenarios.ListWinterProducts` | Betsy_Webshop/test_betsy.py:53-55 | tag 1 ("Winter") has exactly join rows 1 and 4, which lead to the Hoodie and the Gloves |
| `Scenarios.AddProductOnSeed` | Betsy_Webshop/test_betsy.py:57-65 | adding the test product to user 1 stores it under the name "Test Product" |
| `Scenarios.UpdateStockOnSeed` | Betsy_Webshop/test_betsy.py:67-70 | after setting product 1's stock to 20, a lookup returns quantity 20 |
| `Scenarios.PurchaseOnSeed` | Betsy_Webshop/test_betsy.py:72-74 | user 1 buying one Hoodie yields a transaction of quantity 1 and leaves 9 in stock |
| `Scenarios.RemoveOnSeed` | Betsy_Webshop/test_betsy.py:76-79 | after removing product 1, looking it up raises `DoesNotExist`, and so does following tag 1's join rows |
| `Scenarios.PurchasesOnNewStore` | Betsy_Webshop/main.py:51-66 | buying 3 of 10 records 3 and leaves 7; buying 8 more fails with `NotEnoughStock` and leaves 7; buying -2 raises the stock to 9 |
| `Scenarios.RefusalsOnNewStore` | Betsy_Webshop/main.py:44-48 | a stock beyond the `INTEGER` range fails with `Overflow`; a removed product cannot be updated; a second user named Jo is refused |
| `Scenarios.ValidationVerdicts` | Betsy_Webshop/test_betsy.py:81-98 | the test's valid data passes; an empty name and a price of -1 fail with their errors; price 0 with quantity 0 passes |

## Left out

- The console loop `main()` (Betsy_Webshop/main.py:218-319) is left out: it is interactive input and printing only.
- `WhooshIndex` is left out. It wraps the Whoosh full-text library, whose fuzzy query semantics are not part of this model.
- `print_all_products` is left out: it only prints (and calls itself without end).
- The SQLite files and directories behind `init_database`, `clear_database` and `create_tables` are left out. The `Store` constructor stands for the empty tables that `create_tables` leaves. `populate_test_database` is not modelled as an operation. The data `populate_test_database` inserts is kept as constants in `Scenarios`. Its `Tag.get_or_create` and `ProductTag.create` calls have no counterpart, since no operation of the shop inserts join rows.
- Webshop.Search: `%` and `_` inside the term are wildcards in SQL `LIKE`; the model treats them as ordinary characters. Case folding is ASCII-only, as in SQLite. The order of the result rows is not modelled.
- Webshop.ValidateProductData: the dictionary is a record with the four fields. A missing key (`KeyError`) and Python truthiness of values other than strings are not modelled.
- Prices are reals, not floating-point numbers. Only their sign matters to any operation.
- Webshop.Store.RemoveProduct: cascades to join rows or transactions are not modelled. They depend on the storage engine's foreign-key setting, and the model removes the product row only.
- Concurrency is not modelled: the code is single-threaded and each method runs to completion. Each single write either completes or fails as a whole.
- Schema.GetById: an id outside the 64-bit range makes the lookup raise `OverflowError` rather than `DoesNotExist`. The model returns `DoesNotExist` for it.
- Schema.NextId: when the largest id is already the 64-bit maximum, SQLite picks an unused id at random. The model returns the next, unbounded id.
- Schema.LinkedProducts: the console prints the products of the rows before a dangling one and then reports the error. The model returns only the error, and the order of the rows is not modelled.
