/**
 * The example data the shop seeds its database with, and the outcomes
 * its unit tests expect, stated as lemmas about the model.
 */
module Scenarios {
  import opened Results
  import opened Schema
  import opened Webshop
  import Text

  /** Users 1 to 3: Jo, Lisa, Max. */
  function SeedUsers(): map<Id, User>
  {
    map[1 := User("Jo", "Palingstraat 13", "Visa 1234"),
        2 := User("Lisa", "Zoutstraat 55", "Mastercard 5678"),
        3 := User("Max", "Vestdijk 36", "American Express 6789")]
  }

  function Hoodie(): Product { Product("Hoodie", "Warm and cozy", 109.99, 10, 1) }
  function Gloves(): Product { Product("Gloves", "Stylish and warm", 29.99, 15, 1) }
  function Socks(): Product { Product("Socks", "Warm and stylish", 14.99, 25, 3) }
  function Coat(): Product { Product("Coat", "Waterproof and warm", 199.99, 5, 2) }
  function Shirt(): Product { Product("Shirt", "Stylish and colourful", 129.99, 5, 3) }

  /** Products 1 to 5, in creation order. */
  function SeedProducts(): map<Id, Product>
  {
    map[1 := Hoodie(), 2 := Gloves(), 3 := Socks(), 4 := Coat(), 5 := Shirt()]
  }

  /** Tags 1 to 3: Winter, Clothing, Outerwear. */
  function SeedTags(): map<Id, Tag>
  {
    map[1 := Tag("Winter"), 2 := Tag("Clothing"), 3 := Tag("Outerwear")]
  }

  /** The nine join rows, in creation order. */
  function SeedProductTags(): map<Id, ProductTag>
  {
    map[1 := ProductTag(1, 1), 2 := ProductTag(1, 2), 3 := ProductTag(1, 3),
        4 := ProductTag(2, 1), 5 := ProductTag(2, 3), 6 := ProductTag(3, 2),
        7 := ProductTag(4, 2), 8 := ProductTag(4, 3), 9 := ProductTag(5, 2)]
  }

  /** The three seeded purchases. */
  function SeedTransactions(): map<Id, Transaction>
  {
    map[1 := Transaction(1, 1, 1), 2 := Transaction(1, 2, 2), 3 := Transaction(2, 3, 5)]
  }

  /** The seeded user names and tag names are distinct. */
  lemma SeedNamesAreUnique()
    ensures UniqueUserNames(SeedUsers()) && UniqueTagNames(SeedTags())
  {
  }

  /** Every seeded owner, tag and buyer reference resolves. */
  lemma SeedReferencesResolve()
    ensures forall p :: p in SeedProducts() ==> SeedProducts()[p].owner in SeedUsers()
    ensures forall r :: r in SeedProductTags() ==> SeedProductTags()[r].tag in SeedTags()
    ensures forall t :: t in SeedTransactions() ==> SeedTransactions()[t].buyer in SeedUsers()
  {
  }

  /** Every seeded stock and purchased quantity fits an `INTEGER`, and no stock is negative. */
  lemma SeedQuantitiesFit()
    ensures forall p :: p in SeedProducts() ==> FitsInteger(SeedProducts()[p].quantity)
    ensures forall t :: t in SeedTransactions() ==> FitsInteger(SeedTransactions()[t].quantity)
    ensures NonNegativeStock(SeedProducts())
  {
  }

  /** The seed data satisfies the schema's constraints, and every stock is non-negative. */
  lemma SeedIsConsistent()
    ensures Consistent(SeedUsers(), SeedProducts(), SeedTags(), SeedProductTags(), SeedTransactions())
    ensures NonNegativeStock(SeedProducts())
  {
    SeedNamesAreUnique();
    SeedReferencesResolve();
    SeedQuantitiesFit();
  }

  /** The lower-cased term "Hoodie" and the letters used to rule products out. */
  lemma HoodieTerm()
    ensures Text.Lower("Hoodie") == "hoodie"
    ensures 'h' in Text.Lower("Hoodie") && 'o' in Text.Lower("Hoodie") && 'e' in Text.Lower("Hoodie")
  {
    assert Text.Lower("Hoodie") == "hoodie";
  }

  /** "Hoodie" does not find a seeded row that lacks one of its letters in its name and one in its description. */
  lemma HoodieMisses(p: Id, row: Product, inName: char, inDescription: char)
    requires p in SeedProducts() && SeedProducts()[p] == row
    requires inName in "hoodie" && inName !in Text.Lower(row.name)
    requires inDescription in "hoodie" && inDescription !in Text.Lower(row.description)
    ensures p !in Search(SeedProducts(), "Hoodie")
  {
    HoodieTerm();
    SearchSkips(SeedProducts(), "Hoodie", p, inName, inDescription);
  }

  /**
   * The letters of "hoodie" that the other products' lower-cased names
   * and descriptions lack.
   */
  lemma OthersLackHoodieLetters()
    ensures 'h' !in Text.Lower("Gloves") && 'o' !in Text.Lower("Stylish and warm")
    ensures 'h' !in Text.Lower("Socks") && 'o' !in Text.Lower("Warm and stylish")
    ensures 'h' !in Text.Lower("Coat") && 'h' !in Text.Lower("Waterproof and warm")
    ensures 'o' !in Text.Lower("Shirt") && 'e' !in Text.Lower("Stylish and colourful")
  {
    Text.LowerLacks("Gloves", 'h');
    Text.LowerLacks("Stylish and warm", 'o');
    Text.LowerLacks("Socks", 'h');
    Text.LowerLacks("Warm and stylish", 'o');
    Text.LowerLacks("Coat", 'h');
    Text.LowerLacks("Waterproof and warm", 'h');
    Text.LowerLacks("Shirt", 'o');
    Text.LowerLacks("Stylish and colourful", 'e');
  }

  /** "Hoodie" finds none of the other seeded products. */
  lemma HoodieMissesOthers()
    ensures 2 !in Search(SeedProducts(), "Hoodie") && 3 !in Search(SeedProducts(), "Hoodie")
    ensures 4 !in Search(SeedProducts(), "Hoodie") && 5 !in Search(SeedProducts(), "Hoodie")
  {
    OthersLackHoodieLetters();
    HoodieMisses(2, Gloves(), 'h', 'o');
    HoodieMisses(3, Socks(), 'h', 'o');
    HoodieMisses(4, Coat(), 'h', 'h');
    HoodieMisses(5, Shirt(), 'o', 'e');
  }

  lemma HoodieFindsHoodie()
    ensures 1 in Search(SeedProducts(), "Hoodie")
  {
    HoodieTerm();
    assert Text.OccursAt("hoodie", Text.Lower(Hoodie().name), 0);
    SearchFindsByName(SeedProducts(), "Hoodie", 1);
  }

  /** Searching "Hoodie" finds exactly the Hoodie. */
  lemma SearchHoodie()
    ensures Search(SeedProducts(), "Hoodie").Keys == {1}
  {
    HoodieFindsHoodie();
    HoodieMissesOthers();
    assert SeedProducts().Keys == {1, 2, 3, 4, 5};
    OnlyFirstKey(Search(SeedProducts(), "Hoodie"));
  }

  /** A map over ids 1 to 5 that holds 1 and none of 2 to 5 has the single key 1. */
  lemma OnlyFirstKey<V>(r: map<Id, V>)
    requires r.Keys <= {1, 2, 3, 4, 5} && 1 in r
    requires 2 !in r && 3 !in r && 4 !in r && 5 !in r
    ensures r.Keys == {1}
  {
  }

  /** Searching "sock" finds the Socks: the match ignores case. */
  lemma SearchIgnoresCase()
    ensures 3 in Search(SeedProducts(), "sock")
  {
    assert Text.Lower("sock") == "sock";
    assert Text.Lower("Socks") == "socks";
    assert Text.OccursAt("sock", "socks", 0);
    SearchFindsByName(SeedProducts(), "sock", 3);
  }

  /** Jo (user 1) owns two products, the Hoodie and the Gloves. */
  lemma ListJoProducts()
    ensures ListUserProducts(SeedUsers(), SeedProducts(), 1).Ok?
    ensures ListUserProducts(SeedUsers(), SeedProducts(), 1).value.Keys == {1, 2}
  {
  }

  /** Tag 1 ("Winter") has two join rows, leading to the Hoodie and the Gloves. */
  lemma ListWinterProducts()
    ensures ListProductsPerTag(SeedTags(), SeedProductTags(), 1).Ok?
    ensures ListProductsPerTag(SeedTags(), SeedProductTags(), 1).value.Keys == {1, 4}
    ensures LinkedProducts(SeedProducts(), ListProductsPerTag(SeedTags(), SeedProductTags(), 1).value)
            == Ok(map[1 := Hoodie(), 4 := Gloves()])
  {
    var rows := ListProductsPerTag(SeedTags(), SeedProductTags(), 1).value;
    assert rows.Keys == {1, 4};
    assert rows == map[1 := ProductTag(1, 1), 4 := ProductTag(2, 1)];
    var linked := LinkedProducts(SeedProducts(), rows);
    assert linked.Ok? && linked.value.Keys == {1, 4};
    assert linked.value[1] == Hoodie() && linked.value[4] == Gloves();
    assert linked.value == map[1 := Hoodie(), 4 := Gloves()];
  }

  /** The validator's verdicts on the test data. */
  lemma ValidationVerdicts()
    ensures ValidateProductData(ProductData("Valid Product", "A valid product", 10.0, 5)) == Pass
    ensures ValidateProductData(ProductData("", "A valid product", 10.0, 5)) == Fail(EmptyNameOrDescription)
    ensures ValidateProductData(ProductData("Valid Product", "A valid product", -1.0, 5)) == Fail(NegativePriceOrQuantity)
    ensures ValidateProductData(ProductData("x", "x", 0.0, 0)) == Pass
  {
  }

  /** A new store with one user, Jo, who offers 10 Hoodies. */
  method StoreWithHoodie() returns (store: Store, jo: Id, hoodie: Id)
    ensures fresh(store) && store.Valid()
    ensures store.users == map[jo := User("Jo", "Palingstraat 13", "Visa 1234")]
    ensures store.products == map[hoodie := Product("Hoodie", "Warm and cozy", 109.99, 10, jo)]
    ensures store.tags == map[] && store.productTags == map[] && store.transactions == map[]
  {
    store := new Store();
    var user := store.CreateUser("Jo", "Palingstraat 13", "Visa 1234");
    jo := user.value;
    var product := store.AddProductToCatalog(jo, ProductData("Hoodie", "Warm and cozy", 109.99, 10));
    hoodie := product.value;
  }

  /**
   * Jo buys 3 of the 10 Hoodies: the stock drops to 7 and the transaction
   * records 3. Buying 8 more is refused and changes nothing. A purchase
   * of -2 passes the stock check and raises the stock to 9.
   */
  method PurchasesOnNewStore() returns (bought: int, afterBuy: int, refusal: Result<Id>, afterRefusal: int,
                                       afterNegative: int)
    ensures bought == 3 && afterBuy == 7
    ensures refusal == Err(NotEnoughStock) && afterRefusal == 7
    ensures afterNegative == 9
  {
    var store, jo, hoodie := StoreWithHoodie();
    var purchase := store.PurchaseProduct(hoodie, jo, 3);
    bought, afterBuy := store.transactions[purchase.value].quantity, store.products[hoodie].quantity;
    refusal := store.PurchaseProduct(hoodie, jo, 8);
    afterRefusal := store.products[hoodie].quantity;
    var negative := store.PurchaseProduct(hoodie, jo, -2);
    afterNegative := store.products[hoodie].quantity;
  }

  /**
   * A stock beyond the `INTEGER` range is refused. After removal the
   * Hoodie cannot be updated, and a second user named Jo is refused.
   */
  method RefusalsOnNewStore() returns (tooLarge: Outcome, afterRemoval: Outcome, duplicate: Result<Id>)
    ensures tooLarge == Fail(Overflow)
    ensures afterRemoval == Fail(DoesNotExist(ProductTable))
    ensures duplicate == Err(IntegrityError(UserTable))
  {
    var store, jo, hoodie := StoreWithHoodie();
    tooLarge := store.UpdateStock(hoodie, MaxInteger + 1);
    var removed := store.RemoveProduct(hoodie);
    afterRemoval := store.UpdateStock(hoodie, 20);
    duplicate := store.CreateUser("Jo", "Zoutstraat 55", "Visa 1234");
  }

  /** A store holding the seed data. */
  method SeededStore() returns (store: Store)
    ensures fresh(store) && store.Valid()
    ensures store.users == SeedUsers() && store.products == SeedProducts() && store.tags == SeedTags()
    ensures store.productTags == SeedProductTags() && store.transactions == SeedTransactions()
  {
    store := new Store();
    store.users, store.products, store.tags := SeedUsers(), SeedProducts(), SeedTags();
    store.productTags, store.transactions := SeedProductTags(), SeedTransactions();
    SeedIsConsistent();
  }

  /** Adding a product to user 1's catalog stores it under the given name. */
  method AddProductOnSeed() returns (name: string)
    ensures name == "Test Product"
  {
    var store := SeededStore();
    var r := store.AddProductToCatalog(1, ProductData("Test Product", "A test product", 10.0, 5));
    name := store.products[r.value].name;
  }

  /** Setting product 1's stock to 20 makes a lookup return 20. */
  method UpdateStockOnSeed() returns (quantity: int)
    ensures quantity == 20
  {
    var store := SeededStore();
    var r := store.UpdateStock(1, 20);
    var product := GetById(store.products, 1, ProductTable);
    quantity := product.value.quantity;
  }

  /** User 1 buying one Hoodie yields a transaction of quantity 1 and leaves 9 in stock. */
  method PurchaseOnSeed() returns (bought: int, stock: int)
    ensures bought == 1 && stock == 9
  {
    var store := SeededStore();
    assert store.StockSaved(1, 1, 1) by {
      assert store.products[1] == Hoodie();
    }
    var r := store.PurchaseProduct(1, 1, 1);
    bought, stock := store.transactions[r.value].quantity, store.products[1].quantity;
  }

  /**
   * After removing product 1, looking it up raises `DoesNotExist`, and so
   * does following tag 1's join rows, one of which still names it.
   */
  method RemoveOnSeed() returns (lookup: Result<Product>, winter: Result<map<Id, Product>>)
    ensures lookup == Err(DoesNotExist(ProductTable))
    ensures winter == Err(DoesNotExist(ProductTable))
  {
    var store := SeededStore();
    var r := store.RemoveProduct(1);
    lookup := GetById(store.products, 1, ProductTable);
    var rows := ListProductsPerTag(store.tags, store.productTags, 1);
    assert 1 in rows.value && rows.value[1].product == 1;
    winter := LinkedProducts(store.products, rows.value);
  }
}
