/**
 * The webshop's domain operations over the five tables: read-only
 * queries as functions of the tables, and the operations that change
 * the store as methods of `Store`.
 */
module Webshop {
  import opened Results
  import opened Schema
  import Text

  /** The field set a new product is made from (the `product_data` dictionary). */
  datatype ProductData = ProductData(name: string, description: string, price: real, quantity: int)

  /** Does the product's name or description contain `term`, ignoring case? */
  predicate Matches(p: Product, term: string)
  {
    Text.ContainsIgnoringCase(p.name, term) || Text.ContainsIgnoringCase(p.description, term)
  }

  /**
   * `search(term)`: the products whose name or description contains
   * `term` as a case-insensitive substring. The order of the rows is the
   * storage engine's and is not modelled.
   */
  function Search(products: map<Id, Product>, term: string): (r: map<Id, Product>)
    ensures forall p :: p in r <==>
      p in products && (Text.IsInfix(Text.Lower(term), Text.Lower(products[p].name)) ||
                        Text.IsInfix(Text.Lower(term), Text.Lower(products[p].description)))
    ensures forall p :: p in r ==> r[p] == products[p]
  {
    map p | p in products && Matches(products[p], term) :: products[p]
  }

  /** Only the lower-cased term matters: terms that differ in case find the same products. */
  lemma SearchIgnoresTermCase(products: map<Id, Product>, term1: string, term2: string)
    requires Text.Lower(term1) == Text.Lower(term2)
    ensures Search(products, term1) == Search(products, term2)
  {
  }

  /** Searching for the lower-cased term finds the same products as the term itself. */
  lemma SearchLowerTerm(products: map<Id, Product>, term: string)
    ensures Search(products, Text.Lower(term)) == Search(products, term)
  {
    Text.LowerIdempotent(term);
    SearchIgnoresTermCase(products, Text.Lower(term), term);
  }

  /** The empty term (pattern `%%`) matches every product. */
  lemma SearchEmptyTerm(products: map<Id, Product>)
    ensures Search(products, "") == products
  {
    forall p | p in products
      ensures p in Search(products, "")
    {
      assert Text.OccursAt("", Text.Lower(products[p].name), 0);
    }
  }

  /** A product whose name matches the term is found. */
  lemma SearchFindsByName(products: map<Id, Product>, term: string, p: Id)
    requires p in products && Text.IsInfix(Text.Lower(term), Text.Lower(products[p].name))
    ensures p in Search(products, term)
  {
  }

  /**
   * A product is not found when one letter of the lower-cased term is
   * missing from its lower-cased name, and one from its description.
   */
  lemma SearchSkips(products: map<Id, Product>, term: string, p: Id, inName: char, inDescription: char)
    requires p in products
    requires inName in Text.Lower(term) && inName !in Text.Lower(products[p].name)
    requires inDescription in Text.Lower(term) && inDescription !in Text.Lower(products[p].description)
    ensures p !in Search(products, term)
  {
    if Text.IsInfix(Text.Lower(term), Text.Lower(products[p].name)) {
      Text.InfixCharsOccur(Text.Lower(term), Text.Lower(products[p].name), inName);
    }
    if Text.IsInfix(Text.Lower(term), Text.Lower(products[p].description)) {
      Text.InfixCharsOccur(Text.Lower(term), Text.Lower(products[p].description), inDescription);
    }
  }

  /** `list_user_products(user_id)`: the user's `products` backref, after the user is looked up. */
  function ListUserProducts(users: map<Id, User>, products: map<Id, Product>, userId: Id): (r: Result<map<Id, Product>>)
    ensures r.Ok? <==> userId in users
    ensures r.Err? ==> r.error == DoesNotExist(UserTable)
    ensures r.Ok? ==> forall p :: p in r.value <==> p in products && products[p].owner == userId
    ensures r.Ok? ==> forall p :: p in r.value ==> r.value[p] == products[p]
  {
    match GetById(users, userId, UserTable)
    case Err(e) => Err(e)
    case Ok(_) => Ok(ProductsOf(products, userId))
  }

  /**
   * `list_products_per_tag(tag_id)`: the tag's `tagged_products` backref,
   * after the tag is looked up. The result holds join rows, not products.
   */
  function ListProductsPerTag(tags: map<Id, Tag>, productTags: map<Id, ProductTag>, tagId: Id): (r: Result<map<Id, ProductTag>>)
    ensures r.Ok? <==> tagId in tags
    ensures r.Err? ==> r.error == DoesNotExist(TagTable)
    ensures r.Ok? ==> forall row :: row in r.value <==> row in productTags && productTags[row].tag == tagId
    ensures r.Ok? ==> forall row :: row in r.value ==> r.value[row] == productTags[row]
  {
    match GetById(tags, tagId, TagTable)
    case Err(e) => Err(e)
    case Ok(_) => Ok(TaggedProducts(productTags, tagId))
  }

  /**
   * `validate_product_data(data)`: rejects an empty name or description
   * first, then a negative price or quantity; accepts everything else.
   */
  function ValidateProductData(data: ProductData): (r: Outcome)
    ensures r == Pass <==>
      data.name != [] && data.description != [] && data.price >= 0.0 && data.quantity >= 0
    ensures r == Fail(EmptyNameOrDescription) <==> data.name == [] || data.description == []
    ensures r == Fail(NegativePriceOrQuantity) <==>
      data.name != [] && data.description != [] && (data.price < 0.0 || data.quantity < 0)
  {
    if data.name == [] || data.description == [] then Fail(EmptyNameOrDescription)
    else if data.price < 0.0 || data.quantity < 0 then Fail(NegativePriceOrQuantity)
    else Pass
  }

  /** The product row `add_product_to_catalog` creates from a field set and an owner. */
  function NewProduct(data: ProductData, owner: Id): Product
  {
    Product(data.name, data.description, data.price, data.quantity, owner)
  }

  /** Every product's stock is non-negative (the shop's intended stock rule). */
  ghost predicate NonNegativeStock(products: map<Id, Product>)
  {
    forall p :: p in products ==> products[p].quantity >= 0
  }

  /** The store: one map per table, updated in place by the operations. */
  class Store {
    var users: map<Id, User>
    var products: map<Id, Product>
    var tags: map<Id, Tag>
    var productTags: map<Id, ProductTag>
    var transactions: map<Id, Transaction>

    ghost predicate Valid()
      reads this
    {
      Consistent(users, products, tags, productTags, transactions)
    }

    /** Freshly created tables: all empty. */
    constructor ()
      ensures Valid()
      ensures users == map[] && products == map[] && tags == map[]
      ensures productTags == map[] && transactions == map[]
    {
      users, products, tags := map[], map[], map[];
      productTags, transactions := map[], map[];
    }

    /** `User.create(...)`: fails if the name is taken, else inserts at a fresh id. */
    method CreateUser(name: string, address: string, billingInfo: string) returns (r: Result<Id>)
      requires Valid()
      modifies this`users
      ensures Valid()
      ensures r.Err? <==> exists u :: u in old(users) && old(users)[u].name == name
      ensures r.Err? ==> r.error == IntegrityError(UserTable) && users == old(users)
      ensures r.Ok? ==> r.value !in old(users) && users == old(users)[r.value := User(name, address, billingInfo)]
    {
      if exists u :: u in users && users[u].name == name {
        return Err(IntegrityError(UserTable));
      }
      var id := NextId(users);
      users := users[id := User(name, address, billingInfo)];
      r := Ok(id);
    }

    /** `Tag.create(name=...)`: fails if the name is taken, else inserts at a fresh id. */
    method CreateTag(name: string) returns (r: Result<Id>)
      requires Valid()
      modifies this`tags
      ensures Valid()
      ensures r.Err? <==> exists t :: t in old(tags) && old(tags)[t].name == name
      ensures r.Err? ==> r.error == IntegrityError(TagTable) && tags == old(tags)
      ensures r.Ok? ==> r.value !in old(tags) && tags == old(tags)[r.value := Tag(name)]
    {
      if exists t :: t in tags && tags[t].name == name {
        return Err(IntegrityError(TagTable));
      }
      var id := NextId(tags);
      tags := tags[id := Tag(name)];
      r := Ok(id);
    }

    /**
     * `add_product_to_catalog(user_id, product_data)`: looks the user up,
     * then inserts the product as given, owned by that user. The data is
     * not validated; only a quantity outside the `INTEGER` range is refused,
     * by the insert itself.
     */
    method AddProductToCatalog(userId: Id, data: ProductData) returns (r: Result<Id>)
      requires Valid()
      modifies this`products
      ensures Valid()
      ensures r.Ok? <==> userId in users && FitsInteger(data.quantity)
      ensures userId !in users ==> r == Err(DoesNotExist(UserTable))
      ensures userId in users && !FitsInteger(data.quantity) ==> r == Err(Overflow)
      ensures r.Err? ==> products == old(products)
      ensures r.Ok? ==> r.value !in old(products) && products == old(products)[r.value := NewProduct(data, userId)]
      ensures r.Ok? ==> r.value in ProductsOf(products, userId)
      ensures NonNegativeStock(old(products)) && ValidateProductData(data) == Pass ==> NonNegativeStock(products)
    {
      var user := GetById(users, userId, UserTable);
      if user.Err? {
        return Err(user.error);
      }
      if !FitsInteger(data.quantity) {
        return Err(Overflow);
      }
      var id := NextId(products);
      products := products[id := NewProduct(data, userId)];
      r := Ok(id);
    }

    /**
     * `update_stock(product_id, new_quantity)`: overwrites the product's
     * quantity with `newQuantity`, whatever its sign; saving a value
     * outside the `INTEGER` range fails and writes nothing.
     */
    method UpdateStock(productId: Id, newQuantity: int) returns (r: Outcome)
      requires Valid()
      modifies this`products
      ensures Valid()
      ensures r == Pass <==> productId in old(products) && FitsInteger(newQuantity)
      ensures productId !in old(products) ==> r == Fail(DoesNotExist(ProductTable))
      ensures productId in old(products) && !FitsInteger(newQuantity) ==> r == Fail(Overflow)
      ensures r.Fail? ==> products == old(products)
      ensures r == Pass ==> products == old(products)[productId := old(products)[productId].(quantity := newQuantity)]
      ensures NonNegativeStock(old(products)) && newQuantity >= 0 ==> NonNegativeStock(products)
    {
      var found := GetById(products, productId, ProductTable);
      if found.Err? {
        return Fail(found.error);
      }
      var product := found.value;
      product := product.(quantity := newQuantity);
      if !FitsInteger(product.quantity) {
        return Fail(Overflow);
      }
      products := products[productId := product];
      r := Pass;
    }

    /**
     * Does a purchase get as far as saving the lowered stock? The product
     * and the buyer exist, the stock covers the quantity, and the new
     * stock fits an `INTEGER`.
     */
    ghost predicate StockSaved(productId: Id, buyerId: Id, quantity: int)
      reads this
    {
      && productId in products && buyerId in users
      && quantity <= products[productId].quantity
      && FitsInteger(products[productId].quantity - quantity)
    }

    /**
     * `purchase_product(product_id, buyer_id, quantity)`: looks up the
     * product, then the buyer; refuses a quantity above the stock; else
     * saves the lowered stock and then records a transaction, which it
     * returns. The two writes are separate: when the transaction's
     * quantity does not fit an `INTEGER`, its insert fails after the
     * stock has been saved.
     */
    method PurchaseProduct(productId: Id, buyerId: Id, quantity: int) returns (r: Result<Id>)
      requires Valid()
      modifies this`products, this`transactions
      ensures Valid()
      ensures productId !in old(products) ==> r == Err(DoesNotExist(ProductTable))
      ensures productId in old(products) && buyerId !in users ==> r == Err(DoesNotExist(UserTable))
      ensures productId in old(products) && buyerId in users && old(products)[productId].quantity < quantity ==>
                r == Err(NotEnoughStock)
      ensures (productId in old(products) && buyerId in users && quantity <= old(products)[productId].quantity &&
               !FitsInteger(old(products)[productId].quantity - quantity)) ==> r == Err(Overflow)
      ensures old(StockSaved(productId, buyerId, quantity)) && !FitsInteger(quantity) ==> r == Err(Overflow)
      ensures r.Ok? <==> old(StockSaved(productId, buyerId, quantity)) && FitsInteger(quantity)
      ensures !old(StockSaved(productId, buyerId, quantity)) ==> products == old(products)
      ensures old(StockSaved(productId, buyerId, quantity)) ==>
                products == old(products)[productId := old(products)[productId].(quantity := old(products)[productId].quantity - quantity)]
      ensures old(StockSaved(productId, buyerId, quantity)) ==> products[productId].quantity >= 0
      ensures r.Err? ==> transactions == old(transactions)
      ensures r.Ok? ==> r.value !in old(transactions) &&
                        transactions == old(transactions)[r.value := Transaction(buyerId, productId, quantity)]
      ensures forall t :: t in old(transactions) ==> t in transactions && transactions[t] == old(transactions)[t]
      ensures NonNegativeStock(old(products)) ==> NonNegativeStock(products)
    {
      var found := GetById(products, productId, ProductTable);
      if found.Err? {
        return Err(found.error);
      }
      var buyer := GetById(users, buyerId, UserTable);
      if buyer.Err? {
        return Err(buyer.error);
      }
      var product := found.value;
      if product.quantity < quantity {
        return Err(NotEnoughStock);
      }
      product := product.(quantity := product.quantity - quantity);
      if !FitsInteger(product.quantity) {
        return Err(Overflow);
      }
      products := products[productId := product];
      if !FitsInteger(quantity) {
        return Err(Overflow);
      }
      var id := NextId(transactions);
      transactions := transactions[id := Transaction(buyerId, productId, quantity)];
      r := Ok(id);
    }

    /**
     * `remove_product(product_id)`: looks the product up, then deletes its
     * row. Join rows and transactions that name it are left in place.
     */
    method RemoveProduct(productId: Id) returns (r: Outcome)
      requires Valid()
      modifies this`products
      ensures Valid()
      ensures r == Pass <==> productId in old(products)
      ensures r.Fail? ==> r.error == DoesNotExist(ProductTable)
      ensures products == old(products) - {productId}
      ensures GetById(products, productId, ProductTable) == Err(DoesNotExist(ProductTable))
      ensures forall p :: p in old(products) && p != productId ==> p in products && products[p] == old(products)[p]
    {
      var found := GetById(products, productId, ProductTable);
      if found.Err? {
        return Fail(found.error);
      }
      products := products - {productId};
      r := Pass;
    }
  }
}
