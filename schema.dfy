/**
 * The five tables of the webshop's relational schema. A row is a value;
 * a table is a map from row id to row; a foreign key is the id of a row
 * in another table.
 */
module Schema {
  import opened Results

  /** Row ids, the integer primary keys the storage engine assigns. */
  type Id = int

  /** The range of an SQLite `INTEGER`: signed 64-bit. */
  const MinInteger: int := -0x8000_0000_0000_0000
  const MaxInteger: int := 0x7fff_ffff_ffff_ffff

  /** Can `n` be stored in an `INTEGER` column? Writing any other value raises `OverflowError`. */
  predicate FitsInteger(n: int)
  {
    MinInteger <= n <= MaxInteger
  }

  datatype User = User(name: string, address: string, billingInfo: string)

  /** `price` is a float column; only its sign matters to the model, so it is a real. */
  datatype Product = Product(name: string, description: string, price: real, quantity: int, owner: Id)

  datatype Tag = Tag(name: string)

  /** A join row: one product carries one tag. */
  datatype ProductTag = ProductTag(product: Id, tag: Id)

  /** A completed purchase. */
  datatype Transaction = Transaction(buyer: Id, product: Id, quantity: int)

  /** No two users share a name (`unique=True` on `User.name`). */
  ghost predicate UniqueUserNames(users: map<Id, User>)
  {
    forall a, b :: a in users && b in users && users[a].name == users[b].name ==> a == b
  }

  /** No two tags share a name (`unique=True` on `Tag.name`). */
  ghost predicate UniqueTagNames(tags: map<Id, Tag>)
  {
    forall a, b :: a in tags && b in tags && tags[a].name == tags[b].name ==> a == b
  }

  /**
   * The constraints every operation of the shop keeps: unique names,
   * foreign keys into the tables no operation deletes from (users, tags),
   * and stored quantities within the `INTEGER` range. Keys into the
   * product table are not included: removing a product leaves the join
   * rows and transactions that name it in place.
   */
  ghost predicate Consistent(users: map<Id, User>, products: map<Id, Product>, tags: map<Id, Tag>,
                             productTags: map<Id, ProductTag>, transactions: map<Id, Transaction>)
  {
    && UniqueUserNames(users)
    && UniqueTagNames(tags)
    && (forall p :: p in products ==> products[p].owner in users)
    && (forall r :: r in productTags ==> productTags[r].tag in tags)
    && (forall t :: t in transactions ==> transactions[t].buyer in users)
    && (forall p :: p in products ==> FitsInteger(products[p].quantity))
    && (forall t :: t in transactions ==> FitsInteger(transactions[t].quantity))
  }

  /** `Model.get_by_id`: the row with the given id, or the table's `DoesNotExist`. */
  function GetById<T>(table: map<Id, T>, id: Id, which: Table): (r: Result<T>)
    ensures r.Ok? <==> id in table
    ensures r.Ok? ==> r.value == table[id]
    ensures r.Err? ==> r.error == DoesNotExist(which)
  {
    if id in table then Ok(table[id]) else Err(DoesNotExist(which))
  }

  /** The backref `user.products`: the products whose owner is the user. */
  function ProductsOf(products: map<Id, Product>, user: Id): (r: map<Id, Product>)
    ensures forall p :: p in r <==> p in products && products[p].owner == user
    ensures forall p :: p in r ==> r[p] == products[p]
  {
    map p | p in products && products[p].owner == user :: products[p]
  }

  /** The backref `tag.tagged_products`: the join rows (not the products) that name the tag. */
  function TaggedProducts(productTags: map<Id, ProductTag>, tag: Id): (r: map<Id, ProductTag>)
    ensures forall row :: row in r <==> row in productTags && productTags[row].tag == tag
    ensures forall row :: row in r ==> r[row] == productTags[row]
  {
    map row | row in productTags && productTags[row].tag == tag :: productTags[row]
  }

  /**
   * Following each join row to its product (`product_tag.product`): the
   * product row each join row names, keyed by the join row. Loading a
   * product that has been removed raises `Product.DoesNotExist`.
   */
  function LinkedProducts(products: map<Id, Product>, rows: map<Id, ProductTag>): (r: Result<map<Id, Product>>)
    ensures r.Ok? <==> forall row :: row in rows ==> rows[row].product in products
    ensures r.Err? ==> r.error == DoesNotExist(ProductTable)
    ensures r.Ok? ==> r.value.Keys == rows.Keys
    ensures r.Ok? ==> forall row :: row in rows ==> r.value[row] == products[rows[row].product]
  {
    if forall row :: row in rows ==> rows[row].product in products then
      Ok(map row | row in rows :: products[rows[row].product])
    else
      Err(DoesNotExist(ProductTable))
  }

  /**
   * In a consistent store every product belongs to exactly one user's
   * `products` backref: that of its owner.
   */
  lemma OwnerBackrefPartitions(users: map<Id, User>, products: map<Id, Product>, tags: map<Id, Tag>,
                               productTags: map<Id, ProductTag>, transactions: map<Id, Transaction>, p: Id)
    requires Consistent(users, products, tags, productTags, transactions)
    requires p in products
    ensures products[p].owner in users && p in ProductsOf(products, products[p].owner)
    ensures forall u :: p in ProductsOf(products, u) ==> u == products[p].owner
  {
  }

  /**
   * The id SQLite gives a new row of an integer-primary-key table: greater
   * than every id in use; the largest id plus one when that is positive,
   * else 1.
   */
  method NextId<T>(table: map<Id, T>) returns (id: Id)
    ensures id !in table && 1 <= id
    ensures forall k :: k in table ==> k < id
    ensures id == 1 || id - 1 in table
  {
    id := 1;
    var unseen := table.Keys;
    while exists k :: k in unseen
      invariant unseen <= table.Keys && 1 <= id
      invariant forall seen :: seen in table && seen !in unseen ==> seen < id
      invariant id == 1 || (id - 1 in table && id - 1 !in unseen)
      decreases unseen
    {
      var k :| k in unseen;
      if id <= k {
        id := k + 1;
      }
      unseen := unseen - {k};
    }
  }
}
