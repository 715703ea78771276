/**
 * The product record in its two shapes: the stored entity, which carries a
 * cloud-sync flag, and the domain product the screens work with.
 */
module Domain {
  import opened Text

  /** A stored product. Prices are exact reals (the app uses Double);
      timestamps are milliseconds supplied by the caller. */
  datatype ProductEntity = ProductEntity(
    id: string,
    name: string,
    quantity: Int32,
    price: real,
    createdAt: int,
    updatedAt: int,
    syncedWithCloud: bool)

  /** A product as the view-models and exporters see it. */
  datatype Product = Product(
    id: string,
    name: string,
    quantity: Int32,
    price: real,
    createdAt: int,
    updatedAt: int)

  /** getTotalValue: the stock value of one product. */
  function TotalValue(p: Product): real {
    p.price * p.quantity as real
  }

  /** ProductEntity.toDomain: drops the sync flag, copies every other field. */
  function ToDomain(e: ProductEntity): (p: Product)
    ensures p.id == e.id && p.name == e.name && p.quantity == e.quantity && p.price == e.price
    ensures p.createdAt == e.createdAt && p.updatedAt == e.updatedAt
  {
    Product(e.id, e.name, e.quantity, e.price, e.createdAt, e.updatedAt)
  }

  /** Product.toEntity: copies every field; the sync flag takes the entity's
      default, false. */
  function ToEntity(p: Product): (e: ProductEntity)
    ensures e.id == p.id && e.name == p.name && e.quantity == p.quantity && e.price == p.price
    ensures e.createdAt == p.createdAt && e.updatedAt == p.updatedAt
    ensures !e.syncedWithCloud
  {
    ProductEntity(p.id, p.name, p.quantity, p.price, p.createdAt, p.updatedAt, false)
  }

  /** entities.map { it.toDomain() }. */
  function ToDomainList(es: seq<ProductEntity>): (ps: seq<Product>)
    ensures |ps| == |es| && forall i :: 0 <= i < |es| ==> ps[i] == ToDomain(es[i])
  {
    seq(|es|, i requires 0 <= i < |es| => ToDomain(es[i]))
  }

  /** Converting a product to an entity and back loses nothing. */
  lemma DomainRoundTrip(p: Product)
    ensures ToDomain(ToEntity(p)) == p
  {
  }

  /** Converting an entity to a product and back only resets the sync flag. */
  lemma EntityRoundTrip(e: ProductEntity)
    ensures ToEntity(ToDomain(e)) == e.(syncedWithCloud := false)
  {
  }

  /** sumOf { getTotalValue() }: the stock value of a list of products. */
  function StockValue(ps: seq<Product>): real {
    if ps == [] then 0.0 else StockValue(ps[..|ps| - 1]) + TotalValue(ps[|ps| - 1])
  }

  /** The stock value of two lists side by side is the sum of their values. */
  lemma {:induction false} StockValueAppend(ps: seq<Product>, qs: seq<Product>)
    ensures StockValue(ps + qs) == StockValue(ps) + StockValue(qs)
    decreases |qs|
  {
    if qs == [] {
      assert ps + qs == ps;
    } else {
      var n := |qs| - 1;
      assert (ps + qs)[..|ps + qs| - 1] == ps + qs[..n];
      StockValueAppend(ps, qs[..n]);
    }
  }

  /** With no negative quantity or price, as the product form enforces, the
      stock value is never negative and no single product is worth more than
      the whole list. */
  lemma {:induction false} StockValueBounds(ps: seq<Product>)
    requires forall i :: 0 <= i < |ps| ==> ps[i].quantity >= 0 && ps[i].price >= 0.0
    ensures StockValue(ps) >= 0.0
    ensures forall i :: 0 <= i < |ps| ==> 0.0 <= TotalValue(ps[i]) <= StockValue(ps)
  {
    if ps != [] {
      var n := |ps| - 1;
      StockValueBounds(ps[..n]);
      assert 0.0 <= TotalValue(ps[n]);
      forall i | 0 <= i < |ps| ensures 0.0 <= TotalValue(ps[i]) <= StockValue(ps) {
        if i < n {
          assert ps[..n][i] == ps[i];
        }
      }
    }
  }
}
