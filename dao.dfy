/**
 * ProductDaoImpl: the in-memory product table. The table is one list that
 * every mutator replaces with an edited copy; reads look at the current
 * list. Nothing enforces unique ids: insert appends blindly, lookups and
 * updates use the first record with the id, deletes remove all of them.
 */
module Dao {
  import opened Wrappers
  import opened Text
  import opened Seqs
  import opened Domain

  /** `table[k]` is the first record whose id is `id`. */
  predicate IsFirstWithId(table: seq<ProductEntity>, k: int, id: string) {
    0 <= k < |table| && table[k].id == id && forall j :: 0 <= j < k ==> table[j].id != id
  }

  predicate HasId(table: seq<ProductEntity>, id: string) {
    exists j :: 0 <= j < |table| && table[j].id == id
  }

  /** No two records share an id. */
  predicate UniqueIds(table: seq<ProductEntity>) {
    forall i, j :: 0 <= i < |table| && 0 <= j < |table| && table[i].id == table[j].id ==> i == j
  }

  /** indexOfFirst { it.id == id }: the first position holding the id, or -1. */
  function IndexOfId(table: seq<ProductEntity>, id: string): (k: int)
    ensures -1 <= k < |table|
    ensures k >= 0 ==> IsFirstWithId(table, k, id)
    ensures k < 0 <==> !HasId(table, id)
  {
    if table == [] then -1
    else if table[0].id == id then 0
    else
      var k := IndexOfId(table[1..], id);
      assert forall j :: 1 <= j < |table| ==> table[j] == table[1..][j - 1];
      if k < 0 then -1 else k + 1
  }

  /** find { it.id == id }: the first record with the id, if any. */
  function FindById(table: seq<ProductEntity>, id: string): (r: Option<ProductEntity>)
    ensures r.None? <==> !HasId(table, id)
    ensures r.Some? ==> exists k :: IsFirstWithId(table, k, id) && table[k] == r.value
  {
    var k := IndexOfId(table, id);
    if k < 0 then None else Some(table[k])
  }

  /** updateProduct: the first record with the record's id is replaced;
      every other position, and the length, stay as they were. */
  function UpdateFirst(table: seq<ProductEntity>, e: ProductEntity): (r: seq<ProductEntity>)
    ensures |r| == |table|
    ensures forall j :: 0 <= j < |table| ==> r[j] == if IsFirstWithId(table, j, e.id) then e else table[j]
    ensures forall j :: 0 <= j < |table| ==> r[j].id == table[j].id
    ensures !HasId(table, e.id) ==> r == table
  {
    var k := IndexOfId(table, e.id);
    if k >= 0 then table[k := e] else table
  }

  predicate DifferentId(id: string, e: ProductEntity) { e.id != id }

  /** removeAll { it.id == id }. */
  function RemoveAllById(table: seq<ProductEntity>, id: string): seq<ProductEntity> {
    Filter(table, e => DifferentId(id, e))
  }

  /** Deleting removes every record with the id and nothing else, keeps the
      order of the rest, and is a no-op when the id is absent. */
  lemma RemoveAllByIdSpec(table: seq<ProductEntity>, id: string)
    ensures forall j :: 0 <= j < |RemoveAllById(table, id)| ==> RemoveAllById(table, id)[j].id != id
    ensures forall j :: 0 <= j < |table| && table[j].id != id ==> table[j] in RemoveAllById(table, id)
    ensures IsSubsequence(RemoveAllById(table, id), table)
    ensures forall e :: multiset(RemoveAllById(table, id))[e] == if e.id != id then multiset(table)[e] else 0
    ensures !HasId(table, id) ==> RemoveAllById(table, id) == table
  {
    FilterIsSubsequence(table, e => DifferentId(id, e));
    FilterMultiset(table, e => DifferentId(id, e));
    if !HasId(table, id) {
      FilterKeepsAll(table, e => DifferentId(id, e));
    }
  }

  /** filter { !it.syncedWithCloud }. */
  function Unsynced(table: seq<ProductEntity>): seq<ProductEntity> {
    Filter(table, (e: ProductEntity) => !e.syncedWithCloud)
  }

  /** The unsynced list holds exactly the unsynced records, in table order. */
  lemma UnsyncedSpec(table: seq<ProductEntity>)
    ensures forall j :: 0 <= j < |Unsynced(table)| ==> !Unsynced(table)[j].syncedWithCloud
    ensures forall j :: 0 <= j < |table| && !table[j].syncedWithCloud ==> table[j] in Unsynced(table)
    ensures IsSubsequence(Unsynced(table), table)
    ensures forall e :: multiset(Unsynced(table))[e] == if !e.syncedWithCloud then multiset(table)[e] else 0
  {
    FilterIsSubsequence(table, (e: ProductEntity) => !e.syncedWithCloud);
    FilterMultiset(table, (e: ProductEntity) => !e.syncedWithCloud);
  }

  /** sumOf { it.price * it.quantity } over the stored records. */
  function EntityStockValue(table: seq<ProductEntity>): real {
    if table == [] then 0.0
    else EntityStockValue(table[..|table| - 1]) + table[|table| - 1].price * table[|table| - 1].quantity as real
  }

  /** getTotalStockValue: absent for an empty table, otherwise the sum of
      price times quantity over all records. */
  function TotalStockValue(table: seq<ProductEntity>): (r: Option<real>)
    ensures r.None? <==> table == []
    ensures r.Some? ==> r.value == EntityStockValue(table)
  {
    if table == [] then None else Some(EntityStockValue(table))
  }

  /** The store's total agrees with the domain products' getTotalValue sum. */
  lemma {:induction false} EntityStockValueIsStockValue(table: seq<ProductEntity>)
    ensures EntityStockValue(table) == StockValue(ToDomainList(table))
  {
    if table != [] {
      var n := |table| - 1;
      EntityStockValueIsStockValue(table[..n]);
      assert ToDomainList(table)[..n] == ToDomainList(table[..n]);
    }
  }

  /** Appending never disturbs the first-index lookup of an id already
      present: a duplicate insert is shadowed by the earlier record. */
  lemma IndexOfIdAppend(table: seq<ProductEntity>, e: ProductEntity, id: string)
    ensures IndexOfId(table + [e], id) ==
      if HasId(table, id) then IndexOfId(table, id) else if e.id == id then |table| else -1
  {
    var t := table + [e];
    var k := IndexOfId(table, id);
    var k' := IndexOfId(t, id);
    assert forall j :: 0 <= j < |table| ==> t[j] == table[j];
    if HasId(table, id) {
      assert IsFirstWithId(t, k, id);
    } else if e.id == id {
      assert IsFirstWithId(t, |table|, id);
    }
  }

  /** Updating keeps ids unique; so does deleting. */
  lemma UniqueIdsPreserved(table: seq<ProductEntity>, e: ProductEntity, id: string)
    requires UniqueIds(table)
    ensures UniqueIds(UpdateFirst(table, e))
    ensures UniqueIds(RemoveAllById(table, id))
  {
    var r := RemoveAllById(table, id);
    var keep := (x: ProductEntity) => DifferentId(id, x);
    forall a, b | 0 <= a < |r| && 0 <= b < |r| && r[a].id == r[b].id ensures a == b {
      var ja := FilterPosition(table, keep, a);
      var jb := FilterPosition(table, keep, b);
      assert ja == jb;
    }
  }

  /** Inserting a record whose id is new keeps ids unique. */
  lemma UniqueIdsInsertFresh(table: seq<ProductEntity>, e: ProductEntity)
    requires UniqueIds(table) && !HasId(table, e.id)
    ensures UniqueIds(table + [e])
  {
    var t := table + [e];
    forall a, b | 0 <= a < |t| && 0 <= b < |t| && t[a].id == t[b].id ensures a == b {
      if a < |table| && b < |table| {
        assert table[a].id == table[b].id;
      }
    }
  }

  /**
   * The in-memory table. `products` is the current value of the observable
   * list; each mutator replaces it, as the source replaces its StateFlow value.
   */
  class ProductDaoImpl {
    var products: seq<ProductEntity>

    constructor ()
      ensures products == []
    {
      products := [];
    }

    /** Appends the record at the end (no id check) and reports one row. */
    method InsertProduct(product: ProductEntity) returns (rowId: int)
      modifies this
      ensures products == old(products) + [product]
      ensures rowId == 1
    {
      products := products + [product];
      rowId := 1;
    }

    /** The current list. */
    method GetAllProducts() returns (snapshot: seq<ProductEntity>)
      ensures snapshot == products
    {
      snapshot := products;
    }

    method GetProductById(id: string) returns (r: Option<ProductEntity>)
      ensures r == FindById(products, id)
    {
      r := FindById(products, id);
    }

    method UpdateProduct(product: ProductEntity)
      modifies this
      ensures products == UpdateFirst(old(products), product)
    {
      var index := IndexOfId(products, product.id);
      if index >= 0 {
        products := products[index := product];
      }
    }

    /** Deletes by the record's id, exactly as DeleteProductById does. */
    method DeleteProduct(product: ProductEntity)
      modifies this
      ensures products == RemoveAllById(old(products), product.id)
    {
      products := RemoveAllById(products, product.id);
    }

    method DeleteProductById(id: string)
      modifies this
      ensures products == RemoveAllById(old(products), id)
    {
      products := RemoveAllById(products, id);
    }

    method GetProductCount() returns (count: int)
      ensures count == |products|
    {
      count := |products|;
    }

    method GetTotalStockValue() returns (total: Option<real>)
      ensures total == TotalStockValue(products)
    {
      total := TotalStockValue(products);
    }

    method GetUnsyncedProducts() returns (unsynced: seq<ProductEntity>)
      ensures unsynced == Unsynced(products)
    {
      unsynced := Unsynced(products);
    }
  }
}
