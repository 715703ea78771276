/**
 * ProductRepository: the write path "local table first, then the cloud".
 * Every remote call (a Firestore set or delete) is replaced by an outcome
 * the caller supplies, which turns each operation into a deterministic step
 * over the table held by the DAO.
 */
module Repository {
  import opened Wrappers
  import opened Seqs
  import opened Domain
  import opened Dao

  /** The outcome of one remote call: success, or an exception whose message
      may be absent. */
  datatype Remote = Succeeded | Failed(message: Option<string>)

  /** Kotlin's Result<Unit> as returned by the repository. */
  datatype Outcome = Success | Failure(message: Option<string>)

  /** syncProductToCloud, local effect: after a successful remote write the
      first record with the product's id is rebuilt from the product and
      flagged synced; a failed write is swallowed and changes nothing. */
  function AfterSync(table: seq<ProductEntity>, product: Product, remote: Remote): seq<ProductEntity> {
    if remote.Succeeded? then UpdateFirst(table, ToEntity(product).(syncedWithCloud := true)) else table
  }

  /** addProduct: append the unsynced entity, then try the cloud. */
  function AfterAdd(table: seq<ProductEntity>, product: Product, remote: Remote): seq<ProductEntity> {
    AfterSync(table + [ToEntity(product).(syncedWithCloud := false)], product, remote)
  }

  /** updateProduct: overwrite with a fresh updatedAt and the flag cleared,
      then try the cloud. */
  function AfterUpdate(table: seq<ProductEntity>, product: Product, now: int, remote: Remote): seq<ProductEntity> {
    AfterSync(UpdateFirst(table, ToEntity(product).(updatedAt := now, syncedWithCloud := false)), product, remote)
  }

  /** deleteProduct's result: the remote failure is reported. */
  function DeleteOutcome(remote: Remote): (r: Outcome)
    ensures r.Failure? <==> remote.Failed?
    ensures r.Failure? ==> r.message == remote.message
  {
    match remote
    case Succeeded => Success
    case Failed(message) => Failure(message)
  }

  /** syncUnsyncedProducts: one sync attempt per snapshot record, in order. */
  function AfterSyncAll(table: seq<ProductEntity>, snapshot: seq<ProductEntity>, outcomes: seq<Remote>): seq<ProductEntity>
    requires |snapshot| == |outcomes|
  {
    if snapshot == [] then table
    else
      var n := |snapshot| - 1;
      AfterSync(AfterSyncAll(table, snapshot[..n], outcomes[..n]), ToDomain(snapshot[n]), outcomes[n])
  }

  /** getTotalStockValue: the DAO's total with "absent" read as zero. */
  function RepositoryTotal(table: seq<ProductEntity>): (total: real)
    ensures total == EntityStockValue(table)
  {
    TotalStockValue(table).GetOr(0.0)
  }

  /** getProductById: the domain form of the first stored record with the id. */
  function FindProduct(table: seq<ProductEntity>, id: string): (r: Option<Product>)
    ensures r.None? <==> !HasId(table, id)
    ensures r.Some? ==> exists k :: IsFirstWithId(table, k, id) && r.value == ToDomain(table[k])
  {
    match FindById(table, id)
    case None => None
    case Some(e) => Some(ToDomain(e))
  }

  // -----------------------------------------------------------------------
  // Properties of the write path
  // -----------------------------------------------------------------------

  /** Adding a product with a new id appends exactly one record, synced iff
      the remote write succeeded; the earlier records are untouched. */
  lemma AddFresh(table: seq<ProductEntity>, product: Product, remote: Remote)
    requires !HasId(table, product.id)
    ensures AfterAdd(table, product, remote) == table + [ToEntity(product).(syncedWithCloud := remote.Succeeded?)]
  {
    var e := ToEntity(product);
    IndexOfIdAppend(table, e, product.id);
  }

  /** A product added under a new id reads back unchanged (whatever the
      remote outcome). */
  lemma AddThenRead(table: seq<ProductEntity>, product: Product, remote: Remote)
    requires !HasId(table, product.id)
    ensures FindProduct(AfterAdd(table, product, remote), product.id) == Some(product)
  {
    AddFresh(table, product, remote);
    var e := ToEntity(product).(syncedWithCloud := remote.Succeeded?);
    IndexOfIdAppend(table, e, product.id);
  }

  /** Adding under an id that is already stored still appends the new
      unsynced record; a successful sync then overwrites the EARLIER record
      with that id, because the mark-synced write goes to the first match. */
  lemma AddDuplicate(table: seq<ProductEntity>, product: Product)
    requires HasId(table, product.id)
    ensures AfterAdd(table, product, Succeeded) ==
      UpdateFirst(table, ToEntity(product).(syncedWithCloud := true)) + [ToEntity(product)]
  {
    var e := ToEntity(product).(syncedWithCloud := true);
    var t := table + [ToEntity(product)];
    IndexOfIdAppend(table, ToEntity(product), product.id);
    var k := IndexOfId(table, product.id);
    assert t[k := e] == table[k := e] + [ToEntity(product)];
  }

  /** updateProduct on a stored id rewrites that first record in place: with
      a successful sync it holds the product with the flag set and the
      product's OWN updatedAt (the refreshed one is overwritten); with a
      failed sync it holds the product with updatedAt = now, unsynced. An
      unknown id leaves the table alone. */
  lemma UpdateEffect(table: seq<ProductEntity>, product: Product, now: int, remote: Remote)
    ensures !HasId(table, product.id) ==> AfterUpdate(table, product, now, remote) == table
    ensures HasId(table, product.id) ==>
      AfterUpdate(table, product, now, remote) ==
        table[IndexOfId(table, product.id) :=
          if remote.Succeeded? then ToEntity(product).(syncedWithCloud := true)
          else ToEntity(product).(updatedAt := now)]
  {
    var k := IndexOfId(table, product.id);
    var e1 := ToEntity(product).(updatedAt := now, syncedWithCloud := false);
    var t1 := UpdateFirst(table, e1);
    if k >= 0 {
      assert IsFirstWithId(t1, k, product.id);
      assert IndexOfId(t1, product.id) == k;
    }
  }

  /** After a successful update-and-sync, the stored updatedAt is the one
      the caller's product carried, not the refreshed timestamp. */
  lemma UpdateSyncedKeepsProductTimestamp(table: seq<ProductEntity>, product: Product, now: int)
    requires HasId(table, product.id)
    ensures FindById(AfterUpdate(table, product, now, Succeeded), product.id) ==
      Some(ToEntity(product).(syncedWithCloud := true))
  {
    UpdateEffect(table, product, now, Succeeded);
    var k := IndexOfId(table, product.id);
    var r := AfterUpdate(table, product, now, Succeeded);
    assert IsFirstWithId(r, k, product.id);
    assert IndexOfId(r, product.id) == k;
  }

  /** Each sync attempt keeps the length and the id at every position. */
  lemma {:induction false} AfterSyncAllKeepsIds(table: seq<ProductEntity>, snapshot: seq<ProductEntity>, outcomes: seq<Remote>)
    requires |snapshot| == |outcomes|
    ensures |AfterSyncAll(table, snapshot, outcomes)| == |table|
    ensures forall j :: 0 <= j < |table| ==> AfterSyncAll(table, snapshot, outcomes)[j].id == table[j].id
  {
    if snapshot != [] {
      var n := |snapshot| - 1;
      AfterSyncAllKeepsIds(table, snapshot[..n], outcomes[..n]);
    }
  }

  /** Unique ids survive adding a new id, updating, deleting and syncing. */
  lemma UniqueIdsInvariant(table: seq<ProductEntity>, product: Product, now: int, id: string,
                           remote: Remote, outcomes: seq<Remote>)
    requires UniqueIds(table)
    requires |outcomes| == |Unsynced(table)|
    ensures !HasId(table, product.id) ==> UniqueIds(AfterAdd(table, product, remote))
    ensures UniqueIds(AfterUpdate(table, product, now, remote))
    ensures UniqueIds(RemoveAllById(table, id))
    ensures UniqueIds(AfterSyncAll(table, Unsynced(table), outcomes))
  {
    if !HasId(table, product.id) {
      AddFresh(table, product, remote);
      UniqueIdsInsertFresh(table, ToEntity(product).(syncedWithCloud := remote.Succeeded?));
    }
    var e1 := ToEntity(product).(updatedAt := now, syncedWithCloud := false);
    UniqueIdsPreserved(table, e1, id);
    UniqueIdsPreserved(UpdateFirst(table, e1), ToEntity(product).(syncedWithCloud := true), id);
    AfterSyncAllKeepsIds(table, Unsynced(table), outcomes);
    var r := AfterSyncAll(table, Unsynced(table), outcomes);
    assert forall a, b :: 0 <= a < |r| && 0 <= b < |r| && r[a].id == r[b].id ==> table[a].id == table[b].id;
  }

  // -----------------------------------------------------------------------
  // syncUnsyncedProducts marks exactly the records whose push succeeded
  // -----------------------------------------------------------------------

  /** The number of unsynced records before position `j`: the index of
      `table[j]` in the unsynced snapshot when it is unsynced. */
  function UnsyncedRank(table: seq<ProductEntity>, j: int): nat
    requires 0 <= j <= |table|
  {
    |Unsynced(table[..j])|
  }

  /** Record `j` was unsynced and its push (the rank-th one) succeeded. */
  predicate PushSucceeded(table: seq<ProductEntity>, outcomes: seq<Remote>, j: int)
    requires 0 <= j < |table|
  {
    !table[j].syncedWithCloud && UnsyncedRank(table, j) < |outcomes| && outcomes[UnsyncedRank(table, j)].Succeeded?
  }

  /** The table once the first `i` pushes of the snapshot are done. */
  ghost function SyncedUpTo(table: seq<ProductEntity>, outcomes: seq<Remote>, i: int): (r: seq<ProductEntity>)
    ensures |r| == |table|
  {
    seq(|table|, j requires 0 <= j < |table| =>
      if PushSucceeded(table, outcomes, j) && UnsyncedRank(table, j) < i
      then table[j].(syncedWithCloud := true) else table[j])
  }

  lemma SyncStep(table: seq<ProductEntity>, outcomes: seq<Remote>, i: int)
    requires UniqueIds(table) && |outcomes| == |Unsynced(table)| && 0 <= i < |outcomes|
    ensures AfterSync(SyncedUpTo(table, outcomes, i), ToDomain(Unsynced(table)[i]), outcomes[i])
         == SyncedUpTo(table, outcomes, i + 1)
  {
    var keep := (e: ProductEntity) => !e.syncedWithCloud;
    var u := Unsynced(table);
    var prev := SyncedUpTo(table, outcomes, i);
    var next := SyncedUpTo(table, outcomes, i + 1);
    // A position other than the i-th unsynced one never has rank i.
    forall j | 0 <= j < |table| && !table[j].syncedWithCloud && UnsyncedRank(table, j) == i
      ensures table[j] == u[i]
    {
      FilterAtRank(table, keep, j);
    }
    if outcomes[i].Succeeded? {
      var js := FilterPosition(table, keep, i);
      var e := ToEntity(ToDomain(u[i])).(syncedWithCloud := true);
      assert e == u[i].(syncedWithCloud := true);
      assert forall j :: 0 <= j < |table| ==> prev[j].id == table[j].id;
      assert IsFirstWithId(prev, js, e.id);
      assert IndexOfId(prev, e.id) == js;
      assert UpdateFirst(prev, e) == prev[js := e];
      assert prev[js := e] == next;
    } else {
      assert prev == next;
    }
  }

  lemma {:induction false} SyncPrefix(table: seq<ProductEntity>, outcomes: seq<Remote>, i: int)
    requires UniqueIds(table) && |outcomes| == |Unsynced(table)| && 0 <= i <= |outcomes|
    ensures AfterSyncAll(table, Unsynced(table)[..i], outcomes[..i]) == SyncedUpTo(table, outcomes, i)
  {
    var u := Unsynced(table);
    if i == 0 {
      assert SyncedUpTo(table, outcomes, 0) == table;
    } else {
      SyncPrefix(table, outcomes, i - 1);
      assert u[..i][..i - 1] == u[..i - 1];
      assert outcomes[..i][..i - 1] == outcomes[..i - 1];
      SyncStep(table, outcomes, i - 1);
    }
  }

  /** With unique ids, syncing the unsynced snapshot flags exactly the
      records whose push succeeded and leaves every other record as it was. */
  lemma SyncMarksExactlySucceeded(table: seq<ProductEntity>, outcomes: seq<Remote>)
    requires UniqueIds(table) && |outcomes| == |Unsynced(table)|
    ensures |AfterSyncAll(table, Unsynced(table), outcomes)| == |table|
    ensures forall j :: 0 <= j < |table| ==>
      AfterSyncAll(table, Unsynced(table), outcomes)[j] ==
        if PushSucceeded(table, outcomes, j) then table[j].(syncedWithCloud := true) else table[j]
  {
    var u := Unsynced(table);
    SyncPrefix(table, outcomes, |outcomes|);
    assert u[..|outcomes|] == u && outcomes[..|outcomes|] == outcomes;
    forall j | 0 <= j < |table| && PushSucceeded(table, outcomes, j)
      ensures UnsyncedRank(table, j) < |outcomes|
    {
    }
  }

  /** Three unsynced records whose second push fails: the first and third
      end up synced, the second stays unsynced. */
  lemma SyncScenario(a: ProductEntity, b: ProductEntity, c: ProductEntity)
    requires !a.syncedWithCloud && !b.syncedWithCloud && !c.syncedWithCloud
    requires a.id != b.id && b.id != c.id && a.id != c.id
    ensures Unsynced([a, b, c]) == [a, b, c]
    ensures |Unsynced([a, b, c])| == 3 &&
      AfterSyncAll([a, b, c], Unsynced([a, b, c]), [Succeeded, Failed(None), Succeeded])
        == [a.(syncedWithCloud := true), b, c.(syncedWithCloud := true)]
  {
    var t := [a, b, c];
    var outcomes := [Succeeded, Failed(None), Succeeded];
    SyncAllUnsynced(t, outcomes);
    var r := AfterSyncAll(t, t, outcomes);
    assert r[0] == a.(syncedWithCloud := true) && r[1] == b && r[2] == c.(syncedWithCloud := true);
  }

  /** When every record is unsynced, the i-th push decides the i-th record:
      it ends up synced exactly when its push succeeded. */
  lemma SyncAllUnsynced(t: seq<ProductEntity>, outcomes: seq<Remote>)
    requires forall j :: 0 <= j < |t| ==> !t[j].syncedWithCloud
    requires UniqueIds(t) && |outcomes| == |t|
    ensures Unsynced(t) == t
    ensures |AfterSyncAll(t, t, outcomes)| == |t|
    ensures forall j :: 0 <= j < |t| ==>
      AfterSyncAll(t, t, outcomes)[j] == if outcomes[j].Succeeded? then t[j].(syncedWithCloud := true) else t[j]
  {
    AllUnsyncedRanks(t);
    SyncMarksExactlySucceeded(t, outcomes);
  }

  /** In a table of unsynced records, the unsynced list is the table and
      each record's rank is its position. */
  lemma AllUnsyncedRanks(t: seq<ProductEntity>)
    requires forall j :: 0 <= j < |t| ==> !t[j].syncedWithCloud
    ensures Unsynced(t) == t
    ensures forall j :: 0 <= j <= |t| ==> UnsyncedRank(t, j) == j
  {
    var keep := (e: ProductEntity) => !e.syncedWithCloud;
    FilterKeepsAll(t, keep);
    forall j | 0 <= j <= |t| ensures UnsyncedRank(t, j) == j {
      FilterKeepsAll(t[..j], keep);
    }
  }

  /** Adding a pen (10 at 1.50) to an empty table gives a total of 15;
      deleting it again gives 0. */
  lemma PenScenario(now: int, remote: Remote)
    ensures var t := AfterAdd([], Product("pen", "Pen", 10, 1.5, now, now), remote);
            RepositoryTotal(t) == 15.0 && RepositoryTotal(RemoveAllById(t, "pen")) == 0.0
  {
    var pen := Product("pen", "Pen", 10, 1.5, now, now);
    AddFresh([], pen, remote);
    var t := AfterAdd([], pen, remote);
    assert t == [ToEntity(pen).(syncedWithCloud := remote.Succeeded?)];
    assert t[..0] == [];
    assert EntityStockValue(t) == 0.0 + 1.5 * 10 as real;
    assert RemoveAllById(t, "pen") == [];
  }

  /**
   * The repository over one DAO instance. Firestore is not modelled: each
   * remote call's outcome is a parameter.
   */
  class ProductRepository {
    const dao: ProductDaoImpl

    constructor (dao: ProductDaoImpl)
      ensures this.dao == dao
    {
      this.dao := dao;
    }

    /** getAllProducts: the current table, as domain products. */
    method GetAllProducts() returns (products: seq<Product>)
      ensures products == ToDomainList(dao.products)
    {
      var entities := dao.GetAllProducts();
      products := ToDomainList(entities);
    }

    method AddProduct(product: Product, remote: Remote) returns (result: Outcome)
      modifies dao
      ensures dao.products == AfterAdd(old(dao.products), product, remote)
      ensures result == Success
    {
      var entity := ToEntity(product).(syncedWithCloud := false);
      var _ := dao.InsertProduct(entity);
      SyncProductToCloud(product, remote);
      result := Success;
    }

    method UpdateProduct(product: Product, now: int, remote: Remote) returns (result: Outcome)
      modifies dao
      ensures dao.products == AfterUpdate(old(dao.products), product, now, remote)
      ensures result == Success
    {
      var entity := ToEntity(product).(updatedAt := now, syncedWithCloud := false);
      dao.UpdateProduct(entity);
      SyncProductToCloud(product, remote);
      result := Success;
    }

    /** The local delete happens first and stays even when the remote
        delete fails; that failure is returned. */
    method DeleteProduct(productId: string, remote: Remote) returns (result: Outcome)
      modifies dao
      ensures dao.products == RemoveAllById(old(dao.products), productId)
      ensures result == DeleteOutcome(remote)
    {
      dao.DeleteProductById(productId);
      match remote
      case Succeeded => result := Success;
      case Failed(message) => result := Failure(message);
    }

    method GetProductById(id: string) returns (product: Option<Product>)
      ensures product == FindProduct(dao.products, id)
    {
      var entity := dao.GetProductById(id);
      product := match entity
        case None => None
        case Some(e) => Some(ToDomain(e));
    }

    method SyncProductToCloud(product: Product, remote: Remote)
      modifies dao
      ensures dao.products == AfterSync(old(dao.products), product, remote)
    {
      if remote.Succeeded? {
        var entity := ToEntity(product).(syncedWithCloud := true);
        dao.UpdateProduct(entity);
      }
    }

    method GetProductCount() returns (count: int)
      ensures count == |dao.products|
    {
      count := dao.GetProductCount();
    }

    method GetTotalStockValue() returns (total: real)
      ensures total == EntityStockValue(dao.products)
    {
      var value := dao.GetTotalStockValue();
      total := value.GetOr(0.0);
    }

    /** Pushes every record of the unsynced snapshot, in order; outcome `i`
        is the remote result of the i-th push. Always reports success. */
    method SyncUnsyncedProducts(outcomes: seq<Remote>) returns (result: Outcome)
      requires |outcomes| == |Unsynced(dao.products)|
      modifies dao
      ensures dao.products == AfterSyncAll(old(dao.products), Unsynced(old(dao.products)), outcomes)
      ensures result == Success
    {
      var unsynced := dao.GetUnsyncedProducts();
      var i := 0;
      while i < |unsynced|
        invariant 0 <= i <= |unsynced|
        invariant dao.products == AfterSyncAll(old(dao.products), unsynced[..i], outcomes[..i])
      {
        assert unsynced[..i + 1][..i] == unsynced[..i];
        assert outcomes[..i + 1][..i] == outcomes[..i];
        SyncProductToCloud(ToDomain(unsynced[i]), outcomes[i]);
        i := i + 1;
      }
      assert unsynced[..i] == unsynced && outcomes[..i] == outcomes;
      result := Success;
    }
  }
}
