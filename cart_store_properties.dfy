/** Properties of the cart table model: upsert, round trip, retry-once, idempotent provisioning. */
module CartStoreProperties {
  import opened Wrappers
  import opened JsValues
  import opened CartStore

  /** On a reliable connection, a save leaves exactly the user's row holding the cart. */
  lemma SaveStoresCart(db: Db, u: UserId, cart: Value)
    requires Inv(db) && Reliable(db)
    requires PresentId(u) && u.value in db.users && Truthy(cart)
    ensures Save(db, u, cart).tableExists
    ensures Save(db, u, cart).rows == db.rows[u.value := cart]
  {
    var req := Write(u.value, cart);
    if !db.tableExists {
      var d := EnsureTable(Spend(db));
      assert Run(req, db) == Raised(UndefinedTable, Spend(db));
      assert d.tableExists && d.rows == map[];
    }
  }

  /** save(u, c) then load(u) gives c back (JSON treated as an identity round trip). */
  lemma SaveThenLoad(db: Db, u: UserId, cart: Value, parse: string -> Option<Value>)
    requires Inv(db) && Reliable(db)
    requires PresentId(u) && u.value in db.users && Truthy(cart) && !cart.Str?
    ensures Load(Save(db, u, cart), u, parse).0 == cart
  {
    SaveStoresCart(db, u, cart);
  }

  /**
   * A cart that is itself a string comes back through JSON.parse: load gives
   * what parsing it gives, or null when parsing throws.
   */
  lemma SaveThenLoadString(db: Db, u: UserId, s: string, parse: string -> Option<Value>)
    requires Inv(db) && Reliable(db)
    requires PresentId(u) && u.value in db.users && s != ""
    ensures Load(Save(db, u, Str(s)), u, parse).0 == (match parse(s) case None => Null case Some(v) => v)
  {
    SaveStoresCart(db, u, Str(s));
  }

  /** A second save overwrites the first: still one row for the user, holding the latest cart. */
  lemma SecondSaveOverwrites(db: Db, u: UserId, first: Value, second: Value)
    requires Inv(db) && Reliable(db)
    requires PresentId(u) && u.value in db.users && Truthy(first) && Truthy(second)
    ensures Save(Save(db, u, first), u, second).rows == db.rows[u.value := second]
    ensures |Save(Save(db, u, first), u, second).rows| == |Save(db, u, first).rows|
  {
    var once := Save(db, u, first);
    SaveStoresCart(db, u, first);
    SaveStoresCart(once, u, second);
    assert once.rows[u.value := second].Keys == once.rows.Keys;
  }

  /** A save never touches another user's row, whatever the connection does. */
  lemma SaveLeavesOthers(db: Db, u: UserId, cart: Value, other: int)
    requires Inv(db)
    requires !PresentId(u) || other != u.value
    ensures other in Save(db, u, cart).rows <==> other in db.rows
    ensures other in db.rows ==> Save(db, u, cart).rows[other] == db.rows[other]
  {
  }

  /** ensureCartsTableExists on an existing table only spends its one query. */
  lemma EnsureTableIdempotent(db: Db)
    requires Inv(db) && db.tableExists
    ensures EnsureTable(db) == Spend(db)
    ensures EnsureTable(EnsureTable(db)).tableExists && EnsureTable(EnsureTable(db)).rows == db.rows
  {
  }

  /**
   * On 42P01 the body is run once more after provisioning: the outcome is
   * what the call gives on the provisioned table, or the fallback when
   * provisioning did not create it.
   */
  lemma MissingTableRetriedOnce(req: Request, db: Db)
    requires Inv(db) && !db.tableExists && NextUp(db)
    ensures var d := EnsureTable(Spend(db));
            RetryOnce(req, db) == if d.tableExists then RetryOnce(req, d) else (Fallback(req), Spend(d))
  {
    var d := EnsureTable(Spend(db));
    assert Run(req, db) == Raised(UndefinedTable, Spend(db));
    if d.tableExists {
      assert Run(req, d).Done? || Run(req, d).code == OtherError;
    }
  }

  /** On an existing table and a reliable connection, load decodes the stored row. */
  lemma LoadFromExistingTable(db: Db, u: UserId, parse: string -> Option<Value>)
    requires Inv(db) && Reliable(db) && db.tableExists && PresentId(u)
    ensures Load(db, u, parse).0 == (match DecodeRow(Cell(db, u.value), parse) case None => Null case Some(v) => v)
  {
  }

  /** Example: user 42 saves a cart, reads it back, then overwrites it with the empty cart. */
  lemma UserFortyTwo(parse: string -> Option<Value>)
    ensures var line := Obj(map["qty" := Num(2), "price" := Num(500)]);
            var cart := Obj(map["items" := Obj(map["sku1" := line]), "totalQty" := Num(2), "totalCents" := Num(1000)]);
            var empty := Obj(map["items" := Obj(map[]), "totalQty" := Num(0), "totalCents" := Num(0)]);
            var db := Db(true, map[], {42}, []);
            var saved := Save(db, Some(42), cart);
            Load(saved, Some(42), parse).0 == cart
            && Load(Save(saved, Some(42), empty), Some(42), parse).0 == empty
            && Save(saved, Some(42), empty).rows == map[42 := empty]
  {
  }
}
