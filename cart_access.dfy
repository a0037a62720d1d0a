/**
 * getCart (src/services/dbService.js:134-171): the current cart of a request.
 * A signed-in user's stored cart wins and is mirrored into the session as it
 * is; otherwise the session cart is given its missing fields one at a time.
 */
module CartAccess {
  import opened Wrappers
  import opened JsValues
  import opened Sessions
  import opened CartStore

  /** `{ items: {}, totalQty: 0, totalCents: 0 }` */
  function EmptyCart(): (r: Value)
    ensures Truthy(r) && WellFormed(r)
    ensures Get(r, "items") == Obj(map[]) && Get(r, "totalQty") == Num(0) && Get(r, "totalCents") == Num(0)
  {
    Obj(map["items" := Obj(map[]), "totalQty" := Num(0), "totalCents" := Num(0)])
  }

  /** The shape getCart's session path promises: truthy items, numeric totals. */
  predicate WellFormed(cart: Value)
  {
    Truthy(Get(cart, "items")) && Get(cart, "totalQty").Num? && Get(cart, "totalCents").Num?
  }

  /** A field the session path leaves alone: any other key, or one of the three already acceptable. */
  predicate Acceptable(cart: Value, key: string)
  {
    && (key == "items" ==> Truthy(Get(cart, "items")))
    && (key == "totalQty" ==> Get(cart, "totalQty").Num?)
    && (key == "totalCents" ==> Get(cart, "totalCents").Num?)
  }

  /** How many defaults the session path applies, hence how many `touch()` calls. */
  function Defaults(cart: Value): nat
  {
    if !Truthy(cart) then 1
    else
      (if Truthy(Get(cart, "items")) then 0 else 1)
      + (if Get(cart, "totalQty").Num? then 0 else 1)
      + (if Get(cart, "totalCents").Num? then 0 else 1)
  }

  /**
   * The session path's result: the normalised cart and the number of
   * `touch()` calls, or the TypeError strict-mode code raises when it
   * assigns `items` on a truthy primitive.
   */
  datatype Normalized = Normalized(cart: Value, touches: nat) | TypeError

  /** The default assignments of lines 152-168, in order. */
  function Normalize(cart: Value): (r: Normalized)
    ensures r.TypeError? <==> Truthy(cart) && !cart.Obj?
    ensures r.Normalized? ==> r.cart.Obj? && WellFormed(r.cart) && r.touches == Defaults(cart)
    ensures !Truthy(cart) ==> r == Normalized(EmptyCart(), 1)
    ensures r.Normalized? && cart.Obj? ==>
              && r.cart.fields.Keys == cart.fields.Keys + {"items", "totalQty", "totalCents"}
              && (forall k :: k in cart.fields && Acceptable(cart, k) ==> r.cart.fields[k] == cart.fields[k])
              && (!Truthy(Get(cart, "items")) ==> r.cart.fields["items"] == Obj(map[]))
              && (!Get(cart, "totalQty").Num? ==> r.cart.fields["totalQty"] == Num(0))
              && (!Get(cart, "totalCents").Num? ==> r.cart.fields["totalCents"] == Num(0))
  {
    var start := if Truthy(cart) then cart else EmptyCart();
    var touched := if Truthy(cart) then 0 else 1;
    if !Truthy(Get(start, "items")) && !start.Obj? then TypeError
    else
      var withItems := if Truthy(Get(start, "items")) then start else Obj(start.fields["items" := Obj(map[])]);
      var t1 := if Truthy(Get(start, "items")) then touched else touched + 1;
      var withQty := if Get(withItems, "totalQty").Num? then withItems else Obj(withItems.fields["totalQty" := Num(0)]);
      var t2 := if Get(withItems, "totalQty").Num? then t1 else t1 + 1;
      var withCents := if Get(withQty, "totalCents").Num? then withQty else Obj(withQty.fields["totalCents" := Num(0)]);
      var t3 := if Get(withQty, "totalCents").Num? then t2 else t2 + 1;
      Normalized(withCents, t3)
  }

  /** What getCart gives the caller: the cart, or the error it throws. */
  datatype CartResult = Returned(cart: Value) | Threw

  /**
   * getCart. `session` is null when the request has no session. The store is
   * asked only when the session has a user with a truthy id.
   */
  method GetCart(session: Session?, pool: CartDatabase, parse: string -> Option<Value>) returns (r: CartResult)
    requires pool.Valid()
    modifies session, pool
    ensures pool.Valid()
    ensures session == null ==> r == Returned(EmptyCart()) && pool.Model() == old(pool.Model())
    ensures session != null ==> session.user == old(session.user)
    ensures session != null ==>
              var loaded := Load(old(pool.Model()), UserIdOf(session.user), parse);
              && pool.Model() == loaded.1
              && if Truthy(loaded.0) then
                   r == Returned(loaded.0) && session.cart == loaded.0 && session.touches == old(session.touches) + 1
                 else
                   match Normalize(old(session.cart))
                   case TypeError => r == Threw && session.cart == old(session.cart) && session.touches == old(session.touches)
                   case Normalized(c, t) => r == Returned(c) && session.cart == c && session.touches == old(session.touches) + t
  {
    if session == null {
      return Returned(EmptyCart());
    }
    if PresentId(UserIdOf(session.user)) {
      // loadCartFromDatabase never throws, so the catch of lines 147-149 is never entered
      var dbCart := pool.LoadCartFromDatabase(UserIdOf(session.user), parse);
      if Truthy(dbCart) {
        session.cart := dbCart;
        session.Touch();
        return Returned(dbCart);
      }
    }
    r := FillSessionCart(session);
  }

  /** The session path of getCart (lines 152-170), applied to the session in place. */
  method FillSessionCart(session: Session) returns (r: CartResult)
    modifies session
    ensures session.user == old(session.user)
    ensures match Normalize(old(session.cart))
            case TypeError => r == Threw && session.cart == old(session.cart) && session.touches == old(session.touches)
            case Normalized(c, t) => r == Returned(c) && session.cart == c && session.touches == old(session.touches) + t
  {
    if !Truthy(session.cart) {
      session.cart := EmptyCart();
      session.Touch();
    }
    if !Truthy(Get(session.cart, "items")) {
      if !session.cart.Obj? {
        return Threw;  // strict mode: creating a property on a primitive throws
      }
      session.cart := Obj(session.cart.fields["items" := Obj(map[])]);
      session.Touch();
    }
    if !Get(session.cart, "totalQty").Num? {
      session.cart := Obj(session.cart.fields["totalQty" := Num(0)]);
      session.Touch();
    }
    if !Get(session.cart, "totalCents").Num? {
      session.cart := Obj(session.cart.fields["totalCents" := Num(0)]);
      session.Touch();
    }
    return Returned(session.cart);
  }

  /** The session path is idempotent: a normalised cart needs no default and no touch. */
  lemma NormalizeIdempotent(cart: Value)
    requires Normalize(cart).Normalized?
    ensures Normalize(Normalize(cart).cart) == Normalized(Normalize(cart).cart, 0)
  {
    var c := Normalize(cart).cart;
    var again := Normalize(c);
    assert again.cart.fields.Keys == c.fields.Keys;
    forall k | k in c.fields
      ensures again.cart.fields[k] == c.fields[k]
    {
      assert Acceptable(c, k);
    }
  }

  /** `items` is checked for truthiness only: a number there is kept as it is. */
  lemma ItemsTypeNotChecked()
    ensures var cart := Obj(map["items" := Num(5), "totalQty" := Num(1), "totalCents" := Num(100)]);
            Normalize(cart) == Normalized(cart, 0)
  {
    var cart := Obj(map["items" := Num(5), "totalQty" := Num(1), "totalCents" := Num(100)]);
    assert Get(cart, "items") == Num(5);
  }

  /** A session cart whose `totalQty` is a string gets `totalQty` 0 and one touch. */
  lemma StringTotalCoerced()
    ensures var items := Obj(map["sku1" := Num(1)]);
            var cart := Obj(map["items" := items, "totalQty" := Str("2"), "totalCents" := Num(500)]);
            Normalize(cart) == Normalized(Obj(map["items" := items, "totalQty" := Num(0), "totalCents" := Num(500)]), 1)
  {
    var items := Obj(map["sku1" := Num(1)]);
    var cart := Obj(map["items" := items, "totalQty" := Str("2"), "totalCents" := Num(500)]);
    assert Get(cart, "totalQty") == Str("2");
    assert Get(cart, "totalCents") == Num(500);
  }

  /**
   * The database path returns the stored cart without normalising it: an
   * empty object stored for the user is what getCart mirrors and returns.
   */
  lemma DatabaseCartNotNormalised(parse: string -> Option<Value>)
    ensures var db := Db(true, map[7 := Obj(map[])], {7}, []);
            var loaded := Load(db, Some(7), parse).0;
            loaded == Obj(map[]) && Truthy(loaded) && !WellFormed(loaded)
  {
  }
}
