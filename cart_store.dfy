/**
 * The `carts` table as the cart helpers of src/services/dbService.js see it:
 * a flag saying whether the table exists, one JSON payload per user id
 * (`user_id` is UNIQUE), and the ids of the `users` table that `user_id`
 * references. The connection is a script of per-query outcomes: each query
 * is either answered or fails with an error other than SQLSTATE 42P01
 * (undefined_table); 42P01 itself arises exactly when the table is missing.
 *
 * The spec functions below factor the retry-once policy into one wrapper
 * (RetryOnce); the class methods follow the source's duplicated code and are
 * proved equal to it.
 */
module CartStore {
  import opened Wrappers
  import opened JsValues

  /** What the connection does with the next query. */
  datatype Link = Up | Down

  /** The error classes the code tells apart: 42P01 and everything else. */
  datatype SqlError = UndefinedTable | OtherError

  /** Abstract state of the database as the cart code sees it. */
  datatype Db = Db(tableExists: bool, rows: map<int, Value>, users: set<int>, script: seq<Link>)

  /** No rows without a table, and every row's `user_id` references a user. */
  ghost predicate Inv(db: Db)
  {
    (!db.tableExists ==> db.rows == map[]) && db.rows.Keys <= db.users
  }

  /** No query in the script fails: an empty script answers every query. */
  ghost predicate Reliable(db: Db)
  {
    Down !in db.script
  }

  /** The next query is answered. */
  predicate NextUp(db: Db)
  {
    |db.script| == 0 || db.script[0] == Up
  }

  /** The state once the next query has been issued. */
  function Spend(db: Db): (r: Db)
    ensures r.tableExists == db.tableExists && r.rows == db.rows && r.users == db.users
    ensures Reliable(db) ==> Reliable(r) && NextUp(db)
    ensures |r.script| == if |db.script| == 0 then 0 else |db.script| - 1
  {
    if |db.script| == 0 then db else db.(script := db.script[1..])
  }

  /**
   * ensureCartsTableExists (dbService.js:6-33): ask information_schema; if the
   * table is absent, CREATE TABLE and then CREATE INDEX. Every error is logged
   * and swallowed.
   */
  function EnsureTable(db: Db): (r: Db)
    requires Inv(db)
    ensures Inv(r) && r.users == db.users
    ensures db.tableExists ==> r.tableExists && r.rows == db.rows
    ensures !db.tableExists ==> r.rows == map[]
    ensures Reliable(db) ==> Reliable(r) && r.tableExists
    ensures !r.tableExists ==> !db.tableExists
    ensures r.tableExists <==> db.tableExists || (NextUp(db) && NextUp(Spend(db)))
  {
    var checked := Spend(db);
    if !NextUp(db) then checked
    else if db.tableExists then checked
    else if !NextUp(checked) then Spend(checked)
    else Spend(Spend(checked).(tableExists := true, rows := map[]))
  }

  /** The payload stored for `u`, if there is a row. */
  function Cell(db: Db, u: int): Option<Value>
  {
    if u in db.rows then Some(db.rows[u]) else None
  }

  /**
   * Decoding a selected `cart_data` (dbService.js:42-49): no row or a falsy
   * payload gives null; a string payload goes through JSON.parse, which may
   * throw (None); anything else is returned as it is.
   */
  function DecodeRow(cell: Option<Value>, parse: string -> Option<Value>): (r: Option<Value>)
    ensures cell.None? ==> r == Some(Null)
    ensures r.None? ==> cell.Some? && cell.value.Str? && cell.value.s != ""
    ensures cell.Some? && Truthy(cell.value) && !cell.value.Str? ==> r == Some(cell.value)
    ensures cell.Some? && !Truthy(cell.value) ==> r == Some(Null)
    ensures cell.Some? && Truthy(cell.value) && cell.value.Str? ==> r == parse(cell.value.s)
  {
    match cell
    case None => Some(Null)
    case Some(v) =>
      if !Truthy(v) then Some(Null)
      else if v.Str? then parse(v.s)
      else Some(v)
  }

  /** What a guarded call asks of the table. */
  datatype Request =
    | Read(user: int, parse: string -> Option<Value>)
    | Write(user: int, cart: Value)

  /** One run of the body of a `try`: a value, or an error with its class. */
  datatype Attempt = Done(result: Value, db: Db) | Raised(code: SqlError, db: Db)

  /**
   * One run of the try-block of load (dbService.js:37-49) or save (81-100).
   * A write SELECTs the row's id, then UPDATEs an existing row or INSERTs a
   * new one; the INSERT fails (foreign key violation) when the user is unknown.
   */
  function Run(req: Request, db: Db): (a: Attempt)
    requires Inv(db)
    ensures Inv(a.db) && a.db.users == db.users && a.db.tableExists == db.tableExists
    ensures a.Raised? && a.code == UndefinedTable ==> !db.tableExists
    ensures req.Read? ==> a.db.rows == db.rows
    ensures a.db.rows == db.rows || (req.Write? && a.Done? && a.db.rows == db.rows[req.user := req.cart])
    ensures Reliable(db) ==> Reliable(a.db)
  {
    var selected := Spend(db);
    if !NextUp(db) then Raised(OtherError, selected)
    else if !db.tableExists then Raised(UndefinedTable, selected)
    else
      match req
      case Read(u, parse) =>
        (match DecodeRow(Cell(db, u), parse)
         case None => Raised(OtherError, selected)
         case Some(v) => Done(v, selected))
      case Write(u, cart) =>
        var written := Spend(selected);
        if !NextUp(selected) then Raised(OtherError, written)
        else if u !in db.rows && u !in db.users then Raised(OtherError, written)
        else Done(Undefined, written.(rows := db.rows[u := cart]))
  }

  /** What a guarded call returns when it gives up: load gives null, save gives undefined. */
  function Fallback(req: Request): Value
  {
    if req.Read? then Null else Undefined
  }

  /**
   * The policy both load and save follow: on 42P01, provision the table and
   * run the body exactly once more; any other error, and any error of the
   * retry, gives the fallback value. Nothing is ever propagated.
   */
  function RetryOnce(req: Request, db: Db): (out: (Value, Db))
    requires Inv(db)
    ensures Inv(out.1) && out.1.users == db.users
    ensures db.tableExists ==> out.1.tableExists
    ensures Reliable(db) ==> Reliable(out.1) && out.1.tableExists
  {
    match Run(req, db)
    case Done(v, d) => (v, d)
    case Raised(OtherError, d) => (Fallback(req), d)
    case Raised(UndefinedTable, d) =>
      match Run(req, EnsureTable(d))
      case Done(v, d') => (v, d')
      case Raised(_, d') => (Fallback(req), d')
  }

  /** loadCartFromDatabase (dbService.js:35-77): the result and the new state. */
  function Load(db: Db, userId: UserId, parse: string -> Option<Value>): (out: (Value, Db))
    requires Inv(db)
    ensures Inv(out.1) && out.1.users == db.users
    ensures out.1.rows == db.rows
    ensures !PresentId(userId) ==> out == (Null, db)
    ensures out.0 == Null || (PresentId(userId) && userId.value in db.rows
                              && DecodeRow(Some(db.rows[userId.value]), parse) == Some(out.0))
  {
    if !PresentId(userId) then (Null, db)
    else RetryOnce(Read(userId.value, parse), db)
  }

  /** saveCartToDatabase (dbService.js:79-132): the new state (the call returns nothing). */
  function Save(db: Db, userId: UserId, cart: Value): (r: Db)
    requires Inv(db)
    ensures Inv(r) && r.users == db.users
    ensures !PresentId(userId) || !Truthy(cart) ==> r == db
    ensures r.rows == db.rows || (PresentId(userId) && r.rows == db.rows[userId.value := cart])
  {
    if !PresentId(userId) || !Truthy(cart) then db
    else RetryOnce(Write(userId.value, cart), db).1
  }

  /** A query's answer: its rows, or the error it raised. */
  datatype Answer<T> = Rows(value: T) | Failed(code: SqlError)

  /** The database handle (`pool`) the cart helpers receive. */
  class CartDatabase {
    var tableExists: bool
    var rows: map<int, Value>
    var users: set<int>
    var script: seq<Link>

    function Model(): Db
      reads this
    {
      Db(tableExists, rows, users, script)
    }

    ghost predicate Valid()
      reads this
    {
      Inv(Model())
    }

    /** A database without the `carts` table. */
    constructor (users: set<int>, script: seq<Link>)
      ensures Valid() && Model() == Db(false, map[], users, script)
    {
      tableExists := false;
      rows := map[];
      this.users := users;
      this.script := script;
    }

    /** Issues a query: true when the connection answers it. */
    method Issue() returns (up: bool)
      modifies this`script
      ensures up == NextUp(old(Model())) && Model() == Spend(old(Model()))
    {
      up := |script| == 0 || script[0] == Up;
      if |script| != 0 {
        script := script[1..];
      }
    }

    /** SELECT EXISTS (... information_schema.tables ... 'carts'). */
    method SelectTableExists() returns (a: Answer<bool>)
      modifies this`script
      ensures Model() == Spend(old(Model()))
      ensures a == if NextUp(old(Model())) then Rows(tableExists) else Failed(OtherError)
    {
      var up := Issue();
      a := if up then Rows(tableExists) else Failed(OtherError);
    }

    /** CREATE TABLE carts (...): a new, empty table. */
    method CreateTable() returns (ok: bool)
      requires !tableExists
      modifies this
      ensures ok == NextUp(old(Model()))
      ensures Model() == if ok then Spend(old(Model())).(tableExists := true, rows := map[])
                         else Spend(old(Model()))
    {
      ok := Issue();
      if ok {
        tableExists := true;
        rows := map[];
      }
    }

    /** CREATE INDEX IF NOT EXISTS idx_carts_user: no effect on what is modelled. */
    method CreateIndex() returns (ok: bool)
      modifies this`script
      ensures ok == NextUp(old(Model())) && Model() == Spend(old(Model()))
    {
      ok := Issue();
    }

    /** SELECT cart_data FROM carts WHERE user_id = $1 (also used for SELECT id). */
    method SelectRow(u: int) returns (a: Answer<Option<Value>>)
      modifies this`script
      ensures Model() == Spend(old(Model()))
      ensures a == if !NextUp(old(Model())) then Failed(OtherError)
                   else if !tableExists then Failed(UndefinedTable)
                   else Rows(Cell(old(Model()), u))
    {
      var up := Issue();
      if !up {
        a := Failed(OtherError);
      } else if !tableExists {
        a := Failed(UndefinedTable);
      } else {
        a := Rows(if u in rows then Some(rows[u]) else None);
      }
    }

    /** UPDATE carts SET cart_data = $1 ... WHERE user_id = $2, on an existing row. */
    method UpdateRow(u: int, cart: Value) returns (err: Option<SqlError>)
      requires Valid() && tableExists && u in rows
      modifies this
      ensures Valid()
      ensures err == if NextUp(old(Model())) then None else Some(OtherError)
      ensures Model() == if err.None? then Spend(old(Model())).(rows := old(rows)[u := cart])
                         else Spend(old(Model()))
    {
      var up := Issue();
      if !up {
        err := Some(OtherError);
      } else {
        rows := rows[u := cart];
        err := None;
      }
    }

    /** INSERT INTO carts (user_id, cart_data, ...): refused when `u` is not a user id. */
    method InsertRow(u: int, cart: Value) returns (err: Option<SqlError>)
      requires Valid() && tableExists && u !in rows
      modifies this
      ensures Valid()
      ensures err == if NextUp(old(Model())) && u in users then None else Some(OtherError)
      ensures Model() == if err.None? then Spend(old(Model())).(rows := old(rows)[u := cart])
                         else Spend(old(Model()))
    {
      var up := Issue();
      if !up || u !in users {
        err := Some(OtherError);
      } else {
        rows := rows[u := cart];
        err := None;
      }
    }

    /** ensureCartsTableExists (dbService.js:6-33). */
    method EnsureCartsTableExists()
      requires Valid()
      modifies this
      ensures Valid()
      ensures Model() == EnsureTable(old(Model()))
    {
      var check := SelectTableExists();
      if check.Rows? && !check.value {
        var created := CreateTable();
        if created {
          var indexed := CreateIndex();
        }
      }
    }

    /** loadCartFromDatabase (dbService.js:35-77). */
    method LoadCartFromDatabase(userId: UserId, parse: string -> Option<Value>) returns (r: Value)
      requires Valid()
      modifies this
      ensures Valid()
      ensures (r, Model()) == Load(old(Model()), userId, parse)
    {
      if !PresentId(userId) {
        return Null;
      }
      var u := userId.value;
      var code: SqlError;
      var first := SelectRow(u);
      if first.Rows? {
        var decoded := DecodeRow(first.value, parse);
        if decoded.Some? {
          return decoded.value;
        }
        code := OtherError;  // JSON.parse threw inside the try
      } else {
        code := first.code;
      }
      if code == UndefinedTable {
        EnsureCartsTableExists();
        var retry := SelectRow(u);
        if retry.Rows? {
          var decoded := DecodeRow(retry.value, parse);
          if decoded.Some? {
            return decoded.value;
          }
        }
        return Null;
      }
      return Null;
    }

    /** The body of the try-block of saveCartToDatabase (dbService.js:82-100). */
    method Upsert(u: int, cart: Value) returns (err: Option<SqlError>)
      requires Valid()
      modifies this
      ensures Valid()
      ensures var a := Run(Write(u, cart), old(Model()));
              Model() == a.db && err == if a.Done? then None else Some(a.code)
    {
      var check := SelectRow(u);
      if check.Failed? {
        return Some(check.code);
      }
      if check.value.Some? {
        err := UpdateRow(u, cart);
      } else {
        err := InsertRow(u, cart);
      }
    }

    /** saveCartToDatabase (dbService.js:79-132). */
    method SaveCartToDatabase(userId: UserId, cart: Value)
      requires Valid()
      modifies this
      ensures Valid()
      ensures Model() == Save(old(Model()), userId, cart)
    {
      if !PresentId(userId) || !Truthy(cart) {
        return;
      }
      var u := userId.value;
      var err := Upsert(u, cart);
      if err == Some(UndefinedTable) {
        EnsureCartsTableExists();
        var retryErr := Upsert(u, cart);
      }
    }
  }
}
