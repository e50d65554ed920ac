/**
 * Order placement: `orderUsecase.AddOrder` refuses an empty cart, forces
 * the status to "pending" and hands the cart to `orderRepository.AddOrder`,
 * which inserts the order and deletes the user's cart rows in one
 * transaction, rolling back when either statement fails.
 */
module Orders {
  import opened Entities
  import opened Db

  const InsertOrderSql: string :=
    "\n\tINSERT INTO \"Order\" (" + "\n\t\t\"user_id\"," + "\n\t\t\"total\"," + "\n\t\t\"status\","
    + "\n\t\t\"products\"," + "\n\t\t\"address\"," + "\n\t\t\"payment_detail\"" + "\n\t)"
    + "\n\tVALUES ($1, $2, $3, $4, $5, $6)" + "\n\tRETURNING \"id\";" + "\n\t"

  const DeleteCartSql: string := "\n\tDELETE FROM \"Cart\"" + "\n\tWHERE \"user_id\" = $1;" + "\n\t"

  const Pending: string := "pending"

  /** `order.AddOrderReq`; the usecase overwrites `status` in place. */
  class AddOrderReq {
    var userId: string
    var total: real
    var status: string
    var address: Address
    var paymentDetail: PaymentDetail

    constructor (userId: string, total: real, status: string, address: Address, paymentDetail: PaymentDetail)
      ensures this.userId == userId && this.total == total && this.status == status
      ensures this.address == address && this.paymentDetail == paymentDetail
    {
      this.userId := userId;
      this.total := total;
      this.status := status;
      this.address := address;
      this.paymentDetail := paymentDetail;
    }

    /** The row the request describes, with the given products. */
    function Row(products: seq<Cart>): OrderRow
      reads this
    {
      OrderRow(userId, total, status, products, address, paymentDetail)
    }

    /** The six values bound to `$1..$6`, in column order. */
    function Args(products: seq<Cart>): (r: seq<Value>)
      reads this
      ensures |r| == 6 && r[0] == Str(userId) && r[2] == Str(status) && r[3] == OrderProducts(products)
    {
      [Str(userId), Float(total), Str(status), OrderProducts(products), AddressValue(address), PaymentValue(paymentDetail)]
    }
  }

  // ---------------------------------------------------------------------------
  // Effects of the two statements

  /** The cart rows of user `u`, in table order. */
  function CartsOf(carts: seq<CartRow>, u: string): (r: seq<CartRow>)
    ensures forall i :: 0 <= i < |r| ==> r[i].userId == u
  {
    if carts == [] then []
    else CartsOf(carts[..|carts| - 1], u) + (if carts[|carts| - 1].userId == u then [carts[|carts| - 1]] else [])
  }

  /** `DELETE FROM "Cart" WHERE "user_id" = $1`: the rows of every other user, in table order. */
  function WithoutCartsOf(carts: seq<CartRow>, u: string): (r: seq<CartRow>)
    ensures forall i :: 0 <= i < |r| ==> r[i].userId != u
  {
    if carts == [] then []
    else WithoutCartsOf(carts[..|carts| - 1], u) + (if carts[|carts| - 1].userId != u then [carts[|carts| - 1]] else [])
  }

  function InsertOrderEffect(t: Tables, id: string, row: OrderRow): Tables
  {
    t.(orders := t.orders[id := row])
  }

  function DeleteCartEffect(t: Tables, u: string): Tables
  {
    t.(carts := WithoutCartsOf(t.carts, u))
  }

  /** The committed tables once an order is placed: the order is in, the user's cart is empty. */
  function OrderPlaced(t: Tables, id: string, row: OrderRow): Tables
  {
    DeleteCartEffect(InsertOrderEffect(t, id, row), row.userId)
  }

  lemma CartsOfSnoc(carts: seq<CartRow>, row: CartRow, v: string)
    ensures CartsOf(carts + [row], v) == CartsOf(carts, v) + (if row.userId == v then [row] else [])
  {
    assert (carts + [row])[..|carts|] == carts;
  }

  /** A table with no row of `v` has no cart of `v`. */
  lemma {:induction false} CartsOfNone(carts: seq<CartRow>, v: string)
    requires forall i :: 0 <= i < |carts| ==> carts[i].userId != v
    ensures CartsOf(carts, v) == []
  {
    if carts != [] {
      CartsOfNone(carts[..|carts| - 1], v);
    }
  }

  lemma WithoutCartsOfSnoc(carts: seq<CartRow>, row: CartRow, u: string)
    ensures WithoutCartsOf(carts + [row], u) == WithoutCartsOf(carts, u) + (if row.userId != u then [row] else [])
  {
    assert (carts + [row])[..|carts|] == carts;
  }

  /** The delete leaves every other user's cart rows as they were. */
  lemma {:induction false} DeleteCartKeeps(carts: seq<CartRow>, u: string, v: string)
    requires v != u
    ensures CartsOf(WithoutCartsOf(carts, u), v) == CartsOf(carts, v)
  {
    if carts != [] {
      var init := carts[..|carts| - 1];
      var last := carts[|carts| - 1];
      DeleteCartKeeps(init, u, v);
      assert carts == init + [last];
      CartsOfSnoc(init, last, v);
      WithoutCartsOfSnoc(init, last, u);
      var kept := WithoutCartsOf(init, u);
      if last.userId != u {
        CartsOfSnoc(kept, last, v);
      } else {
        assert kept + [] == kept;
        assert CartsOf(init, v) + [] == CartsOf(init, v);
      }
    }
  }

  /** The delete removes exactly the user's rows: theirs are gone, every other user's are as before. */
  lemma DeleteCartExact(carts: seq<CartRow>, u: string, v: string)
    ensures CartsOf(WithoutCartsOf(carts, u), u) == []
    ensures v != u ==> CartsOf(WithoutCartsOf(carts, u), v) == CartsOf(carts, v)
  {
    CartsOfNone(WithoutCartsOf(carts, u), u);
    if v != u {
      DeleteCartKeeps(carts, u, v);
    }
  }

  /**
   * Placing an order adds exactly the one order row (a new key when the
   * generated id is fresh), empties the user's cart, and leaves every other
   * user's cart rows and the other tables as they were.
   */
  lemma OrderPlacedEffect(t: Tables, id: string, row: OrderRow, v: string)
    ensures var u := OrderPlaced(t, id, row);
      u.orders == t.orders[id := row] && CartsOf(u.carts, row.userId) == []
      && (v != row.userId ==> CartsOf(u.carts, v) == CartsOf(t.carts, v))
      && u.products == t.products && u.images == t.images && u.users == t.users
    ensures id !in t.orders ==> |OrderPlaced(t, id, row).orders| == |t.orders| + 1
  {
    DeleteCartExact(t.carts, row.userId, v);
  }

  // ---------------------------------------------------------------------------
  // The repository

  /** The order-placement outcome: the id, or the error of the first failing step. */
  function AddOrderError(beginFails: bool, insertFails: bool, deleteFails: bool, commitFails: bool, dbErr: string): Option<string>
  {
    if beginFails then Some("begin transaction add order failed: " + dbErr)
    else if insertFails then Some("add order: " + dbErr)
    else if deleteFails then Some("delete all products in cart by user_id: " + dbErr)
    else if commitFails then Some("commit add order failed: " + dbErr)
    else None
  }

  class OrderRepository {
    const db: Database

    constructor (db: Database)
      ensures this.db == db
    {
      this.db := db;
    }

    /**
     * `orderRepository.AddOrder`. The driver's answers are inputs: which step
     * fails, the error text, and the id the database generates.
     */
    method AddOrder(req: AddOrderReq, products: seq<Cart>, beginFails: bool, insertFails: bool,
                    deleteFails: bool, commitFails: bool, dbErr: string, generatedId: string)
      returns (orderId: string, err: Option<string>, tx: Tx?)
      modifies db
      ensures err == AddOrderError(beginFails, insertFails, deleteFails, commitFails, dbErr)
      ensures orderId == if err.None? then generatedId else ""
      ensures db.tables == if err.None? then OrderPlaced(old(db.tables), generatedId, req.Row(products)) else old(db.tables)
      ensures beginFails <==> tx == null
      ensures tx != null ==> fresh(tx) && tx.db == db
      ensures tx != null ==> (tx.sent == [Statement(InsertOrderSql, req.Args(products))]
        + (if insertFails then [] else [Statement(DeleteCartSql, [Str(req.userId)])]))
      ensures tx != null ==> (tx.status == (
        if insertFails || deleteFails then RolledBack else if commitFails then Aborted else Committed))
    {
      if beginFails {
        return "", Some("begin transaction add order failed: " + dbErr), null;
      }
      tx := new Tx(db);
      var row := req.Row(products);
      var ok := tx.Exec(Statement(InsertOrderSql, req.Args(products)), InsertOrderEffect(tx.work, generatedId, row), insertFails);
      if !ok {
        tx.Rollback();
        return "", Some("add order: " + dbErr), tx;
      }
      ok := tx.Exec(Statement(DeleteCartSql, [Str(req.userId)]), DeleteCartEffect(tx.work, req.userId), deleteFails);
      if !ok {
        tx.Rollback();
        return "", Some("delete all products in cart by user_id: " + dbErr), tx;
      }
      ok := tx.Commit(commitFails);
      if !ok {
        return "", Some("commit add order failed: " + dbErr), tx;
      }
      return generatedId, None, tx;
    }
  }

  // ---------------------------------------------------------------------------
  // The usecase

  /** What `userUsecase.GetCart` returns: its error, or the cart's items. */
  datatype CartFetch = CartError(err: string) | CartItems(items: seq<Cart>)

  class OrderUsecase {
    const repo: OrderRepository

    constructor (repo: OrderRepository)
      ensures this.repo == repo
    {
      this.repo := repo;
    }

    /**
     * `orderUsecase.AddOrder`: a cart error is passed on unchanged, an empty
     * cart is refused, otherwise the status is set to "pending" and the
     * repository places the order with the cart's items as its products.
     * Whatever status the request carried, a placed order is stored as
     * pending, under the returned id, with the cart's items.
     */
    method AddOrder(req: AddOrderReq, cart: CartFetch, beginFails: bool, insertFails: bool,
                    deleteFails: bool, commitFails: bool, dbErr: string, generatedId: string)
      returns (orderId: string, err: Option<string>)
      modifies req, repo.db
      ensures cart.CartError? ==> orderId == "" && err == Some(cart.err)
      ensures cart == CartItems([]) ==> orderId == "" && err == Some("cart is empty")
      ensures !(cart.CartItems? && cart.items != []) ==> (unchanged(req) && repo.db.tables == old(repo.db.tables))
      ensures cart.CartItems? && cart.items != [] ==> (
        req.status == Pending && req.userId == old(req.userId) && req.total == old(req.total)
        && req.address == old(req.address) && req.paymentDetail == old(req.paymentDetail)
        && err == AddOrderError(beginFails, insertFails, deleteFails, commitFails, dbErr)
        && orderId == (if err.None? then generatedId else "")
        && repo.db.tables == (if err.None? then OrderPlaced(old(repo.db.tables), generatedId, req.Row(cart.items))
                              else old(repo.db.tables)))
      ensures cart.CartItems? && cart.items != [] && err.None? ==> (
        orderId in repo.db.tables.orders && repo.db.tables.orders[orderId].status == Pending
        && repo.db.tables.orders[orderId].products == cart.items && repo.db.tables.orders[orderId].userId == req.userId)
    {
      if cart.CartError? {
        return "", Some(cart.err);
      }
      if |cart.items| == 0 {
        return "", Some("cart is empty");
      }
      req.status := Pending;
      var tx;
      orderId, err, tx := repo.AddOrder(req, cart.items, beginFails, insertFails, deleteFails, commitFails, dbErr, generatedId);
      if err.Some? {
        return "", err;
      }
    }
  }
}
