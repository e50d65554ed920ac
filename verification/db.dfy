/**
 * An abstract relational store and its transactions (`sqlx.DB`, `sqlx.Tx`).
 *
 * The tables hold only the columns the modelled statements touch. A
 * statement's effect on the tables is supplied by the code that issues it
 * (each builder defines the meaning of its own statement), and whether the
 * driver call fails is an input: the store never decides that by itself.
 */
module Db {
  import opened Entities

  /** A statement as sent to the driver: SQL text and bound values. */
  datatype Statement = Statement(sql: string, args: seq<Value>)

  /** A row of "Product"; `stock == None` is the column default. */
  datatype ProductRow = ProductRow(
    title: string, desc: string, price: real, color: string, size: string,
    sex: string, category: string, stock: Option<int>)

  /** A row of "Image". */
  datatype ImageRow = ImageRow(fileName: string, url: string, productId: string)

  /** A row of "Cart": whose cart it is and what it holds. */
  datatype CartRow = CartRow(userId: string, item: Cart)

  /** A row of "Order". */
  datatype OrderRow = OrderRow(
    userId: string, total: real, status: string, products: seq<Cart>,
    address: Address, paymentDetail: PaymentDetail)

  datatype Tables = Tables(
    products: map<string, ProductRow>,
    images: seq<ImageRow>,
    carts: seq<CartRow>,
    orders: map<string, OrderRow>,
    users: map<string, User>)

  /** The committed state of the database. */
  class Database {
    var tables: Tables

    constructor (t: Tables)
      ensures tables == t
    {
      tables := t;
    }
  }

  /**
   * Active: statements may run. Committed and RolledBack: finished by
   * `Commit` and `Rollback`. Aborted: `Commit` was called and failed, so the
   * work was discarded without a call to `Rollback`.
   */
  datatype TxStatus = Active | Committed | RolledBack | Aborted

  /** A transaction: private working tables, the statements sent on it, its status. */
  class Tx {
    const db: Database
    var work: Tables
    var sent: seq<Statement>
    var status: TxStatus

    /** `BeginTxx` succeeded: the transaction starts from the committed tables. */
    constructor (db: Database)
      ensures this.db == db && work == db.tables && sent == [] && status == Active
    {
      this.db := db;
      work := db.tables;
      sent := [];
      status := Active;
    }

    /**
     * Sends `st`. It succeeds unless the driver reports an error or the
     * transaction is already finished; on success the working tables
     * become `after`, the statement's effect.
     */
    method Exec(st: Statement, after: Tables, fails: bool) returns (ok: bool)
      modifies this
      ensures ok == (old(status) == Active && !fails)
      ensures sent == old(sent) + [st]
      ensures work == if ok then after else old(work)
      ensures status == old(status)
    {
      sent := sent + [st];
      ok := status == Active && !fails;
      if ok {
        work := after;
      }
    }

    /** Discards the work; the committed tables are untouched. */
    method Rollback()
      modifies this
      ensures status == if old(status) == Active then RolledBack else old(status)
      ensures work == old(work) && sent == old(sent)
    {
      if status == Active {
        status := RolledBack;
      }
    }

    /** Publishes the work to the database, unless the commit fails. */
    method Commit(fails: bool) returns (ok: bool)
      modifies this, db
      ensures ok == (old(status) == Active && !fails)
      ensures db.tables == if ok then old(work) else old(db.tables)
      ensures status == (if ok then Committed else if old(status) == Active then Aborted else old(status))
      ensures work == old(work) && sent == old(sent)
    {
      ok := status == Active && !fails;
      if ok {
        db.tables := work;
        status := Committed;
      } else if status == Active {
        status := Aborted;
      }
    }
  }
}
