/**
 * The product insert of productPattern/insertProduct.go: one transaction
 * that inserts the product row (scanning the generated id into the request),
 * inserts its image rows with the multi-row statement, and commits; the
 * engineer stops at the first failing step.
 */
module InsertProductPattern {
  import opened SqlText
  import opened Entities
  import opened Db
  import ImageInsert

  /** The head of the product INSERT, one source line per piece (the first keeps its trailing blank). */
  const InsertHead: string :=
    "\n\tINSERT INTO \"Product\" " + "\n\t(" + "\n\t\t\"product_title\"," + "\n\t\t\"product_desc\","
    + "\n\t\t\"product_price\"," + "\n\t\t\"product_color\"," + "\n\t\t\"product_size\","
    + "\n\t\t\"product_sex\"," + "\n\t\t\"product_category\"" + "\n\t)"

  /** `$1, $2, ..., $n`. */
  function PlaceholderList(n: nat): string
  {
    if n == 0 then "" else if n == 1 then Placeholder(1) else PlaceholderList(n - 1) + ", " + Placeholder(n)
  }

  /** `VALUES ($1, ..., $n)`. */
  function ValuesClause(n: nat): string
  {
    "\n\tVALUES (" + PlaceholderList(n) + ")"
  }

  const Returning: string := "\n\tRETURNING \"id\";"

  /** The INSERT for `n` columns. */
  function InsertSql(n: nat): string
  {
    InsertHead + ValuesClause(n) + Returning
  }

  const InsertProductSql: string := InsertSql(7)

  /** The bound values, in column order; the stock is not among them. */
  function ProductArgs(req: AddProduct): seq<Value>
  {
    [Str(req.productTitle), Str(req.productDesc), Float(req.productPrice), Str(req.productColor),
     Str(req.productSize), Str(req.productSex), Str(req.productCategory)]
  }

  /** The new row: the seven columns from the request, the stock left at its default. */
  function NewProductRow(req: AddProduct): ProductRow
  {
    ProductRow(req.productTitle, req.productDesc, req.productPrice, req.productColor,
               req.productSize, req.productSex, req.productCategory, None)
  }

  function InsertProductEffect(t: Tables, req: AddProduct, newId: string): Tables
  {
    t.(products := t.products[newId := NewProductRow(req)])
  }

  /** The committed tables after a successful insert with generated id `newId`. */
  function InsertedTables(t: Tables, req: AddProduct, newId: string): Tables
  {
    ImageInsert.InsertImagesEffect(InsertProductEffect(t, req, newId), req.images, newId)
  }

  datatype Stage = BeginStage | InsertStage | ImagesStage | CommitStage

  /** The error text of each step: the begin error as the driver reports it, the others wrapped. */
  function FailureMessage(stage: Stage, dbErr: string): string
  {
    match stage
    case BeginStage => dbErr
    case InsertStage => "insert product failed: " + dbErr
    case ImagesStage => "insert images failed: " + dbErr
    case CommitStage => "commit failed: " + dbErr
  }

  /** The first failing step, if any. */
  function FirstFailure(beginFails: bool, insertFails: bool, imagesFail: bool, commitFails: bool): Option<Stage>
  {
    if beginFails then Some(BeginStage)
    else if insertFails then Some(InsertStage)
    else if imagesFail then Some(ImagesStage)
    else if commitFails then Some(CommitStage)
    else None
  }

  /** The statements sent once the transaction has begun: the image insert only after the product insert succeeded. */
  function SentStatements(req: AddProduct, insertFails: bool, generatedId: string): seq<Statement>
  {
    [Statement(InsertProductSql, ProductArgs(req))]
    + (if insertFails then []
       else [Statement(ImageInsert.ImagesSql(|req.images|), ImageInsert.ImagesArgs(req.images, generatedId))])
  }

  class InsertProductBuilder {
    const db: Database
    var tx: Tx?
    var req: AddProduct

    constructor (db: Database, req: AddProduct)
      ensures this.db == db && this.req == req && tx == null
    {
      this.db := db;
      this.req := req;
      tx := null;
    }

    method InitTransaction(fails: bool) returns (ok: bool)
      modifies this
      ensures ok == !fails && req == old(req)
      ensures ok ==> fresh(tx) && tx.db == db && tx.work == db.tables && tx.sent == [] && tx.status == Active
      ensures !ok ==> tx == old(tx)
    {
      ok := !fails;
      if ok {
        tx := new Tx(db);
      }
    }

    method GetProductId() returns (id: string)
      ensures id == req.id
    {
      id := req.id;
    }

    /** Inserts the row and scans the generated id into `req.id`; rolls back on failure. */
    method InsertProduct(fails: bool, generatedId: string) returns (ok: bool)
      requires tx != null
      modifies this, tx
      ensures ok == (old(tx.status) == Active && !fails) && tx == old(tx)
      ensures tx.sent == old(tx.sent) + [Statement(InsertProductSql, ProductArgs(old(req)))]
      ensures ok ==> req == old(req).(id := generatedId) && tx.work == InsertProductEffect(old(tx.work), old(req), generatedId)
      ensures !ok ==> req == old(req) && tx.work == old(tx.work)
      ensures tx.status == if ok || old(tx.status) != Active then old(tx.status) else RolledBack
    {
      ok := tx.Exec(Statement(InsertProductSql, ProductArgs(req)), InsertProductEffect(tx.work, req, generatedId), fails);
      if ok {
        req := req.(id := generatedId);
      } else {
        tx.Rollback();
      }
    }

    /** Inserts one image row per request image, owned by `req.id`; rolls back on failure. */
    method InsertImages(fails: bool) returns (ok: bool)
      requires tx != null
      modifies tx
      ensures ok == (old(tx.status) == Active && !fails)
      ensures tx.sent == old(tx.sent)
        + [Statement(ImageInsert.ImagesSql(|req.images|), ImageInsert.ImagesArgs(req.images, req.id))]
      ensures tx.work == if ok then ImageInsert.InsertImagesEffect(old(tx.work), req.images, req.id) else old(tx.work)
      ensures tx.status == if ok || old(tx.status) != Active then old(tx.status) else RolledBack
    {
      var query, valueStack := ImageInsert.BuildImagesInsert(req.images, req.id);
      ok := tx.Exec(Statement(query, valueStack), ImageInsert.InsertImagesEffect(tx.work, req.images, req.id), fails);
      if !ok {
        tx.Rollback();
      }
    }

    /** Commits; a failed commit is not followed by a rollback. */
    method Commit(fails: bool) returns (ok: bool)
      requires tx != null
      modifies tx, tx.db
      ensures ok == (old(tx.status) == Active && !fails)
      ensures tx.db.tables == if ok then old(tx.work) else old(tx.db.tables)
      ensures tx.status == (if ok then Committed else if old(tx.status) == Active then Aborted else old(tx.status))
      ensures tx.work == old(tx.work) && tx.sent == old(tx.sent)
    {
      ok := tx.Commit(fails);
    }
  }

  class InsertProductEngineer {
    const builder: InsertProductBuilder

    constructor (builder: InsertProductBuilder)
      ensures this.builder == builder
    {
      this.builder := builder;
    }

    /**
     * begin, insert product, insert images, commit: the first failing step
     * returns `("", err)` and no later step runs; success returns the
     * generated id.
     */
    method InsertProduct(beginFails: bool, insertFails: bool, generatedId: string, imagesFail: bool,
                         commitFails: bool, dbErr: string) returns (id: string, err: Option<string>)
      modifies builder, builder.db
      ensures FirstFailure(beginFails, insertFails, imagesFail, commitFails).Some? ==>
        id == "" && builder.db.tables == old(builder.db.tables)
        && err == Some(FailureMessage(FirstFailure(beginFails, insertFails, imagesFail, commitFails).value, dbErr))
      ensures FirstFailure(beginFails, insertFails, imagesFail, commitFails).None? ==>
        id == generatedId && err.None?
        && builder.db.tables == InsertedTables(old(builder.db.tables), old(builder.req), generatedId)
      ensures builder.req == if beginFails || insertFails then old(builder.req) else old(builder.req).(id := generatedId)
      ensures !beginFails ==> fresh(builder.tx) && builder.tx.db == builder.db
      ensures !beginFails ==>
        builder.tx.sent == SentStatements(old(builder.req), insertFails, generatedId)
      ensures !beginFails && (insertFails || imagesFail) ==> builder.tx.status == RolledBack
      ensures !beginFails && !insertFails && !imagesFail ==>
        builder.tx.status == if commitFails then Aborted else Committed
    {
      var b := builder;
      var ok := b.InitTransaction(beginFails);
      if !ok {
        return "", Some(FailureMessage(BeginStage, dbErr));
      }
      ok := b.InsertProduct(insertFails, generatedId);
      if !ok {
        return "", Some(FailureMessage(InsertStage, dbErr));
      }
      ok := b.InsertImages(imagesFail);
      if !ok {
        return "", Some(FailureMessage(ImagesStage, dbErr));
      }
      ok := b.Commit(commitFails);
      if !ok {
        return "", Some(FailureMessage(CommitStage, dbErr));
      }
      id := b.GetProductId();
      err := None;
    }
  }

  // ---------------------------------------------------------------------------
  // Properties

  lemma {:induction false} PlaceholderListReads(n: nat)
    ensures Placeholders(PlaceholderList(n)) == OneTo(n)
    ensures n > 0 ==> Closed(PlaceholderList(n))
  {
    if n == 1 {
      PlaceholderReads(1);
    } else if n > 1 {
      var init := PlaceholderList(n - 1);
      PlaceholderListReads(n - 1);
      PlaceholdersNone(", ");
      PlaceholderReads(n);
      PlaceholdersConcat(init, ", ");
      PlaceholdersConcat(init + ", ", Placeholder(n));
      OneToSnoc(n - 1);
    }
  }

  lemma InsertHeadFree()
    ensures Free(InsertHead, '$')
  {
    var a, b, c, d := "\n\tINSERT INTO \"Product\" ", "\n\t(", "\n\t\t\"product_title\",", "\n\t\t\"product_desc\",";
    var e, f, g := "\n\t\t\"product_price\",", "\n\t\t\"product_color\",", "\n\t\t\"product_size\",";
    var h, i, j := "\n\t\t\"product_sex\",", "\n\t\t\"product_category\"", "\n\t)";
    assert Free(a, '$') && Free(b, '$') && Free(c, '$') && Free(d, '$') && Free(e, '$');
    assert Free(f, '$') && Free(g, '$') && Free(h, '$') && Free(i, '$') && Free(j, '$');
    FreeConcat(a, b, '$');
    FreeConcat(a + b, c, '$');
    FreeConcat(a + b + c, d, '$');
    FreeConcat(a + b + c + d, e, '$');
    FreeConcat(a + b + c + d + e, f, '$');
    FreeConcat(a + b + c + d + e + f, g, '$');
    FreeConcat(a + b + c + d + e + f + g, h, '$');
    FreeConcat(a + b + c + d + e + f + g + h, i, '$');
    FreeConcat(a + b + c + d + e + f + g + h + i, j, '$');
  }

  lemma ValuesClausePlaceholders(n: nat)
    requires n > 0
    ensures Placeholders(ValuesClause(n)) == OneTo(n) && Closed(ValuesClause(n))
  {
    var open := "\n\tVALUES (";
    assert Free(open, '$');
    PlaceholdersNone(open);
    PlaceholderListReads(n);
    PlaceholdersConcat(open, PlaceholderList(n));
    PlaceholdersNone(")");
    PlaceholdersConcat(open + PlaceholderList(n), ")");
  }

  lemma InsertHeadPlaceholders()
    ensures Placeholders(InsertHead) == []
  {
    InsertHeadFree();
    PlaceholdersNone(InsertHead);
  }

  lemma ReturningPlaceholders()
    ensures Placeholders(Returning) == [] && Closed(Returning)
  {
    assert Free(Returning, '$');
    PlaceholdersNone(Returning);
  }

  /** A placeholder-free head and tail around a body leave the body's placeholders. */
  lemma Surround(h: string, v: string, r: string, n: nat)
    requires Placeholders(h) == [] && Placeholders(r) == [] && Closed(r)
    requires Placeholders(v) == OneTo(n) && Closed(v)
    ensures Placeholders(h + v + r) == OneTo(n)
  {
    PlaceholdersConcat(h, v);
    PlaceholdersConcat(h + v, r);
  }

  lemma InsertSqlPlaceholders(n: nat)
    requires n > 0
    ensures Placeholders(InsertSql(n)) == OneTo(n)
  {
    InsertHeadPlaceholders();
    ValuesClausePlaceholders(n);
    ReturningPlaceholders();
    Surround(InsertHead, ValuesClause(n), Returning, n);
  }

  /** The product INSERT numbers its placeholders $1..$7, one per bound value. */
  lemma InsertPlaceholders(req: AddProduct)
    ensures Placeholders(InsertProductSql) == OneTo(|ProductArgs(req)|)
  {
    InsertSqlPlaceholders(7);
  }

  /** The stock is neither bound nor written: the new row keeps the column default. */
  lemma StockNotWritten(t: Tables, req: AddProduct, newId: string)
    ensures forall v :: v in ProductArgs(req) ==> !v.Int?
    ensures InsertProductEffect(t, req, newId).products[newId].stock == None
  {
  }

  /**
   * A successful insert adds exactly the new product row and one image row
   * per request image, each owned by the generated id; nothing else changes.
   */
  lemma InsertedRows(t: Tables, req: AddProduct, newId: string)
    ensures var u := InsertedTables(t, req, newId);
      u.products == t.products[newId := NewProductRow(req)]
      && u.images[..|t.images|] == t.images && |u.images| == |t.images| + |req.images|
      && (forall k :: |t.images| <= k < |u.images| ==> u.images[k].productId == newId)
      && u.carts == t.carts && u.orders == t.orders
  {
  }
}
