/**
 * The partial product update of productPattern/updateProduct.go: a builder
 * that appends one `"column" = $k` assignment per supplied field, closes the
 * statement with `WHERE "id" = $n`, and an engineer that runs the steps,
 * sends the UPDATE and, when the request carries images, replaces the
 * product's images, all in one transaction.
 */
module UpdateProductPattern {
  import opened SqlText
  import opened Entities
  import opened Db
  import ImageInsert

  /** The columns the builder can assign, one per `update…Query` step. */
  datatype Column = Title | Desc | Price | Category | Sex | Size | Color | Stock

  /** The order in which `sumQueryFields` runs the steps. */
  const StepOrder: seq<Column> := [Title, Desc, Price, Category, Sex, Size, Color, Stock]

  function ColumnName(c: Column): string
  {
    match c
    case Title => "product_title"
    case Desc => "product_desc"
    case Price => "product_price"
    case Category => "product_category"
    case Sex => "product_sex"
    case Size => "product_size"
    case Color => "product_color"
    case Stock => "product_stock"
  }

  /** Whether the request supplies column `c`: a non-empty string, a non-zero price; stock always. */
  predicate Supplied(req: UpdateProduct, c: Column)
  {
    match c
    case Title => req.productTitle != ""
    case Desc => req.productDesc != ""
    case Price => req.productPrice != 0.0
    case Category => req.productCategory != ""
    case Sex => req.productSex != ""
    case Size => req.productSize != ""
    case Color => req.productColor != ""
    case Stock => true
  }

  /** The value the step for `c` appends. */
  function ColumnValue(req: UpdateProduct, c: Column): Value
  {
    match c
    case Title => Str(req.productTitle)
    case Desc => Str(req.productDesc)
    case Price => Float(req.productPrice)
    case Category => Str(req.productCategory)
    case Sex => Str(req.productSex)
    case Size => Str(req.productSize)
    case Color => Str(req.productColor)
    case Stock => Int(req.productStock)
  }

  /** The columns of `cols` that the request supplies, in the order of `cols`. */
  function SuppliedColumns(req: UpdateProduct, cols: seq<Column>): (r: seq<Column>)
    ensures |r| <= |cols|
  {
    if cols == [] then []
    else
      var init := SuppliedColumns(req, cols[..|cols| - 1]);
      var c := cols[|cols| - 1];
      assert cols == cols[..|cols| - 1] + [c];
      if Supplied(req, c) then init + [c] else init
  }

  /** The assignment text of one step: `"column" = $n` on a new line. */
  function Assignment(c: Column, n: nat): string
  {
    "\n\t\t\"" + ColumnName(c) + "\" = " + Placeholder(n)
  }

  /** The assignments for `cols`, numbered from `base + 1`. */
  function Numbered(cols: seq<Column>, base: nat): (r: seq<string>)
    ensures |r| == |cols|
    ensures forall i :: 0 <= i < |cols| ==> r[i] == Assignment(cols[i], base + i + 1)
  {
    seq(|cols|, i requires 0 <= i < |cols| => Assignment(cols[i], base + i + 1))
  }

  /** The values bound for `cols`, in order. */
  function BoundValues(req: UpdateProduct, cols: seq<Column>): (r: seq<Value>)
    ensures |r| == |cols|
    ensures forall i :: 0 <= i < |cols| ==> r[i] == ColumnValue(req, cols[i])
  {
    seq(|cols|, i requires 0 <= i < |cols| => ColumnValue(req, cols[i]))
  }

  const InitSql: string := "\n\tUPDATE \"Product\" SET"

  function WhereSql(n: nat): string
  {
    "\n\tWHERE \"id\" = " + Placeholder(n)
  }

  const DeleteImagesSql: string := "\n\tDELETE FROM \"Image\"" + "\n\tWHERE \"product_id\" = $1;"

  // ---------------------------------------------------------------------------
  // The statement the engineer sends, as a function of the request

  /** The columns the UPDATE assigns. */
  function SetColumns(req: UpdateProduct): seq<Column>
  {
    SuppliedColumns(req, StepOrder)
  }

  function UpdateSql(req: UpdateProduct): string
  {
    InitSql + Join(Numbered(SetColumns(req), 0), ',') + WhereSql(|SetColumns(req)| + 1)
  }

  function UpdateArgs(req: UpdateProduct): seq<Value>
  {
    BoundValues(req, SetColumns(req)) + [Str(req.id)]
  }

  // ---------------------------------------------------------------------------
  // What the statements do to the tables

  /** The row after the UPDATE: supplied columns take the request's values. */
  function ApplyUpdate(row: ProductRow, req: UpdateProduct): ProductRow
  {
    ProductRow(
      if Supplied(req, Title) then req.productTitle else row.title,
      if Supplied(req, Desc) then req.productDesc else row.desc,
      if Supplied(req, Price) then req.productPrice else row.price,
      if Supplied(req, Color) then req.productColor else row.color,
      if Supplied(req, Size) then req.productSize else row.size,
      if Supplied(req, Sex) then req.productSex else row.sex,
      if Supplied(req, Category) then req.productCategory else row.category,
      Some(req.productStock))
  }

  /** Column `c` of a row; `None` for a stock left at the column default. */
  function RowValue(row: ProductRow, c: Column): Option<Value>
  {
    match c
    case Title => Some(Str(row.title))
    case Desc => Some(Str(row.desc))
    case Price => Some(Float(row.price))
    case Category => Some(Str(row.category))
    case Sex => Some(Str(row.sex))
    case Size => Some(Str(row.size))
    case Color => Some(Str(row.color))
    case Stock => if row.stock.Some? then Some(Int(row.stock.value)) else None
  }

  function UpdateEffect(t: Tables, req: UpdateProduct): Tables
  {
    if req.id in t.products then t.(products := t.products[req.id := ApplyUpdate(t.products[req.id], req)]) else t
  }

  /** The image rows that do not belong to product `id`. */
  function WithoutProduct(images: seq<ImageRow>, id: string): (r: seq<ImageRow>)
    ensures forall x :: x in r <==> x in images && x.productId != id
  {
    if images == [] then []
    else
      var rest := WithoutProduct(images[1..], id);
      assert images == [images[0]] + images[1..];
      if images[0].productId == id then rest else [images[0]] + rest
  }

  function DeleteImagesEffect(t: Tables, id: string): Tables
  {
    t.(images := WithoutProduct(t.images, id))
  }

  /** The tables after a successful update of `req` (images replaced only when some are sent). */
  function UpdatedTables(t: Tables, req: UpdateProduct): Tables
  {
    var u := UpdateEffect(t, req);
    if |req.images| > 0 then ImageInsert.InsertImagesEffect(DeleteImagesEffect(u, req.id), req.images, req.id) else u
  }

  /** The step at which the engineer stopped. */
  datatype Stage = UpdateStage | DeleteStage | InsertStage | CommitStage

  /**
   * What `UpdateProduct` returns: nil, an error (its stage and Go's
   * message), or a nil-pointer panic when the ignored `initTransaction`
   * failure left `tx` nil.
   */
  datatype UpdateOutcome = Updated | UpdateFailed(stage: Stage, message: string) | NilTxPanic

  function FailureMessage(stage: Stage, dbErr: string): string
  {
    match stage
    case UpdateStage => "update product failed: update product failed: " + dbErr
    case DeleteStage => "delete old images failed: delete images failed: " + dbErr
    case InsertStage => "insert new images failed: insert images failed: " + dbErr
    case CommitStage => "commit failed: commit failed: " + dbErr
  }

  // ---------------------------------------------------------------------------
  // The builder

  class UpdateProductBuilder {
    const db: Database
    const req: UpdateProduct
    var tx: Tx?
    var query: string
    var queryFields: seq<string>
    var lastStackIndex: int
    var values: seq<Value>

    constructor (db: Database, req: UpdateProduct)
      ensures this.db == db && this.req == req && tx == null
      ensures query == "" && queryFields == [] && lastStackIndex == 0 && values == []
    {
      this.db := db;
      this.req := req;
      tx := null;
      query := "";
      queryFields := [];
      lastStackIndex := 0;
      values := [];
    }

    /** `BeginTxx`; on failure `tx` keeps its value. */
    method InitTransaction(fails: bool) returns (ok: bool)
      modifies this
      ensures ok == !fails
      ensures ok ==> fresh(tx) && tx.db == db && tx.work == db.tables && tx.sent == [] && tx.status == Active
      ensures !ok ==> tx == old(tx)
      ensures query == old(query) && queryFields == old(queryFields)
      ensures values == old(values) && lastStackIndex == old(lastStackIndex)
    {
      ok := !fails;
      if ok {
        tx := new Tx(db);
      }
    }

    method InitQuery()
      modifies this
      ensures query == old(query) + InitSql
      ensures tx == old(tx) && queryFields == old(queryFields)
      ensures values == old(values) && lastStackIndex == old(lastStackIndex)
    {
      query := query + InitSql;
    }

    /**
     * One `update…Query` step: when the column is supplied, its value is
     * appended, `lastStackIndex` becomes the number of values, and the
     * assignment with that placeholder is appended to `queryFields`.
     */
    method UpdateColumnQuery(c: Column)
      modifies this
      ensures Supplied(req, c) ==>
        values == old(values) + [ColumnValue(req, c)] && lastStackIndex == |values|
        && queryFields == old(queryFields) + [Assignment(c, lastStackIndex)]
      ensures !Supplied(req, c) ==>
        values == old(values) && lastStackIndex == old(lastStackIndex) && queryFields == old(queryFields)
      ensures query == old(query) && tx == old(tx)
    {
      if Supplied(req, c) {
        values := values + [ColumnValue(req, c)];
        lastStackIndex := |values|;
        queryFields := queryFields + [Assignment(c, lastStackIndex)];
      }
    }

    /** Appends the id and `WHERE "id" = $n` with n the number of values. */
    method CloseQuery()
      modifies this
      ensures values == old(values) + [Str(req.id)] && lastStackIndex == |values|
      ensures query == old(query) + WhereSql(|values|)
      ensures tx == old(tx) && queryFields == old(queryFields)
    {
      values := values + [Str(req.id)];
      lastStackIndex := |values|;
      query := query + WhereSql(lastStackIndex);
    }

    /** Sends the built UPDATE; rolls back when it fails. */
    method ExecUpdate(fails: bool) returns (ok: bool)
      requires tx != null
      modifies tx
      ensures ok == (old(tx.status) == Active && !fails)
      ensures tx.sent == old(tx.sent) + [Statement(query, values)]
      ensures tx.work == if ok then UpdateEffect(old(tx.work), req) else old(tx.work)
      ensures tx.status == if ok || old(tx.status) != Active then old(tx.status) else RolledBack
    {
      ok := tx.Exec(Statement(query, values), UpdateEffect(tx.work, req), fails);
      if !ok {
        tx.Rollback();
      }
    }

    /** Deletes the product's image rows; rolls back when it fails. */
    method DeleteOldImages(fails: bool) returns (ok: bool)
      requires tx != null
      modifies tx
      ensures ok == (old(tx.status) == Active && !fails)
      ensures tx.sent == old(tx.sent) + [Statement(DeleteImagesSql, [Str(req.id)])]
      ensures tx.work == if ok then DeleteImagesEffect(old(tx.work), req.id) else old(tx.work)
      ensures tx.status == if ok || old(tx.status) != Active then old(tx.status) else RolledBack
    {
      ok := tx.Exec(Statement(DeleteImagesSql, [Str(req.id)]), DeleteImagesEffect(tx.work, req.id), fails);
      if !ok {
        tx.Rollback();
      }
    }

    /** Inserts one image row per request image; rolls back when it fails. */
    method InsertImages(fails: bool) returns (ok: bool)
      requires tx != null
      modifies tx
      ensures ok == (old(tx.status) == Active && !fails)
      ensures tx.sent == old(tx.sent)
        + [Statement(ImageInsert.ImagesSql(|req.images|), ImageInsert.ImagesArgs(req.images, req.id))]
      ensures tx.work == if ok then ImageInsert.InsertImagesEffect(old(tx.work), req.images, req.id) else old(tx.work)
      ensures tx.status == if ok || old(tx.status) != Active then old(tx.status) else RolledBack
    {
      var query, valueStack := ImageInsert.BuildImagesInsert(req.images, req.id);
      ok := tx.Exec(Statement(query, valueStack), ImageInsert.InsertImagesEffect(tx.work, req.images, req.id), fails);
      if !ok {
        tx.Rollback();
      }
    }

    /** Replaces the image rows: delete, then insert; the first failure rolls back. */
    method ReplaceImages(deleteFails: bool, insertFails: bool) returns (ok: bool)
      requires tx != null && tx.status == Active
      modifies tx
      ensures ok == (!deleteFails && !insertFails)
      ensures tx.sent == old(tx.sent) + DeleteAndInsert(req, deleteFails)
      ensures ok ==> tx.work == ImageInsert.InsertImagesEffect(DeleteImagesEffect(old(tx.work), req.id), req.images, req.id)
      ensures tx.status == if ok then Active else RolledBack
    {
      ok := DeleteOldImages(deleteFails);
      if !ok {
        return;
      }
      ok := InsertImages(insertFails);
    }

    method Commit(fails: bool) returns (ok: bool)
      requires tx != null
      modifies tx, tx.db
      ensures ok == (old(tx.status) == Active && !fails)
      ensures tx.db.tables == if ok then old(tx.work) else old(tx.db.tables)
      ensures tx.status == (if ok then Committed else if old(tx.status) == Active then Aborted else old(tx.status))
      ensures tx.work == old(tx.work) && tx.sent == old(tx.sent)
    {
      ok := tx.Commit(fails);
    }
  }

  // ---------------------------------------------------------------------------
  // The engineer

  /** The steps for `cols` have run on a builder that started with fields q0 and values v0. */
  ghost predicate StepsDone(req: UpdateProduct, cols: seq<Column>, q0: seq<string>, v0: seq<Value>,
                            q: seq<string>, v: seq<Value>)
  {
    var s := SuppliedColumns(req, cols);
    v == v0 + BoundValues(req, s) && q == q0 + Numbered(s, |v0|)
  }

  lemma SuppliedSnoc(req: UpdateProduct, cols: seq<Column>, c: Column)
    ensures SuppliedColumns(req, cols + [c])
      == SuppliedColumns(req, cols) + (if Supplied(req, c) then [c] else [])
  {
    assert (cols + [c])[..|cols|] == cols;
  }

  lemma NumberedSnoc(s: seq<Column>, c: Column, base: nat)
    ensures Numbered(s + [c], base) == Numbered(s, base) + [Assignment(c, base + |s| + 1)]
  {
  }

  lemma BoundSnoc(req: UpdateProduct, s: seq<Column>, c: Column)
    ensures BoundValues(req, s + [c]) == BoundValues(req, s) + [ColumnValue(req, c)]
  {
  }

  /** One more step keeps `StepsDone`. */
  lemma Advance(req: UpdateProduct, cols: seq<Column>, c: Column, q0: seq<string>, v0: seq<Value>,
                qa: seq<string>, va: seq<Value>, qb: seq<string>, vb: seq<Value>)
    requires StepsDone(req, cols, q0, v0, qa, va)
    requires Supplied(req, c) ==> vb == va + [ColumnValue(req, c)] && qb == qa + [Assignment(c, |vb|)]
    requires !Supplied(req, c) ==> vb == va && qb == qa
    ensures StepsDone(req, cols + [c], q0, v0, qb, vb)
  {
    var s := SuppliedColumns(req, cols);
    SuppliedSnoc(req, cols, c);
    if Supplied(req, c) {
      AdvanceSupplied(req, s, c, q0, v0, qa, va);
      assert SuppliedColumns(req, cols + [c]) == s + [c];
    } else {
      assert SuppliedColumns(req, cols + [c]) == s + [];
      assert s + [] == s;
    }
  }

  /** A supplied column adds its value and its assignment, numbered after the values so far. */
  lemma AdvanceSupplied(req: UpdateProduct, s: seq<Column>, c: Column, q0: seq<string>, v0: seq<Value>,
                        qa: seq<string>, va: seq<Value>)
    requires va == v0 + BoundValues(req, s) && qa == q0 + Numbered(s, |v0|)
    ensures va + [ColumnValue(req, c)] == v0 + BoundValues(req, s + [c])
    ensures qa + [Assignment(c, |va| + 1)] == q0 + Numbered(s + [c], |v0|)
  {
    BoundSnoc(req, s, c);
    SnocAfter(v0, BoundValues(req, s), BoundValues(req, s + [c]), ColumnValue(req, c), va);
    NumberedSnoc(s, c, |v0|);
    assert |va| == |v0| + |s|;
    SnocAfter(q0, Numbered(s, |v0|), Numbered(s + [c], |v0|), Assignment(c, |v0| + |s| + 1), qa);
  }

  /** `va == v0 + b` extended by `x` is `v0` followed by `b + [x]`. */
  lemma SnocAfter<T>(v0: seq<T>, b: seq<T>, bx: seq<T>, x: T, va: seq<T>)
    requires va == v0 + b && bx == b + [x]
    ensures va + [x] == v0 + bx
  {
    AppendAssoc(v0, b, [x]);
  }

  class UpdateProductEngineer {
    const builder: UpdateProductBuilder

    constructor (builder: UpdateProductBuilder)
      ensures this.builder == builder
    {
      this.builder := builder;
    }

    /** The eight column steps of `sumQueryFields`, run in `StepOrder`. */
    method RunColumnSteps()
      modifies builder
      ensures builder.values == old(builder.values) + BoundValues(builder.req, SetColumns(builder.req))
      ensures builder.queryFields == old(builder.queryFields) + Numbered(SetColumns(builder.req), |old(builder.values)|)
      ensures builder.lastStackIndex == |builder.values|
      ensures builder.query == old(builder.query) && builder.tx == old(builder.tx)
    {
      var b := builder;
      var req := b.req;
      ghost var q0, v0 := b.queryFields, b.values;
      assert StepOrder[..0] == [];
      for j := 0 to |StepOrder|
        invariant StepsDone(req, StepOrder[..j], q0, v0, b.queryFields, b.values)
        invariant b.lastStackIndex == |b.values| || (b.values == v0 && b.lastStackIndex == old(b.lastStackIndex))
        invariant b.query == old(b.query) && b.tx == old(b.tx)
      {
        ghost var qa, va := b.queryFields, b.values;
        b.UpdateColumnQuery(StepOrder[j]);
        Advance(req, StepOrder[..j], StepOrder[j], q0, v0, qa, va, b.queryFields, b.values);
        assert StepOrder[..j + 1] == StepOrder[..j] + [StepOrder[j]];
      }
      assert StepOrder[..|StepOrder|] == StepOrder;
    }

    /**
     * Runs the eight steps in order, then appends the collected assignments
     * to the query, separated by ",".
     */
    method SumQueryFields()
      modifies builder
      ensures builder.values == old(builder.values) + BoundValues(builder.req, SetColumns(builder.req))
      ensures builder.queryFields == old(builder.queryFields) + Numbered(SetColumns(builder.req), |old(builder.values)|)
      ensures builder.lastStackIndex == |builder.values|
      ensures builder.query == old(builder.query) + Join(builder.queryFields, ',')
      ensures builder.tx == old(builder.tx)
    {
      var b := builder;
      var req := b.req;
      RunColumnSteps();
      var fields := b.queryFields;
      ghost var query0 := b.query;
      for i := 0 to |fields|
        invariant b.query == query0 + JoinedSoFar(fields, i)
        invariant b.queryFields == fields && b.values == old(b.values) + BoundValues(req, SetColumns(req))
        invariant b.queryFields == old(b.queryFields) + Numbered(SetColumns(req), |old(b.values)|)
        invariant b.lastStackIndex == |b.values| && b.tx == old(b.tx)
      {
        var query := b.query;
        JoinedStep(query0, fields, i);
        if i != |fields| - 1 {
          b.query := query + fields[i] + ",";
        } else {
          b.query := query + fields[i];
        }
      }
    }

    /** `initQuery`, `sumQueryFields` and `closeQuery` on a builder with nothing built yet. */
    method BuildStatement()
      requires builder.query == "" && builder.queryFields == [] && builder.values == []
      modifies builder
      ensures builder.query == UpdateSql(builder.req) && builder.values == UpdateArgs(builder.req)
      ensures builder.tx == old(builder.tx)
    {
      var b := builder;
      ghost var cols := SetColumns(b.req);
      b.InitQuery();
      AppendToEmpty("", InitSql);
      assert b.query == InitSql;
      SumQueryFields();
      AppendToEmpty([], Numbered(cols, 0));
      AppendToEmpty([], BoundValues(b.req, cols));
      assert b.queryFields == Numbered(cols, 0);
      assert b.values == BoundValues(b.req, cols);
      assert b.query == InitSql + Join(Numbered(cols, 0), ',');
      b.CloseQuery();
      assert |b.values| == |cols| + 1;
    }

    /** A builder as the constructor leaves it, which is how the repository hands it over. */
    predicate FreshBuilder()
      reads this, builder
    {
      builder.tx == null && builder.query == "" && builder.queryFields == []
      && builder.values == [] && builder.lastStackIndex == 0
    }

    /**
     * The engineer's `UpdateProduct`. The driver's answers are inputs: which
     * step fails, and the error text it reports.
     */
    method UpdateProduct(beginFails: bool, updateFails: bool, deleteFails: bool, insertFails: bool,
                         commitFails: bool, dbErr: string) returns (outcome: UpdateOutcome)
      requires FreshBuilder()
      modifies builder, builder.db
      ensures builder.query == UpdateSql(builder.req) && builder.values == UpdateArgs(builder.req)
      ensures beginFails ==> outcome == NilTxPanic && builder.db.tables == old(builder.db.tables)
      ensures !beginFails ==> builder.tx != null && fresh(builder.tx) && builder.tx.db == builder.db
      ensures !beginFails ==> outcome == ExpectedOutcome(builder.req, updateFails, deleteFails, insertFails, commitFails, dbErr)
      ensures !beginFails ==> builder.tx.sent == SentStatements(builder.req, updateFails, deleteFails)
      ensures !beginFails && outcome == Updated ==>
        builder.db.tables == UpdatedTables(old(builder.db.tables), builder.req) && builder.tx.status == Committed
      ensures !beginFails && outcome.UpdateFailed? && outcome.stage != CommitStage ==>
        builder.db.tables == old(builder.db.tables) && builder.tx.status == RolledBack
      ensures !beginFails && outcome.UpdateFailed? && outcome.stage == CommitStage ==>
        builder.db.tables == old(builder.db.tables) && builder.tx.status == Aborted
    {
      var b := builder;
      var began := b.InitTransaction(beginFails);
      BuildStatement();
      if b.tx == null {
        return NilTxPanic;
      }
      outcome := RunSteps(updateFails, deleteFails, insertFails, commitFails, dbErr);
    }

    /** The steps after `InitTransaction`, on a fresh transaction and a built statement. */
    method RunSteps(updateFails: bool, deleteFails: bool, insertFails: bool, commitFails: bool, dbErr: string)
      returns (outcome: UpdateOutcome)
      requires builder.tx != null && builder.tx.db == builder.db
      requires builder.tx.work == builder.db.tables && builder.tx.sent == [] && builder.tx.status == Active
      requires builder.query == UpdateSql(builder.req) && builder.values == UpdateArgs(builder.req)
      modifies builder.tx, builder.db
      ensures outcome == ExpectedOutcome(builder.req, updateFails, deleteFails, insertFails, commitFails, dbErr)
      ensures builder.tx.sent == SentStatements(builder.req, updateFails, deleteFails)
      ensures outcome == Updated ==>
        builder.db.tables == UpdatedTables(old(builder.db.tables), builder.req) && builder.tx.status == Committed
      ensures outcome.UpdateFailed? && outcome.stage != CommitStage ==>
        builder.db.tables == old(builder.db.tables) && builder.tx.status == RolledBack
      ensures outcome.UpdateFailed? && outcome.stage == CommitStage ==>
        builder.db.tables == old(builder.db.tables) && builder.tx.status == Aborted
    {
      var b := builder;
      var ok := b.ExecUpdate(updateFails);
      if !ok {
        return UpdateFailed(UpdateStage, FailureMessage(UpdateStage, dbErr));
      }
      if |b.req.images| > 0 {
        ok := b.ReplaceImages(deleteFails, insertFails);
        if !ok {
          var stage := if deleteFails then DeleteStage else InsertStage;
          return UpdateFailed(stage, FailureMessage(stage, dbErr));
        }
      }
      ok := b.Commit(commitFails);
      if !ok {
        return UpdateFailed(CommitStage, FailureMessage(CommitStage, dbErr));
      }
      return Updated;
    }
  }

  /** The outcome once the transaction has begun: the first failing step decides. */
  function ExpectedOutcome(req: UpdateProduct, updateFails: bool, deleteFails: bool, insertFails: bool,
                           commitFails: bool, dbErr: string): UpdateOutcome
  {
    if updateFails then UpdateFailed(UpdateStage, FailureMessage(UpdateStage, dbErr))
    else if |req.images| > 0 && deleteFails then UpdateFailed(DeleteStage, FailureMessage(DeleteStage, dbErr))
    else if |req.images| > 0 && insertFails then UpdateFailed(InsertStage, FailureMessage(InsertStage, dbErr))
    else if commitFails then UpdateFailed(CommitStage, FailureMessage(CommitStage, dbErr))
    else Updated
  }

  function DeleteAndInsert(req: UpdateProduct, deleteFails: bool): seq<Statement>
  {
    [Statement(DeleteImagesSql, [Str(req.id)])]
    + (if deleteFails then [] else [Statement(ImageInsert.ImagesSql(|req.images|), ImageInsert.ImagesArgs(req.images, req.id))])
  }

  /** The statements sent on the transaction, in order. */
  function SentStatements(req: UpdateProduct, updateFails: bool, deleteFails: bool): seq<Statement>
  {
    [Statement(UpdateSql(req), UpdateArgs(req))]
    + (if updateFails || |req.images| == 0 then [] else DeleteAndInsert(req, deleteFails))
  }

  // ---------------------------------------------------------------------------
  // Properties of the statement

  /** An element is kept exactly when it is in the list and supplied. */
  lemma {:induction false} SuppliedMembers(req: UpdateProduct, cols: seq<Column>)
    ensures forall c :: c in SuppliedColumns(req, cols) <==> c in cols && Supplied(req, c)
  {
    if cols != [] {
      var init := cols[..|cols| - 1];
      SuppliedMembers(req, init);
      assert cols == init + [cols[|cols| - 1]];
      SuppliedSnoc(req, init, cols[|cols| - 1]);
    }
  }

  /** A column is assigned iff the request supplies it: exactly the supplied fields appear. */
  lemma SetColumnsExact(req: UpdateProduct, c: Column)
    ensures c in SetColumns(req) <==> Supplied(req, c)
  {
    SuppliedMembers(req, StepOrder);
    assert c in StepOrder;
  }

  /** Stock is always assigned, and last: the SET clause is never empty. */
  lemma StockAlwaysLast(req: UpdateProduct)
    ensures |SetColumns(req)| >= 1 && SetColumns(req)[|SetColumns(req)| - 1] == Stock
    ensures |UpdateArgs(req)| == |SetColumns(req)| + 1 >= 2
  {
    SuppliedSnoc(req, StepOrder[..7], Stock);
    assert StepOrder[..7] + [Stock] == StepOrder;
  }

  /**
   * The assigned columns are the column list with the unsupplied ones
   * dropped, in list order; from a list without repeats, none repeats.
   */
  lemma {:induction false} SuppliedOrdered(req: UpdateProduct, cols: seq<Column>) returns (idx: seq<nat>)
    ensures Embeds(SuppliedColumns(req, cols), cols, idx)
    ensures (forall i, j :: 0 <= i < j < |cols| ==> cols[i] != cols[j]) ==>
      var r := SuppliedColumns(req, cols); forall i, j :: 0 <= i < j < |r| ==> r[i] != r[j]
  {
    if cols == [] {
      idx := [];
    } else {
      var init := cols[..|cols| - 1];
      var c := cols[|cols| - 1];
      assert cols == init + [c];
      SuppliedSnoc(req, init, c);
      var before := SuppliedOrdered(req, init);
      if Supplied(req, c) {
        EmbedsKeep(SuppliedColumns(req, init), init, before, c);
        idx := before + [|init|];
      } else {
        EmbedsDrop(SuppliedColumns(req, init), init, before, c);
        idx := before;
      }
    }
  }

  /** Assignment k binds the k-th value; the id is the last value. */
  lemma UpdateArgsAligned(req: UpdateProduct)
    ensures var s := SetColumns(req); var args := UpdateArgs(req);
      |args| == |s| + 1 && args[|s|] == Str(req.id)
      && forall k :: 0 <= k < |s| ==> args[k] == ColumnValue(req, s[k]) && Numbered(s, 0)[k] == Assignment(s[k], k + 1)
  {
  }

  lemma NameFree(c: Column)
    ensures Free(ColumnName(c), '$') && Free(ColumnName(c), ',')
  {
  }

  /** The text of an assignment before its placeholder. */
  function AssignmentHead(c: Column): string
  {
    "\n\t\t\"" + ColumnName(c) + "\" = "
  }

  lemma AssignmentHeadFree(c: Column)
    ensures Free(AssignmentHead(c), '$') && Free(AssignmentHead(c), ',')
  {
    var a, b := "\n\t\t\"", "\" = ";
    NameFree(c);
    assert Free(a, '$') && Free(b, '$') && Free(a, ',') && Free(b, ',');
    FreeConcat(a, ColumnName(c), '$');
    FreeConcat(a + ColumnName(c), b, '$');
    FreeConcat(a, ColumnName(c), ',');
    FreeConcat(a + ColumnName(c), b, ',');
  }

  lemma AssignmentPlaceholders(c: Column, n: nat)
    ensures Placeholders(Assignment(c, n)) == [n]
    ensures Free(Assignment(c, n), ',') && Closed(Assignment(c, n))
  {
    assert Assignment(c, n) == AssignmentHead(c) + Placeholder(n);
    AssignmentHeadFree(c);
    PlaceholdersNone(AssignmentHead(c));
    PlaceholderReads(n);
    PlaceholdersConcat(AssignmentHead(c), Placeholder(n));
    assert Free(Placeholder(n), ',') by {
      assert Placeholder(n) == "$" + NatToString(n);
    }
    FreeConcat(AssignmentHead(c), Placeholder(n), ',');
  }

  /** The joined SET list reads back as placeholders 1..|cols|. */
  lemma {:induction false} SetListPlaceholders(cols: seq<Column>)
    ensures Placeholders(Join(Numbered(cols, 0), ',')) == OneTo(|cols|)
    ensures Closed(Join(Numbered(cols, 0), ','))
  {
    var n := |cols|;
    if n == 1 {
      AssignmentPlaceholders(cols[0], 1);
    } else if n > 1 {
      var init := cols[..n - 1];
      var x := Assignment(cols[n - 1], n);
      assert cols == init + [cols[n - 1]];
      NumberedSnoc(init, cols[n - 1], 0);
      SetListPlaceholders(init);
      var j := Join(Numbered(init, 0), ',');
      JoinSnoc(Numbered(init, 0), x, ',');
      AssignmentPlaceholders(cols[n - 1], n);
      PlaceholdersNone([',']);
      PlaceholdersConcat(j, [',']);
      PlaceholdersConcat(j + [','], x);
      OneToSnoc(n - 1);
      ClosedConcat(j, [',']);
      ClosedConcat(j + [','], x);
    }
  }

  lemma InitSqlFree()
    ensures Free(InitSql, '$')
  {
  }

  lemma WherePlaceholders(n: nat)
    ensures Placeholders(WhereSql(n)) == [n] && Closed(WhereSql(n))
  {
    var head := "\n\tWHERE \"id\" = ";
    assert WhereSql(n) == head + Placeholder(n);
    assert Free(head, '$');
    PlaceholdersNone(head);
    PlaceholderReads(n);
    PlaceholdersConcat(head, Placeholder(n));
  }

  lemma StatementPlaceholders(cols: seq<Column>)
    ensures Placeholders(InitSql + Join(Numbered(cols, 0), ',') + WhereSql(|cols| + 1)) == OneTo(|cols| + 1)
  {
    var j := Join(Numbered(cols, 0), ',');
    InitSqlFree();
    PlaceholdersNone(InitSql);
    SetListPlaceholders(cols);
    WherePlaceholders(|cols| + 1);
    PlaceholdersFramed(InitSql, j, WhereSql(|cols| + 1), |cols|);
  }

  /**
   * The statement's placeholders are $1..$n left to right with n the number
   * of bound values; in particular the WHERE index is that number.
   */
  lemma UpdatePlaceholders(req: UpdateProduct)
    ensures Placeholders(UpdateSql(req)) == OneTo(|UpdateArgs(req)|)
  {
    StatementPlaceholders(SetColumns(req));
  }

  /** Splitting the SET list on "," gives back the assignments: no empty piece, no trailing comma. */
  lemma SetListSplit(req: UpdateProduct)
    ensures Split(Join(Numbered(SetColumns(req), 0), ','), ',') == Numbered(SetColumns(req), 0)
  {
    var s := SetColumns(req);
    StockAlwaysLast(req);
    forall k | 0 <= k < |s|
      ensures Free(Numbered(s, 0)[k], ',')
    {
      AssignmentPlaceholders(s[k], k + 1);
    }
    SplitJoin(Numbered(s, 0), ',');
  }

  // ---------------------------------------------------------------------------
  // Properties of the effect

  /** The UPDATE writes exactly the assigned columns, with the bound values. */
  lemma UpdateWritesAssigned(row: ProductRow, req: UpdateProduct, c: Column)
    ensures RowValue(ApplyUpdate(row, req), c)
      == if c in SetColumns(req) then Some(ColumnValue(req, c)) else RowValue(row, c)
  {
    SetColumnsExact(req, c);
  }

  /**
   * Without images the image table is untouched; with images, the product's
   * image rows become exactly the new ones and other products' rows stay.
   */
  lemma ImagesReplacedOnlyWhenSent(t: Tables, req: UpdateProduct)
    ensures |req.images| == 0 ==> UpdatedTables(t, req).images == t.images
    ensures |req.images| > 0 ==> forall x :: x in UpdatedTables(t, req).images <==>
      (x in t.images && x.productId != req.id) || x in ImageInsert.ImageRows(req.images, req.id)
    ensures UpdatedTables(t, req).products == UpdateEffect(t, req).products
  {
    if |req.images| > 0 {
      var rows := ImageInsert.ImageRows(req.images, req.id);
      forall x | x in rows
        ensures x.productId == req.id
      {
      }
    }
  }
}
