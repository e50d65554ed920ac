/**
 * The multi-row `INSERT INTO "Image"` statement that both product builders
 * send (`insertImages` in updateProduct.go and in insertProduct.go, which
 * build the same text): one `($a, $b, $c)` tuple per image, binding its
 * file name, its URL and the product id, with `,` after every tuple but the
 * last and `;` after the last.
 */
module ImageInsert {
  import opened SqlText
  import opened Entities
  import opened Db

  /** The fixed head of the statement, one source line per piece. */
  const Header: string :=
    "\n\tINSERT INTO \"Image\" (" + "\n\t\t\"filename\"," + "\n\t\t\"url\"," + "\n\t\t\"product_id\"" + "\n\t)" + "\n\tVALUES"

  /** `fmt.Sprintf` of the tuple template: `($a, $b, $c)` on a new line, then `term`. */
  function Tuple(a: nat, b: nat, c: nat, term: string): string
  {
    "\n\t\t\t(" + Placeholder(a) + ", " + Placeholder(b) + ", " + Placeholder(c) + ")" + term
  }

  /** The terminator that follows after tuple `i` of `n`. */
  function Terminator(i: nat, n: nat): string
  {
    if i != n - 1 then "," else ";"
  }

  /** Tuple `i` of `n`: placeholders 3i+1..3i+3, then "," or, for the last, ";". */
  function TupleText(i: nat, n: nat): string
  {
    Tuple(3 * i + 1, 3 * i + 2, 3 * i + 3, Terminator(i, n))
  }

  /** The first `m` of `n` tuples, in order. */
  function Tuples(m: nat, n: nat): string
  {
    if m == 0 then "" else Tuples(m - 1, n) + TupleText(m - 1, n)
  }

  /** The statement for `n` images: the header, then the `n` tuples. */
  function ImagesSql(n: nat): string
  {
    Header + Tuples(n, n)
  }

  /** The three values of one image. */
  function ImageArgs(image: FileRes, productId: string): seq<Value>
  {
    [Str(image.fileName), Str(image.url), Str(productId)]
  }

  /** The values bound by the statement, image by image. */
  function ImagesArgs(images: seq<FileRes>, productId: string): (r: seq<Value>)
    ensures |r| == 3 * |images|
  {
    if images == [] then []
    else ImagesArgs(images[..|images| - 1], productId) + ImageArgs(images[|images| - 1], productId)
  }

  /** The rows the statement adds to "Image". */
  function ImageRows(images: seq<FileRes>, productId: string): (r: seq<ImageRow>)
    ensures |r| == |images|
    ensures forall i :: 0 <= i < |r| ==> r[i] == ImageRow(images[i].fileName, images[i].url, productId)
  {
    seq(|images|, i requires 0 <= i < |images| => ImageRow(images[i].fileName, images[i].url, productId))
  }

  /** The statement's effect: the rows are appended to "Image". */
  function InsertImagesEffect(t: Tables, images: seq<FileRes>, productId: string): Tables
  {
    t.(images := t.images + ImageRows(images, productId))
  }

  /** Builds the statement the way the Go loop does, with a running `index`. */
  method BuildImagesInsert(images: seq<FileRes>, productId: string) returns (query: string, valueStack: seq<Value>)
    ensures query == ImagesSql(|images|)
    ensures valueStack == ImagesArgs(images, productId)
  {
    query := Header;
    valueStack := [];
    var index := 0;
    for i := 0 to |images|
      invariant index == 3 * i
      invariant query == Header + Tuples(i, |images|)
      invariant valueStack == ImagesArgs(images[..i], productId)
    {
      valueStack := valueStack + [Str(images[i].fileName), Str(images[i].url), Str(productId)];
      ImagesArgsStep(images, productId, i);
      if i != |images| - 1 {
        query := query + Tuple(index + 1, index + 2, index + 3, ",");
      } else {
        query := query + Tuple(index + 1, index + 2, index + 3, ";");
      }
      TuplesAppend(Header, i, |images|);
      index := index + 3;
    }
    assert images[..|images|] == images;
  }

  lemma TuplesAppend(h: string, i: nat, n: nat)
    ensures h + Tuples(i + 1, n) == h + Tuples(i, n) + TupleText(i, n)
  {
  }

  lemma ImagesArgsStep(images: seq<FileRes>, productId: string, i: nat)
    requires i < |images|
    ensures ImagesArgs(images[..i + 1], productId)
      == ImagesArgs(images[..i], productId) + [Str(images[i].fileName), Str(images[i].url), Str(productId)]
  {
    assert images[..i + 1][..i] == images[..i];
  }

  // ---------------------------------------------------------------------------
  // Properties

  /** Image `i`'s three values sit at positions 3i, 3i+1, 3i+2, the last being the product id. */
  lemma {:induction false} ImagesArgsAt(images: seq<FileRes>, productId: string, i: nat)
    requires i < |images|
    ensures ImagesArgs(images, productId)[3 * i..3 * i + 3] == ImageArgs(images[i], productId)
    ensures ImagesArgs(images, productId)[3 * i + 2] == Str(productId)
  {
    var n := |images|;
    var init := images[..n - 1];
    if i < n - 1 {
      ImagesArgsAt(init, productId, i);
      assert init[i] == images[i];
      assert ImagesArgs(images, productId)[3 * i..3 * i + 3] == ImagesArgs(init, productId)[3 * i..3 * i + 3];
    } else {
      assert ImagesArgs(images, productId)[3 * i..3 * i + 3] == ImageArgs(images[i], productId);
    }
  }

  /** The bodies `($3i+1, $3i+2, $3i+3)` of the first `m` tuples. */
  function Bodies(m: nat): (r: seq<string>)
    ensures |r| == m
    ensures forall i :: 0 <= i < m ==> r[i] == Tuple(3 * i + 1, 3 * i + 2, 3 * i + 3, "")
  {
    seq(m, i requires 0 <= i < m => Tuple(3 * i + 1, 3 * i + 2, 3 * i + 3, ""))
  }

  lemma TupleTerm(a: nat, b: nat, c: nat, term: string)
    ensures Tuple(a, b, c, term) == Tuple(a, b, c, "") + term
  {
  }

  lemma Regroup(j: string, t: string, x: string)
    ensures (j + ",") + (t + x) == (j + "," + t) + x
  {
  }

  /** One tuple appended: the bodies gain tuple `k`, followed by its terminator. */
  lemma TuplesShapeStep(k: nat, n: nat)
    requires k >= 1 && Tuples(k, n) == Join(Bodies(k), ',') + ","
    ensures Tuples(k + 1, n) == Join(Bodies(k + 1), ',') + Terminator(k, n)
  {
    var t := Tuple(3 * k + 1, 3 * k + 2, 3 * k + 3, "");
    var j := Join(Bodies(k), ',');
    TupleTerm(3 * k + 1, 3 * k + 2, 3 * k + 3, Terminator(k, n));
    assert TupleText(k, n) == t + Terminator(k, n);
    assert Tuples(k + 1, n) == Tuples(k, n) + (t + Terminator(k, n));
    BodiesSnoc(k);
    JoinSnoc(Bodies(k), t, ',');
    assert Join(Bodies(k + 1), ',') == j + "," + t;
    Regroup(j, t, Terminator(k, n));
  }

  /** The first tuple: its body and its terminator. */
  lemma TuplesFirst(n: nat)
    ensures Tuples(1, n) == Join(Bodies(1), ',') + Terminator(0, n)
  {
    var t := Tuple(1, 2, 3, "");
    TupleTerm(1, 2, 3, Terminator(0, n));
    assert Tuples(1, n) == Tuples(0, n) + (t + Terminator(0, n));
    assert Bodies(1) == [t];
    assert Join(Bodies(1), ',') == t;
  }

  /** Before the last tuple, every tuple written so far is followed by ",". */
  lemma TuplesPrefix(m: nat, n: nat)
    requires 1 <= m < n
    ensures Tuples(m, n) == Join(Bodies(m), ',') + ","
  {
    TuplesFirst(n);
    var k := 1;
    while k < m
      invariant 1 <= k <= m
      invariant Tuples(k, n) == Join(Bodies(k), ',') + ","
    {
      TuplesShapeStep(k, n);
      k := k + 1;
    }
  }

  /** All `n` tuples: the bodies joined by ",", then ";". */
  lemma TuplesShape(n: nat)
    requires n >= 1
    ensures Tuples(n, n) == Join(Bodies(n), ',') + ";"
  {
    if n == 1 {
      TuplesFirst(n);
    } else {
      TuplesPrefix(n - 1, n);
      LastTuple(n - 1, n);
    }
  }

  lemma LastTuple(k: nat, n: nat)
    requires k >= 1 && n == k + 1 && Tuples(k, n) == Join(Bodies(k), ',') + ","
    ensures Tuples(n, n) == Join(Bodies(n), ',') + ";"
  {
    TuplesShapeStep(k, n);
  }

  /**
   * With at least one image the statement is the header, the tuple bodies
   * joined by "," and a final ";": no tuple is followed by a stray comma.
   */
  lemma ImagesShape(n: nat)
    requires n >= 1
    ensures ImagesSql(n) == Header + Join(Bodies(n), ',') + ";"
  {
    TuplesShape(n);
    Regroup3(Header, Join(Bodies(n), ','), ";");
  }

  lemma Regroup3(h: string, t: string, x: string)
    ensures h + (t + x) == h + t + x
  {
  }

  lemma BodiesSnoc(k: nat)
    ensures Bodies(k + 1) == Bodies(k) + [Tuple(3 * k + 1, 3 * k + 2, 3 * k + 3, "")]
  {
  }

  lemma HeaderFree()
    ensures Free(Header, '$')
  {
    var a, b, c, d, e, f := "\n\tINSERT INTO \"Image\" (", "\n\t\t\"filename\",", "\n\t\t\"url\",", "\n\t\t\"product_id\"", "\n\t)", "\n\tVALUES";
    assert Free(a, '$') && Free(b, '$') && Free(c, '$') && Free(d, '$') && Free(e, '$') && Free(f, '$');
    FreeConcat(a, b, '$');
    FreeConcat(a + b, c, '$');
    FreeConcat(a + b + c, d, '$');
    FreeConcat(a + b + c + d, e, '$');
    FreeConcat(a + b + c + d + e, f, '$');
  }

  /** A tuple reads back as its three placeholders. */
  lemma TuplePlaceholders(a: nat, b: nat, c: nat, term: string)
    requires Free(term, '$') && Closed(term)
    ensures Placeholders(Tuple(a, b, c, term)) == [a, b, c]
  {
    var open := "\n\t\t\t(";
    var l1 := open + Placeholder(a);
    var l2 := l1 + ", ";
    var l3 := l2 + Placeholder(b);
    var l4 := l3 + ", ";
    var l5 := l4 + Placeholder(c);
    var l6 := l5 + ")";
    PlaceholdersNone(open);
    PlaceholdersNone(", ");
    PlaceholdersNone(")");
    PlaceholdersNone(term);
    PlaceholderReads(a);
    PlaceholderReads(b);
    PlaceholderReads(c);
    PlaceholdersConcat(open, Placeholder(a));
    PlaceholdersConcat(l1, ", ");
    PlaceholdersConcat(l2, Placeholder(b));
    PlaceholdersConcat(l3, ", ");
    PlaceholdersConcat(l4, Placeholder(c));
    PlaceholdersConcat(l5, ")");
    PlaceholdersConcat(l6, term);
  }

  lemma TupleTextPlaceholders(i: nat, n: nat)
    ensures Placeholders(TupleText(i, n)) == [3 * i + 1, 3 * i + 2, 3 * i + 3]
  {
    if i != n - 1 {
      TuplePlaceholders(3 * i + 1, 3 * i + 2, 3 * i + 3, ",");
    } else {
      TuplePlaceholders(3 * i + 1, 3 * i + 2, 3 * i + 3, ";");
    }
  }

  lemma TupleTextClosed(i: nat, n: nat)
    ensures Closed(TupleText(i, n))
  {
  }

  /** The first `m` tuples carry placeholders 1..3m. */
  lemma TuplesPlaceholders(m: nat, n: nat)
    ensures Placeholders(Tuples(m, n)) == OneTo(3 * m)
  {
    var k := 0;
    while k < m
      invariant k <= m
      invariant Placeholders(Tuples(k, n)) == OneTo(3 * k)
    {
      TuplesStepPlaceholders(k, n);
      k := k + 1;
    }
  }

  lemma TuplesStepPlaceholders(k: nat, n: nat)
    requires Placeholders(Tuples(k, n)) == OneTo(3 * k)
    ensures Placeholders(Tuples(k + 1, n)) == OneTo(3 * (k + 1))
  {
    TupleTextPlaceholders(k, n);
    TupleTextClosed(k, n);
    PlaceholdersConcat(Tuples(k, n), TupleText(k, n));
    assert Tuples(k + 1, n) == Tuples(k, n) + TupleText(k, n);
    assert Placeholders(Tuples(k + 1, n)) == Placeholders(Tuples(k, n)) + Placeholders(TupleText(k, n));
    OneToTriple(k);
  }

  lemma TuplesClosed(m: nat, n: nat)
    ensures Closed(Tuples(m, n))
  {
    if m > 0 {
      TuplesStarts(m, n);
    }
  }

  /** A non-empty run of tuples starts with the newline of the first. */
  lemma {:induction false} TuplesStarts(m: nat, n: nat)
    requires m > 0
    ensures |Tuples(m, n)| > 0 && Tuples(m, n)[0] == '\n'
  {
    if m > 1 {
      TuplesStarts(m - 1, n);
    }
  }

  lemma HeaderPlaceholders()
    ensures Placeholders(Header) == []
  {
    HeaderFree();
    PlaceholdersNone(Header);
  }

  lemma OneToTriple(k: nat)
    ensures OneTo(3 * k) + [3 * k + 1, 3 * k + 2, 3 * k + 3] == OneTo(3 * (k + 1))
  {
  }

  /** The statement's placeholders are $1..$3n, one per bound value, in order. */
  lemma ImagesPlaceholders(images: seq<FileRes>, productId: string)
    ensures Placeholders(ImagesSql(|images|)) == OneTo(|ImagesArgs(images, productId)|)
  {
    var n := |images|;
    TuplesPlaceholders(n, n);
    TuplesClosed(n, n);
    HeaderPlaceholders();
    PlaceholdersConcat(Header, Tuples(n, n));
    assert Placeholders(ImagesSql(n)) == [] + OneTo(3 * n);
  }
}
