/**
 * The multipart-form handlers of productHandler.go. `AddProduct` requires
 * eight fields in a fixed order, at least one image and a non-negative
 * stock and price; `UpdateProduct` requires an id and a stock, defaults
 * the other fields, and uploads images only when the form has an "images"
 * part. `strconv.ParseFloat`, `strconv.Atoi`, `utils.RandFileName`, the
 * upload and the usecase are parameters.
 */
module ProductHandler {
  import opened Entities
  import opened Uploads

  const AddProductErr: string := "product-002"
  const UpdateProductErr: string := "product-005"

  // ---------------------------------------------------------------------------
  // Form fields

  /**
   * The test `v, exists := form.Value[key]; !exists || len(v[0]) == 0`: the
   * field is missing (absent, or its first value empty), the index panics
   * (present with no values), or it is given.
   */
  datatype Field = Missing | IndexPanic | Given(values: seq<string>)

  function Require(form: MultipartForm, key: string): (r: Field)
    ensures r.Given? <==> key in form.value && |form.value[key]| > 0 && form.value[key][0] != ""
    ensures r.Given? ==> r.values == form.value[key]
    ensures r == IndexPanic <==> key in form.value && form.value[key] == []
  {
    if key !in form.value then Missing
    else if |form.value[key]| == 0 then IndexPanic
    else if form.value[key][0] == "" then Missing
    else Given(form.value[key])
  }

  /** The fields `AddProduct` requires, in the order it checks them. */
  const AddProductKeys: seq<string> := [
    "product_title", "product_desc", "product_price", "product_color",
    "product_size", "product_sex", "product_category", "product_stock"]

  datatype RequiredCheck = AllGiven | MissingField(key: string) | FieldPanic

  /** The required fields checked in order: the first one not given decides. */
  function CheckRequired(form: MultipartForm, keys: seq<string>): (r: RequiredCheck)
    ensures r == AllGiven <==> forall i :: 0 <= i < |keys| ==> Require(form, keys[i]).Given?
  {
    if keys == [] then AllGiven
    else match Require(form, keys[0])
      case Missing => MissingField(keys[0])
      case IndexPanic => FieldPanic
      case Given(_) =>
        var r := CheckRequired(form, keys[1..]);
        assert forall i :: 1 <= i < |keys| ==> keys[i] == keys[1..][i - 1];
        r
  }

  /** When the fields before `k` are given and field `k` is not, field `k` decides. */
  lemma {:induction false} CheckRequiredFirst(form: MultipartForm, keys: seq<string>, k: nat)
    requires k < |keys| && !Require(form, keys[k]).Given?
    requires forall j :: 0 <= j < k ==> Require(form, keys[j]).Given?
    ensures CheckRequired(form, keys) == if Require(form, keys[k]).Missing? then MissingField(keys[k]) else FieldPanic
  {
    if k > 0 {
      var rest := keys[1..];
      assert forall j :: 0 <= j < k - 1 ==> rest[j] == keys[j + 1];
      CheckRequiredFirst(form, rest, k - 1);
    }
  }

  // ---------------------------------------------------------------------------
  // AddProduct

  /** The product handed to the usecase: the first value of each field, the parsed numbers and the uploads. */
  function NewProduct(form: MultipartForm, price: real, stock: int, images: seq<FileRes>): AddProduct
  {
    AddProduct("", FirstValue(form, "product_title"), FirstValue(form, "product_desc"), price,
      FirstValue(form, "product_color"), FirstValue(form, "product_size"), FirstValue(form, "product_sex"),
      FirstValue(form, "product_category"), stock, images)
  }

  /**
   * `productHandler.AddProduct`. `parseFloat` and `atoi` are `strconv`'s
   * parsers (None: an error), `insert` is the usecase (Some: its error).
   */
  function AddProductForm(form: Parse<MultipartForm>, fileLimit: int, randName: (nat, string) -> string,
                          parseFloat: string -> Option<real>, atoi: string -> Option<int>,
                          upload: seq<FileReq> -> UploadOutcome, insert: AddProduct -> Option<string>): Outcome<AddProduct>
  {
    if form.ParseFailed? then Refused(StatusBadRequest, AddProductErr, form.err)
    else
      var f := form.value;
      match CheckRequired(f, AddProductKeys)
      case FieldPanic => Outcome(Panic, None, None)
      case MissingField(key) => Refused(StatusBadRequest, AddProductErr, key + " is required")
      case AllGiven =>
        match atoi(FirstValue(f, "product_stock"))
        case None => Refused(StatusBadRequest, AddProductErr, "invalid product stock")
        case Some(stock) =>
          if stock < 0 then Refused(StatusBadRequest, AddProductErr, "product stock must be greater than 0")
          else if FilesOf(f, "images") == [] then Refused(StatusBadRequest, AddProductErr, "images is required")
          else match parseFloat(FirstValue(f, "product_price"))
            case None => Refused(StatusBadRequest, AddProductErr, "invalid product price")
            case Some(price) =>
              if price < 0.0 then Refused(StatusBadRequest, AddProductErr, "product price must be greater than 0")
              else
                var images := FilesOf(f, "images");
                var check := Validate(images, fileLimit);
                if check != FileOk then Refused(StatusBadRequest, AddProductErr, CheckMessage(check, fileLimit))
                else
                  var reqs := PlannedRequests(images, SqlText.GoSliceString(ValuesOf(f, "product_title")), randName);
                  match upload(reqs)
                  case UploadFailed(err) => Outcome(Failure(StatusInternalServerError, AddProductErr, err), Some(reqs), None)
                  case Uploaded(img) =>
                    var prod := NewProduct(f, price, stock, img);
                    match insert(prod)
                    case Some(err) => Outcome(Failure(StatusBadRequest, AddProductErr, err), Some(reqs), Some(prod))
                    case None => Outcome(Success(StatusCreated), Some(reqs), Some(prod))
  }

  /** What `AddProduct` accepts before it uploads anything. */
  predicate AddProductValid(form: MultipartForm, fileLimit: int, parseFloat: string -> Option<real>, atoi: string -> Option<int>)
  {
    var images := FilesOf(form, "images");
    (forall i :: 0 <= i < |AddProductKeys| ==> Require(form, AddProductKeys[i]).Given?)
    && atoi(FirstValue(form, "product_stock")).Some? && atoi(FirstValue(form, "product_stock")).value >= 0
    && images != []
    && parseFloat(FirstValue(form, "product_price")).Some? && parseFloat(FirstValue(form, "product_price")).value >= 0.0
    && forall i :: 0 <= i < |images| ==> CheckFile(images[i], fileLimit) == FileOk
  }

  /**
   * Every check runs before the upload: the images are uploaded iff the form
   * passes them all, one request per image under "[title]/name"; the
   * product handed on carries the form's fields and the upload results.
   */
  lemma AddProductUploadsOnlyValid(form: Parse<MultipartForm>, fileLimit: int, randName: (nat, string) -> string,
                                   parseFloat: string -> Option<real>, atoi: string -> Option<int>,
                                   upload: seq<FileReq> -> UploadOutcome, insert: AddProduct -> Option<string>)
    ensures var r := AddProductForm(form, fileLimit, randName, parseFloat, atoi, upload, insert);
      r.uploads.Some? <==> form.Parsed? && AddProductValid(form.value, fileLimit, parseFloat, atoi)
    ensures var r := AddProductForm(form, fileLimit, randName, parseFloat, atoi, upload, insert);
      r.uploads.Some? ==> (r.uploads.value
        == PlannedRequests(FilesOf(form.value, "images"), SqlText.GoSliceString(ValuesOf(form.value, "product_title")), randName))
    ensures var r := AddProductForm(form, fileLimit, randName, parseFloat, atoi, upload, insert);
      r.handed.Some? ==> (upload(r.uploads.value).Uploaded?
        && r.handed.value == NewProduct(form.value, parseFloat(FirstValue(form.value, "product_price")).value,
             atoi(FirstValue(form.value, "product_stock")).value, upload(r.uploads.value).results))
    ensures var r := AddProductForm(form, fileLimit, randName, parseFloat, atoi, upload, insert);
      r.handed.Some? <==> (r.uploads.Some? && upload(r.uploads.value).Uploaded?)
    ensures var r := AddProductForm(form, fileLimit, randName, parseFloat, atoi, upload, insert);
      r.uploads.Some? && upload(r.uploads.value).UploadFailed? ==>
        r.response == Failure(StatusInternalServerError, AddProductErr, upload(r.uploads.value).err)
    ensures var r := AddProductForm(form, fileLimit, randName, parseFloat, atoi, upload, insert);
      r.handed.Some? && insert(r.handed.value).Some? ==>
        r.response == Failure(StatusBadRequest, AddProductErr, insert(r.handed.value).value)
    ensures var r := AddProductForm(form, fileLimit, randName, parseFloat, atoi, upload, insert);
      r.response.Success? <==> (r.handed.Some? && insert(r.handed.value).None?)
    ensures var r := AddProductForm(form, fileLimit, randName, parseFloat, atoi, upload, insert);
      r.response.Success? ==> r.response.status == StatusCreated
  {
    if form.Parsed? {
      var f := form.value;
      var images := FilesOf(f, "images");
      if CheckRequired(f, AddProductKeys) == AllGiven && atoi(FirstValue(f, "product_stock")).Some?
         && atoi(FirstValue(f, "product_stock")).value >= 0 && images != []
         && parseFloat(FirstValue(f, "product_price")).Some? && parseFloat(FirstValue(f, "product_price")).value >= 0.0 {
        assert Require(f, "product_title").Given? by { assert AddProductKeys[0] == "product_title"; }
      }
    }
  }

  /** The first required field that is absent or empty is reported as "<field> is required". */
  lemma AddProductFirstMissing(form: MultipartForm, fileLimit: int, randName: (nat, string) -> string,
                               parseFloat: string -> Option<real>, atoi: string -> Option<int>,
                               upload: seq<FileReq> -> UploadOutcome, insert: AddProduct -> Option<string>, k: nat)
    requires k < |AddProductKeys| && Require(form, AddProductKeys[k]).Missing?
    requires forall j :: 0 <= j < k ==> Require(form, AddProductKeys[j]).Given?
    ensures AddProductForm(Parsed(form), fileLimit, randName, parseFloat, atoi, upload, insert)
      == Refused(StatusBadRequest, AddProductErr, AddProductKeys[k] + " is required")
  {
    CheckRequiredFirst(form, AddProductKeys, k);
  }

  /** A stock of 0 is accepted: with everything else valid the product is handed on with stock 0. */
  lemma AddProductStockZero(form: MultipartForm, fileLimit: int, randName: (nat, string) -> string,
                            parseFloat: string -> Option<real>, atoi: string -> Option<int>,
                            upload: seq<FileReq> -> UploadOutcome, insert: AddProduct -> Option<string>)
    requires AddProductValid(form, fileLimit, parseFloat, atoi) && atoi(FirstValue(form, "product_stock")) == Some(0)
    requires upload(PlannedRequests(FilesOf(form, "images"), SqlText.GoSliceString(ValuesOf(form, "product_title")), randName)).Uploaded?
    ensures var r := AddProductForm(Parsed(form), fileLimit, randName, parseFloat, atoi, upload, insert);
      r.handed.Some? && r.handed.value.productStock == 0
  {
    AddProductUploadsOnlyValid(Parsed(form), fileLimit, randName, parseFloat, atoi, upload, insert);
  }

  /** With the fields valid and no image part, the answer is "images is required" and nothing is uploaded. */
  lemma AddProductImagesRequired(form: MultipartForm, fileLimit: int, randName: (nat, string) -> string,
                                 parseFloat: string -> Option<real>, atoi: string -> Option<int>,
                                 upload: seq<FileReq> -> UploadOutcome, insert: AddProduct -> Option<string>)
    requires forall i :: 0 <= i < |AddProductKeys| ==> Require(form, AddProductKeys[i]).Given?
    requires atoi(FirstValue(form, "product_stock")).Some? && atoi(FirstValue(form, "product_stock")).value >= 0
    requires "images" !in form.file || form.file["images"] == []
    ensures AddProductForm(Parsed(form), fileLimit, randName, parseFloat, atoi, upload, insert)
      == Refused(StatusBadRequest, AddProductErr, "images is required")
  {
  }

  // ---------------------------------------------------------------------------
  // UpdateProduct

  /** The price text: the first value; "0" when the field is absent; "" when it has no values. */
  function PriceText(form: MultipartForm): string
  {
    if "product_price" in form.value && |form.value["product_price"]| > 0 then form.value["product_price"][0]
    else if "product_price" !in form.value then "0"
    else ""
  }

  /**
   * `imagesRes`: `copy` of the upload results into a slice as long as the
   * file list. A shorter result would leave nil entries that the builder
   * later dereferences; that case is reported as a panic here.
   */
  function CopiedImages(n: nat, results: seq<FileRes>): Option<seq<FileRes>>
  {
    if |results| < n then None else Some(results[..n])
  }

  function ChangedProduct(form: MultipartForm, id: string, price: real, stock: int, images: seq<FileRes>): UpdateProduct
  {
    UpdateProduct(id, FirstValue(form, "product_title"), FirstValue(form, "product_desc"), price,
      FirstValue(form, "product_color"), FirstValue(form, "product_size"), FirstValue(form, "product_sex"),
      FirstValue(form, "product_category"), stock, images)
  }

  /** The usecase call and its answer once the product is assembled. */
  function SubmitUpdate(prod: UpdateProduct, uploads: Option<seq<FileReq>>, update: UpdateProduct -> Option<string>): Outcome<UpdateProduct>
  {
    match update(prod)
    case Some(err) => Outcome(Failure(StatusBadRequest, UpdateProductErr, err), uploads, Some(prod))
    case None => Outcome(Success(StatusOK), uploads, Some(prod))
  }

  /** `productHandler.UpdateProduct`, with the same parameters as `AddProductForm`. */
  function UpdateProductForm(form: Parse<MultipartForm>, fileLimit: int, randName: (nat, string) -> string,
                             parseFloat: string -> Option<real>, atoi: string -> Option<int>,
                             upload: seq<FileReq> -> UploadOutcome, update: UpdateProduct -> Option<string>): Outcome<UpdateProduct>
  {
    if form.ParseFailed? then Refused(StatusBadRequest, UpdateProductErr, form.err)
    else
      var f := form.value;
      match Require(f, "id")
      case IndexPanic => Outcome(Panic, None, None)
      case Missing => Refused(StatusBadRequest, AddProductErr, "product_id is required")
      case Given(ids) =>
        match parseFloat(PriceText(f))
        case None => Refused(StatusBadRequest, UpdateProductErr, "invalid product price")
        case Some(price) =>
          if price < 0.0 then Refused(StatusBadRequest, UpdateProductErr, "product price must be greater than 0")
          else match Require(f, "product_stock")
            case IndexPanic => Outcome(Panic, None, None)
            case Missing => Refused(StatusBadRequest, AddProductErr, "product_stock is required")
            case Given(stocks) =>
              match atoi(stocks[0])
              case None => Refused(StatusBadRequest, AddProductErr, "invalid product stock")
              case Some(stock) =>
                if stock < 0 then Refused(StatusBadRequest, AddProductErr, "product stock must be greater than 0")
                else UpdateImages(f, ids, price, stock, fileLimit, randName, upload, update)
  }

  /**
   * The rest of `productHandler.UpdateProduct` once the id, the price and the
   * stock are accepted: the optional images are checked and uploaded under
   * the id, then the product goes to the usecase.
   */
  function UpdateImages(f: MultipartForm, ids: seq<string>, price: real, stock: int, fileLimit: int,
                        randName: (nat, string) -> string, upload: seq<FileReq> -> UploadOutcome,
                        update: UpdateProduct -> Option<string>): Outcome<UpdateProduct>
    requires |ids| > 0
  {
    if "images" !in f.file then SubmitUpdate(ChangedProduct(f, ids[0], price, stock, []), None, update)
    else
      var images := f.file["images"];
      var check := Validate(images, fileLimit);
      if check != FileOk then Refused(StatusBadRequest, UpdateProductErr, CheckMessage(check, fileLimit))
      else
        var reqs := PlannedRequests(images, SqlText.GoSliceString(ids), randName);
        match upload(reqs)
        case UploadFailed(err) => Outcome(Failure(StatusInternalServerError, UpdateProductErr, err), Some(reqs), None)
        case Uploaded(img) =>
          match CopiedImages(|images|, img)
          case None => Outcome(Panic, Some(reqs), None)
          case Some(copied) => SubmitUpdate(ChangedProduct(f, ids[0], price, stock, copied), Some(reqs), update)
  }

  /** What `UpdateProduct` accepts of the id, the price and the stock before it looks at the images. */
  predicate UpdateFieldsValid(f: MultipartForm, parseFloat: string -> Option<real>, atoi: string -> Option<int>)
  {
    Require(f, "id").Given?
    && parseFloat(PriceText(f)).Some? && parseFloat(PriceText(f)).value >= 0.0
    && Require(f, "product_stock").Given?
    && atoi(f.value["product_stock"][0]).Some? && atoi(f.value["product_stock"][0]).value >= 0
  }

  /** The form has an "images" part and every image in it passes the file checks. */
  predicate UpdateImagesValid(f: MultipartForm, fileLimit: int)
  {
    "images" in f.file && forall i :: 0 <= i < |f.file["images"]| ==> CheckFile(f.file["images"][i], fileLimit) == FileOk
  }

  /** The upload requests for the form's images, under the folder "[id]". */
  function UpdateRequests(f: MultipartForm, randName: (nat, string) -> string): seq<FileReq>
    requires Require(f, "id").Given?
  {
    PlannedRequests(FilesOf(f, "images"), SqlText.GoSliceString(f.value["id"]), randName)
  }

  /**
   * The images stage: it uploads iff there is an "images" part whose every
   * file passes; it hands the product on iff there is no "images" part, or
   * the upload succeeded with at least one result per file; the product
   * carries exactly the copied upload results (none without an "images" part).
   */
  lemma UpdateImagesHanded(f: MultipartForm, ids: seq<string>, price: real, stock: int, fileLimit: int,
                           randName: (nat, string) -> string, upload: seq<FileReq> -> UploadOutcome,
                           update: UpdateProduct -> Option<string>)
    requires |ids| > 0
    ensures var r := UpdateImages(f, ids, price, stock, fileLimit, randName, upload, update);
      r.uploads.Some? <==> UpdateImagesValid(f, fileLimit)
    ensures var r := UpdateImages(f, ids, price, stock, fileLimit, randName, upload, update);
      r.uploads.Some? ==> r.uploads.value == PlannedRequests(FilesOf(f, "images"), SqlText.GoSliceString(ids), randName)
    ensures var r := UpdateImages(f, ids, price, stock, fileLimit, randName, upload, update);
      var results := upload(PlannedRequests(FilesOf(f, "images"), SqlText.GoSliceString(ids), randName));
      r.handed.Some? <==> ("images" !in f.file
        || (UpdateImagesValid(f, fileLimit) && results.Uploaded? && CopiedImages(|f.file["images"]|, results.results).Some?))
    ensures var r := UpdateImages(f, ids, price, stock, fileLimit, randName, upload, update);
      var results := upload(PlannedRequests(FilesOf(f, "images"), SqlText.GoSliceString(ids), randName));
      r.handed.Some? ==> r.handed.value == ChangedProduct(f, ids[0], price, stock,
        if "images" in f.file then CopiedImages(|f.file["images"]|, results.results).value else [])
  {
  }

  /**
   * The product handed to the usecase, both ways: it is handed on iff the
   * id, price and stock are accepted and the images (if any) all pass and
   * upload with enough results. It carries the id, each optional field's
   * first value or "", the price parsed from `PriceText`, the stock, and the
   * upload's results copied per image file (none without an "images" part).
   */
  lemma UpdateProductHanded(form: Parse<MultipartForm>, fileLimit: int, randName: (nat, string) -> string,
                            parseFloat: string -> Option<real>, atoi: string -> Option<int>,
                            upload: seq<FileReq> -> UploadOutcome, update: UpdateProduct -> Option<string>)
    ensures var r := UpdateProductForm(form, fileLimit, randName, parseFloat, atoi, upload, update);
      r.handed.Some? <==> (form.Parsed? && UpdateFieldsValid(form.value, parseFloat, atoi)
        && ("images" !in form.value.file
            || (UpdateImagesValid(form.value, fileLimit) && upload(UpdateRequests(form.value, randName)).Uploaded?
                && CopiedImages(|form.value.file["images"]|, upload(UpdateRequests(form.value, randName)).results).Some?)))
    ensures var r := UpdateProductForm(form, fileLimit, randName, parseFloat, atoi, upload, update);
      r.handed.Some? ==>
        form.Parsed? && Require(form.value, "id").Given? && Require(form.value, "product_stock").Given?
        && var f := form.value; var p := r.handed.value;
        p.id == f.value["id"][0] && p.productTitle == FirstValue(f, "product_title")
        && p.productDesc == FirstValue(f, "product_desc") && p.productColor == FirstValue(f, "product_color")
        && p.productSize == FirstValue(f, "product_size") && p.productSex == FirstValue(f, "product_sex")
        && p.productCategory == FirstValue(f, "product_category")
        && parseFloat(PriceText(f)) == Some(p.productPrice) && p.productPrice >= 0.0
        && atoi(f.value["product_stock"][0]) == Some(p.productStock) && p.productStock >= 0
        && ("images" !in f.file ==> p.images == [])
        && ("images" in f.file ==> (upload(UpdateRequests(f, randName)).Uploaded?
             && CopiedImages(|f.file["images"]|, upload(UpdateRequests(f, randName)).results) == Some(p.images)))
  {
    if form.Parsed? {
      var f := form.value;
      var id, price, stock := Require(f, "id"), parseFloat(PriceText(f)), Require(f, "product_stock");
      if id.Given? && price.Some? && price.value >= 0.0 && stock.Given? && atoi(stock.values[0]).Some? {
        UpdateImagesHanded(f, id.values, price.value, atoi(stock.values[0]).value, fileLimit, randName, upload, update);
      }
    }
  }

  /** Without an "images" part nothing is uploaded and the product carries no images. */
  lemma UpdateProductNoImages(form: MultipartForm, fileLimit: int, randName: (nat, string) -> string,
                              parseFloat: string -> Option<real>, atoi: string -> Option<int>,
                              upload: seq<FileReq> -> UploadOutcome, update: UpdateProduct -> Option<string>)
    requires "images" !in form.file
    ensures var r := UpdateProductForm(Parsed(form), fileLimit, randName, parseFloat, atoi, upload, update);
      r.uploads == None && (r.handed.Some? ==> r.handed.value.images == [])
  {
  }

  /** An absent price is read as "0"; an absent optional field as "". */
  lemma UpdateProductDefaults(form: MultipartForm, key: string)
    ensures "product_price" !in form.value ==> PriceText(form) == "0"
    ensures key !in form.value ==> FirstValue(form, key) == ""
    ensures "product_price" in form.value && form.value["product_price"] == [] ==> PriceText(form) == ""
  {
  }

  /** The id is checked first: a missing id is refused, with AddProduct's error code. */
  lemma UpdateProductRequiresId(form: MultipartForm, fileLimit: int, randName: (nat, string) -> string,
                                parseFloat: string -> Option<real>, atoi: string -> Option<int>,
                                upload: seq<FileReq> -> UploadOutcome, update: UpdateProduct -> Option<string>)
    requires Require(form, "id").Missing?
    ensures UpdateProductForm(Parsed(form), fileLimit, randName, parseFloat, atoi, upload, update)
      == Refused(StatusBadRequest, AddProductErr, "product_id is required")
  {
  }

  /**
   * An upload happens iff the id, price and stock are accepted and the form
   * has an "images" part whose every image passes; then there is one request
   * per image under "[id]/name".
   */
  lemma UpdateProductUploads(form: Parse<MultipartForm>, fileLimit: int, randName: (nat, string) -> string,
                             parseFloat: string -> Option<real>, atoi: string -> Option<int>,
                             upload: seq<FileReq> -> UploadOutcome, update: UpdateProduct -> Option<string>)
    ensures var r := UpdateProductForm(form, fileLimit, randName, parseFloat, atoi, upload, update);
      r.uploads.Some? <==> form.Parsed? && UpdateFieldsValid(form.value, parseFloat, atoi) && UpdateImagesValid(form.value, fileLimit)
    ensures var r := UpdateProductForm(form, fileLimit, randName, parseFloat, atoi, upload, update);
      r.uploads.Some? ==> (form.Parsed? && Require(form.value, "id").Given?
        && r.uploads.value == UpdateRequests(form.value, randName))
  {
    if form.Parsed? {
      var f := form.value;
      var id, price, stock := Require(f, "id"), parseFloat(PriceText(f)), Require(f, "product_stock");
      if id.Given? && price.Some? && price.value >= 0.0 && stock.Given? && atoi(stock.values[0]).Some? {
        UpdateImagesHanded(f, id.values, price.value, atoi(stock.values[0]).value, fileLimit, randName, upload, update);
      }
    }
  }
}
