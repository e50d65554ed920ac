/**
 * The record types the core passes around (the Go structs of the product,
 * users, order, files and entities packages), the values bound to SQL
 * placeholders, HTTP responses and Go's 64-bit integer arithmetic.
 */
module Entities {

  datatype Option<T> = None | Some(value: T)

  // ---------------------------------------------------------------------------
  // Go `int` is 64 bits wide; arithmetic on it wraps around.

  const Int64Min: int := -0x8000_0000_0000_0000
  const Int64Max: int := 0x7fff_ffff_ffff_ffff
  const Two64: int := 0x1_0000_0000_0000_0000

  predicate IsInt64(x: int) { Int64Min <= x <= Int64Max }

  /** A value of Go's `int`. */
  type Int64 = x: int | IsInt64(x)

  /** The 64-bit two's-complement value of `x`, as Go's `int` arithmetic yields it. */
  function Wrap64(x: int): int
  {
    (x - Int64Min) % Two64 + Int64Min
  }

  /** The wrapped value is a Go `int`, congruent to `x` modulo 2^64, and `x` itself when `x` fits. */
  lemma Wrap64Props(x: int)
    ensures IsInt64(Wrap64(x))
    ensures (x - Wrap64(x)) % Two64 == 0
    ensures IsInt64(x) ==> Wrap64(x) == x
  {
  }

  // ---------------------------------------------------------------------------
  // Files (modules/files)

  /** A multipart file part: its client-side name and its size in bytes. */
  datatype FileHeader = FileHeader(filename: string, size: int)

  /** `files.FileReq`: one object to upload to the bucket. */
  datatype FileReq = FileReq(file: FileHeader, destination: string, fileName: string, extension: string)

  /** `files.FileRes`: an uploaded object. */
  datatype FileRes = FileRes(fileName: string, url: string)

  /** `entities.ImageRes`: an image row as read back from the database. */
  datatype ImageRes = ImageRes(id: string, fileName: string, url: string)

  // ---------------------------------------------------------------------------
  // Products (modules/product)

  /** `product.Product`: a product as read back from the database. */
  datatype Product = Product(
    id: string,
    productTitle: string,
    productPrice: real,
    productColor: string,
    productSize: string,
    productSex: string,
    productDesc: string,
    productCategory: string,
    images: seq<ImageRes>)

  /** `product.UpdateProduct`: a partial update; "" and 0 mean "not supplied". */
  datatype UpdateProduct = UpdateProduct(
    id: string,
    productTitle: string,
    productDesc: string,
    productPrice: real,
    productColor: string,
    productSize: string,
    productSex: string,
    productCategory: string,
    productStock: int,
    images: seq<FileRes>)

  /** `product.AddProduct`: a new product; `id` is filled in by the insert. */
  datatype AddProduct = AddProduct(
    id: string,
    productTitle: string,
    productDesc: string,
    productPrice: real,
    productColor: string,
    productSize: string,
    productSex: string,
    productCategory: string,
    productStock: int,
    images: seq<FileRes>)

  /** `product.ProductFilter`: search, pagination and sort parameters. */
  datatype ProductFilter = ProductFilter(
    id: string,
    search: string,
    page: Int64,
    limit: Int64,
    orderBy: string,
    sort: string)

  // ---------------------------------------------------------------------------
  // Users (modules/users/users.go)

  datatype UserRegisterReq = UserRegisterReq(
    email: string, password: string, firstName: string, lastName: string, phone: string, dob: string)

  datatype User = User(
    id: string, email: string, firstName: string, lastName: string, phone: string, roleId: int, avatar: string, dob: string)

  datatype UserUpdate = UserUpdate(
    id: string, email: string, firstName: string, lastName: string, phone: string, avatar: string, dob: string)

  /** `users.UserClaims`: what an access token carries. */
  datatype UserClaims = UserClaims(id: string, roleId: int)

  /** `users.Cart`: one line of a user's cart, with the product it refers to. */
  datatype Cart = Cart(
    id: string, size: string, qty: int, productTitle: string, productPrice: real,
    productDesc: string, images: seq<ImageRes>)

  // ---------------------------------------------------------------------------
  // Orders (modules/order/order.go)

  datatype Address = Address(
    firstName: string, lastName: string, phone: string, email: string,
    street: string, city: string, zipCode: string, country: string)

  datatype PaymentDetail = PaymentDetail(cardHolder: string, cardNumber: string, expired: string, cvv: string)

  // ---------------------------------------------------------------------------
  // Values bound to `$n` placeholders (Go `[]any`)

  datatype Value =
    | Str(s: string)
    | Float(r: real)
    | Int(i: int)
    | OrderProducts(products: seq<Cart>)
    | AddressValue(address: Address)
    | PaymentValue(payment: PaymentDetail)

  // ---------------------------------------------------------------------------
  // HTTP

  const StatusOK: int := 200
  const StatusCreated: int := 201
  const StatusBadRequest: int := 400
  const StatusUnauthorized: int := 401
  const StatusInternalServerError: int := 500

  /**
   * What a handler does with the request: pass it on to the next handler,
   * answer with a success status, answer with an error envelope (status,
   * error code, message), or panic (an index out of range or a failed type
   * assertion in the Go code).
   */
  datatype Response =
    | Next
    | Success(status: int)
    | Failure(status: int, code: string, message: string)
    | Panic

  /** The parsed multipart form: field values and file parts, by name. */
  datatype MultipartForm = MultipartForm(value: map<string, seq<string>>, file: map<string, seq<FileHeader>>)

  /** What `c.MultipartForm()` (or `c.BodyParser`) reports: its error text, or the parsed value. */
  datatype Parse<T> = ParseFailed(err: string) | Parsed(value: T)

  /** What `UploadToGCP` reports: an error, or one result per request in order. */
  datatype UploadOutcome = UploadFailed(err: string) | Uploaded(results: seq<FileRes>)
}
