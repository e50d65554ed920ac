# Cicero-Backend core, modelled in Dafny

This project models the request-handling core of Cicero-Backend, a Go
e-commerce backend (Fiber, PostgreSQL through sqlx, storage for uploaded
images). It covers four parts of the backend.

- **SQL statement builders.** These are the product partial update
  (`updateProductBuilder`), the product search (`findProductBuilder`), the
  product insert with its multi-row image `VALUES` list
  (`insertProductBuilder`), and the profile update of `usersRepository`.
  The three product builders keep their state in a Dafny `class`: the
  query text, the bound values and the running placeholder index. Their
  steps are methods, proved against specification functions. The profile
  update, like its source, keeps the same state in method locals. The
  statements are strings and the bound values are a `seq<Value>`.
- **Checks on requests.** These are the e-mail recogniser
  (`UserRegisterReq.IsEmail`), the image extension and size checks that
  three handlers repeat, the ordered required-field checks of the product
  forms, and the profile update's rules for the avatar.
- **Authorization decisions** of the middleware: the `Bearer ` prefix
  strip, the `ParamsCheck` ownership rule and the role bit match of
  `Authorize`.
- **Transactions over an abstract database.** These are the product
  insert, the product update, order placement and the user insert. Tables
  are maps and sequences. Which driver call fails, its error text and the
  ids the database generates are inputs.

Reading a statement back is done by `SqlText.Placeholders`. It is an
independent reader that lists the `$n` numbers of a text from left to
right. The builders are proved against it: the numbers run `1..n`, and
`n` is the number of bound values.

Modules, one per source file or concern:

- `SqlText` (sql_text.dfy): decimal formatting, the `$n` reader, `Join`
  and `Split`, `strings.Replace(…, 1)`, `Trim`, `TrimPrefix`, ASCII case
  mapping.
- `Entities` (entities.dfy): the request and row records, Go's wrapping
  `int`, and the tables.
- `Db` (db.dfy): the database and its transactions: `Exec`, `Rollback`,
  `Commit`.
- `ImageInsert` (image_insert.dfy): the image `INSERT` shared by the
  product insert and the product update.
- `UpdateProductPattern` (update_product.dfy), `FindProductPattern`
  (find_product.dfy), `InsertProductPattern` (insert_product.dfy),
  `ProfileUpdate` (profile_update.dfy).
- `Users` (users.dfy), `UsersPattern` (insert_user.dfy),
  `UsersHandler` (users_handler.dfy).
- `Middlewares` (middleware.dfy).
- `Uploads` (file_checks.dfy): the upload handler and the file checks.
- `ProductHandler` (product_handler.dfy).
- `Orders` (orders.dfy).

Behaviour of the code that the model keeps as written:

- `findProductBuilder.paginate` (findProduct.go:151-156) and
  `productRepository.FindProduct` (productRepository.go:144-151) use page
  and limit as given. `OffsetUnclamped` states the offset, which is
  negative for page 0. The handler calls a usecase `FindProduct`
  (productHandler.go:288) that productUsecase.go does not define; that
  usecase is not part of this model.
- The profile update with no field supplied produces `SET` followed
  directly by `WHERE "id" = $1`. This is modelled as written
  (`EmptyUpdateDefect`).
- `SignUpAdmin` reports a server error with the customer route's code
  `users-001`. This too is modelled as written.

## Model

| member | source | states |
|---|---|---|
| SqlText.NatToString | modules/product/productPattern/updateProduct.go:91-92 | `%d` of a non-negative number is a non-empty digit string with no leading zero |
| SqlText.NatToStringRoundTrip | modules/product/productPattern/updateProduct.go:91-92 | reading back the digits printed by `%d` gives the number itself, so a placeholder names the index it was built from |
| SqlText.NatToStringInjective | modules/product/productPattern/updateProduct.go:91-92 | different indices print as different placeholder texts |
| SqlText.SplitJoin | modules/product/productPattern/updateProduct.go:351-358 | pieces joined by a separator that none of them contains split back into exactly those pieces (no empty or merged piece) |
| SqlText.JoinSplit | modules/product/productPattern/updateProduct.go:351-358 | splitting a text and joining the pieces gives the text back |
| SqlText.SplitCount | modules/users/users.go:66 | a text splits into one more piece than it has separators |
| SqlText.JoinedStep | modules/product/productPattern/updateProduct.go:351-358 | one round of the joining loop (comma after every field but the last) extends the joined prefix by one field |
| SqlText.ReplaceFirstAt | modules/product/productPattern/findProduct.go:112-115 | `strings.Replace(s, "?", x, 1)` replaces the first marker, and only it |
| SqlText.ReplaceFirstAbsent | modules/product/productPattern/findProduct.go:115 | replacing in a text with no marker leaves it unchanged |
| SqlText.TrimPrefix | modules/middlewares/middlewareHandler/middlewareHandler.go:82 | with the prefix present the result is what follows it; otherwise the text is unchanged |
| SqlText.Trim | modules/users/usersHandlers/usersHandler.go:212 | the trimmed text is no longer and neither starts nor ends with the trimmed character |
| SqlText.TrimKeepsMiddle | modules/users/usersHandlers/usersHandler.go:212 | `strings.Trim` removes only copies of the character at the two ends: the result is a contiguous piece `s[i..j]` with nothing but that character outside it |
| SqlText.PlaceholdersConcat | modules/product/productPattern/updateProduct.go:271-272 | the placeholders of a concatenation are those of the parts in order, when the second part does not start with a digit |
| SqlText.PlaceholderReads | modules/product/productPattern/updateProduct.go:91-92 | the text `$n` reads back as exactly the placeholder n |
| Entities.Wrap64Props | modules/middlewares/middlewareHandler/middlewareHandler.go:152-155 | Go's wrapping `int` result is a 64-bit value congruent to the exact one, and equal to it when that fits |
| Db.Tx.Exec | modules/product/productPattern/updateProduct.go:275-281 | a statement on an active transaction is recorded and applies its effect to the working tables unless the driver fails |
| Db.Tx.Rollback | modules/product/productPattern/updateProduct.go:277 | rollback discards the work and leaves the committed tables alone |
| Db.Tx.Commit | modules/product/productPattern/updateProduct.go:299-304 | a successful commit publishes the work; a failed one leaves the database as it was |
| UpdateProductPattern.UpdateProductBuilder.UpdateColumnQuery | modules/product/productPattern/updateProduct.go:86-154 | a supplied column appends its value and the assignment numbered by the new value count; an unsupplied one changes nothing |
| UpdateProductPattern.UpdateProductBuilder.CloseQuery | modules/product/productPattern/updateProduct.go:267-273 | the id is the last value and `WHERE "id" = $n` uses n = number of values |
| UpdateProductPattern.UpdateProductBuilder.InitTransaction | modules/product/productPattern/updateProduct.go:71-79 | a transaction starts from the committed tables unless begin fails |
| UpdateProductPattern.UpdateProductBuilder.InitQuery | modules/product/productPattern/updateProduct.go:81-84 | appends the `UPDATE "Product" SET` head |
| UpdateProductPattern.UpdateProductBuilder.ExecUpdate | modules/product/productPattern/updateProduct.go:275-281 | sends the built statement; on failure the transaction is rolled back |
| UpdateProductPattern.UpdateProductBuilder.DeleteOldImages | modules/product/productPattern/updateProduct.go:223-265 | deletes the product's image rows; on failure rolls back |
| UpdateProductPattern.UpdateProductBuilder.InsertImages | modules/product/productPattern/updateProduct.go:164-201 | inserts one image row per request image, owned by the product; on failure rolls back |
| UpdateProductPattern.UpdateProductBuilder.ReplaceImages | modules/product/productPattern/updateProduct.go:319-329 | delete then insert; the insert is not sent when the delete fails |
| UpdateProductPattern.UpdateProductBuilder.Commit | modules/product/productPattern/updateProduct.go:299-304 | commits the work, or reports the commit failure without a rollback |
| UpdateProductPattern.UpdateProductEngineer.RunColumnSteps | modules/product/productPattern/updateProduct.go:340-347 | the eight steps bind the values of exactly the supplied columns in step order, assignment k numbered k |
| UpdateProductPattern.UpdateProductEngineer.SumQueryFields | modules/product/productPattern/updateProduct.go:339-360 | the SET list is the assignments joined by "," with no trailing comma |
| UpdateProductPattern.UpdateProductEngineer.BuildStatement | modules/product/productPattern/updateProduct.go:309-311 | from a fresh builder the statement and values are exactly `UpdateSql`/`UpdateArgs` |
| UpdateProductPattern.UpdateProductEngineer.UpdateProduct | modules/product/productPattern/updateProduct.go:306-337 | the ignored begin error leaves a nil transaction, which panics at the first use; otherwise the steps run as in `RunSteps` |
| UpdateProductPattern.UpdateProductEngineer.RunSteps | modules/product/productPattern/updateProduct.go:313-336 | update, then (only with images) delete and insert, then commit: the first failure decides the error and leaves the database unchanged; success commits `UpdatedTables` |
| UpdateProductPattern.Advance | modules/product/productPattern/updateProduct.go:86-161 | one more column step keeps values and assignments equal to those of the supplied prefix of the step list |
| UpdateProductPattern.AdvanceSupplied | modules/product/productPattern/updateProduct.go:88-92 | a supplied column's value lands at position k and its assignment uses `$k` |
| UpdateProductPattern.SuppliedMembers | modules/product/productPattern/updateProduct.go:86-162 | a column is in the supplied list iff it is in the step list and supplied |
| UpdateProductPattern.SetColumnsExact | modules/product/productPattern/updateProduct.go:86-162 | a column is assigned iff supplied: string columns when non-empty, price when non-zero, stock always |
| UpdateProductPattern.StockAlwaysLast | modules/product/productPattern/updateProduct.go:156-162 | the SET list is never empty and ends with the stock; there are at least two values |
| UpdateProductPattern.SuppliedOrdered | modules/product/productPattern/updateProduct.go:340-347 | the assigned columns appear in step order (an order-preserving embedding into title, desc, price, category, sex, size, color, stock), without repeats |
| UpdateProductPattern.UpdateArgsAligned | modules/product/productPattern/updateProduct.go:88-92 | the k-th assignment binds the k-th value; the id is the last value |
| UpdateProductPattern.AssignmentPlaceholders | modules/product/productPattern/updateProduct.go:91-92 | an assignment holds exactly one placeholder, its number, and no comma |
| UpdateProductPattern.SetListPlaceholders | modules/product/productPattern/updateProduct.go:351-358 | the joined SET list reads back as placeholders 1..k |
| UpdateProductPattern.WherePlaceholders | modules/product/productPattern/updateProduct.go:271-272 | the WHERE clause holds exactly the placeholder n |
| UpdateProductPattern.StatementPlaceholders | modules/product/productPattern/updateProduct.go:308-311 | head, SET list and WHERE together read as 1..k+1 |
| UpdateProductPattern.UpdatePlaceholders | modules/product/productPattern/updateProduct.go:306-311 | the UPDATE's placeholders are exactly 1..number of bound values |
| UpdateProductPattern.SetListSplit | modules/product/productPattern/updateProduct.go:351-358 | splitting the SET list on "," gives the assignments back: no empty piece, no trailing comma |
| UpdateProductPattern.UpdateWritesAssigned | modules/product/productPattern/updateProduct.go:86-162 | the UPDATE writes exactly the assigned columns with their values; other columns keep theirs |
| UpdateProductPattern.ImagesReplacedOnlyWhenSent | modules/product/productPattern/updateProduct.go:319-329 | without images the image table is untouched; with images the product's rows become exactly the new ones and other products' rows stay |
| UpdateProductPattern.WithoutProduct | modules/product/productPattern/updateProduct.go:224-226 | the delete keeps exactly the image rows of other products |
| ImageInsert.BuildImagesInsert | modules/product/productPattern/insertProduct.go:94-111 | the loop builds the header plus one tuple per image and binds filename, url, product id per image |
| ImageInsert.ImagesArgs | modules/product/productPattern/insertProduct.go:97-101 | k images bind 3k values |
| ImageInsert.ImagesArgsAt | modules/product/productPattern/insertProduct.go:97-101 | values 3i+1..3i+3 are image i's filename, url and the product id |
| ImageInsert.TuplesShape | modules/product/productPattern/insertProduct.go:103-109 | the tuples are comma-separated and the last ends with ";" |
| ImageInsert.ImagesShape | modules/product/productPattern/insertProduct.go:86-111 | for k ≥ 1 the statement is the header, k tuples joined by ",", and ";" |
| ImageInsert.TupleTextPlaceholders | modules/product/productPattern/insertProduct.go:104-108 | tuple i holds `$3i+1, $3i+2, $3i+3` |
| ImageInsert.TuplesPlaceholders | modules/product/productPattern/insertProduct.go:96-111 | the first m tuples read as placeholders 1..3m |
| ImageInsert.ImagesPlaceholders | modules/product/productPattern/insertProduct.go:86-117 | the image INSERT's placeholders are exactly 1..number of bound values |
| FindProductPattern.FindProductBuilder.constructor | modules/product/productPattern/findProduct.go:39-44 | a new builder has an empty query and values and index 0 |
| FindProductPattern.FindProductBuilder.OpenJsonQuery | modules/product/productPattern/findProduct.go:46-50 | appends the JSON envelope's head |
| FindProductPattern.FindProductBuilder.InitQuery | modules/product/productPattern/findProduct.go:51-78 | appends the SELECT |
| FindProductPattern.FindProductBuilder.CountQuery | modules/product/productPattern/findProduct.go:79-85 | appends the COUNT |
| FindProductPattern.FindProductBuilder.WhereQuery | modules/product/productPattern/findProduct.go:86-123 | appends the filter values and the WHERE text; afterwards the index equals the number of values |
| FindProductPattern.FindProductBuilder.Sort | modules/product/productPattern/findProduct.go:124-150 | overwrites order_by and sort with the normalised column and direction and appends the ORDER BY |
| FindProductPattern.FindProductBuilder.Paginate | modules/product/productPattern/findProduct.go:151-157 | appends offset and limit as `$last+1`, `$last+2`; the index becomes the number of values |
| FindProductPattern.FindProductBuilder.CloseJsonQuery | modules/product/productPattern/findProduct.go:158-161 | appends the envelope's close |
| FindProductPattern.FindProductBuilder.ResetQuery | modules/product/productPattern/findProduct.go:162-166 | empties query and values and zeroes the index |
| FindProductPattern.FindProductBuilder.Result | modules/product/productPattern/findProduct.go:167-185 | a decoded result resets the builder; a query or decode failure returns no products and leaves it as it was |
| FindProductPattern.FindProductBuilder.Count | modules/product/productPattern/findProduct.go:186-197 | a read count resets the builder; a failure returns 0 and leaves it as it was |
| FindProductPattern.FindProductEngineer.FindProduct | modules/product/productPattern/findProduct.go:211-220 | the six steps build `FindSql`/`FindArgs` from a fresh builder, with the request's sort fields normalised |
| FindProductPattern.FindProductEngineer.CountProduct | modules/product/productPattern/findProduct.go:222-226 | count then where: the COUNT statement with the filter values |
| FindProductPattern.WhereInner | modules/product/productPattern/findProduct.go:110-112 | an inner round of the WHERE loop numbers the id condition `$1` |
| FindProductPattern.WhereLast | modules/product/productPattern/findProduct.go:113-116 | the last round (with its second replacement) completes the WHERE text for all four filter combinations |
| FindProductPattern.WhereValuesShape | modules/product/productPattern/findProduct.go:91-108 | an id adds one value (the id); a search adds two equal values `"%" + lower(search) + "%"` |
| FindProductPattern.SearchTextPlaceholders | modules/product/productPattern/findProduct.go:106-116 | the search condition uses two consecutive placeholders and keeps no `?` |
| FindProductPattern.BothFiltersPlaceholders | modules/product/productPattern/findProduct.go:110-116 | with id and search the conditions read `$1, $2, $3` and keep no `?` |
| FindProductPattern.WherePlaceholders | modules/product/productPattern/findProduct.go:86-123 | for all four combinations the WHERE fragment reads as 1..number of values and holds no `?` |
| FindProductPattern.PagePlaceholders | modules/product/productPattern/findProduct.go:155 | the page clause holds exactly `last+1`, `last+2` |
| FindProductPattern.SortSqlPlaceholders | modules/product/productPattern/findProduct.go:147-149 | the ORDER BY text adds no placeholder |
| FindProductPattern.FindPlaceholders | modules/product/productPattern/findProduct.go:211-218 | the data query's placeholders are exactly 1..number of bound values |
| FindProductPattern.CountPlaceholders | modules/product/productPattern/findProduct.go:222-225 | the count query's placeholders are exactly 1..number of bound values |
| FindProductPattern.OrderByCases | modules/product/productPattern/findProduct.go:125-135 | order_by is looked up case-insensitively in id, title, price; anything else gives the title column |
| FindProductPattern.SortDirectionCases | modules/product/productPattern/findProduct.go:137-145 | sort is case-insensitively ASC or DESC, defaulting to ASC; normalising twice changes nothing |
| FindProductPattern.SecondSortSelectsTitle | modules/product/productPattern/findProduct.go:131-135 | a second sort on the same request yields the title column, since the stored column text is not a key |
| FindProductPattern.SortedPage | modules/product/productPattern/findProduct.go:131-153 | sorting does not change page and limit |
| FindProductPattern.OffsetUnclamped | modules/product/productPattern/findProduct.go:151-156 | the offset is `(page-1)*limit` as given; page 0 gives a negative offset |
| InsertProductPattern.InsertProductBuilder.constructor | modules/product/productPattern/insertProduct.go:26-31 | a new builder holds the request and no transaction |
| InsertProductPattern.InsertProductBuilder.InitTransaction | modules/product/productPattern/insertProduct.go:33-41 | a transaction starts from the committed tables unless begin fails |
| InsertProductPattern.InsertProductBuilder.GetProductId | modules/product/productPattern/insertProduct.go:43-45 | returns the request's id |
| InsertProductPattern.InsertProductBuilder.InsertProduct | modules/product/productPattern/insertProduct.go:47-80 | sends the INSERT with the seven values; success stores the generated id in the request, failure rolls back |
| InsertProductPattern.InsertProductBuilder.InsertImages | modules/product/productPattern/insertProduct.go:82-122 | inserts one image row per image under the scanned id; failure rolls back |
| InsertProductPattern.InsertProductBuilder.Commit | modules/product/productPattern/insertProduct.go:124-129 | commits, or reports a commit failure without a rollback |
| InsertProductPattern.InsertProductEngineer.InsertProduct | modules/product/productPattern/insertProduct.go:141-158 | begin, insert, images, commit: the first failure returns `""` and its error and leaves the database unchanged; success returns the generated id and commits the product and its images |
| InsertProductPattern.PlaceholderListReads | modules/product/productPattern/insertProduct.go:62 | the `VALUES` list for n reads as 1..n |
| InsertProductPattern.InsertPlaceholders | modules/product/productPattern/insertProduct.go:51-75 | the product INSERT's placeholders are exactly 1..number of bound values (7) |
| InsertProductPattern.StockNotWritten | modules/product/productPattern/insertProduct.go:51-75 | no integer (the stock) is bound and the new row has no stock |
| InsertProductPattern.InsertedRows | modules/product/productPattern/insertProduct.go:141-157 | a committed insert adds the product row and one image row per image under the new id, and nothing else |
| ProfileUpdate.StackField | modules/users/usersRepositories/usersRepository.go:147-154 | a non-empty field pushes its value and its entry numbered `lastIndex`, then advances; an empty one changes nothing |
| ProfileUpdate.StackFields | modules/users/usersRepositories/usersRepository.go:140-192 | the five blocks stack exactly the supplied fields, numbered from 1, and `lastIndex` ends at values + 1 |
| ProfileUpdate.Advance | modules/users/usersRepositories/usersRepository.go:147-190 | one more block keeps the stack equal to that of the supplied prefix |
| ProfileUpdate.JoinRound | modules/users/usersRepositories/usersRepository.go:197-203 | the `?` becomes "," on every entry but the last and is removed from the last |
| ProfileUpdate.UpdateProfile | modules/users/usersRepositories/usersRepository.go:136-210 | the statement sent is `ProfileSql`/`ProfileValues`; a driver error is wrapped as "update profile user failed: …" |
| ProfileUpdate.SuppliedMembers | modules/users/usersRepositories/usersRepository.go:147-190 | a field is stacked iff it is in the field list and non-empty |
| ProfileUpdate.ProfileFieldsExact | modules/users/usersRepositories/usersRepository.go:147-190 | each of fname, lname, email, phone, avatar is assigned iff non-empty |
| ProfileUpdate.SuppliedOrdered | modules/users/usersRepositories/usersRepository.go:147-190 | the assigned fields appear in the fixed order fname, lname, email, phone, avatar (an order-preserving embedding) |
| ProfileUpdate.DobIgnored | modules/users/usersRepositories/usersRepository.go:147-195 | the date of birth never affects the statement or its values |
| ProfileUpdate.SuppliedSame | modules/users/usersRepositories/usersRepository.go:147-190 | requests with the same field values assign the same fields |
| ProfileUpdate.ProfileValuesAligned | modules/users/usersRepositories/usersRepository.go:142-192 | the k-th assignment uses `$k` and binds the k-th value; the id is the last value |
| ProfileUpdate.SetListPlaceholders | modules/users/usersRepositories/usersRepository.go:197-203 | the joined SET list reads as 1..k and holds no `?` |
| ProfileUpdate.StatementPlaceholders | modules/users/usersRepositories/usersRepository.go:144-204 | head, SET list and WHERE read as 1..k+1 with no `?` |
| ProfileUpdate.ProfilePlaceholders | modules/users/usersRepositories/usersRepository.go:192-204 | the statement's placeholders are exactly 1..number of values, and no `?` remains |
| ProfileUpdate.SetListSplit | modules/users/usersRepositories/usersRepository.go:197-203 | with at least one field, splitting on "," gives the assignments back: no stray comma |
| ProfileUpdate.EmptyUpdateDefect | modules/users/usersRepositories/usersRepository.go:144-145 | with no field supplied the SET clause is empty, WHERE uses `$1` and the id is the only value |
| Users.IsEmailCorrect | modules/users/users.go:65-71 | the automaton accepts exactly the addresses of the label specification `EmailSpec`: one local part over `[\w-.]`, one "@", at least two non-empty labels over `[\w-]`, the last of 2 to 4 characters |
| Users.RunExpected | modules/users/users.go:66 | after any prefix the automaton is in the state the prefix's pieces describe |
| Users.DomainStep | modules/users/users.go:66 | reading one more domain character moves between label states as the pattern `([\w-]+\.)+[\w-]{2,4}` does |
| Users.LabelsAccepting | modules/users/users.go:66 | the end is accepted after a domain exactly when it has at least two non-empty labels and a final label of 2 to 4 characters |
| Users.AcceptedShape | modules/users/users.go:66 | an accepted address has exactly one "@", a valid local part and a valid domain |
| Users.AcceptedFromParts | modules/users/users.go:66 | every local part joined by "@" to valid labels joined by "." is accepted |
| Users.SpecAccepted | modules/users/users.go:66-70 | every address `EmailSpec` admits is accepted |
| UsersPattern.InsertArgs | modules/users/usersPattern/insertUser.go:74-81 | exactly five values are bound |
| UsersPattern.DobNotBound | modules/users/usersPattern/insertUser.go:74-81 | the date of birth reaches neither the bound values nor the new row |
| UsersPattern.ClassifyInsertErrorCases | modules/users/usersPattern/insertUser.go:82-89 | a duplicate e-mail and a duplicate phone are named; every other driver error is wrapped, and never reads as either name |
| UsersPattern.DuplicatesDiffer | modules/users/usersPattern/insertUser.go:83-86 | the two constraint texts differ, so the two cases cannot overlap |
| UsersPattern.UserReq.Insert | modules/users/usersPattern/insertUser.go:58-128 | on a scanned id the row with the role is added and the id kept; on an error nothing changes and the error is classified |
| UsersPattern.UserReq.Customer | modules/users/usersPattern/insertUser.go:58-92 | the customer insert writes `role_id` 1 |
| UsersPattern.UserReq.Admin | modules/users/usersPattern/insertUser.go:94-128 | the admin insert writes `role_id` 2 |
| UsersPattern.UserReq.Result | modules/users/usersPattern/insertUser.go:130-147 | reads back the row with the scanned id, with avatar and dob empty because the `SELECT` lists only id, email, fname, lname, phone and role_id; a missing row or driver error is wrapped as "get user failed: …" |
| UsersPattern.KindFor | modules/users/usersPattern/insertUser.go:32-37 | the admin path is chosen iff `isAdmin` |
| UsersPattern.InsertUser | modules/users/usersRepositories/usersRepository.go:38-59 | the route picks the admin or customer insert, then the row is read back; errors stop it and leave the users table unchanged |
| UsersPattern.InsertSqlRoles | modules/users/usersPattern/insertUser.go:71-107 | the two statements differ only in the role literal |
| Middlewares.JwtAuth | modules/middlewares/middlewareHandler/middlewareHandler.go:80-107 | the request passes iff the stripped token parses and is stored for its user; then the user id and role are set, otherwise 401 |
| Middlewares.StripBearerPrefixed | modules/middlewares/middlewareHandler/middlewareHandler.go:82 | `"Bearer " + t` gives t |
| Middlewares.StripBearerOnce | modules/middlewares/middlewareHandler/middlewareHandler.go:82 | only one prefix is removed |
| Middlewares.StripBearerUnprefixed | modules/middlewares/middlewareHandler/middlewareHandler.go:82 | a header without the prefix is the token as it is |
| Middlewares.ParamsCheck | modules/middlewares/middlewareHandler/middlewareHandler.go:111-128 | the answer is to go on, a panic, or 401 "no permission to access"; it panics exactly when the role local is not an int |
| Middlewares.ParamsCheckRule | modules/middlewares/middlewareHandler/middlewareHandler.go:115-125 | role 2 always passes; any other role passes iff the path `user_id` is the caller's id |
| Middlewares.ParamsCheckOthers | modules/middlewares/middlewareHandler/middlewareHandler.go:118-124 | a non-admin touching another user's id gets 401 |
| Middlewares.Authorize | modules/middlewares/middlewareHandler/middlewareHandler.go:131-181 | the summing loop and the bit-scanning loop compute the decision: pass iff some bit below the role count is set in both the user's role and the wrapped sum of the expected roles |
| Middlewares.BinaryConverter | modules/middlewares/middlewareHandler/middlewareHandler.go:157-158 | n entries, entry i being bit i of the value |
| Middlewares.Bit | modules/middlewares/middlewareHandler/middlewareHandler.go:170 | a bit is 0 or 1 |
| Middlewares.Wrap64Add | modules/middlewares/middlewareHandler/middlewareHandler.go:152-155 | summing with wrapping at every step equals wrapping the exact sum |
| Middlewares.CustomerRefusedByAdminRoute | modules/middlewares/middlewareHandler/middlewareHandler.go:164-179 | a customer (1) is refused by `Authorize(2)` with 401 "no permission to access" |
| Middlewares.AdminRefusedByCustomerRoute | modules/middlewares/middlewareHandler/middlewareHandler.go:164-179 | an admin (2) is refused by `Authorize(1)` with 401 |
| Middlewares.BothRolesAccepted | modules/middlewares/middlewareHandler/middlewareHandler.go:160-162 | `Authorize(1, 2)` lets both roles through; each role passes its own route |
| Middlewares.AuthorizeErrorsFirst | modules/middlewares/middlewareHandler/middlewareHandler.go:133-150 | a non-int role gives 401 and a role-lookup error gives 500, before any bit check |
| Uploads.ExtShape | modules/files/filesHandler/filesHandler.go:65 | a non-empty `filepath.Ext` is a "." followed by a suffix of the name without "." or "/" |
| Uploads.FileExtensionShape | modules/files/filesHandler/filesHandler.go:65 | the compared extension has no "." or "/", and the name ends with "." and it |
| Uploads.ExtOfName | modules/files/filesHandler/filesHandler.go:65 | the extension of `base.e` is e |
| Uploads.NoDotNoExtension | modules/files/filesHandler/filesHandler.go:65 | a name without "." has an empty extension |
| Uploads.ExtAllowList | modules/files/filesHandler/filesHandler.go:57-72 | an extension passes iff it is exactly png, jpg or jpeg |
| Uploads.LimitMb | modules/files/filesHandler/filesHandler.go:78 | the message's MB figure is the limit in MiB rounded up |
| Uploads.CheckFileAccepts | modules/files/filesHandler/filesHandler.go:63-80 | a file passes iff its extension is allowed and its size is at most the limit; the extension is checked first |
| Uploads.Validate | modules/files/filesHandler/filesHandler.go:63-89 | all files pass iff every file passes |
| Uploads.ValidateFirst | modules/files/filesHandler/filesHandler.go:63-80 | the first rejected file decides the answer |
| Uploads.BuildRequests | modules/files/filesHandler/filesHandler.go:63-89 | the loop returns the first rejection, or one request per file in input order |
| Uploads.PlannedRequests | modules/files/filesHandler/filesHandler.go:82-88 | request i is file i under `folder/name` with the i-th drawn name |
| Uploads.UploadFiles | modules/files/filesHandler/filesHandler.go:41-101 | an upload happens iff every file passes; the requests are exactly `PlannedRequests` of the files under the "destination" folder (file i saved as folder/name with its extension); a failed upload answers 500; 201 with the results iff the upload succeeds |
| Uploads.UploadFilesFirstRejected | modules/files/filesHandler/filesHandler.go:63-80 | the first invalid file aborts with 400 and its message, before any upload |
| Uploads.SizeAtLimitPasses | modules/files/filesHandler/filesHandler.go:74 | a file exactly at the limit passes |
| Uploads.ExtensionRules | modules/files/filesHandler/filesHandler.go:57-72 | a name without "." and an upper-case `.PNG` are rejected; `.png` passes |
| ProductHandler.Require | modules/product/productHandler/productHandler.go:82-89 | a field is given iff present with a non-empty first value; present with no value panics on `[0]` |
| ProductHandler.CheckRequired | modules/product/productHandler/productHandler.go:82-147 | all fields pass iff each is given |
| ProductHandler.CheckRequiredFirst | modules/product/productHandler/productHandler.go:82-147 | the first field not given decides: "<field> is required", or a panic |
| ProductHandler.AddProductUploadsOnlyValid | modules/product/productHandler/productHandler.go:82-258 | images are uploaded iff every check passes, one request per image under "[title]/name"; the product is handed on iff the upload succeeds, carrying the form's fields and the upload results; a failed upload answers 500, a usecase error 400, and 201 iff the usecase succeeds |
| ProductHandler.AddProductFirstMissing | modules/product/productHandler/productHandler.go:82-147 | the first absent or empty field of title, desc, price, color, size, sex, category, stock is reported as "<field> is required" |
| ProductHandler.AddProductStockZero | modules/product/productHandler/productHandler.go:149-164 | stock 0 is accepted |
| ProductHandler.AddProductImagesRequired | modules/product/productHandler/productHandler.go:166-173 | without images the answer is "images is required" and nothing is uploaded |
| ProductHandler.UpdateProductHanded | modules/product/productHandler/productHandler.go:306-457 | a product is handed on iff id, price and stock are accepted and the images (if any) all pass and upload with a result per file; it carries the id, each optional field's first value or "", the parsed price and stock, and exactly the copied upload results (none without an "images" part) |
| ProductHandler.UpdateImagesHanded | modules/product/productHandler/productHandler.go:390-457 | the images stage uploads iff there is an "images" part whose every file passes, hands on iff there is none or the upload gave a result per file, and the product's images are the copied results |
| ProductHandler.UpdateProductNoImages | modules/product/productHandler/productHandler.go:390-391 | without an "images" part nothing is uploaded and the product has no images |
| ProductHandler.UpdateProductDefaults | modules/product/productHandler/productHandler.go:314-328 | an absent price reads as "0", an absent optional field as "" |
| ProductHandler.UpdateProductRequiresId | modules/product/productHandler/productHandler.go:306-313 | a missing id is refused first, with AddProduct's error code |
| ProductHandler.UpdateProductUploads | modules/product/productHandler/productHandler.go:306-430 | an upload happens iff id, price and stock are accepted and every image of the "images" part passes; then one request per image under "[id]/name" |
| UsersHandler.SignUp | modules/users/usersHandlers/usersHandler.go:69-165 | the insert is tried iff the body parses and the e-mail is accepted; duplicate e-mail or phone give 400, other errors 500 with code users-001 |
| UsersHandler.SignUpInvalidEmail | modules/users/usersHandlers/usersHandler.go:81-87 | an address the recogniser rejects gives 400 "email is invalid" and no insert |
| UsersHandler.SignUpDriverError | modules/users/usersHandlers/usersHandler.go:92-112 | for a classified driver error the answer is 400 exactly for a duplicate key, else 500 |
| UsersHandler.GetUserProfile | modules/users/usersHandlers/usersHandler.go:211-235 | 200 when found; otherwise 400 only for the exact no-rows message, else 500 |
| UsersHandler.GetUserProfileNoRows | modules/users/usersHandlers/usersHandler.go:216-229 | a wrapped driver error gives 400 iff the driver found no row |
| UsersHandler.UpdateUserProfile | modules/users/usersHandlers/usersHandler.go:237-345 | an avatar upload happens iff exactly one avatar passes the checks; the avatar is the first result's URL, or "" without an avatar |
| UsersHandler.UpdateUserProfileNoAvatar | modules/users/usersHandlers/usersHandler.go:271-272 | without an "avatar" part nothing is uploaded and the avatar is not assigned |
| UsersHandler.UpdateUserProfileFields | modules/users/usersHandlers/usersHandler.go:250-268 | a text field is assigned iff its first form value is non-empty; an absent field is skipped |
| UsersHandler.AvatarMustBeOne | modules/users/usersHandlers/usersHandler.go:275-281 | more than one avatar file is refused |
| UsersHandler.AvatarRules | modules/users/usersHandlers/usersHandler.go:284-306 | a single avatar is uploaded iff its extension is png, jpg or jpeg and its size is at most the limit |
| UsersHandler.AvatarUrlFromUpload | modules/users/usersHandlers/usersHandler.go:308-325 | an accepted avatar goes under the user's folder and its URL is the first result's |
| Orders.AddOrderReq.Args | modules/order/orderRepository/orderRepository.go:51 | six values: user id, total, status, products, address, payment |
| Orders.CartsOf | modules/order/orderRepository/orderRepository.go:57-60 | the selected cart rows all belong to the user |
| Orders.WithoutCartsOf | modules/order/orderRepository/orderRepository.go:57-60 | no row of the user remains after the delete |
| Orders.DeleteCartKeeps | modules/order/orderRepository/orderRepository.go:57-60 | every other user's cart rows are unchanged by the delete |
| Orders.DeleteCartExact | modules/order/orderRepository/orderRepository.go:57-65 | the delete removes exactly the user's rows |
| Orders.OrderPlacedEffect | modules/order/orderRepository/orderRepository.go:36-65 | placing an order adds exactly one order row, empties the user's cart, and changes no other cart or table |
| Orders.OrderRepository.AddOrder | modules/order/orderRepository/orderRepository.go:27-71 | insert, delete, commit: an insert or delete failure rolls back and returns `""` plus the error; commit failure returns `""`; success returns the generated id with the order placed |
| Orders.OrderUsecase.AddOrder | modules/order/orderUsecase/orderUsecase.go:31-55 | a cart error is passed on and an empty cart refused, with nothing changed; otherwise the status is "pending", the products are the cart, and the result is the repository's; a placed order is stored under the returned id as pending with the cart's items, whatever status the request carried |

## Left out

- The upload and delete worker pools (`filesUsecase`): goroutines, channels and the storage SDK. The upload is a parameter that returns results or an error.
- JWT signing and parsing, and bcrypt hashing: these are opaque crypto. `JwtAuth` takes the parser and the stored-token lookup as parameters.
- `strconv.ParseFloat` and `strconv.Atoi` are parameters returning a value or a failure. Prices are `real`, so float64 rounding and NaN are not modelled.
- `ToLower` and `ToUpper`: only ASCII case mapping is modelled. Go maps all of Unicode.
- `utils.RandFileName` is a parameter that draws the i-th name for an extension. `utils.Debug`, the `fmt.Print` calls and logging are left out.
- `utils.BinaryConverter` is not shown. `Middlewares.BinaryConverter` assumes that entry i is bit i of the value, for i below the number of roles.
- The meaning of the SQL text is left out: the JSON aggregation and the decoding of results. A query's answer is an input.
- Uploads.LimitMb: the float `math.Ceil` of the size message is exact only while the limit stays below 2^53.
- The nil-pointer cases are modelled as panics. These are a nil transaction after an ignored begin error, `[0]` on an empty value list, and fewer upload results than files. The panic message is not modelled.
- The `context.WithTimeout` deadlines of the repositories and builders (insertUser.go, usersRepository.go, orderRepository.go, insertProduct.go; findProduct.go creates one and discards it) are not modelled as clocks. A query that runs past its deadline surfaces as one of the driver failures, which are inputs.
- `multipart.FileHeader` is reduced to its file name and size.
- The user's cart (`GetCart`) is an input to the order usecase. The ids the database generates and the driver's failures are inputs too.
- `GetOrderByUserId`, `GetOneOrderById` and the other single-statement repository functions are left out. So are `getOldImages`, which the update no longer calls, and the pass-through usecases.
- The usecase `FindProduct` that productHandler.go:288 calls is not defined in productUsecase.go, so it is not part of this model; the search is modelled from the repository down.
- Routing, CORS, the response envelope, configuration, the database connection and `main` are left out.
- The struct-only files are transcribed as datatypes in `Entities`, with no properties.
