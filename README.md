# Product API request-decision layer in Dafny

This project models the decision logic of a small Express + Mongoose product API:

- the two body validators that stand in front of create and update;
- the API-key gate;
- the way the list handler builds its filter, pages and counts;
- how the five handlers turn storage results into status codes and response envelopes;
- the product schema that storage enforces.

The surrounding framework is abstracted away.

Modules, one per part of the program:

- `Wrappers`: `Option` and `Result`.
- `JsValues`: the JavaScript values a JSON body field can hold (`undefined`, `null`, booleans, numbers, strings, anything else). It defines JavaScript truthiness and `String.prototype.trim`, using the ECMAScript white-space and line-terminator set.
- `Validation` models `validateProductCreation` and `validateProductUpdate`:
  - Each is an imperative method that pushes messages onto a local `errors` sequence, as the middleware does.
  - Each is proved equal to a pure verdict function built from five aligned per-field checks.
  - Lemmas about those functions cover field order, the per-field conditions and when a request proceeds.
  - A truthy non-string `name`, `description` or `category` reaches `.trim()` in the create validator and throws. The model keeps that case as an explicit `Throws` verdict.
- `Auth`: the credential selection and the Missing (401) / Invalid (403) / Proceed decision.
- `Schema`: the product document, its validity predicate (required fields, `price >= 0`, an `inStock` default of `true`), how a body becomes a document on create, and how an update body is merged into a stored document.
- `Store`: the storage collaborator, as class `ProductStore` with these fields:
  - `docs`: a map from id to record;
  - `clock`: a stamp that advances on every successful create and update, and stays put on delete, on a schema failure and on an update of an unknown id; it supplies new ids and the `createdAt`/`updatedAt` values.

  Its six methods are the six storage calls the controller makes: `find`, `countDocuments`, `findById`, `create`, `findByIdAndUpdate` and `findByIdAndDelete`. Case-insensitive pattern matching is modelled as case-insensitive substring. The newest-first listing is a recursive function, proved sound and complete with respect to the filter.
- `Controller`: the five handlers as methods over a `ProductStore`, with a storage fault as a parameter. Also the filter construction, `skip` and `totalPages` arithmetic.
- `Agreement`: how the create and update validators relate to the schema.
- `Routes`: the middleware chain for each route, and serving one request through it.

`routes/productRoutes.js:16` registers PUT without `authMiddleware`, but `server.js:28` mounts the gate in front of the whole router. So PUT is gated once and the other four routes twice; `Routes.GateOnEveryRoute` states this.

## Model

| member | source | states |
|---|---|---|
| JsValues.TrimStartShape | middleware/validationMiddleware.js:9 | trimming the start leaves a suffix of the input that does not begin with white space, and what was removed is all white space |
| JsValues.TrimEndShape | middleware/validationMiddleware.js:9 | trimming the end leaves a prefix that does not end with white space, and what was removed is all white space |
| JsValues.TrimEmptyIffBlank | middleware/validationMiddleware.js:9 | `s.trim() === ''` holds exactly when every character of `s` is white space |
| JsValues.TrimIsInnerSlice | middleware/validationMiddleware.js:9 | the trimmed string is a contiguous slice of the input with only white space on either side |
| Validation.ReportsOfFive | middleware/validationMiddleware.js:6-31 | the messages of five checks are the concatenation of each check's message, in order |
| Validation.ValidateProductCreation | middleware/validationMiddleware.js:4-43 | the imperative validator, which pushes one message per failing field and then branches on the length, returns exactly the creation verdict |
| Validation.ValidateProductUpdate | middleware/validationMiddleware.js:46-94 | the imperative update validator, with its early return and its per-field pushes, returns exactly the update verdict |
| Validation.ReportsSortedByField | middleware/validationMiddleware.js:9-31 | checks aligned to consecutive fields produce at most one message per check, each belonging to its field, with field indices strictly increasing |
| Validation.ReportsMembership | middleware/validationMiddleware.js:9-31 | a message is reported exactly when some check failed with it |
| Validation.CreationChecksAligned | middleware/validationMiddleware.js:9-31 | the create checks are name, description, price, category, inStock, each able to fail only with its own field's message |
| Validation.UpdateChecksAligned | middleware/validationMiddleware.js:58-82 | the update checks follow the same field order and use only their own field's message |
| Validation.CreationErrorsInFieldOrder | middleware/validationMiddleware.js:9-31 | create errors come in field order with at most one per field, so there are never more than five |
| Validation.UpdateErrorsInFieldOrder | middleware/validationMiddleware.js:58-82 | update errors come in field order with at most one per field, so there are never more than five |
| Validation.AlignedMembership | middleware/validationMiddleware.js:9-31 | for aligned checks, a field's message is present exactly when that field's check failed |
| Validation.ReportsEmptyIff | middleware/validationMiddleware.js:34 | the error list is empty exactly when no check failed |
| Validation.RequiredTextMeaning | middleware/validationMiddleware.js:9-11 | a required text field fails when it is falsy or a white-space-only string, passes when it is a non-blank string, and throws when it is truthy but not a string |
| Validation.OptionalTextMeaning | middleware/validationMiddleware.js:58-60 | an optional text field fails when it is present and not a non-blank string, and passes otherwise |
| Validation.CreationTextMessages | middleware/validationMiddleware.js:9-25 | 'Name/Description/Category is required' appears exactly when that field is falsy or a white-space-only string |
| Validation.CreationPriceMessages | middleware/validationMiddleware.js:17-21 | 'Price is required' appears exactly when price is undefined or null; 'Price must be a positive number' appears exactly when price is present and not a non-negative number; 0 is accepted |
| Validation.CreationInStockMessages | middleware/validationMiddleware.js:27-31 | 'inStock is required' appears exactly when inStock is undefined or null; the boolean message appears exactly when it is present and not a boolean |
| Validation.CreationThrowsIff | middleware/validationMiddleware.js:9-25 | create throws exactly when name, description or category is truthy but not a string |
| Validation.CreationProceedsIffAllPass | middleware/validationMiddleware.js:34-42 | create proceeds exactly when all five checks pass |
| Validation.CreationProceedsIffValid | middleware/validationMiddleware.js:34-42 | create proceeds exactly when the three text fields are non-blank strings, price is a non-negative number and inStock is a boolean; it throws the `trim()` TypeError when a text field is truthy but not a string (see `Validation.CreationThrowsIff`); every 400 it gives is 'Validation failed' with the non-empty error list |
| Validation.UpdateEarlyExitIff | middleware/validationMiddleware.js:51-55 | update answers 'At least one field must be provided for update', with no error list, exactly when the text fields are falsy and price and inStock are undefined |
| Validation.EmptyNameOnlyIsNothing | middleware/validationMiddleware.js:51-55 | a body holding only `name: ''` takes the early-exit branch |
| Validation.UpdateFieldMessages | middleware/validationMiddleware.js:58-82 | each update message appears exactly when its field is present and fails its type or non-empty check |
| Validation.UpdateSkipsUndefined | middleware/validationMiddleware.js:58-82 | no update error is about an undefined field |
| Validation.UpdateProceedsIff | middleware/validationMiddleware.js:85-93 | update proceeds exactly when some field is provided and every present field is well-typed and non-blank; the update validator never throws |
| Validation.NegativePriceOnlyUpdate | middleware/validationMiddleware.js:68-90 | a body with only a negative price is rejected with exactly the price message |
| Auth.Authenticate | middleware/authMiddleware.js:4-19 | Missing exactly when neither header is truthy; Proceed exactly when the selected credential (`x-api-key` if truthy, else `authorization`) is strictly equal to the configured key; Invalid otherwise |
| Auth.GateReplyForHeaders | middleware/authMiddleware.js:6-18 | the gate answers 401 'API key is missing' exactly when neither header is truthy, 403 'Invalid API key' exactly when the selected credential differs from the configured key, and calls `next()` exactly when it equals it |
| Auth.UnconfiguredKeyNeverProceeds | middleware/authMiddleware.js:7-17 | with no configured key nothing proceeds, and every request with a credential gets Invalid |
| Auth.EmptyKeyHeaderFallsThrough | middleware/authMiddleware.js:6 | an empty `x-api-key` decides exactly like an absent one |
| Auth.KeyHeaderTakesPrecedence | middleware/authMiddleware.js:6 | a truthy `x-api-key` decides alone, whatever `authorization` holds, and is never Missing |
| Auth.MissingIgnoresSecret | middleware/authMiddleware.js:10-12 | whether a request is Missing does not depend on the configured key |
| Auth.ConfiguredKeyProceeds | middleware/authMiddleware.js:6-18 | the configured key proceeds through either header, including after an empty `x-api-key` |
| Schema.FromBody | models/Product.js:4-10 | a created document is valid; creation succeeds exactly when the text fields are non-empty strings, price is a number of at least 0 and inStock is a boolean or absent; the document carries the body's values, with inStock defaulting to true; a failure lists at least one field error |
| Schema.UpdateFromBody | models/Product.js:4-9 | an update body is accepted exactly when each present text field is a non-empty string, a present price is a number of at least 0 and a present inStock is a boolean; a field is set exactly when it is present in the body |
| Schema.UpdateSetsOnlyGivenFields | controllers/productController.js:94-97 | after an accepted update, every field absent from the request body keeps its stored value and every field present takes the body's value |
| Schema.MergeKeepsValid | models/Product.js:4-9 | merging an accepted update into a valid document gives a valid document |
| Schema.DefaultOnlyWhenAbsent | models/Product.js:9 | a created document has inStock true exactly when the body omitted it or sent true |
| Store.Fold | controllers/productController.js:16-21 | case folding keeps the length and lower-cases every character |
| Store.ContainsIgnoreCaseIff | controllers/productController.js:16-21 | the case-insensitive match holds exactly when the pattern occurs, ignoring case, at some position of the stored value |
| Store.FoldElectronics | controllers/productController.js:16 | "electronics" and "Electronics" fold to the same text |
| Store.CategoryPatternIsSubstring | controllers/productController.js:16 | the category pattern "Electronics" matches "consumer electronics" |
| Store.CategoryPatternIgnoresCase | controllers/productController.js:16 | the category pattern "Electronics" matches "electronics" |
| Store.NewestFirstSound | controllers/productController.js:28-31 | every listed record is stored and matches the filter, and listed ids (creation stamps) strictly decrease |
| Store.NewestFirstComplete | controllers/productController.js:28-31 | every stored matching record is listed, and the listing is exactly as long as the set of matches |
| Store.Page | controllers/productController.js:29-30 | the page drops `skip` records and keeps at most `limit`, in order |
| Store.ProductStore.constructor | models/Product.js:10 | a new store is empty and its stamp starts at 0 |
| Store.ProductStore.Find | controllers/productController.js:28-31 | a negative skip is rejected; otherwise the result is the page of the newest-first matching listing |
| Store.ProductStore.CountDocuments | controllers/productController.js:34 | the count is the number of stored records matching the filter, which equals the listing's length |
| Store.ProductStore.FindById | controllers/productController.js:51 | the record stored under the id, or nothing |
| Store.ProductStore.Create | controllers/productController.js:72-78 | a schema failure changes nothing; success stores a valid record under a fresh id with both timestamps set to the stamp, and advances the stamp |
| Store.ProductStore.FindByIdAndUpdate | controllers/productController.js:94-97 | an invalid update changes nothing; an unknown id gives no record and changes nothing; otherwise the stored record becomes the merge, with createdAt kept and updatedAt restamped, and that post-update record is returned |
| Store.ProductStore.FindByIdAndDelete | controllers/productController.js:119 | the record's last state is returned if it existed, and exactly that id is removed |
| Controller.CreateGetDeleteGet | controllers/productController.js:49-136 | creating a valid product answers 201 with the new record; reading it by id then answers 200 with that record; deleting it answers 200 with that record; reading again answers 404; and the collection ends exactly as it began |
| Controller.FilterMeaning | controllers/productController.js:12-22 | a record matches the built filter exactly when category constrains it only if given and name only if search is given; no parameters match everything |
| Controller.Skip | controllers/productController.js:25 | page 1 skips 0, page 2 skips `limit`, and the skip is negative exactly when the page is below 1 |
| Controller.TotalPages | controllers/productController.js:40 | the page count is the ceiling of total over limit |
| Controller.GetAllProducts | controllers/productController.js:4-46 | a fault or a negative skip gives 500 with the message; otherwise 200 with count equal to the page's length, total equal to all matches, the current page, the ceiling page count and the newest-first matching page |
| Controller.GetProductById | controllers/productController.js:49-65 | 200 with the record exactly when there is no fault, the id is well formed and it is stored; every other case is the same 404 'Product not found' |
| Controller.CreateProduct | controllers/productController.js:68-89 | a fault or a schema failure gives 400 and leaves the store unchanged; success gives 201 'Product created successfully' with the stored record |
| Controller.UpdateProduct | controllers/productController.js:92-114 | a malformed id, a fault or a schema failure gives 400; an unknown id gives 404 and leaves the store unchanged; success gives 200 with the post-update record |
| Controller.DeleteProduct | controllers/productController.js:117-136 | a malformed id or a fault gives 500; an unknown id gives 404; success removes exactly that record and returns its last state with 200 |
| Agreement.NonBlankIsNonEmpty | middleware/validationMiddleware.js:9 | a string that is not all white space is not empty |
| Agreement.ValidatedCreationFitsSchema | models/Product.js:5-9 | a body the create validator accepts is accepted by the schema as exactly its own field values, with inStock given explicitly, so the schema default is never used on that path |
| Agreement.ValidatedUpdateCasts | models/Product.js:5-9 | a body the update validator accepts always passes the schema's update validators |
| Agreement.SchemaAcceptsBlankName | models/Product.js:5 | a white-space-only name passes the schema yet the create validator rejects it, so the validator is stricter than the schema |
| Routes.GateOnEveryRoute | server.js:28 | every mounted route begins with the API-key gate; the update route runs it once and the others twice |
| Routes.FromVerdict | middleware/validationMiddleware.js:34-54 | a validator lets a request through exactly when it says Proceed, and escapes exactly when it throws |
| Routes.GateTwiceIsGateOnce | routes/productRoutes.js:12-17 | running the gate twice in a row decides exactly as running it once |
| Routes.AdmittedMeansAuthenticated | server.js:28 | a request reaches any handler only with the configured key, and a create or update request only with a body its validator accepts; a missing credential gives 401 and an invalid one 403 on every route |
| Routes.ScreenAfterGate | middleware/validationMiddleware.js:34-55 | past the gate, list, get and delete reach their handler; create answers 400 'Validation failed' with its error list, or escapes with the TypeError, unless the body is valid; update answers its single no-field message or 400 'Validation failed' with its error list, unless the body is valid |
| Routes.Serve | routes/productRoutes.js:12-17 | a request that a stage answers or throws on gets that answer or error and leaves the store untouched; an admitted request gets its handler's answer and store change on every route; on create a validated body is always stored with 201 when there is no fault, and on update a validated body is never refused by the schema |

## Left out

- I/O, `async`/`await`, `res.status().json()` as side effects, and concurrency between requests. Only the returned decision or envelope is modelled.
- The database, the environment and the clock are not modelled. These become parameters instead: a storage fault, the configured API key, and the store's own creation stamp.
- `parseInt` on `page` and `limit`, NaN and Infinity are not modelled. Page and limit are integers, and the list route requires `limit > 0`. This excludes `limit = 0`, which makes the page count infinite. It also excludes a negative limit such as `?limit=-5`, which the source passes on to `.limit()` and `Math.ceil(total / limit)`; the driver's treatment of a negative limit and the resulting negative page count are not modelled.
- JavaScript regular expressions are not modelled. Patterns are case-insensitive substrings, and case folding is ASCII only.
- Mongoose type casting is not modelled: a number given for a string field, or `"true"` for a boolean, is not coerced. The schema accepts only values already of the declared type.
- The real text of driver and Mongoose error messages is not modelled. A schema failure's message is built from the names of the failing fields, and the three field-specific TypeError texts of the create validator are one constant.
- ObjectId casting is not modelled. An id parameter is either well formed (a natural number) or malformed.
- Controller.GetAllProducts: a negative skip is modelled as the driver rejecting the query, so it gives 500. The model does not decide what the real driver does with each negative value.
- Store.ProductStore.Create: ids are drawn from the creation stamp, so newest-first by createdAt is descending id. The model does not capture generated ObjectIds or equal timestamps.
- Routes.Serve: a TypeError thrown by the create validator is handed on as `Forwarded`. The error-handling middleware that would answer it is not part of this model.
- The logger middleware, `connectDB`, dotenv and `app.listen` are not modelled.
- The in-memory sample array and the duplicate demo routes in `server.js` are not modelled: the router mounted at `server.js:28` answers `/api/products` first.
