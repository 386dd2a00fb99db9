/**
 * The five product handlers: list with filter and pagination, get by id, create,
 * update and delete. Each maps the store's answer, or the fault the driver raises,
 * to a status code and a JSON envelope.
 */
module Controller {
  import opened Wrappers
  import opened JsValues
  import opened Schema
  import opened Store

  // ---------------------------------------------------------------- responses

  /** The JSON bodies the handlers and middleware send; `products` is the list response's `data` field. */
  datatype Envelope =
    | ListBody(count: nat, total: nat, currentPage: int, totalPages: nat, products: seq<Record>)
    | DataBody(data: Record)
    | MessageData(message: string, data: Record)
    | MessageBody(message: string)
    | ErrorsBody(message: string, errors: seq<string>)

  datatype Response = Response(status: int, body: Envelope)

  const NotFound := "Product not found"
  const Created := "Product created successfully"
  const Updated := "Product updated successfully"
  const Deleted := "Product deleted successfully"

  /** The `:id` route parameter: either a well-formed object id or text that cannot be cast to one. */
  datatype IdParam = WellFormed(id: nat) | Malformed(raw: string)

  /** The message of the cast error the driver raises for a malformed id. */
  function CastIdMessage(raw: string): string
  {
    "Cast to ObjectId failed for value \"" + raw + "\""
  }

  function JoinPaths(errors: seq<FieldError>): string
  {
    if errors == [] then ""
    else errors[0].path + (if |errors| > 1 then ", " else "") + JoinPaths(errors[1..])
  }

  /** The message of the validation error the driver raises for a schema violation. */
  function Describe(errors: seq<FieldError>): string
  {
    "Product validation failed: " + JoinPaths(errors)
  }

  // ---------------------------------------------------------------- list

  /** The query string of a list request; `None` is an absent parameter. `page` and `limit` are already integers. */
  datatype ListQuery = ListQuery(category: Option<string>, search: Option<string>, page: Option<int>, limit: Option<int>)

  /** A truthy query parameter: present and not the empty string. */
  predicate Given(p: Option<string>)
  {
    p.Some? && p.value != ""
  }

  /** `page = 1` and `limit = 10` when absent. */
  function PageOf(q: ListQuery): int
  {
    if q.page.Some? then q.page.value else 1
  }

  function LimitOf(q: ListQuery): int
  {
    if q.limit.Some? then q.limit.value else 10
  }

  /** The filter object: a case-insensitive category pattern and a case-insensitive name pattern, each only when given. */
  function BuildFilter(q: ListQuery): Filter
  {
    Filter(if Given(q.category) then q.category else None, if Given(q.search) then q.search else None)
  }

  /** A record matches the built filter exactly when each given parameter occurs, ignoring case, in its field; both must hold when both are given. */
  lemma FilterMeaning(q: ListQuery, p: Product)
    ensures Matches(BuildFilter(q), p) <==>
      && (Given(q.category) ==> exists i :: OccursAt(p.category, q.category.value, i))
      && (Given(q.search) ==> exists i :: OccursAt(p.name, q.search.value, i))
    ensures !Given(q.category) && !Given(q.search) ==> Matches(BuildFilter(q), p)
  {
    if Given(q.category) { ContainsIgnoreCaseIff(p.category, q.category.value); }
    if Given(q.search) { ContainsIgnoreCaseIff(p.name, q.search.value); }
  }

  /** `skip = (page - 1) * limit`, with no clamping of the page. */
  function Skip(page: int, limit: int): (r: int)
    ensures page == 1 ==> r == 0
    ensures limit > 0 ==> (r < 0 <==> page < 1)
    ensures page == 2 ==> r == limit
  {
    (page - 1) * limit
  }

  /** `Math.ceil(total / limit)`: the fewest pages of `limit` records that hold `total` records. */
  function TotalPages(total: nat, limit: int): (r: nat)
    requires limit > 0
    ensures (r - 1) * limit < total <= r * limit
  {
    var r := (total + limit - 1) / limit;
    assert total + limit - 1 == r * limit + (total + limit - 1) % limit;
    r
  }

  /**
   * `getAllProducts`: the page of matching records, newest first, with the count on the page, the
   * number of all matches and the page count; 500 when the driver fails, including for a negative skip.
   */
  method GetAllProducts(store: ProductStore, q: ListQuery, fault: Option<string>) returns (resp: Response)
    requires store.Valid() && LimitOf(q) > 0
    ensures fault.Some? ==> resp == Response(500, MessageBody(fault.value))
    ensures fault.None? && Skip(PageOf(q), LimitOf(q)) < 0 ==> resp == Response(500, MessageBody(NegativeSkip))
    ensures resp.status == 200 <==> fault.None? && Skip(PageOf(q), LimitOf(q)) >= 0
    ensures resp.status == 200 ==>
      var f, skip, limit := BuildFilter(q), Skip(PageOf(q), LimitOf(q)), LimitOf(q);
      && resp.body.ListBody?
      && resp.body.products == Page(store.Listing(f), skip, limit)
      && resp.body.count == |resp.body.products| <= limit
      && resp.body.total == |set id | id in store.docs && Matches(f, store.docs[id].product)|
      && resp.body.count <= resp.body.total
      && resp.body.currentPage == PageOf(q)
      && resp.body.totalPages == TotalPages(resp.body.total, limit)
    ensures resp.status == 200 ==>
      var data := resp.body.products;
      && (forall i | 0 <= i < |data| ::
            data[i].id in store.docs && store.docs[data[i].id] == data[i] && Matches(BuildFilter(q), data[i].product))
      && (forall i, j | 0 <= i < j < |data| :: data[i].createdAt > data[j].createdAt)
  {
    if fault.Some? {
      return Response(500, MessageBody(fault.value));
    }
    var page, limit := PageOf(q), LimitOf(q);
    var filter := BuildFilter(q);
    var skip := Skip(page, limit);
    var products := store.Find(filter, skip, limit);
    if products.Failure? {
      return Response(500, MessageBody(products.error));
    }
    var total := store.CountDocuments(filter);
    NewestFirstSound(store.docs, filter, store.clock);
    resp := Response(200, ListBody(|products.value|, total, page, TotalPages(total, limit), products.value));
  }

  // ---------------------------------------------------------------- single records

  /** `getProductById`: 200 with the record, and the same 404 for an unknown id, a malformed id or any fault. */
  method GetProductById(store: ProductStore, id: IdParam, fault: Option<string>) returns (resp: Response)
    ensures resp.status == 200 <==> fault.None? && id.WellFormed? && id.id in store.docs
    ensures resp.status == 200 ==> resp.body == DataBody(store.docs[id.id])
    ensures resp.status != 200 ==> resp == Response(404, MessageBody(NotFound))
  {
    if fault.Some? || id.Malformed? {
      return Response(404, MessageBody(NotFound));
    }
    var product := store.FindById(id.id);
    if product.None? {
      return Response(404, MessageBody(NotFound));
    }
    resp := Response(200, DataBody(product.value));
  }

  /** `createProduct`: 201 with the stored record; 400 with the driver's message when it rejects the body or fails. */
  method CreateProduct(store: ProductStore, b: Body, fault: Option<string>) returns (resp: Response)
    requires store.Valid()
    modifies store
    ensures store.Valid()
    ensures fault.Some? ==> resp == Response(400, MessageBody(fault.value)) && store.docs == old(store.docs)
    ensures fault.None? && FromBody(b).Failure? ==>
      resp == Response(400, MessageBody(Describe(FromBody(b).error))) && store.docs == old(store.docs)
    ensures fault.None? && FromBody(b).Success? ==>
      var created := Record(old(store.clock), FromBody(b).value, old(store.clock), old(store.clock));
      && resp == Response(201, MessageData(Created, created))
      && created.id !in old(store.docs) && store.docs == old(store.docs)[created.id := created]
  {
    if fault.Some? {
      return Response(400, MessageBody(fault.value));
    }
    var product := store.Create(b);
    if product.Failure? {
      return Response(400, MessageBody(Describe(product.error)));
    }
    resp := Response(201, MessageData(Created, product.value));
  }

  /**
   * `updateProduct`: 200 with the record as it is after the update; 404 for an unknown id, leaving the
   * store as it was; 400 for a malformed id, a rejected update or a fault.
   */
  method UpdateProduct(store: ProductStore, id: IdParam, b: Body, fault: Option<string>) returns (resp: Response)
    requires store.Valid()
    modifies store
    ensures store.Valid()
    ensures id.Malformed? ==> resp == Response(400, MessageBody(CastIdMessage(id.raw))) && store.docs == old(store.docs)
    ensures id.WellFormed? && fault.Some? ==> resp == Response(400, MessageBody(fault.value)) && store.docs == old(store.docs)
    ensures id.WellFormed? && fault.None? && UpdateFromBody(b).Failure? ==>
      resp == Response(400, MessageBody(Describe(UpdateFromBody(b).error))) && store.docs == old(store.docs)
    ensures id.WellFormed? && fault.None? && UpdateFromBody(b).Success? && id.id !in old(store.docs) ==>
      resp == Response(404, MessageBody(NotFound)) && store.docs == old(store.docs)
    ensures id.WellFormed? && fault.None? && UpdateFromBody(b).Success? && id.id in old(store.docs) ==>
      var prior := old(store.docs)[id.id];
      var updated := prior.(product := Merge(prior.product, UpdateFromBody(b).value), updatedAt := old(store.clock));
      && resp == Response(200, MessageData(Updated, updated))
      && store.docs == old(store.docs)[id.id := updated]
  {
    if id.Malformed? {
      return Response(400, MessageBody(CastIdMessage(id.raw)));
    }
    if fault.Some? {
      return Response(400, MessageBody(fault.value));
    }
    var product := store.FindByIdAndUpdate(id.id, b);
    if product.Failure? {
      return Response(400, MessageBody(Describe(product.error)));
    }
    if product.value.None? {
      return Response(404, MessageBody(NotFound));
    }
    resp := Response(200, MessageData(Updated, product.value.value));
  }

  /** `deleteProduct`: 200 with the removed record's last state; 404 for an unknown id; 500 for a malformed id or a fault. */
  method DeleteProduct(store: ProductStore, id: IdParam, fault: Option<string>) returns (resp: Response)
    requires store.Valid()
    modifies store
    ensures store.Valid()
    ensures id.Malformed? ==> resp == Response(500, MessageBody(CastIdMessage(id.raw))) && store.docs == old(store.docs)
    ensures id.WellFormed? && fault.Some? ==> resp == Response(500, MessageBody(fault.value)) && store.docs == old(store.docs)
    ensures id.WellFormed? && fault.None? && id.id !in old(store.docs) ==>
      resp == Response(404, MessageBody(NotFound)) && store.docs == old(store.docs)
    ensures id.WellFormed? && fault.None? && id.id in old(store.docs) ==>
      && resp == Response(200, MessageData(Deleted, old(store.docs)[id.id]))
      && store.docs == old(store.docs) - {id.id}
  {
    if id.Malformed? {
      return Response(500, MessageBody(CastIdMessage(id.raw)));
    }
    if fault.Some? {
      return Response(500, MessageBody(fault.value));
    }
    var product := store.FindByIdAndDelete(id.id);
    if product.None? {
      return Response(404, MessageBody(NotFound));
    }
    resp := Response(200, MessageData(Deleted, product.value));
  }

  // ---------------------------------------------------------------- round trip

  /**
   * Create, read back, delete and read again: the created record is answered 201 and then 200 by id,
   * its delete answers 200 with that same record, the next read is 404, and the collection ends as it began.
   */
  method CreateGetDeleteGet(store: ProductStore, b: Body) returns (created: Response, found: Response, deleted: Response, gone: Response)
    requires store.Valid() && FromBody(b).Success?
    modifies store
    ensures store.Valid()
    ensures
      var record := Record(old(store.clock), FromBody(b).value, old(store.clock), old(store.clock));
      && created == Response(201, MessageData(Created, record))
      && found == Response(200, DataBody(record))
      && deleted == Response(200, MessageData(Deleted, record))
      && gone == Response(404, MessageBody(NotFound))
    ensures store.docs == old(store.docs)
  {
    created := CreateProduct(store, b, None);
    var id := WellFormed(created.body.data.id);
    found := GetProductById(store, id, None);
    deleted := DeleteProduct(store, id, None);
    gone := GetProductById(store, id, None);
  }
}
