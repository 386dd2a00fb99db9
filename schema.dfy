/**
 * The product schema: name, description and category are required strings, price a
 * required number of at least 0, inStock a required boolean defaulting to true; the
 * store adds creation and update timestamps. Casting a raw body or an update to the
 * schema either yields the typed fields or the list of violated paths.
 */
module Schema {
  import opened Wrappers
  import opened JsValues

  /** The user-writable fields of a stored product. */
  datatype Product = Product(name: string, description: string, price: real, category: string, inStock: bool)

  /** A stored document: the fields plus the identifier and the two timestamps the store maintains. */
  datatype Record = Record(id: nat, product: Product, createdAt: nat, updatedAt: nat)

  /** The schema's constraints on stored fields: required strings are non-empty and price is at least 0. */
  predicate ValidProduct(p: Product)
  {
    p.name != "" && p.description != "" && p.price >= 0.0 && p.category != ""
  }

  /** Why a path was rejected: a required value was missing, was of the wrong type, or was under the minimum. */
  datatype FieldError = Required(path: string) | CastFailed(path: string) | BelowMinimum(path: string)

  /** A required `String` path; `required` rejects undefined, null and the empty string. */
  function CastText(v: JsValue, path: string): Result<string, FieldError>
  {
    match v
    case Str(s) => if s == "" then Failure(Required(path)) else Success(s)
    case Undefined => Failure(Required(path))
    case Null => Failure(Required(path))
    case _ => Failure(CastFailed(path))
  }

  /** The required `Number` path `price` with `min: 0`. */
  function CastPrice(v: JsValue): Result<real, FieldError>
  {
    match v
    case Num(n) => if n < 0.0 then Failure(BelowMinimum("price")) else Success(n)
    case Undefined => Failure(Required("price"))
    case Null => Failure(Required("price"))
    case _ => Failure(CastFailed("price"))
  }

  /** The required `Boolean` path `inStock`, whose default `true` fills in an undefined value on creation. */
  function CastInStock(v: JsValue): Result<bool, FieldError>
  {
    match v
    case Bool(b) => Success(b)
    case Undefined => Success(true)
    case Null => Failure(Required("inStock"))
    case _ => Failure(CastFailed("inStock"))
  }

  function Errors<T>(r: Result<T, FieldError>): seq<FieldError>
  {
    if r.Failure? then [r.error] else []
  }

  /** A new document built from a creation body: every violated path is reported, in declaration order. */
  function FromBody(b: Body): (r: Result<Product, seq<FieldError>>)
    ensures r.Success? ==> ValidProduct(r.value)
    ensures r.Success? <==>
      && b.name.Str? && b.name.s != "" && b.description.Str? && b.description.s != ""
      && b.price.Num? && b.price.n >= 0.0 && b.category.Str? && b.category.s != ""
      && (b.inStock.Bool? || b.inStock.Undefined?)
    ensures r.Success? ==>
      && r.value.name == b.name.s && r.value.description == b.description.s && r.value.price == b.price.n
      && r.value.category == b.category.s && r.value.inStock == (b.inStock.Undefined? || b.inStock.b)
    ensures r.Failure? ==> r.error != []
  {
    var name, description, price := CastText(b.name, "name"), CastText(b.description, "description"), CastPrice(b.price);
    var category, inStock := CastText(b.category, "category"), CastInStock(b.inStock);
    var errors := Errors(name) + Errors(description) + Errors(price) + Errors(category) + Errors(inStock);
    if errors == [] then
      Success(Product(name.value, description.value, price.value, category.value, inStock.value))
    else
      Failure(errors)
  }

  /** The fields an update sets; `None` leaves a field untouched. */
  datatype Patch = Patch(name: Option<string>, description: Option<string>, price: Option<real>,
                         category: Option<string>, inStock: Option<bool>)

  /** An update path: an undefined value is not part of the update; anything else must cast and validate. */
  function CastSet<T>(v: JsValue, cast: JsValue -> Result<T, FieldError>): Result<Option<T>, FieldError>
  {
    if v.Undefined? then Success(None)
    else if cast(v).Failure? then Failure(cast(v).error)
    else Success(Some(cast(v).value))
  }

  /** The update of an update request, cast and checked by the update validators (no default is applied). */
  function UpdateFromBody(b: Body): (r: Result<Patch, seq<FieldError>>)
    ensures r.Success? <==>
      && (b.name.Undefined? || (b.name.Str? && b.name.s != ""))
      && (b.description.Undefined? || (b.description.Str? && b.description.s != ""))
      && (b.price.Undefined? || (b.price.Num? && b.price.n >= 0.0))
      && (b.category.Undefined? || (b.category.Str? && b.category.s != ""))
      && (b.inStock.Undefined? || b.inStock.Bool?)
    ensures r.Success? ==>
      && (r.value.name.None? <==> b.name.Undefined?) && (r.value.description.None? <==> b.description.Undefined?)
      && (r.value.price.None? <==> b.price.Undefined?) && (r.value.category.None? <==> b.category.Undefined?)
      && (r.value.inStock.None? <==> b.inStock.Undefined?)
    ensures r.Failure? ==> r.error != []
  {
    var name := CastSet(b.name, v => CastText(v, "name"));
    var description := CastSet(b.description, v => CastText(v, "description"));
    var price := CastSet(b.price, CastPrice);
    var category := CastSet(b.category, v => CastText(v, "category"));
    var inStock := CastSet(b.inStock, CastInStock);
    var errors := Errors(name) + Errors(description) + Errors(price) + Errors(category) + Errors(inStock);
    if errors == [] then
      Success(Patch(name.value, description.value, price.value, category.value, inStock.value))
    else
      Failure(errors)
  }

  function Override<T>(current: T, o: Option<T>): T
  {
    if o.Some? then o.value else current
  }

  /** The product after an update: set fields replaced, the others unchanged. */
  function Merge(p: Product, u: Patch): (r: Product)
    ensures u == Patch(None, None, None, None, None) ==> r == p
  {
    Product(Override(p.name, u.name), Override(p.description, u.description), Override(p.price, u.price),
            Override(p.category, u.category), Override(p.inStock, u.inStock))
  }

  /** Applying an update that passed the update validators to a valid product keeps it valid. */
  lemma MergeKeepsValid(p: Product, b: Body)
    requires ValidProduct(p) && UpdateFromBody(b).Success?
    ensures ValidProduct(Merge(p, UpdateFromBody(b).value))
  {
  }

  /**
   * What an accepted update body does to a stored product: each field absent from the body keeps
   * its stored value, each field present in it takes the body's value.
   */
  lemma UpdateSetsOnlyGivenFields(p: Product, b: Body)
    requires UpdateFromBody(b).Success?
    ensures Merge(p, UpdateFromBody(b).value).name == if b.name.Undefined? then p.name else b.name.s
    ensures Merge(p, UpdateFromBody(b).value).description == if b.description.Undefined? then p.description else b.description.s
    ensures Merge(p, UpdateFromBody(b).value).price == if b.price.Undefined? then p.price else b.price.n
    ensures Merge(p, UpdateFromBody(b).value).category == if b.category.Undefined? then p.category else b.category.s
    ensures Merge(p, UpdateFromBody(b).value).inStock == if b.inStock.Undefined? then p.inStock else b.inStock.b
  {
  }

  /** The default is applied exactly when inStock is absent from the creation body. */
  lemma DefaultOnlyWhenAbsent(b: Body)
    requires FromBody(b).Success?
    ensures FromBody(b).value.inStock == true <==> b.inStock.Undefined? || b.inStock == Bool(true)
  {
  }
}
