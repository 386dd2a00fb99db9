/**
 * How the request validators relate to the schema behind the store: whatever the
 * validators let through, the schema accepts, so the handlers' schema-rejection
 * paths are reachable only for requests that skipped validation.
 */
module Agreement {
  import opened Wrappers
  import opened JsValues
  import opened Validation
  import opened Schema

  /** A non-blank string is non-empty. */
  lemma NonBlankIsNonEmpty(v: JsValue)
    requires NonBlankText(v)
    ensures v.s != ""
  {
    assert Blank("");
  }

  /**
   * A body `validateProductCreation` accepts is a valid product for the schema, built from
   * exactly the given fields; inStock was given, so the schema default is never applied on this path.
   */
  lemma ValidatedCreationFitsSchema(b: Body)
    requires CreationVerdict(b) == Proceed
    ensures FromBody(b).Success? && ValidProduct(FromBody(b).value)
    ensures b.inStock.Bool?
    ensures FromBody(b).value == Product(b.name.s, b.description.s, b.price.n, b.category.s, b.inStock.b)
  {
    CreationProceedsIffValid(b);
    NonBlankIsNonEmpty(b.name);
    NonBlankIsNonEmpty(b.description);
    NonBlankIsNonEmpty(b.category);
  }

  /** A body `validateProductUpdate` accepts passes the schema's update validators. */
  lemma ValidatedUpdateCasts(b: Body)
    requires UpdateVerdict(b) == Proceed
    ensures UpdateFromBody(b).Success?
  {
    UpdateProceedsIff(b);
    if !b.name.Undefined? { NonBlankIsNonEmpty(b.name); }
    if !b.description.Undefined? { NonBlankIsNonEmpty(b.description); }
    if !b.category.Undefined? { NonBlankIsNonEmpty(b.category); }
  }

  /** The schema alone is laxer: it stores a whitespace-only name, such as " ", that the create validator rejects. */
  lemma SchemaAcceptsBlankName(b: Body)
    requires b.name.Str? && b.name.s != "" && Blank(b.name.s)
    requires NonBlankText(b.description) && NonNegativeNumber(b.price) && NonBlankText(b.category) && b.inStock.Bool?
    ensures FromBody(b).Success?
    ensures CreationVerdict(b) == BadRequest(ValidationFailed, Some([NameRequired]))
  {
    NonBlankIsNonEmpty(b.description);
    NonBlankIsNonEmpty(b.category);
    var c := CreationChecks(b);
    RequiredTextMeaning(b.name, NameRequired);
    RequiredTextMeaning(b.description, DescriptionRequired);
    RequiredTextMeaning(b.category, CategoryRequired);
    assert c == [Fail(NameRequired), Pass, Pass, Pass, Pass];
    ReportsOfFive(c);
    assert CreationErrors(b) == [NameRequired];
    assert !CreationThrows(b);
  }
}
