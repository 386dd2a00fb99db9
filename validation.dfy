/**
 * The two request-body validators of the product API: one for creation, where
 * every field is required, and one for partial updates, where only the fields
 * present are checked. Each builds its list of error messages field by field and
 * then either lets the request through or answers 400.
 */
module Validation {
  import opened Wrappers
  import opened JsValues

  /** What a validator does with a request. */
  datatype Verdict =
    | Proceed                                                  // `next()` is called
    | BadRequest(message: string, errors: Option<seq<string>>)  // 400 with `message` and, when present, `errors`
    | Throws(error: string)                                    // an exception escapes the middleware

  const ValidationFailed := "Validation failed"
  const NothingToUpdate := "At least one field must be provided for update"
  /**
   * Stands for the TypeError `.trim()` raises on a truthy non-string; the engine's text names the
   * field (`name.trim is not a function`, and so on), which this single constant does not.
   */
  const TrimNotAFunction := "TypeError: trim is not a function"

  const NameRequired := "Name is required"
  const DescriptionRequired := "Description is required"
  const PriceRequired := "Price is required"
  const PricePositive := "Price must be a positive number"
  const CategoryRequired := "Category is required"
  const InStockRequired := "inStock is required"
  const InStockBoolean := "inStock must be a boolean value"

  const NameNonEmpty := "Name must be a non-empty string"
  const DescriptionNonEmpty := "Description must be a non-empty string"
  const CategoryNonEmpty := "Category must be a non-empty string"

  /** The position in field order (name, description, price, category, inStock) of the field a message is about; -1 for other text. */
  function FieldOf(m: string): int
  {
    if m == NameRequired || m == NameNonEmpty then 0
    else if m == DescriptionRequired || m == DescriptionNonEmpty then 1
    else if m == PriceRequired || m == PricePositive then 2
    else if m == CategoryRequired || m == CategoryNonEmpty then 3
    else if m == InStockRequired || m == InStockBoolean then 4
    else -1
  }

  /** The outcome of checking one field: nothing to report, one message, or the `trim()` TypeError. */
  datatype Check = Pass | Fail(message: string) | Crash

  /** The message a check contributes to the error list. */
  function Report(c: Check): seq<string>
  {
    if c.Fail? then [c.message] else []
  }

  /** The messages a run of checks pushes, in the order the checks run. */
  function Reports(c: seq<Check>): seq<string>
  {
    if c == [] then [] else Report(c[0]) + Reports(c[1..])
  }

  /** Five checks push exactly the concatenation of their own reports. */
  lemma {:induction false} ReportsOfFive(c: seq<Check>)
    requires |c| == 5
    ensures Reports(c) == Report(c[0]) + Report(c[1]) + Report(c[2]) + Report(c[3]) + Report(c[4])
  {
    var c1, c2, c3, c4 := c[1..], c[2..], c[3..], c[4..];
    assert c1[1..] == c2 && c2[1..] == c3 && c3[1..] == c4 && c4[1..] == [];
    assert c1[0] == c[1] && c2[0] == c[2] && c3[0] == c[3] && c4[0] == c[4];
    var r0, r1, r2, r3, r4 := Report(c[0]), Report(c[1]), Report(c[2]), Report(c[3]), Report(c[4]);
    assert Reports(c4) == r4 + [] == r4;
    assert Reports(c3) == r3 + r4;
    assert Reports(c2) == r2 + (r3 + r4);
    assert Reports(c1) == r1 + (r2 + (r3 + r4));
    assert Reports(c) == r0 + (r1 + (r2 + (r3 + r4)));
    assert r0 + (r1 + (r2 + (r3 + r4))) == r0 + r1 + r2 + r3 + r4;
  }

  /** Whether `v` is a string whose every character is whitespace, by the middleware's test `v.trim() === ''`. */
  predicate TrimsToEmpty(v: JsValue)
  {
    v.Str? && Trim(v.s) == ""
  }

  // ---------------------------------------------------------------- creation

  /** `!v || v.trim() === ''` for a required text field; `trim` on a truthy non-string throws. */
  function RequiredText(v: JsValue, message: string): Check
  {
    if !Truthy(v) then Fail(message)
    else if !v.Str? then Crash
    else if TrimsToEmpty(v) then Fail(message)
    else Pass
  }

  function RequiredPrice(v: JsValue): Check
  {
    if Nullish(v) then Fail(PriceRequired)
    else if !v.Num? || v.n < 0.0 then Fail(PricePositive)
    else Pass
  }

  function RequiredBoolean(v: JsValue): Check
  {
    if Nullish(v) then Fail(InStockRequired)
    else if !v.Bool? then Fail(InStockBoolean)
    else Pass
  }

  /** The five creation checks in the order the validator runs them. */
  function CreationChecks(b: Body): seq<Check>
  {
    [ RequiredText(b.name, NameRequired), RequiredText(b.description, DescriptionRequired),
      RequiredPrice(b.price), RequiredText(b.category, CategoryRequired), RequiredBoolean(b.inStock) ]
  }

  /** The error list of the creation validator: what every field check pushes, concatenated in field order. */
  function CreationErrors(b: Body): seq<string>
  {
    Reports(CreationChecks(b))
  }

  /** Whether one of the text checks reaches `trim()` on a value that has no such method. */
  predicate CreationThrows(b: Body)
  {
    Crash in CreationChecks(b)
  }

  /** The decision of `validateProductCreation`, as a value. */
  function CreationVerdict(b: Body): Verdict
  {
    if CreationThrows(b) then Throws(TrimNotAFunction)
    else if CreationErrors(b) == [] then Proceed
    else BadRequest(ValidationFailed, Some(CreationErrors(b)))
  }

  /** `validateProductCreation`: accumulates one message per failing field, never stopping early. */
  method ValidateProductCreation(b: Body) returns (v: Verdict)
    ensures v == CreationVerdict(b)
  {
    ghost var c := CreationChecks(b);
    ReportsOfFive(c);
    var errors: seq<string> := [];
    if !Truthy(b.name) {
      errors := errors + [NameRequired];
    } else if !b.name.Str? {
      return Throws(TrimNotAFunction);
    } else if Trim(b.name.s) == "" {
      errors := errors + [NameRequired];
    }
    assert errors == Report(c[0]);
    if !Truthy(b.description) {
      errors := errors + [DescriptionRequired];
    } else if !b.description.Str? {
      return Throws(TrimNotAFunction);
    } else if Trim(b.description.s) == "" {
      errors := errors + [DescriptionRequired];
    }
    assert errors == Report(c[0]) + Report(c[1]);
    if b.price.Undefined? || b.price.Null? {
      errors := errors + [PriceRequired];
    } else if !b.price.Num? || b.price.n < 0.0 {
      errors := errors + [PricePositive];
    }
    assert errors == Report(c[0]) + Report(c[1]) + Report(c[2]);
    if !Truthy(b.category) {
      errors := errors + [CategoryRequired];
    } else if !b.category.Str? {
      return Throws(TrimNotAFunction);
    } else if Trim(b.category.s) == "" {
      errors := errors + [CategoryRequired];
    }
    assert errors == Report(c[0]) + Report(c[1]) + Report(c[2]) + Report(c[3]);
    if b.inStock.Undefined? || b.inStock.Null? {
      errors := errors + [InStockRequired];
    } else if !b.inStock.Bool? {
      errors := errors + [InStockBoolean];
    }
    assert errors == CreationErrors(b);
    assert !CreationThrows(b);
    if |errors| > 0 {
      return BadRequest(ValidationFailed, Some(errors));
    }
    v := Proceed;
  }

  // ---------------------------------------------------------------- update

  /** `v !== undefined && (typeof v !== 'string' || v.trim() === '')` reports `message`. */
  function OptionalText(v: JsValue, message: string): Check
  {
    if v.Undefined? then Pass
    else if !v.Str? || TrimsToEmpty(v) then Fail(message)
    else Pass
  }

  function OptionalPrice(v: JsValue): Check
  {
    if v.Undefined? then Pass
    else if !v.Num? || v.n < 0.0 then Fail(PricePositive)
    else Pass
  }

  function OptionalBoolean(v: JsValue): Check
  {
    if v.Undefined? then Pass
    else if !v.Bool? then Fail(InStockBoolean)
    else Pass
  }

  /** The guard of the early return: name, description and category falsy, price and inStock undefined. */
  predicate NothingProvided(b: Body)
  {
    !Truthy(b.name) && !Truthy(b.description) && b.price.Undefined? && !Truthy(b.category) && b.inStock.Undefined?
  }

  function UpdateChecks(b: Body): seq<Check>
  {
    [ OptionalText(b.name, NameNonEmpty), OptionalText(b.description, DescriptionNonEmpty),
      OptionalPrice(b.price), OptionalText(b.category, CategoryNonEmpty), OptionalBoolean(b.inStock) ]
  }

  /** The error list of the update validator once the early return is passed. */
  function UpdateErrors(b: Body): seq<string>
  {
    Reports(UpdateChecks(b))
  }

  /** The decision of `validateProductUpdate`, as a value. */
  function UpdateVerdict(b: Body): Verdict
  {
    if NothingProvided(b) then BadRequest(NothingToUpdate, None)
    else if UpdateErrors(b) == [] then Proceed
    else BadRequest(ValidationFailed, Some(UpdateErrors(b)))
  }

  /** `validateProductUpdate`: the at-least-one-field check returns early; later checks accumulate. */
  method ValidateProductUpdate(b: Body) returns (v: Verdict)
    ensures v == UpdateVerdict(b)
  {
    ghost var c := UpdateChecks(b);
    ReportsOfFive(c);
    assert UpdateErrors(b) == Report(c[0]) + Report(c[1]) + Report(c[2]) + Report(c[3]) + Report(c[4]);
    if !Truthy(b.name) && !Truthy(b.description) && b.price.Undefined? && !Truthy(b.category) && b.inStock.Undefined? {
      return BadRequest(NothingToUpdate, None);
    }
    var errors: seq<string> := [];
    if !b.name.Undefined? && (!b.name.Str? || Trim(b.name.s) == "") {
      errors := errors + [NameNonEmpty];
    }
    assert errors == Report(c[0]);
    if !b.description.Undefined? && (!b.description.Str? || Trim(b.description.s) == "") {
      errors := errors + [DescriptionNonEmpty];
    }
    assert errors == Report(c[0]) + Report(c[1]);
    if !b.price.Undefined? {
      if !b.price.Num? || b.price.n < 0.0 {
        errors := errors + [PricePositive];
      }
    }
    assert errors == Report(c[0]) + Report(c[1]) + Report(c[2]);
    if !b.category.Undefined? && (!b.category.Str? || Trim(b.category.s) == "") {
      errors := errors + [CategoryNonEmpty];
    }
    assert errors == Report(c[0]) + Report(c[1]) + Report(c[2]) + Report(c[3]);
    if !b.inStock.Undefined? && !b.inStock.Bool? {
      errors := errors + [InStockBoolean];
    }
    assert errors == Report(c[0]) + Report(c[1]) + Report(c[2]) + Report(c[3]) + Report(c[4]);
    if |errors| > 0 {
      return BadRequest(ValidationFailed, Some(errors));
    }
    v := Proceed;
  }

  // ---------------------------------------------------------------- properties

  /** Messages naming distinct fields, in strictly increasing field order. */
  predicate InFieldOrder(e: seq<string>)
  {
    && (forall i :: 0 <= i < |e| ==> 0 <= FieldOf(e[i]) < 5)
    && (forall i, j :: 0 <= i < j < |e| ==> FieldOf(e[i]) < FieldOf(e[j]))
  }

  /** Checks where check number k can only report a message about field `base + k`. */
  predicate AlignedFrom(c: seq<Check>, base: int)
  {
    forall k :: 0 <= k < |c| ==> c[k].Fail? ==> FieldOf(c[k].message) == base + k
  }

  /** A run of field-aligned checks yields at most one message per check, sorted by field. */
  lemma {:induction false} ReportsSortedByField(c: seq<Check>, base: int)
    requires AlignedFrom(c, base)
    ensures |Reports(c)| <= |c|
    ensures forall i :: 0 <= i < |Reports(c)| ==> base <= FieldOf(Reports(c)[i]) < base + |c|
    ensures forall i, j :: 0 <= i < j < |Reports(c)| ==> FieldOf(Reports(c)[i]) < FieldOf(Reports(c)[j])
  {
    if c != [] {
      assert AlignedFrom(c[1..], base + 1) by {
        forall k | 0 <= k < |c[1..]| ensures c[1..][k].Fail? ==> FieldOf(c[1..][k].message) == base + 1 + k {
          assert c[1..][k] == c[k + 1];
        }
      }
      ReportsSortedByField(c[1..], base + 1);
      var e := Reports(c);
      if c[0].Fail? {
        assert e == [c[0].message] + Reports(c[1..]);
        assert FieldOf(e[0]) == base;
        forall i | 1 <= i < |e| ensures e[i] == Reports(c[1..])[i - 1] { }
      }
    }
  }

  /** A message is pushed exactly when some check fails with it. */
  lemma {:induction false} ReportsMembership(c: seq<Check>, m: string)
    ensures m in Reports(c) <==> exists k :: 0 <= k < |c| && c[k] == Fail(m)
  {
    if c != [] {
      ReportsMembership(c[1..], m);
      if exists k :: 0 <= k < |c[1..]| && c[1..][k] == Fail(m) {
        var k :| 0 <= k < |c[1..]| && c[1..][k] == Fail(m);
        assert c[k + 1] == Fail(m);
      }
      if exists k :: 0 <= k < |c| && c[k] == Fail(m) {
        var k :| 0 <= k < |c| && c[k] == Fail(m);
        if k > 0 { assert c[1..][k - 1] == Fail(m); }
      }
    }
  }

  lemma CreationChecksAligned(b: Body)
    ensures AlignedFrom(CreationChecks(b), 0)
  {
  }

  lemma UpdateChecksAligned(b: Body)
    ensures AlignedFrom(UpdateChecks(b), 0)
  {
  }

  /** Create reports at most one message per field, in the order name, description, price, category, inStock. */
  lemma CreationErrorsInFieldOrder(b: Body)
    ensures InFieldOrder(CreationErrors(b)) && |CreationErrors(b)| <= 5
  {
    var c := CreationChecks(b);
    assert |c| == 5;
    CreationChecksAligned(b);
    ReportsSortedByField(c, 0);
  }

  /** Update reports at most one message per field, in field order. */
  lemma UpdateErrorsInFieldOrder(b: Body)
    ensures InFieldOrder(UpdateErrors(b)) && |UpdateErrors(b)| <= 5
  {
    var c := UpdateChecks(b);
    assert |c| == 5;
    UpdateChecksAligned(b);
    ReportsSortedByField(c, 0);
  }

  /** A text field holding a string that is not all whitespace. */
  predicate NonBlankText(v: JsValue)
  {
    v.Str? && !Blank(v.s)
  }

  /** A number that is not negative (zero included). */
  predicate NonNegativeNumber(v: JsValue)
  {
    v.Num? && v.n >= 0.0
  }

  /** Among field-aligned checks, a message about field k is pushed exactly when check k fails with it. */
  lemma {:induction false} AlignedMembership(c: seq<Check>, m: string)
    requires AlignedFrom(c, 0) && 0 <= FieldOf(m) < |c|
    ensures m in Reports(c) <==> c[FieldOf(m)] == Fail(m)
  {
    ReportsMembership(c, m);
    var f := FieldOf(m);
    assert forall k :: 0 <= k < |c| && c[k] == Fail(m) ==> k == f;
  }

  /** The list is empty exactly when no check fails. */
  lemma {:induction false} ReportsEmptyIff(c: seq<Check>)
    ensures Reports(c) == [] <==> forall k :: 0 <= k < |c| ==> !c[k].Fail?
  {
    if c != [] {
      ReportsEmptyIff(c[1..]);
      assert forall k :: 1 <= k < |c| ==> c[k] == c[1..][k - 1];
    }
  }

  /** A required text field fails exactly when falsy or whitespace-only, and crashes exactly when truthy but not a string. */
  lemma RequiredTextMeaning(v: JsValue, m: string)
    ensures RequiredText(v, m) == Fail(m) <==> !Truthy(v) || (v.Str? && Blank(v.s))
    ensures RequiredText(v, m) == Pass <==> NonBlankText(v)
    ensures RequiredText(v, m).Crash? <==> Truthy(v) && !v.Str?
  {
    if v.Str? {
      TrimEmptyIffBlank(v.s);
      assert v.s == "" ==> Blank(v.s);
    }
  }

  /** An optional text field fails exactly when present and not a non-blank string; it never crashes. */
  lemma OptionalTextMeaning(v: JsValue, m: string)
    ensures OptionalText(v, m) == Fail(m) <==> !v.Undefined? && !NonBlankText(v)
    ensures OptionalText(v, m) == Pass <==> v.Undefined? || NonBlankText(v)
  {
    if v.Str? { TrimEmptyIffBlank(v.s); }
  }

  /** Create: a required text field gets its message exactly when it is falsy or a whitespace-only string. */
  lemma CreationTextMessages(b: Body)
    ensures NameRequired in CreationErrors(b) <==> !Truthy(b.name) || (b.name.Str? && Blank(b.name.s))
    ensures DescriptionRequired in CreationErrors(b) <==> !Truthy(b.description) || (b.description.Str? && Blank(b.description.s))
    ensures CategoryRequired in CreationErrors(b) <==> !Truthy(b.category) || (b.category.Str? && Blank(b.category.s))
  {
    var c := CreationChecks(b);
    AlignedMembership(c, NameRequired);
    AlignedMembership(c, DescriptionRequired);
    AlignedMembership(c, CategoryRequired);
    RequiredTextMeaning(b.name, NameRequired);
    RequiredTextMeaning(b.description, DescriptionRequired);
    RequiredTextMeaning(b.category, CategoryRequired);
  }

  /** Create: price is reported missing when undefined or null, and invalid when a non-number or negative; zero is accepted. */
  lemma CreationPriceMessages(b: Body)
    ensures PriceRequired in CreationErrors(b) <==> Nullish(b.price)
    ensures PricePositive in CreationErrors(b) <==> !Nullish(b.price) && !NonNegativeNumber(b.price)
    ensures b.price == Num(0.0) ==> PriceRequired !in CreationErrors(b) && PricePositive !in CreationErrors(b)
  {
    var c := CreationChecks(b);
    CreationChecksAligned(b);
    assert FieldOf(PriceRequired) == 2 && FieldOf(PricePositive) == 2;
    assert c[2] == RequiredPrice(b.price);
    AlignedMembership(c, PriceRequired);
    AlignedMembership(c, PricePositive);
  }

  /** Create: inStock is reported missing when undefined or null, and invalid for every non-boolean such as 0, 1 or "true". */
  lemma CreationInStockMessages(b: Body)
    ensures InStockRequired in CreationErrors(b) <==> Nullish(b.inStock)
    ensures InStockBoolean in CreationErrors(b) <==> !Nullish(b.inStock) && !b.inStock.Bool?
  {
    var c := CreationChecks(b);
    CreationChecksAligned(b);
    assert FieldOf(InStockRequired) == 4 && FieldOf(InStockBoolean) == 4;
    assert c[4] == RequiredBoolean(b.inStock);
    AlignedMembership(c, InStockRequired);
    AlignedMembership(c, InStockBoolean);
  }

  /** Create throws exactly when a text field is truthy but not a string, so `trim` is not a function. */
  lemma CreationThrowsIff(b: Body)
    ensures CreationVerdict(b).Throws? <==>
      (Truthy(b.name) && !b.name.Str?) || (Truthy(b.description) && !b.description.Str?) || (Truthy(b.category) && !b.category.Str?)
  {
  }

  /** Create proceeds exactly when each of its five checks passes. */
  lemma CreationProceedsIffAllPass(b: Body)
    ensures CreationVerdict(b) == Proceed <==>
      var c := CreationChecks(b); c[0] == Pass && c[1] == Pass && c[2] == Pass && c[3] == Pass && c[4] == Pass
  {
    var c := CreationChecks(b);
    ReportsEmptyIff(c);
    assert (forall k :: 0 <= k < 5 ==> c[k] == Pass) <==> c[0] == Pass && c[1] == Pass && c[2] == Pass && c[3] == Pass && c[4] == Pass;
  }

  /** Create calls `next()` exactly when every field is present and of the right kind; otherwise it answers 400 with the list, or throws. */
  lemma CreationProceedsIffValid(b: Body)
    ensures CreationVerdict(b) == Proceed <==>
      NonBlankText(b.name) && NonBlankText(b.description) && NonNegativeNumber(b.price)
      && NonBlankText(b.category) && b.inStock.Bool?
    ensures CreationVerdict(b).BadRequest? ==>
      CreationVerdict(b) == BadRequest(ValidationFailed, Some(CreationErrors(b))) && CreationErrors(b) != []
  {
    var c := CreationChecks(b);
    CreationProceedsIffAllPass(b);
    RequiredTextMeaning(b.name, NameRequired);
    RequiredTextMeaning(b.description, DescriptionRequired);
    RequiredTextMeaning(b.category, CategoryRequired);
    assert c[2] == Pass <==> NonNegativeNumber(b.price);
    assert c[4] == Pass <==> b.inStock.Bool?;
  }

  /** Update answers the single at-least-one-field message, without an error list, exactly when the early-return guard holds. */
  lemma UpdateEarlyExitIff(b: Body)
    ensures UpdateVerdict(b) == BadRequest(NothingToUpdate, None) <==> NothingProvided(b)
  {
  }

  /** A body holding only an empty name counts as providing nothing. */
  lemma EmptyNameOnlyIsNothing()
    ensures UpdateVerdict(Body(Str(""), Undefined, Undefined, Undefined, Undefined)) == BadRequest(NothingToUpdate, None)
  {
  }

  /** Update: a field that is present and fails its type or non-empty check adds its one message; an undefined field adds none. */
  lemma UpdateFieldMessages(b: Body)
    ensures NameNonEmpty in UpdateErrors(b) <==> !b.name.Undefined? && !NonBlankText(b.name)
    ensures DescriptionNonEmpty in UpdateErrors(b) <==> !b.description.Undefined? && !NonBlankText(b.description)
    ensures PricePositive in UpdateErrors(b) <==> !b.price.Undefined? && !NonNegativeNumber(b.price)
    ensures CategoryNonEmpty in UpdateErrors(b) <==> !b.category.Undefined? && !NonBlankText(b.category)
    ensures InStockBoolean in UpdateErrors(b) <==> !b.inStock.Undefined? && !b.inStock.Bool?
  {
    var c := UpdateChecks(b);
    AlignedMembership(c, NameNonEmpty);
    AlignedMembership(c, DescriptionNonEmpty);
    AlignedMembership(c, PricePositive);
    AlignedMembership(c, CategoryNonEmpty);
    AlignedMembership(c, InStockBoolean);
    OptionalTextMeaning(b.name, NameNonEmpty);
    OptionalTextMeaning(b.description, DescriptionNonEmpty);
    OptionalTextMeaning(b.category, CategoryNonEmpty);
  }

  /** Update never reports anything about an undefined field. */
  lemma UpdateSkipsUndefined(b: Body, i: nat)
    requires i < |UpdateErrors(b)|
    ensures b.name.Undefined? ==> FieldOf(UpdateErrors(b)[i]) != 0
    ensures b.description.Undefined? ==> FieldOf(UpdateErrors(b)[i]) != 1
    ensures b.price.Undefined? ==> FieldOf(UpdateErrors(b)[i]) != 2
    ensures b.category.Undefined? ==> FieldOf(UpdateErrors(b)[i]) != 3
    ensures b.inStock.Undefined? ==> FieldOf(UpdateErrors(b)[i]) != 4
  {
    ReportsOfFive(UpdateChecks(b));
  }

  /** Update proceeds exactly when something is provided and every provided field is valid; it never throws. */
  lemma UpdateProceedsIff(b: Body)
    ensures UpdateVerdict(b) == Proceed <==>
      && !NothingProvided(b)
      && (b.name.Undefined? || NonBlankText(b.name))
      && (b.description.Undefined? || NonBlankText(b.description))
      && (b.price.Undefined? || NonNegativeNumber(b.price))
      && (b.category.Undefined? || NonBlankText(b.category))
      && (b.inStock.Undefined? || b.inStock.Bool?)
    ensures !UpdateVerdict(b).Throws?
  {
    var c := UpdateChecks(b);
    ReportsEmptyIff(c);
    OptionalTextMeaning(b.name, NameNonEmpty);
    OptionalTextMeaning(b.description, DescriptionNonEmpty);
    OptionalTextMeaning(b.category, CategoryNonEmpty);
    assert UpdateErrors(b) == [] <==> c[0] == Pass && c[1] == Pass && c[2] == Pass && c[3] == Pass && c[4] == Pass;
  }

  /** A body with only `price: -1` yields exactly one error, about price, and nothing about the absent fields. */
  lemma NegativePriceOnlyUpdate()
    ensures UpdateVerdict(Body(Undefined, Undefined, Num(-1.0), Undefined, Undefined))
         == BadRequest(ValidationFailed, Some([PricePositive]))
  {
    var b := Body(Undefined, Undefined, Num(-1.0), Undefined, Undefined);
    var c := UpdateChecks(b);
    ReportsOfFive(c);
    assert c == [Pass, Pass, Fail(PricePositive), Pass, Pass];
    assert UpdateErrors(b) == [PricePositive];
  }
}
