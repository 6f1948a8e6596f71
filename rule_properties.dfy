/** Single-rule consequences of the two tables: what is reported for a
    missing required key, a short title or an out-of-range number, and how
    the two paths differ on the discount bound. */
module RuleProperties {
  import opened Wrappers
  import opened Json
  import opened JsText
  import opened Joi
  import opened JoiFacts
  import opened ProductRules
  import opened ProductFacts
  import opened UpdateFacts

  /** The keys the create path requires. */
  const CreateRequired: set<string> := CreateKeys - {"discount", "additionalAttributes"}

  /** A body missing a required create key is refused, and that key is named as missing. */
  lemma CreateMissingKey(fmt: Formats, body: Json, k: string)
    requires body.JObj? && k in CreateRequired && k !in body.fields
    ensures ValidateCreate(fmt, body).Err?
    ensures Violation([Key(k)], Missing) in ValidateCreate(fmt, body).error
  {
    CreateRulesAt();
    var i: nat :=
      if k == "title" then 0 else if k == "categoryIds" then 1 else if k == "collectionIds" then 2
      else if k == "tagIds" then 3 else if k == "numberInStock" then 4 else if k == "price" then 5
      else if k == "description" then 7 else if k == "imageUrls" then 8 else 9;
    MissingReported(fmt, CreateRules, body, i);
  }

  /** Every key of the update table is optional: leaving it out passes and outputs nothing for it. */
  lemma UpdateAllOptional(fmt: Formats, m: map<string, Json>, i: nat)
    requires i < |UpdateRules| && UpdateRules[i].key !in m
    ensures FieldResult(fmt, UpdateRules[i], m) == Ok(None)
  {
    UpdateRulesAt();
  }

  /** A non-empty create title shorter than five characters is refused as too short. */
  lemma CreateShortTitle(fmt: Formats, body: Json)
    requires body.JObj? && "title" in body.fields && body.fields["title"].JStr?
    requires body.fields["title"].s != "" && JsLength(body.fields["title"].s) < 5
    ensures ValidateCreate(fmt, body).Err?
    ensures Violation([Key("title")], TooShort(5)) in ValidateCreate(fmt, body).error
  {
    CreateRulesAt();
    FieldErrorReported(fmt, CreateRules, body, 0);
  }

  /** A negative price is refused by the create path. */
  lemma CreateNegativePrice(fmt: Formats, body: Json)
    requires body.JObj? && "price" in body.fields && body.fields["price"].JNum? && body.fields["price"].n < 0.0
    ensures ValidateCreate(fmt, body).Err?
    ensures Violation([Key("price")], Below(0.0)) in ValidateCreate(fmt, body).error
  {
    CreateRulesAt();
    FieldErrorReported(fmt, CreateRules, body, 5);
  }

  /** A negative price is refused by the update path. */
  lemma UpdateNegativePrice(fmt: Formats, body: Json)
    requires body.JObj? && "price" in body.fields && body.fields["price"].JNum? && body.fields["price"].n < 0.0
    ensures ValidateUpdate(fmt, body).Err?
    ensures Violation([Key("price")], Below(0.0)) in ValidateUpdate(fmt, body).error
  {
    UpdateRulesAt();
    FieldErrorReported(fmt, UpdateRules, body, 3);
  }

  /** Stock outside `0..255` is refused by the create path. */
  lemma CreateStockOutOfRange(fmt: Formats, body: Json)
    requires body.JObj? && "numberInStock" in body.fields && body.fields["numberInStock"].JNum?
    requires body.fields["numberInStock"].n < 0.0 || body.fields["numberInStock"].n > 255.0
    ensures ValidateCreate(fmt, body).Err?
    ensures body.fields["numberInStock"].n < 0.0 ==>
      Violation([Key("numberInStock")], Below(0.0)) in ValidateCreate(fmt, body).error
    ensures body.fields["numberInStock"].n > 255.0 ==>
      Violation([Key("numberInStock")], Above(255.0)) in ValidateCreate(fmt, body).error
  {
    CreateRulesAt();
    FieldErrorReported(fmt, CreateRules, body, 4);
  }

  /** A discount above 100 is refused by the update path. */
  lemma UpdateDiscountAbove(fmt: Formats, body: Json)
    requires body.JObj? && "discount" in body.fields && body.fields["discount"].JNum?
    requires body.fields["discount"].n > 100.0
    ensures ValidateUpdate(fmt, body).Err?
    ensures Violation([Key("discount")], Above(100.0)) in ValidateUpdate(fmt, body).error
  {
    UpdateRulesAt();
    FieldErrorReported(fmt, UpdateRules, body, 4);
  }

  /** The create path puts no upper bound on the discount: any non-negative
      discount passes its rule and is kept as sent. */
  lemma CreateDiscountUnbounded(fmt: Formats, m: map<string, Json>)
    requires "discount" in m && m["discount"].JNum? && m["discount"].n >= 0.0
    ensures FieldResult(fmt, CreateDiscount, m) == Ok(Some(m["discount"]))
  {
  }

  /** Every body the create path accepts leaves it with the fields the catalogue
      relies on: a title of 5 to 50, stock in 0..255, a non-negative price and
      discount, a description of 10 to 1000 and a non-empty main image URL of at
      most 1000. */
  lemma CreateOutputBounds(fmt: Formats, body: Json)
    requires ValidateCreate(fmt, body).Ok?
    ensures var out := ValidateCreate(fmt, body).value;
      && "title" in out && TextOfLength(out["title"], 5, 50)
      && "numberInStock" in out && NumberBetween(out["numberInStock"], 0.0, 255.0)
      && "price" in out && NumberAtLeast(out["price"], 0.0)
      && "discount" in out && NumberAtLeast(out["discount"], 0.0)
      && "description" in out && TextOfLength(out["description"], 10, 1000)
      && "mainImageUrl" in out && NonEmptyText(out["mainImageUrl"]) && TextOfLength(out["mainImageUrl"], 0, 1000)
  {
    CreateAcceptsExactly(fmt, body);
    CreateOutput(fmt, body);
  }
}
