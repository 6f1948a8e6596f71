/** What the partial-update validator accepts and returns, stated against the
    field-by-field reference predicate `ProductRules.ValidUpdate`. */
module UpdateFacts {
  import opened Wrappers
  import opened Json
  import opened Joi
  import opened JoiFacts
  import opened ProductRules
  import opened ProductFacts

  lemma UpdateRulesAt()
    ensures |UpdateRules| == 12
    ensures UpdateRules[0] == UpdateTitle && UpdateRules[1] == UpdateCategories && UpdateRules[2] == UpdateCollections
    ensures UpdateRules[3] == UpdatePrice && UpdateRules[4] == UpdateDiscount && UpdateRules[5] == UpdateNumberInStock
    ensures UpdateRules[6] == UpdateDescription && UpdateRules[7] == UpdateImageUrls && UpdateRules[8] == UpdateMainImageUrl
    ensures UpdateRules[9] == UpdateAttributes && UpdateRules[10] == UpdateSlug && UpdateRules[11] == UpdateTags
  {
  }

  lemma UpdateTableShape()
    ensures KeysOf(UpdateRules) == UpdateKeys
    ensures DistinctKeys(UpdateRules)
  {
    UpdateRulesAt();
    assert forall k :: k in KeysOf(UpdateRules) ==> k in UpdateKeys;
    assert UpdateTitle.key in KeysOf(UpdateRules);
    assert UpdateCategories.key in KeysOf(UpdateRules);
    assert UpdateCollections.key in KeysOf(UpdateRules);
    assert UpdatePrice.key in KeysOf(UpdateRules);
    assert UpdateDiscount.key in KeysOf(UpdateRules);
    assert UpdateNumberInStock.key in KeysOf(UpdateRules);
    assert UpdateDescription.key in KeysOf(UpdateRules);
    assert UpdateImageUrls.key in KeysOf(UpdateRules);
    assert UpdateMainImageUrl.key in KeysOf(UpdateRules);
    assert UpdateAttributes.key in KeysOf(UpdateRules);
    assert UpdateSlug.key in KeysOf(UpdateRules);
    assert UpdateTags.key in KeysOf(UpdateRules);
  }

  /** The update table passes when each of its twelve keys passes. */
  lemma UpdateRulesPass(fmt: Formats, m: map<string, Json>)
    ensures (forall i :: 0 <= i < |UpdateRules| ==> FieldResult(fmt, UpdateRules[i], m).Ok?) <==>
      && FieldResult(fmt, UpdateTitle, m).Ok? && FieldResult(fmt, UpdateCategories, m).Ok?
      && FieldResult(fmt, UpdateCollections, m).Ok? && FieldResult(fmt, UpdatePrice, m).Ok?
      && FieldResult(fmt, UpdateDiscount, m).Ok? && FieldResult(fmt, UpdateNumberInStock, m).Ok?
      && FieldResult(fmt, UpdateDescription, m).Ok? && FieldResult(fmt, UpdateImageUrls, m).Ok?
      && FieldResult(fmt, UpdateMainImageUrl, m).Ok? && FieldResult(fmt, UpdateAttributes, m).Ok?
      && FieldResult(fmt, UpdateSlug, m).Ok? && FieldResult(fmt, UpdateTags, m).Ok?
  {
    UpdateRulesAt();
  }

  lemma UpdateTextsSpec(fmt: Formats, m: map<string, Json>)
    ensures FieldResult(fmt, UpdateTitle, m).Ok? <==> ("title" in m ==> TextOfLength(m["title"], 3, 255))
    ensures FieldResult(fmt, UpdateDescription, m).Ok? <==> ("description" in m ==> m["description"].JStr?)
    ensures FieldResult(fmt, UpdateMainImageUrl, m).Ok? <==>
      ("mainImageUrl" in m ==> NonEmptyText(m["mainImageUrl"]) && fmt.isUri(m["mainImageUrl"].s))
    ensures FieldResult(fmt, UpdateSlug, m).Ok? <==> ("slug" in m ==> TextOfLength(m["slug"], 5, 100))
  {
  }

  lemma UpdateNumbersSpec(fmt: Formats, m: map<string, Json>)
    ensures FieldResult(fmt, UpdatePrice, m).Ok? <==> ("price" in m ==> NumberAtLeast(m["price"], 0.0))
    ensures FieldResult(fmt, UpdateDiscount, m).Ok? <==> ("discount" in m ==> NumberBetween(m["discount"], 0.0, 100.0))
    ensures FieldResult(fmt, UpdateNumberInStock, m).Ok? <==> ("numberInStock" in m ==> NumberAtLeast(m["numberInStock"], 0.0))
  {
  }

  lemma UpdateListsSpec(fmt: Formats, m: map<string, Json>)
    ensures FieldResult(fmt, UpdateCategories, m).Ok? <==> ("categories" in m ==> IdArray(fmt, m["categories"]))
    ensures FieldResult(fmt, UpdateCollections, m).Ok? <==> ("collections" in m ==> IdArray(fmt, m["collections"]))
    ensures FieldResult(fmt, UpdateTags, m).Ok? <==> ("tags" in m ==> IdArray(fmt, m["tags"]))
    ensures FieldResult(fmt, UpdateImageUrls, m).Ok? <==> ("imageUrls" in m ==> UriArray(fmt, m["imageUrls"]))
    ensures FieldResult(fmt, UpdateAttributes, m).Ok? <==> ("additionalAttributes" in m ==> m["additionalAttributes"].JObj?)
  {
    IdFieldSpec(fmt, m, "categories");
    IdFieldSpec(fmt, m, "collections");
    IdFieldSpec(fmt, m, "tags");
    if "imageUrls" in m { UpdateImagesSpec(fmt, m["imageUrls"], [Key("imageUrls")]); }
  }

  /** `ValidUpdate` is the conjunction of the conditions of the twelve keys. */
  lemma ValidUpdateByKey(fmt: Formats, body: Json)
    requires body.JObj?
    ensures ValidUpdate(fmt, body) <==>
      && body.fields.Keys <= UpdateKeys
      && FieldResult(fmt, UpdateTitle, body.fields).Ok? && FieldResult(fmt, UpdateCategories, body.fields).Ok?
      && FieldResult(fmt, UpdateCollections, body.fields).Ok? && FieldResult(fmt, UpdatePrice, body.fields).Ok?
      && FieldResult(fmt, UpdateDiscount, body.fields).Ok? && FieldResult(fmt, UpdateNumberInStock, body.fields).Ok?
      && FieldResult(fmt, UpdateDescription, body.fields).Ok? && FieldResult(fmt, UpdateImageUrls, body.fields).Ok?
      && FieldResult(fmt, UpdateMainImageUrl, body.fields).Ok? && FieldResult(fmt, UpdateAttributes, body.fields).Ok?
      && FieldResult(fmt, UpdateSlug, body.fields).Ok? && FieldResult(fmt, UpdateTags, body.fields).Ok?
  {
    UpdateTextsSpec(fmt, body.fields);
    UpdateNumbersSpec(fmt, body.fields);
    UpdateListsSpec(fmt, body.fields);
  }

  /** The update path accepts exactly the bodies `ValidUpdate` describes. */
  lemma UpdateAcceptsExactly(fmt: Formats, body: Json)
    ensures ValidateUpdate(fmt, body).Ok? <==> ValidUpdate(fmt, body)
  {
    ValidateObjectSpec(fmt, UpdateRules, body);
    if body.JObj? {
      UpdateTableShape();
      UpdateRulesPass(fmt, body.fields);
      ValidUpdateByKey(fmt, body);
    }
  }

  /** The update table neither trims nor fills in a default. */
  lemma UpdatePassThrough()
    ensures PassThrough(UpdateRules)
  {
    UpdateRulesAt();
    UpdateTableShape();
  }

  /** On success the update path returns the body exactly as sent. */
  lemma UpdateOutput(fmt: Formats, body: Json)
    requires ValidUpdate(fmt, body)
    ensures ValidateUpdate(fmt, body) == Ok(body.fields)
  {
    UpdateAcceptsExactly(fmt, body);
    UpdatePassThrough();
    ValidateObjectKeepsBody(fmt, UpdateRules, body);
  }

  /** Every key of the update table is optional: the empty body is accepted as is. */
  lemma UpdateEmptyBody(fmt: Formats)
    ensures ValidateUpdate(fmt, JObj(map[])) == Ok(map[])
  {
    UpdateOutput(fmt, JObj(map[]));
  }
}
