/** What the two product validators accept and return, stated against the
    field-by-field reference predicates of ProductRules, and the properties
    that follow: required keys, bounds, defaults, idempotence. */
module ProductFacts {
  import opened Wrappers
  import opened Json
  import opened JsText
  import opened Joi
  import opened JoiFacts
  import opened ProductRules

  // ---------------------------------------------------------------------
  // The composite schemas of the tables

  lemma IdListSpec(fmt: Formats, v: Json, path: seq<Step>)
    ensures Check(fmt, IdList, v, path).Ok? <==> IdArray(fmt, v)
    ensures Check(fmt, IdList, v, path).Ok? ==> Check(fmt, IdList, v, path).value == v
  {
    if v.JArr? {
      CheckItemsSpec(fmt, ObjectIdText, v.items, path);
      if Check(fmt, IdList, v, path).Ok? {
        TrimFreeKeepsValue(fmt, IdList, v, path);
      }
    }
  }

  lemma ImageTextSpec(fmt: Formats, x: Json, path: seq<Step>)
    ensures Check(fmt, TrimmedImages.item, x, path).Ok? <==>
      x.JStr? && Trim(x.s) != "" && JsLength(Trim(x.s)) <= 1000
    ensures Check(fmt, TrimmedImages.item, x, path).Ok? ==> Check(fmt, TrimmedImages.item, x, path).value == JStr(Trim(x.s))
  {
  }

  lemma ImagesAccepted(fmt: Formats, items: seq<Json>, path: seq<Step>)
    ensures CheckItems(fmt, TrimmedImages.item, items, path).Ok? <==> ImageTexts(JArr(items))
  {
    CheckItemsSpec(fmt, TrimmedImages.item, items, path);
    forall i | 0 <= i < |items| {
      ImageTextSpec(fmt, items[i], path + [Index(i)]);
    }
  }

  lemma ImagesTrimmed(fmt: Formats, items: seq<Json>, path: seq<Step>)
    requires CheckItems(fmt, TrimmedImages.item, items, path).Ok?
    ensures CheckItems(fmt, TrimmedImages.item, items, path).value == TrimEach(items)
  {
    CheckItemsSpec(fmt, TrimmedImages.item, items, path);
    var ws := CheckItems(fmt, TrimmedImages.item, items, path).value;
    forall i | 0 <= i < |items| ensures ws[i] == TrimEach(items)[i] {
      ImageTextSpec(fmt, items[i], path + [Index(i)]);
    }
  }

  lemma CreateImagesSpec(fmt: Formats, v: Json, path: seq<Step>)
    ensures Check(fmt, TrimmedImages, v, path).Ok? <==> ImageTexts(v)
    ensures Check(fmt, TrimmedImages, v, path).Ok? ==> Check(fmt, TrimmedImages, v, path).value == JArr(TrimEach(v.items))
  {
    if v.JArr? {
      ImagesAccepted(fmt, v.items, path);
      if CheckItems(fmt, TrimmedImages.item, v.items, path).Ok? {
        ImagesTrimmed(fmt, v.items, path);
      }
    }
  }

  lemma UpdateImagesSpec(fmt: Formats, v: Json, path: seq<Step>)
    ensures Check(fmt, UriList, v, path).Ok? <==> UriArray(fmt, v)
  {
    var item := Str(None, None, false, false, Uri);
    if v.JArr? {
      CheckItemsSpec(fmt, item, v.items, path);
    }
  }

  lemma AttributesSpec(fmt: Formats, v: Json, path: seq<Step>)
    ensures Check(fmt, ScalarMap, v, path).Ok? <==> ScalarAttributes(v)
    ensures Check(fmt, ScalarMap, v, path).Ok? ==> Check(fmt, ScalarMap, v, path).value == v
  {
    var s := Pattern(AnyString, Either(Num(None, None), AnyString));
    if Check(fmt, s, v, path).Ok? {
      TrimFreeKeepsValue(fmt, s, v, path);
    }
  }

  lemma IdFieldSpec(fmt: Formats, m: map<string, Json>, k: string)
    ensures k in m ==> (Check(fmt, IdList, m[k], [Key(k)]).Ok? <==> IdArray(fmt, m[k]))
    ensures k in m && IdArray(fmt, m[k]) ==> Check(fmt, IdList, m[k], [Key(k)]).value == m[k]
  {
    if k in m { IdListSpec(fmt, m[k], [Key(k)]); }
  }

  // ---------------------------------------------------------------------
  // The create path

  lemma CreateRulesAt()
    ensures |CreateRules| == 11
    ensures CreateRules[0] == CreateTitle && CreateRules[1] == CreateCategoryIds && CreateRules[2] == CreateCollectionIds
    ensures CreateRules[3] == CreateTagIds && CreateRules[4] == CreateNumberInStock && CreateRules[5] == CreatePrice
    ensures CreateRules[6] == CreateDiscount && CreateRules[7] == CreateDescription && CreateRules[8] == CreateImageUrls
    ensures CreateRules[9] == CreateMainImageUrl && CreateRules[10] == CreateAttributes
  {
  }

  lemma CreateTableShape()
    ensures KeysOf(CreateRules) == CreateKeys
    ensures DistinctKeys(CreateRules)
  {
    CreateRulesAt();
    assert forall k :: k in KeysOf(CreateRules) ==> k in CreateKeys;
    assert CreateTitle.key in KeysOf(CreateRules);
    assert CreateCategoryIds.key in KeysOf(CreateRules);
    assert CreateCollectionIds.key in KeysOf(CreateRules);
    assert CreateTagIds.key in KeysOf(CreateRules);
    assert CreateNumberInStock.key in KeysOf(CreateRules);
    assert CreatePrice.key in KeysOf(CreateRules);
    assert CreateDiscount.key in KeysOf(CreateRules);
    assert CreateDescription.key in KeysOf(CreateRules);
    assert CreateImageUrls.key in KeysOf(CreateRules);
    assert CreateMainImageUrl.key in KeysOf(CreateRules);
    assert CreateAttributes.key in KeysOf(CreateRules);
  }

  /** The create table passes when each of its eleven keys passes. */
  lemma CreateRulesPass(fmt: Formats, m: map<string, Json>)
    ensures (forall i :: 0 <= i < |CreateRules| ==> FieldResult(fmt, CreateRules[i], m).Ok?) <==>
      && FieldResult(fmt, CreateTitle, m).Ok? && FieldResult(fmt, CreateCategoryIds, m).Ok?
      && FieldResult(fmt, CreateCollectionIds, m).Ok? && FieldResult(fmt, CreateTagIds, m).Ok?
      && FieldResult(fmt, CreateNumberInStock, m).Ok? && FieldResult(fmt, CreatePrice, m).Ok?
      && FieldResult(fmt, CreateDiscount, m).Ok? && FieldResult(fmt, CreateDescription, m).Ok?
      && FieldResult(fmt, CreateImageUrls, m).Ok? && FieldResult(fmt, CreateMainImageUrl, m).Ok?
      && FieldResult(fmt, CreateAttributes, m).Ok?
  {
    CreateRulesAt();
  }

  lemma CreateTitleSpec(fmt: Formats, m: map<string, Json>)
    ensures FieldResult(fmt, CreateTitle, m).Ok? <==> "title" in m && TextOfLength(m["title"], 5, 50)
  {
  }

  lemma CreateIdsSpec(fmt: Formats, m: map<string, Json>)
    ensures FieldResult(fmt, CreateCategoryIds, m).Ok? <==> "categoryIds" in m && IdArray(fmt, m["categoryIds"])
    ensures FieldResult(fmt, CreateCollectionIds, m).Ok? <==> "collectionIds" in m && IdArray(fmt, m["collectionIds"])
    ensures FieldResult(fmt, CreateTagIds, m).Ok? <==> "tagIds" in m && IdArray(fmt, m["tagIds"])
  {
    IdFieldSpec(fmt, m, "categoryIds");
    IdFieldSpec(fmt, m, "collectionIds");
    IdFieldSpec(fmt, m, "tagIds");
  }

  lemma CreateNumbersSpec(fmt: Formats, m: map<string, Json>)
    ensures FieldResult(fmt, CreateNumberInStock, m).Ok? <==> "numberInStock" in m && NumberBetween(m["numberInStock"], 0.0, 255.0)
    ensures FieldResult(fmt, CreatePrice, m).Ok? <==> "price" in m && NumberAtLeast(m["price"], 0.0)
    ensures FieldResult(fmt, CreateDiscount, m).Ok? <==> ("discount" in m ==> NumberAtLeast(m["discount"], 0.0))
  {
  }

  lemma CreateTextsSpec(fmt: Formats, m: map<string, Json>)
    ensures FieldResult(fmt, CreateDescription, m).Ok? <==> "description" in m && TextOfLength(m["description"], 10, 1000)
    ensures FieldResult(fmt, CreateMainImageUrl, m).Ok? <==>
      "mainImageUrl" in m && NonEmptyText(m["mainImageUrl"]) && JsLength(m["mainImageUrl"].s) <= 1000
  {
  }

  lemma CreateImageUrlsSpec(fmt: Formats, m: map<string, Json>)
    ensures FieldResult(fmt, CreateImageUrls, m).Ok? <==> "imageUrls" in m && ImageTexts(m["imageUrls"])
    ensures FieldResult(fmt, CreateImageUrls, m).Ok? ==>
      FieldResult(fmt, CreateImageUrls, m).value == Some(JArr(TrimEach(m["imageUrls"].items)))
  {
    if "imageUrls" in m { CreateImagesSpec(fmt, m["imageUrls"], [Key("imageUrls")]); }
  }

  lemma CreateAttributesSpec(fmt: Formats, m: map<string, Json>)
    ensures FieldResult(fmt, CreateAttributes, m).Ok? <==> ("additionalAttributes" in m ==> ScalarAttributes(m["additionalAttributes"]))
  {
    if "additionalAttributes" in m { AttributesSpec(fmt, m["additionalAttributes"], [Key("additionalAttributes")]); }
  }

  /** `ValidCreate` is the conjunction of the conditions of the eleven keys. */
  lemma ValidCreateByKey(fmt: Formats, body: Json)
    requires body.JObj?
    ensures ValidCreate(fmt, body) <==>
      && body.fields.Keys <= CreateKeys
      && FieldResult(fmt, CreateTitle, body.fields).Ok? && FieldResult(fmt, CreateCategoryIds, body.fields).Ok?
      && FieldResult(fmt, CreateCollectionIds, body.fields).Ok? && FieldResult(fmt, CreateTagIds, body.fields).Ok?
      && FieldResult(fmt, CreateNumberInStock, body.fields).Ok? && FieldResult(fmt, CreatePrice, body.fields).Ok?
      && FieldResult(fmt, CreateDiscount, body.fields).Ok? && FieldResult(fmt, CreateDescription, body.fields).Ok?
      && FieldResult(fmt, CreateImageUrls, body.fields).Ok? && FieldResult(fmt, CreateMainImageUrl, body.fields).Ok?
      && FieldResult(fmt, CreateAttributes, body.fields).Ok?
  {
    var m := body.fields;
    CreateTitleSpec(fmt, m);
    CreateIdsSpec(fmt, m);
    CreateNumbersSpec(fmt, m);
    CreateTextsSpec(fmt, m);
    CreateImageUrlsSpec(fmt, m);
    CreateAttributesSpec(fmt, m);
  }

  /** The create path accepts exactly the bodies `ValidCreate` describes. */
  lemma CreateAcceptsExactly(fmt: Formats, body: Json)
    ensures ValidateCreate(fmt, body).Ok? <==> ValidCreate(fmt, body)
  {
    ValidateObjectSpec(fmt, CreateRules, body);
    if body.JObj? {
      CreateTableShape();
      CreateRulesPass(fmt, body.fields);
      ValidCreateByKey(fmt, body);
    }
  }

  /** Where each key of the create table puts its result in the output. */
  lemma CreateOutputByKey(fmt: Formats, m: map<string, Json>)
    requires CheckFields(fmt, CreateRules, m).Ok?
    ensures var out := CheckFields(fmt, CreateRules, m).value;
      && out.Keys <= CreateKeys
      && Yields(out, CreateTitle.key, FieldResult(fmt, CreateTitle, m))
      && Yields(out, CreateCategoryIds.key, FieldResult(fmt, CreateCategoryIds, m))
      && Yields(out, CreateCollectionIds.key, FieldResult(fmt, CreateCollectionIds, m))
      && Yields(out, CreateTagIds.key, FieldResult(fmt, CreateTagIds, m))
      && Yields(out, CreateNumberInStock.key, FieldResult(fmt, CreateNumberInStock, m))
      && Yields(out, CreatePrice.key, FieldResult(fmt, CreatePrice, m))
      && Yields(out, CreateDiscount.key, FieldResult(fmt, CreateDiscount, m))
      && Yields(out, CreateDescription.key, FieldResult(fmt, CreateDescription, m))
      && Yields(out, CreateImageUrls.key, FieldResult(fmt, CreateImageUrls, m))
      && Yields(out, CreateMainImageUrl.key, FieldResult(fmt, CreateMainImageUrl, m))
      && Yields(out, CreateAttributes.key, FieldResult(fmt, CreateAttributes, m))
  {
    CheckFieldsOutput(fmt, CreateRules, m);
    CreateTableShape();
    CreateRulesAt();
  }

  /** The value each key of the create table yields for a body `ValidCreate` accepts. */
  lemma CreatePlainValues(fmt: Formats, m: map<string, Json>)
    requires ValidCreate(fmt, JObj(m))
    ensures FieldResult(fmt, CreateTitle, m) == Ok(Some(m["title"]))
    ensures FieldResult(fmt, CreateNumberInStock, m) == Ok(Some(m["numberInStock"]))
    ensures FieldResult(fmt, CreatePrice, m) == Ok(Some(m["price"]))
    ensures FieldResult(fmt, CreateDiscount, m) == Ok(Some(if "discount" in m then m["discount"] else JNum(0.0)))
    ensures FieldResult(fmt, CreateDescription, m) == Ok(Some(m["description"]))
    ensures FieldResult(fmt, CreateMainImageUrl, m) == Ok(Some(m["mainImageUrl"]))
  {
  }

  lemma CreateCompositeValues(fmt: Formats, m: map<string, Json>)
    requires ValidCreate(fmt, JObj(m))
    ensures FieldResult(fmt, CreateCategoryIds, m) == Ok(Some(m["categoryIds"]))
    ensures FieldResult(fmt, CreateCollectionIds, m) == Ok(Some(m["collectionIds"]))
    ensures FieldResult(fmt, CreateTagIds, m) == Ok(Some(m["tagIds"]))
    ensures FieldResult(fmt, CreateImageUrls, m) == Ok(Some(JArr(TrimEach(m["imageUrls"].items))))
    ensures FieldResult(fmt, CreateAttributes, m) ==
      Ok(if "additionalAttributes" in m then Some(m["additionalAttributes"]) else None)
  {
    CreateIdsSpec(fmt, m);
    PresentValue(fmt, CreateCategoryIds, m);
    PresentValue(fmt, CreateCollectionIds, m);
    PresentValue(fmt, CreateTagIds, m);
    CreateImageUrlsSpec(fmt, m);
    if "additionalAttributes" in m {
      CreateAttributesSpec(fmt, m);
      PresentValue(fmt, CreateAttributes, m);
    }
  }

  /** An output that agrees with `NormalizeCreate(m)` key by key is that map. */
  lemma NormalizedByKey(m: map<string, Json>, out: map<string, Json>)
    requires m.Keys <= CreateKeys && out.Keys <= CreateKeys
    requires "title" in m && "title" in out && out["title"] == m["title"]
    requires "categoryIds" in m && "categoryIds" in out && out["categoryIds"] == m["categoryIds"]
    requires "collectionIds" in m && "collectionIds" in out && out["collectionIds"] == m["collectionIds"]
    requires "tagIds" in m && "tagIds" in out && out["tagIds"] == m["tagIds"]
    requires "numberInStock" in m && "numberInStock" in out && out["numberInStock"] == m["numberInStock"]
    requires "price" in m && "price" in out && out["price"] == m["price"]
    requires "discount" in out && out["discount"] == if "discount" in m then m["discount"] else JNum(0.0)
    requires "description" in m && "description" in out && out["description"] == m["description"]
    requires "imageUrls" in m && m["imageUrls"].JArr? && "imageUrls" in out
    requires out["imageUrls"] == JArr(TrimEach(m["imageUrls"].items))
    requires "mainImageUrl" in m && "mainImageUrl" in out && out["mainImageUrl"] == m["mainImageUrl"]
    requires "additionalAttributes" in out <==> "additionalAttributes" in m
    requires "additionalAttributes" in m ==> out["additionalAttributes"] == m["additionalAttributes"]
    ensures out == NormalizeCreate(m)
  {
    var n := NormalizeCreate(m);
    forall k | k in CreateKeys
      ensures (k in out <==> k in n) && (k in out ==> out[k] == n[k])
    {
    }
    assert out.Keys == n.Keys;
  }

  /** For a body `ValidCreate` accepts, the create table outputs its normal form. */
  lemma CreateFieldsOutput(fmt: Formats, m: map<string, Json>)
    requires ValidCreate(fmt, JObj(m))
    ensures CheckFields(fmt, CreateRules, m) == Ok(NormalizeCreate(m))
  {
    CreateAcceptsExactly(fmt, JObj(m));
    CreateOutputByKey(fmt, m);
    CreatePlainValues(fmt, m);
    CreateCompositeValues(fmt, m);
    NormalizedByKey(m, CheckFields(fmt, CreateRules, m).value);
  }

  /** On success the create path returns the body with `discount` defaulted to 0
      and the `imageUrls` entries trimmed, and nothing else changed. */
  lemma CreateOutput(fmt: Formats, body: Json)
    requires ValidCreate(fmt, body)
    ensures ValidateCreate(fmt, body) == Ok(NormalizeCreate(body.fields))
  {
    CreateAcceptsExactly(fmt, body);
    CreateFieldsOutput(fmt, body.fields);
  }

  /** Every schema of the create table is stable and the default discount passes its own rule. */
  lemma CreateTableStable(fmt: Formats)
    ensures StableTable(fmt, CreateRules)
  {
    CreateRulesAt();
    CreateTableShape();
  }

  /** Sending the normalised body back through the create path accepts it and
      returns it unchanged. */
  lemma CreateIdempotent(fmt: Formats, body: Json)
    requires ValidateCreate(fmt, body).Ok?
    ensures ValidateCreate(fmt, JObj(ValidateCreate(fmt, body).value)) == ValidateCreate(fmt, body)
  {
    CreateTableStable(fmt);
    ValidateObjectIdempotent(fmt, CreateRules, body);
  }
}
