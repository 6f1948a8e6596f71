/** Worked cases of the two validators on concrete bodies. The URI check is
    abstract, so the `imageUrls` cases of the update path are stated for any
    URI check that refuses or accepts the string in question. */
module Examples {
  import opened Wrappers
  import opened Json
  import opened JsText
  import opened Joi
  import opened ProductRules
  import opened ProductFacts
  import opened UpdateFacts
  import opened RuleProperties
  import opened ProductStore

  /** A complete create body without a discount. */
  const Shirt: map<string, Json> := map[
    "title" := JStr("Shirt"),
    "categoryIds" := JArr([]),
    "collectionIds" := JArr([]),
    "tagIds" := JArr([]),
    "numberInStock" := JNum(10.0),
    "price" := JNum(19.99),
    "description" := JStr("A nice shirt"),
    "imageUrls" := JArr([JStr("a.jpg")]),
    "mainImageUrl" := JStr("main.jpg")
  ]

  lemma ShirtFields()
    ensures Shirt.Keys <= CreateKeys
    ensures "discount" !in Shirt && "additionalAttributes" !in Shirt
    ensures "title" in Shirt && Shirt["title"] == JStr("Shirt")
    ensures "categoryIds" in Shirt && Shirt["categoryIds"] == JArr([])
    ensures "collectionIds" in Shirt && Shirt["collectionIds"] == JArr([])
    ensures "tagIds" in Shirt && Shirt["tagIds"] == JArr([])
    ensures "numberInStock" in Shirt && Shirt["numberInStock"] == JNum(10.0)
    ensures "price" in Shirt && Shirt["price"] == JNum(19.99)
    ensures "description" in Shirt && Shirt["description"] == JStr("A nice shirt")
    ensures "imageUrls" in Shirt && Shirt["imageUrls"] == JArr([JStr("a.jpg")])
    ensures "mainImageUrl" in Shirt && Shirt["mainImageUrl"] == JStr("main.jpg")
  {
  }

  /** The shirt's strings meet the create rules' length and trimming conditions. */
  lemma ShirtTexts()
    ensures TextOfLength(JStr("Shirt"), 5, 50)
    ensures TextOfLength(JStr("A nice shirt"), 10, 1000)
    ensures NonEmptyText(JStr("main.jpg")) && JsLength("main.jpg") <= 1000
    ensures ImageTexts(JArr([JStr("a.jpg")]))
  {
    JsLengthBmp("Shirt");
    JsLengthBmp("A nice shirt");
    JsLengthBmp("main.jpg");
    JsLengthBmp("a.jpg");
    TrimOfTrimmed("a.jpg");
    assert [JStr("a.jpg")][0] == JStr("a.jpg");
  }

  /** Any body holding the shirt's fields, and possibly a discount, passes the create rules. */
  lemma ShirtLikeValid(fmt: Formats, m: map<string, Json>)
    requires m.Keys <= CreateKeys && "additionalAttributes" !in m
    requires "discount" in m ==> m["discount"] == JNum(150.0)
    requires "title" in m && m["title"] == JStr("Shirt")
    requires "categoryIds" in m && m["categoryIds"] == JArr([])
    requires "collectionIds" in m && m["collectionIds"] == JArr([])
    requires "tagIds" in m && m["tagIds"] == JArr([])
    requires "numberInStock" in m && m["numberInStock"] == JNum(10.0)
    requires "price" in m && m["price"] == JNum(19.99)
    requires "description" in m && m["description"] == JStr("A nice shirt")
    requires "imageUrls" in m && m["imageUrls"] == JArr([JStr("a.jpg")])
    requires "mainImageUrl" in m && m["mainImageUrl"] == JStr("main.jpg")
    ensures ValidCreate(fmt, JObj(m))
  {
    ShirtTexts();
  }

  lemma ShirtValid(fmt: Formats)
    ensures ValidCreate(fmt, JObj(Shirt))
  {
    ShirtFields();
    ShirtLikeValid(fmt, Shirt);
  }

  /** When trimming leaves the image list as it is, normalising only adds the default discount. */
  lemma NormalizeKeepsImages(m: map<string, Json>)
    requires "imageUrls" in m && m["imageUrls"].JArr? && TrimEach(m["imageUrls"].items) == m["imageUrls"].items
    ensures NormalizeCreate(m) == if "discount" in m then m else m["discount" := JNum(0.0)]
  {
    var d := if "discount" in m then m else m["discount" := JNum(0.0)];
    assert d["imageUrls" := m["imageUrls"]] == d;
  }

  lemma ShirtImagesTrimmed()
    ensures TrimEach([JStr("a.jpg")]) == [JStr("a.jpg")]
  {
    TrimOfTrimmed("a.jpg");
  }

  /** The shirt is accepted, and the output is the body with a zero discount added. */
  lemma ShirtCreated(fmt: Formats)
    ensures ValidateCreate(fmt, JObj(Shirt)) == Ok(Shirt["discount" := JNum(0.0)])
  {
    ShirtValid(fmt);
    CreateOutput(fmt, JObj(Shirt));
    ShirtFields();
    ShirtImagesTrimmed();
    NormalizeKeepsImages(Shirt);
  }

  /** The same shirt with the two-character title "Hi" is refused as too short. */
  lemma ShortTitleRefused(fmt: Formats)
    ensures ValidateCreate(fmt, JObj(Shirt["title" := JStr("Hi")])).Err?
    ensures Violation([Key("title")], TooShort(5)) in ValidateCreate(fmt, JObj(Shirt["title" := JStr("Hi")])).error
  {
    JsLengthBmp("Hi");
    CreateShortTitle(fmt, JObj(Shirt["title" := JStr("Hi")]));
  }

  lemma DiscountAboveCapRefused(fmt: Formats)
    ensures ValidateUpdate(fmt, JObj(map["discount" := JNum(150.0)])).Err?
  {
    UpdateDiscountAbove(fmt, JObj(map["discount" := JNum(150.0)]));
  }

  lemma DiscountWithinCapAccepted(fmt: Formats)
    ensures ValidateUpdate(fmt, JObj(map["discount" := JNum(50.0)])) == Ok(map["discount" := JNum(50.0)])
  {
    UpdateOutput(fmt, JObj(map["discount" := JNum(50.0)]));
  }

  /** An image list holding a string the URI check refuses is refused. */
  lemma NonUriImageRefused(fmt: Formats)
    requires !fmt.isUri("not-a-url")
    ensures ValidateUpdate(fmt, JObj(map["imageUrls" := JArr([JStr("not-a-url")])])).Err?
  {
    var images := JArr([JStr("not-a-url")]);
    assert images.items[0] == JStr("not-a-url");
    UpdateAcceptsExactly(fmt, JObj(map["imageUrls" := images]));
  }

  /** An image list of URIs is accepted and returned as sent. */
  lemma UriImageAccepted(fmt: Formats)
    requires fmt.isUri("https://example.com/a.jpg")
    ensures ValidateUpdate(fmt, JObj(map["imageUrls" := JArr([JStr("https://example.com/a.jpg")])]))
         == Ok(map["imageUrls" := JArr([JStr("https://example.com/a.jpg")])])
  {
    UpdateOutput(fmt, JObj(map["imageUrls" := JArr([JStr("https://example.com/a.jpg")])]));
  }

  /** The create path accepts a discount of 150 that the update path refuses. */
  lemma DiscountAsymmetry(fmt: Formats)
    ensures ValidateCreate(fmt, JObj(Shirt["discount" := JNum(150.0)])) == Ok(Shirt["discount" := JNum(150.0)])
    ensures ValidateUpdate(fmt, JObj(map["discount" := JNum(150.0)])).Err?
  {
    var m := Shirt["discount" := JNum(150.0)];
    ShirtFields();
    ShirtLikeValid(fmt, m);
    CreateOutput(fmt, JObj(m));
    ShirtImagesTrimmed();
    NormalizeKeepsImages(m);
    DiscountAboveCapRefused(fmt);
  }

  /** The shirt with the title "x    " is accepted by the create path as written,
      yet the record built from it cannot be saved; the corrected rules refuse it. */
  lemma PaddedShirtUnstorable(fmt: Formats)
    ensures var b := JObj(Shirt["title" := JStr(PaddedTitle)]);
      && ValidateCreate(fmt, b).Ok?
      && !Saves(fmt, ProductFromCreate(ValidateCreate(fmt, b).value, "cotton-shirt"))
      && ValidateCreateTrimmed(fmt, b).Err?
  {
    ShirtValid(fmt);
    JsLengthBmp("cotton-shirt");
    CreateAcceptsPaddedTitle(fmt, JObj(Shirt), "cotton-shirt");
    CreateTrimmedRefusesPadded(fmt, JObj(Shirt["title" := JStr(PaddedTitle)]));
  }
}
