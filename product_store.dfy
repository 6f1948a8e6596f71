/** The stored product record of models/product.js:4-75 and what the store
    accepts: mongoose first applies the `trim` setters of `title` and
    `mainImageUrl`, then checks `required`, `minlength`/`maxlength` and
    `min`/`max` on the result. The record is related to the output of the
    create path, which shows that the create rules, as written, let through
    titles and main image URLs that the store then refuses; a corrected
    create table is given with the property that what it accepts is storable. */
module ProductStore {
  import opened Wrappers
  import opened Json
  import opened JsText
  import opened Joi
  import opened JoiFacts
  import opened ProductRules
  import opened ProductFacts

  /** A product record as the store holds it. */
  datatype Product = Product(
    title: string,
    price: real,
    discount: real,
    description: string,
    imageUrls: seq<string>,
    mainImageUrl: string,
    numberInStock: real,
    categories: seq<string>,
    collections: seq<string>,
    tags: seq<string>,
    additionalAttributes: map<string, Json>,
    slug: string)

  /** The `trim: true` setters of `title` and `mainImageUrl`, applied when a record is cast. */
  function StoreCast(p: Product): (r: Product)
    ensures r.title == Trim(p.title) && r.mainImageUrl == Trim(p.mainImageUrl)
    ensures r.(title := p.title, mainImageUrl := p.mainImageUrl) == p
    ensures IsTrimmed(r.title) && IsTrimmed(r.mainImageUrl)
    ensures JsLength(r.title) <= JsLength(p.title) && JsLength(r.mainImageUrl) <= JsLength(p.mainImageUrl)
  {
    p.(title := Trim(p.title), mainImageUrl := Trim(p.mainImageUrl))
  }

  /** Casting a record that is already trimmed changes nothing, and casting twice is casting once. */
  lemma StoreCastFixpoint(p: Product)
    ensures StoreCast(p) == p <==> IsTrimmed(p.title) && IsTrimmed(p.mainImageUrl)
    ensures StoreCast(StoreCast(p)) == StoreCast(p)
  {
    if IsTrimmed(p.title) && IsTrimmed(p.mainImageUrl) {
      TrimOfTrimmed(p.title);
      TrimOfTrimmed(p.mainImageUrl);
    }
    TrimOfTrimmed(StoreCast(p).title);
    TrimOfTrimmed(StoreCast(p).mainImageUrl);
  }

  /** `slug`: required, 5 to 100 long. */
  predicate ValidSlug(slug: string) {
    5 <= JsLength(slug) <= 100
  }

  predicate AllObjectIds(fmt: Formats, ids: seq<string>) {
    forall i :: 0 <= i < |ids| ==> fmt.isObjectId(ids[i])
  }

  /** The field constraints of the product schema, on a cast record. A required
      string must be non-empty; a minimum length above zero already implies it. */
  predicate ValidStoredProduct(fmt: Formats, p: Product) {
    && 5 <= JsLength(p.title) <= 255
    && 0.0 <= p.price
    && 0.0 <= p.discount
    && 10 <= JsLength(p.description) <= 1000
    && p.mainImageUrl != "" && JsLength(p.mainImageUrl) <= 1000
    && 0.0 <= p.numberInStock <= 255.0
    && AllObjectIds(fmt, p.categories) && AllObjectIds(fmt, p.collections) && AllObjectIds(fmt, p.tags)
    && ValidSlug(p.slug)
  }

  /** The store accepts `p` when its cast form meets the schema's constraints. */
  predicate Saves(fmt: Formats, p: Product) {
    ValidStoredProduct(fmt, StoreCast(p))
  }

  // ---------------------------------------------------------------------
  // From a create-path output to a record

  function TextOf(v: Json): string {
    if v.JStr? then v.s else ""
  }

  function NumberOf(v: Json): real {
    if v.JNum? then v.n else 0.0
  }

  function TextsOf(v: Json): (r: seq<string>)
    ensures v.JArr? ==> |r| == |v.items| && forall i :: 0 <= i < |r| ==> r[i] == TextOf(v.items[i])
  {
    if v.JArr? then seq(|v.items|, i requires 0 <= i < |v.items| => TextOf(v.items[i])) else []
  }

  function Lookup(m: map<string, Json>, k: string): Json {
    if k in m then m[k] else JNull
  }

  /** The record built from a create-path output and a slug: the id lists go to
      `categories`, `collections` and `tags`, and absent attributes become `{}`,
      the schema's default. */
  function ProductFromCreate(out: map<string, Json>, slug: string): Product {
    Product(
      TextOf(Lookup(out, "title")),
      NumberOf(Lookup(out, "price")),
      NumberOf(Lookup(out, "discount")),
      TextOf(Lookup(out, "description")),
      TextsOf(Lookup(out, "imageUrls")),
      TextOf(Lookup(out, "mainImageUrl")),
      NumberOf(Lookup(out, "numberInStock")),
      TextsOf(Lookup(out, "categoryIds")),
      TextsOf(Lookup(out, "collectionIds")),
      TextsOf(Lookup(out, "tagIds")),
      if "additionalAttributes" in out && out["additionalAttributes"].JObj? then out["additionalAttributes"].fields else map[],
      slug)
  }

  lemma IdsStored(fmt: Formats, v: Json)
    requires IdArray(fmt, v)
    ensures AllObjectIds(fmt, TextsOf(v))
  {
  }

  /** The normal form of a body leaves every key but `discount` and `imageUrls` as sent. */
  lemma NormalizeCreateKeeps(m: map<string, Json>, k: string)
    requires k in m && k != "discount" && k != "imageUrls"
    ensures k in NormalizeCreate(m) && NormalizeCreate(m)[k] == m[k]
  {
  }

  /** The record built from an accepted body takes its fields from the body. */
  lemma CreateRecordFields(fmt: Formats, m: map<string, Json>, slug: string)
    requires ValidCreate(fmt, JObj(m))
    ensures var p := ProductFromCreate(NormalizeCreate(m), slug);
      && p.title == m["title"].s && p.mainImageUrl == m["mainImageUrl"].s && p.description == m["description"].s
      && p.price == m["price"].n && p.numberInStock == m["numberInStock"].n && 0.0 <= p.discount
      && p.categories == TextsOf(m["categoryIds"]) && p.collections == TextsOf(m["collectionIds"])
      && p.tags == TextsOf(m["tagIds"]) && p.slug == slug
  {
    NormalizeCreateKeeps(m, "title");
    NormalizeCreateKeeps(m, "mainImageUrl");
    NormalizeCreateKeeps(m, "description");
    NormalizeCreateKeeps(m, "price");
    NormalizeCreateKeeps(m, "numberInStock");
    NormalizeCreateKeeps(m, "categoryIds");
    NormalizeCreateKeeps(m, "collectionIds");
    NormalizeCreateKeeps(m, "tagIds");
  }

  /** A body the create path accepts is storable once its title and main image
      URL carry no surrounding spaces; saving it then changes nothing. */
  lemma CreateStorableWhenTrimmed(fmt: Formats, body: Json, slug: string)
    requires ValidCreate(fmt, body) && ValidSlug(slug)
    requires IsTrimmed(body.fields["title"].s) && IsTrimmed(body.fields["mainImageUrl"].s)
    ensures ValidateCreate(fmt, body).Ok?
    ensures var p := ProductFromCreate(ValidateCreate(fmt, body).value, slug);
      StoreCast(p) == p && ValidStoredProduct(fmt, p)
  {
    CreateOutput(fmt, body);
    var m := body.fields;
    var p := ProductFromCreate(NormalizeCreate(m), slug);
    CreateRecordFields(fmt, m, slug);
    IdsStored(fmt, m["categoryIds"]);
    IdsStored(fmt, m["collectionIds"]);
    IdsStored(fmt, m["tagIds"]);
    StoreCastFixpoint(p);
  }

  /** Before the cast, the record built from any body the create path accepts
      meets every field constraint of the product schema. */
  lemma CreateFieldsWithinStore(fmt: Formats, body: Json, slug: string)
    requires ValidCreate(fmt, body) && ValidSlug(slug)
    ensures ValidateCreate(fmt, body).Ok?
    ensures ValidStoredProduct(fmt, ProductFromCreate(ValidateCreate(fmt, body).value, slug))
  {
    CreateOutput(fmt, body);
    var m := body.fields;
    CreateRecordFields(fmt, m, slug);
    IdsStored(fmt, m["categoryIds"]);
    IdsStored(fmt, m["collectionIds"]);
    IdsStored(fmt, m["tagIds"]);
  }

  /** A record that meets the constraints as sent is saved exactly when its
      trimmed title is still at least 5 long and its trimmed main image URL is
      still non-empty: trimming can break no other constraint. */
  lemma SavesWhenValidBeforeCast(fmt: Formats, p: Product)
    requires ValidStoredProduct(fmt, p)
    ensures Saves(fmt, p) <==> 5 <= JsLength(Trim(p.title)) && Trim(p.mainImageUrl) != ""
  {
  }

  /** Which bodies accepted by the create path as written the store saves:
      exactly those whose title keeps at least 5 characters and whose main
      image URL stays non-empty once trimmed. */
  lemma CreateSavesExactly(fmt: Formats, body: Json, slug: string)
    requires ValidCreate(fmt, body) && ValidSlug(slug)
    ensures ValidateCreate(fmt, body).Ok?
    ensures Saves(fmt, ProductFromCreate(ValidateCreate(fmt, body).value, slug))
      <==> 5 <= JsLength(Trim(body.fields["title"].s)) && Trim(body.fields["mainImageUrl"].s) != ""
  {
    CreateFieldsWithinStore(fmt, body, slug);
    var m := body.fields;
    CreateOutput(fmt, body);
    var p := ProductFromCreate(NormalizeCreate(m), slug);
    CreateRecordFields(fmt, m, slug);
    assert p.title == m["title"].s && p.mainImageUrl == m["mainImageUrl"].s;
    SavesWhenValidBeforeCast(fmt, p);
  }

  // ---------------------------------------------------------------------
  // The create rules as written let through values the store refuses

  /** A title of five characters of which four are trailing spaces. */
  const PaddedTitle: string := "x    "

  /** A main image URL made only of spaces. */
  const BlankUrl: string := "   "

  /** A trailing space adds one to the length and disappears under trimming. */
  lemma AppendSpace(s: string)
    ensures JsLength(s + " ") == JsLength(s) + 1
    ensures TrimEnd(s + " ") == TrimEnd(s)
  {
    assert (s + " ")[..|s|] == s;
  }

  lemma PaddedTitleFacts()
    ensures JsLength(PaddedTitle) == 5 && Trim(PaddedTitle) == "x" && JsLength(Trim(PaddedTitle)) == 1
  {
    AppendSpace("x");
    AppendSpace("x ");
    AppendSpace("x  ");
    AppendSpace("x   ");
    assert "x" + " " == "x ";
    assert "x " + " " == "x  ";
    assert "x  " + " " == "x   ";
    assert "x   " + " " == PaddedTitle;
    assert TrimEnd("x") == "x";
    assert TrimStart("x") == "x";
  }

  lemma BlankUrlFacts()
    ensures JsLength(BlankUrl) == 3 && Trim(BlankUrl) == ""
  {
    AppendSpace("");
    AppendSpace(" ");
    AppendSpace("  ");
    assert "" + " " == " ";
    assert " " + " " == "  ";
    assert "  " + " " == BlankUrl;
  }

  /** Replacing the title of any accepted body by `PaddedTitle` keeps it accepted
      by the create path, yet the store refuses the record: its trimmed title is too short. */
  lemma CreateAcceptsPaddedTitle(fmt: Formats, body: Json, slug: string)
    requires ValidCreate(fmt, body) && ValidSlug(slug)
    ensures var b := JObj(body.fields["title" := JStr(PaddedTitle)]);
      && ValidateCreate(fmt, b).Ok?
      && !Saves(fmt, ProductFromCreate(ValidateCreate(fmt, b).value, slug))
  {
    PaddedTitleFacts();
    var b := JObj(body.fields["title" := JStr(PaddedTitle)]);
    assert ValidCreate(fmt, b);
    CreateOutput(fmt, b);
    CreateRecordFields(fmt, b.fields, slug);
  }

  /** Replacing the main image URL of any accepted body by `BlankUrl` keeps it
      accepted by the create path, yet the store refuses the record: once trimmed
      the required URL is empty. */
  lemma CreateAcceptsBlankUrl(fmt: Formats, body: Json, slug: string)
    requires ValidCreate(fmt, body) && ValidSlug(slug)
    ensures var b := JObj(body.fields["mainImageUrl" := JStr(BlankUrl)]);
      && ValidateCreate(fmt, b).Ok?
      && !Saves(fmt, ProductFromCreate(ValidateCreate(fmt, b).value, slug))
  {
    BlankUrlFacts();
    var b := JObj(body.fields["mainImageUrl" := JStr(BlankUrl)]);
    assert ValidCreate(fmt, b);
    CreateOutput(fmt, b);
    CreateRecordFields(fmt, b.fields, slug);
  }

  // ---------------------------------------------------------------------
  // The corrected create rules: title and main image URL trimmed first

  /** `Joi.string().trim().min(5).max(50).required()`. */
  const TrimmedTitle := Field("title", Str(Some(5), Some(50), true, false, AnyText), Required)

  /** `Joi.string().trim().max(1000).required()`. */
  const TrimmedMainImageUrl := Field("mainImageUrl", Str(None, Some(1000), true, false, AnyText), Required)

  /** The create table with the two trims the store performs brought forward. */
  const CreateRulesTrimmed: seq<Field> := CreateRules[0 := TrimmedTitle][9 := TrimmedMainImageUrl]

  function ValidateCreateTrimmed(fmt: Formats, body: Json): Result<map<string, Json>, set<Violation>> {
    ValidateObject(fmt, CreateRulesTrimmed, body)
  }

  lemma CreateRulesTrimmedAt()
    ensures |CreateRulesTrimmed| == 11
    ensures CreateRulesTrimmed[0] == TrimmedTitle && CreateRulesTrimmed[1] == CreateCategoryIds
    ensures CreateRulesTrimmed[2] == CreateCollectionIds && CreateRulesTrimmed[3] == CreateTagIds
    ensures CreateRulesTrimmed[4] == CreateNumberInStock && CreateRulesTrimmed[5] == CreatePrice
    ensures CreateRulesTrimmed[6] == CreateDiscount && CreateRulesTrimmed[7] == CreateDescription
    ensures CreateRulesTrimmed[8] == CreateImageUrls && CreateRulesTrimmed[9] == TrimmedMainImageUrl
    ensures CreateRulesTrimmed[10] == CreateAttributes
  {
    CreateRulesAt();
  }

  lemma CreateRulesTrimmedDistinct()
    ensures DistinctKeys(CreateRulesTrimmed)
  {
    CreateRulesAt();
    CreateRulesTrimmedAt();
    CreateTableShape();
  }

  /** The corrected table differs from the one as written only at `title` and `mainImageUrl`. */
  lemma CreateTablesAgree(fmt: Formats, m: map<string, Json>)
    requires FieldResult(fmt, CreateTitle, m) == FieldResult(fmt, TrimmedTitle, m)
    requires FieldResult(fmt, CreateMainImageUrl, m) == FieldResult(fmt, TrimmedMainImageUrl, m)
    ensures |CreateRules| == |CreateRulesTrimmed|
    ensures forall i :: 0 <= i < |CreateRules| ==>
      CreateRules[i].key == CreateRulesTrimmed[i].key && FieldResult(fmt, CreateRules[i], m) == FieldResult(fmt, CreateRulesTrimmed[i], m)
  {
    CreateRulesAt();
    forall i | 0 <= i < |CreateRules|
      ensures CreateRules[i].key == CreateRulesTrimmed[i].key
      ensures FieldResult(fmt, CreateRules[i], m) == FieldResult(fmt, CreateRulesTrimmed[i], m)
    {
      if i != 0 && i != 9 {
        assert CreateRulesTrimmed[i] == CreateRules[i];
      }
    }
  }

  /** Trimming a string rule's input changes nothing when the input is already trimmed. */
  lemma TrimRuleAgrees(fmt: Formats, f: Field, m: map<string, Json>)
    requires f.schema.Str? && !f.schema.trim
    requires f.key in m && m[f.key].JStr? ==> IsTrimmed(m[f.key].s)
    ensures FieldResult(fmt, f, m) == FieldResult(fmt, f.(schema := f.schema.(trim := true)), m)
  {
    if f.key in m && m[f.key].JStr? { TrimOfTrimmed(m[f.key].s); }
  }

  /** On a body whose title and main image URL carry no surrounding spaces the
      corrected table returns exactly what the table as written returns. */
  lemma CreateTrimmedAgrees(fmt: Formats, body: Json)
    requires body.JObj?
    requires "title" in body.fields && body.fields["title"].JStr? ==> IsTrimmed(body.fields["title"].s)
    requires "mainImageUrl" in body.fields && body.fields["mainImageUrl"].JStr? ==> IsTrimmed(body.fields["mainImageUrl"].s)
    ensures ValidateCreateTrimmed(fmt, body) == ValidateCreate(fmt, body)
  {
    var m := body.fields;
    TrimRuleAgrees(fmt, CreateTitle, m);
    TrimRuleAgrees(fmt, CreateMainImageUrl, m);
    assert CreateTitle.(schema := CreateTitle.schema.(trim := true)) == TrimmedTitle;
    assert CreateMainImageUrl.(schema := CreateMainImageUrl.schema.(trim := true)) == TrimmedMainImageUrl;
    CreateTablesAgree(fmt, m);
    CheckFieldsAgree(fmt, CreateRules, CreateRulesTrimmed, m);
  }

  /** What a trimming string rule outputs is trimmed. */
  lemma TrimmedTextValue(fmt: Formats, f: Field, m: map<string, Json>)
    requires f.schema.Str? && f.schema.trim && !f.schema.allowEmpty && f.presence.Required?
    requires FieldResult(fmt, f, m).Ok?
    ensures var v := FieldResult(fmt, f, m).value;
      && v.Some? && v.value.JStr? && v.value.s != "" && IsTrimmed(v.value.s)
      && (f.schema.min.Some? ==> f.schema.min.value <= JsLength(v.value.s))
      && (f.schema.max.Some? ==> JsLength(v.value.s) <= f.schema.max.value)
  {
  }

  /** The title and main image URL the corrected table outputs are trimmed and within bounds. */
  lemma CreateTrimmedTexts(fmt: Formats, body: Json)
    requires ValidateCreateTrimmed(fmt, body).Ok?
    ensures var out := ValidateCreateTrimmed(fmt, body).value;
      && "title" in out && out["title"].JStr? && 5 <= JsLength(out["title"].s) <= 50 && IsTrimmed(out["title"].s)
      && "mainImageUrl" in out && NonEmptyText(out["mainImageUrl"])
      && JsLength(out["mainImageUrl"].s) <= 1000 && IsTrimmed(out["mainImageUrl"].s)
  {
    CreateRulesTrimmedAt();
    CreateRulesTrimmedDistinct();
    AcceptedKey(fmt, CreateRulesTrimmed, body, 0);
    AcceptedKey(fmt, CreateRulesTrimmed, body, 9);
    TrimmedTextValue(fmt, TrimmedTitle, body.fields);
    TrimmedTextValue(fmt, TrimmedMainImageUrl, body.fields);
  }

  /** The numbers the corrected table outputs are within the store's bounds. */
  lemma CreateTrimmedNumbers(fmt: Formats, body: Json)
    requires ValidateCreateTrimmed(fmt, body).Ok?
    ensures var out := ValidateCreateTrimmed(fmt, body).value;
      && "price" in out && NumberAtLeast(out["price"], 0.0)
      && "discount" in out && NumberAtLeast(out["discount"], 0.0)
      && "numberInStock" in out && NumberBetween(out["numberInStock"], 0.0, 255.0)
      && "description" in out && TextOfLength(out["description"], 10, 1000)
  {
    CreateRulesTrimmedAt();
    CreateRulesTrimmedDistinct();
    AcceptedKey(fmt, CreateRulesTrimmed, body, 7);
    AcceptedKey(fmt, CreateRulesTrimmed, body, 5);
    AcceptedKey(fmt, CreateRulesTrimmed, body, 6);
    AcceptedKey(fmt, CreateRulesTrimmed, body, 4);
  }

  /** The id lists the corrected table outputs are lists of ObjectIds. */
  lemma CreateTrimmedIds(fmt: Formats, body: Json)
    requires ValidateCreateTrimmed(fmt, body).Ok?
    ensures var out := ValidateCreateTrimmed(fmt, body).value;
      && "categoryIds" in out && IdArray(fmt, out["categoryIds"])
      && "collectionIds" in out && IdArray(fmt, out["collectionIds"])
      && "tagIds" in out && IdArray(fmt, out["tagIds"])
  {
    CreateRulesTrimmedAt();
    CreateRulesTrimmedDistinct();
    AcceptedKey(fmt, CreateRulesTrimmed, body, 1);
    AcceptedKey(fmt, CreateRulesTrimmed, body, 2);
    AcceptedKey(fmt, CreateRulesTrimmed, body, 3);
    var m := body.fields;
    IdFieldSpec(fmt, m, "categoryIds");
    IdFieldSpec(fmt, m, "collectionIds");
    IdFieldSpec(fmt, m, "tagIds");
  }

  /** The corrected table refuses `PaddedTitle`: trimmed, it is too short. */
  lemma CreateTrimmedRefusesPadded(fmt: Formats, body: Json)
    requires body.JObj? && "title" in body.fields && body.fields["title"] == JStr(PaddedTitle)
    ensures ValidateCreateTrimmed(fmt, body).Err?
    ensures Violation([Key("title")], TooShort(5)) in ValidateCreateTrimmed(fmt, body).error
  {
    PaddedTitleFacts();
    CreateRulesTrimmedAt();
    FieldErrorReported(fmt, CreateRulesTrimmed, body, 0);
  }

  /** Everything the corrected create table accepts is storable, and saving it changes nothing. */
  lemma CreateTrimmedStorable(fmt: Formats, body: Json, slug: string)
    requires ValidateCreateTrimmed(fmt, body).Ok? && ValidSlug(slug)
    ensures var p := ProductFromCreate(ValidateCreateTrimmed(fmt, body).value, slug);
      StoreCast(p) == p && ValidStoredProduct(fmt, p)
  {
    var out := ValidateCreateTrimmed(fmt, body).value;
    CreateTrimmedTexts(fmt, body);
    CreateTrimmedNumbers(fmt, body);
    CreateTrimmedIds(fmt, body);
    var p := ProductFromCreate(out, slug);
    IdsStored(fmt, out["categoryIds"]);
    IdsStored(fmt, out["collectionIds"]);
    IdsStored(fmt, out["tagIds"]);
    StoreCastFixpoint(p);
  }
}
