# Product validation of online-store-node, in Dafny

The product model of the online store (`models/product.js`) holds three sets
of rules:

- the mongoose schema of a stored product (lines 4-75);
- `validateProduct`, the Joi rules a create request body must meet (lines 79-97);
- `validateProductUpdate`, the Joi rules of a partial update (lines 99-116).

This project models all three and proves what each accepts and returns.

The two Joi rule tables are written as data (`ProductRules.CreateRules`,
`ProductRules.UpdateRules`). A small interpreter (`Joi.Check`,
`Joi.ValidateObject`) runs them over JSON values (`Json.Json`). It follows
the semantics the tables rely on:

- a string rule refuses `""` unless `.allow("")` is given;
- `.trim()` runs before the empty check and the length bounds;
- lengths are JavaScript `length`, counted in UTF-16 code units (`JsText.JsLength`);
- trimming uses the ECMAScript white-space set (`JsText.Trim`);
- `Joi.alternatives().try` takes the first alternative that accepts;
- `.default(v)` fills in an absent key;
- a key the table does not declare is refused.

Next to each table is a reference predicate written field by field
(`ProductRules.ValidCreate`, `ProductRules.ValidUpdate`). Lemmas show that
each table accepts exactly the bodies its predicate describes. They also pin
down what each table returns:

- create adds `discount: 0` when it is absent and trims the image URLs (`ProductRules.NormalizeCreate`);
- update returns the body unchanged.

The stored record is `ProductStore.Product`. The mongoose `trim: true`
setters are `ProductStore.StoreCast`, and the field constraints are
`ProductStore.ValidStoredProduct`.

The ObjectId check (`Joi.objectId()`) and the URI check
(`Joi.string().uri()`, RFC 3986) belong to libraries outside this model. They
are left abstract as the two fields of `Joi.Formats`. Every result holds for
every choice of those two checks. JavaScript numbers are modelled as `real`,
since the rules only compare them with constants.

Modules, in dependency order: `Wrappers`, `Json`, `JsText`, `Joi`,
`JoiFacts` (facts about every table), `ProductRules`, `ProductFacts`
(create path), `UpdateFacts`, `RuleProperties`, `ProductStore`, `Examples`.

Three points about the code that shape the model:

- Joi's default `validate` stops at the first violation. The model returns the set of all violations instead. Only whether a body is refused, and what an accepted body becomes, carry over to what Joi returns; see "Left out" for the members this affects.
- `numberInStock` is bounded to 0..255 on create and to non-negative numbers on update, but neither rule checks that it is an integer. The model has no integer check either.
- The stored `additionalAttributes` is a mongoose `Mixed` value and is unconstrained. The store model puts no condition on it.

## Model

| member | source | states |
|---|---|---|
| JsText.JsLength | models/product.js:81 | a string's JavaScript length lies between its number of code points and twice that |
| JsText.Trim | models/product.js:89 | the trimmed string is empty or starts and ends on a non-space, and is never longer than the input |
| JsText.TrimInfix | models/product.js:89 | the trimmed string is the infix of the input at some offset, and every character before and after that infix is white space |
| JsText.TrimIdempotent | models/product.js:89 | trimming twice is trimming once |
| Joi.Check | models/product.js:80-96 | no contract of its own: the Joi rule semantics the tables use (string type, `trim`, empty string and `allow("")`, `min`/`max` in code units, URI and ObjectId patterns; number bounds; `array().items`; `object().pattern`; `alternatives().try`); its meaning is stated by the `JoiFacts` and `ProductFacts` rows below |
| Joi.ValidateObject | models/product.js:79-116 | no contract of its own: `Joi.object(table).validate(body)` (non-object refused, every declared key checked, `required` and `default` applied, undeclared keys refused); stated by `JoiFacts.ValidateObjectSpec` |
| JoiFacts.CheckItemsSpec | models/product.js:82 | an array rule accepts exactly when every element passes, and outputs the checked elements in order |
| JoiFacts.ValidateObjectSpec | models/product.js:80-96 | an object table accepts exactly when the body is an object, holds only declared keys, and every declared key passes |
| JoiFacts.MissingReported | models/product.js:81-90 | an absent required key makes validation fail with a `Missing` violation naming that key |
| JoiFacts.ValidateRejectionExplained | models/product.js:96 | a rejection always carries at least one violation |
| JoiFacts.ValidateObjectIdempotent | models/product.js:96 | for a table whose schemas are stable and whose defaults pass their own rule, re-validating the output accepts it and returns it unchanged |
| JoiFacts.ValidateObjectKeepsBody | models/product.js:115 | a table with no trimming and no defaults returns an accepted body exactly as sent |
| ProductRules.ValidateCreate | models/product.js:79-97 | no contract of its own: `validateProduct`, the create table run by `Joi.ValidateObject`; stated by `ProductFacts.CreateAcceptsExactly` and `ProductFacts.CreateOutput` |
| ProductRules.ValidateUpdate | models/product.js:99-116 | no contract of its own: `validateProductUpdate`, the update table run by `Joi.ValidateObject`; stated by `UpdateFacts.UpdateAcceptsExactly` and `UpdateFacts.UpdateOutput` |
| ProductRules.NormalizeCreate | models/product.js:87-89 | no contract of its own: the value `validateProduct` returns for an accepted body, with `discount: 0` added when absent and the `imageUrls` entries trimmed; `ProductFacts.CreateOutput` proves the create table returns it |
| ProductFacts.IdListSpec | models/product.js:82 | `Joi.array().items(Joi.objectId())` accepts exactly arrays, empty included, of non-empty ObjectId strings, and returns them unchanged |
| ProductFacts.CreateImagesSpec | models/product.js:89 | the image list accepts exactly arrays of strings that are non-empty and at most 1000 long once trimmed, and returns the trimmed strings |
| ProductFacts.AttributesSpec | models/product.js:91-94 | the attribute map accepts exactly objects whose keys are non-empty and whose values are numbers or non-empty strings, and returns them unchanged |
| ProductFacts.UpdateImagesSpec | models/product.js:108 | the update image list accepts exactly arrays of non-empty strings the URI check accepts |
| ProductFacts.CreateTitleSpec | models/product.js:81 | the create title passes exactly when present with length 5 to 50 |
| ProductFacts.CreateIdsSpec | models/product.js:82-84 | each id list passes exactly when present and a list of ObjectIds |
| ProductFacts.CreateNumbersSpec | models/product.js:85-87 | stock must be present and in 0..255, price present and non-negative, discount non-negative when present |
| ProductFacts.CreateTextsSpec | models/product.js:88-90 | description must be present with length 10 to 1000; the main image URL present, non-empty and at most 1000 long |
| ProductFacts.CreateImageUrlsSpec | models/product.js:89 | the image list must be present and valid, and its output is the trimmed list |
| ProductFacts.CreateAttributesSpec | models/product.js:91-94 | attributes may be absent; when present they must be a scalar map |
| ProductFacts.CreateAcceptsExactly | models/product.js:79-97 | the create path accepts a body if and only if `ValidCreate` holds of it |
| ProductFacts.CreateOutput | models/product.js:79-97 | on an accepted body the create path returns it with `discount` set to 0 when absent, the image URLs trimmed, and nothing else changed |
| ProductFacts.CreateIdempotent | models/product.js:79-97 | sending the create output back through the create path accepts it and returns it unchanged |
| UpdateFacts.UpdateTextsSpec | models/product.js:101-111 | title 3 to 255, description any string including `""`, main image URL a non-empty URI, slug 5 to 100, each only when present |
| UpdateFacts.UpdateNumbersSpec | models/product.js:104-106 | price non-negative, discount in 0..100, stock non-negative with no cap, each only when present |
| UpdateFacts.UpdateListsSpec | models/product.js:102-112 | id lists of ObjectIds, image list of URIs, attributes any object, each only when present |
| UpdateFacts.UpdateAcceptsExactly | models/product.js:99-116 | the update path accepts a body if and only if `ValidUpdate` holds of it |
| UpdateFacts.UpdateOutput | models/product.js:99-116 | on an accepted body the update path returns it exactly as sent, with no default added |
| UpdateFacts.UpdateEmptyBody | models/product.js:100-113 | the empty body is accepted and returned empty |
| RuleProperties.CreateMissingKey | models/product.js:81-90 | a body missing any of the nine required create keys is refused and that key is reported missing |
| RuleProperties.UpdateAllOptional | models/product.js:100-113 | leaving out any update key passes and puts nothing in the output for it |
| RuleProperties.CreateShortTitle | models/product.js:81 | a non-empty title shorter than 5 is refused with a `TooShort(5)` violation at `title` |
| RuleProperties.CreateNegativePrice | models/product.js:86 | a negative price is refused by the create path with a `Below(0)` violation at `price` |
| RuleProperties.UpdateNegativePrice | models/product.js:104 | a negative price is refused by the update path with a `Below(0)` violation at `price` |
| RuleProperties.CreateStockOutOfRange | models/product.js:85 | stock below 0 is refused with a `Below(0)` violation and stock above 255 with an `Above(255)` violation |
| RuleProperties.UpdateDiscountAbove | models/product.js:105 | a discount above 100 is refused by the update path with an `Above(100)` violation |
| RuleProperties.CreateDiscountUnbounded | models/product.js:87 | on create any non-negative discount passes and is kept as sent |
| RuleProperties.CreateOutputBounds | models/product.js:81-90 | every create output has a title of length 5 to 50, stock in 0..255, non-negative price and discount, a description of length 10 to 1000, and a non-empty main image URL at most 1000 long |
| ProductStore.ValidStoredProduct | models/product.js:4-75 | no contract of its own: the field constraints of `productSchema` on a cast record (title 5 to 255, price and discount non-negative, description 10 to 1000, main image URL required and at most 1000, stock 0..255, ObjectId lists, slug 5 to 100) |
| ProductStore.Saves | models/product.js:4-75 | no contract of its own: the store accepts a record when its cast form (`StoreCast`) meets `ValidStoredProduct`; characterised by `ProductStore.SavesWhenValidBeforeCast` |
| ProductStore.ProductFromCreate | models/product.js:4-75 | no contract of its own: the record built from a create output and a slug, under the handler mapping assumed in "Left out"; `ProductStore.CreateFieldsWithinStore` shows it meets the schema before the cast |
| ProductStore.StoreCast | models/product.js:4-39 | the cast record's `title` and `mainImageUrl` are the trimmed originals, every other field is unchanged, and both trimmed fields are no longer than before |
| ProductStore.StoreCastFixpoint | models/product.js:4-39 | casting leaves a record unchanged exactly when its title and main image URL are trimmed; casting twice is casting once |
| ProductStore.CreateStorableWhenTrimmed | models/product.js:4-90 | a create-valid body whose title and main image URL are already trimmed yields a record the store accepts unchanged |
| ProductStore.CreateFieldsWithinStore | models/product.js:4-97 | for every body the create path accepts, the record built from its output meets every field constraint of the store before the cast |
| ProductStore.SavesWhenValidBeforeCast | models/product.js:5-39 | a record meeting the constraints before the cast is saved exactly when its trimmed title is at least 5 long and its trimmed main image URL is non-empty |
| ProductStore.CreateSavesExactly | models/product.js:4-97 | a body accepted by the create path as written yields a record the store saves if and only if its title trimmed is at least 5 long and its main image URL trimmed is non-empty: the two trims are the only way an accepted body fails to save |
| ProductStore.CreateAcceptsPaddedTitle | models/product.js:5-11 | any accepted body with its title replaced by `"x    "` is still accepted by create, yet its record fails the store's trimmed `minlength` |
| ProductStore.CreateAcceptsBlankUrl | models/product.js:34-39 | any accepted body with its main image URL replaced by `"   "` is still accepted by create, yet its record fails the store's trimmed `required` |
| ProductStore.ValidateCreateTrimmed | models/product.js:79-97 | no contract of its own: the corrected create table, with `Joi.string().trim()` on title and main image URL; stated by the three rows below |
| ProductStore.CreateTrimmedAgrees | models/product.js:79-97 | on bodies whose title and main image URL are trimmed, the corrected create table returns exactly what the table as written returns |
| ProductStore.CreateTrimmedRefusesPadded | models/product.js:81 | the corrected create table refuses the title `"x    "` as too short |
| ProductStore.CreateTrimmedStorable | models/product.js:4-97 | every body the corrected create table accepts yields a record the store accepts unchanged |
| Examples.ShirtCreated | models/product.js:79-97 | the sample shirt body is accepted, and the output adds `discount: 0` |
| Examples.ShortTitleRefused | models/product.js:81 | the shirt with title `"Hi"` is refused as too short |
| Examples.DiscountAboveCapRefused | models/product.js:105 | the update `{discount: 150}` is refused |
| Examples.DiscountWithinCapAccepted | models/product.js:105 | the update `{discount: 50}` is accepted unchanged |
| Examples.DiscountAsymmetry | models/product.js:87-105 | the shirt with discount 150 is accepted by create, while the update `{discount: 150}` is refused |
| Examples.NonUriImageRefused | models/product.js:108 | an update image list whose entry is not a URI is refused |
| Examples.UriImageAccepted | models/product.js:108 | an update image list of URIs is accepted unchanged |
| Examples.PaddedShirtUnstorable | models/product.js:4-97 | the shirt titled `"x    "` passes create as written but cannot be saved, and the corrected rules refuse it |

## Left out

- `startup/routes.js` is left out. It only mounts Express routers and the error handler and has no logic of its own.
- The products route handler is not part of this model. `ProductStore.ProductFromCreate` assumes it copies the create output into the record and maps `categoryIds`, `collectionIds` and `tagIds` to `categories`, `collections` and `tags`. The slug is a parameter.
- Persistence is left out: model registration, `ref` integrity of the id lists, and slug uniqueness are database behaviour.
- The ObjectId pattern and the RFC 3986 URI grammar are left abstract as `Joi.Formats`. The store is assumed to accept as an ObjectId what `Joi.objectId()` accepts.
- `Joi.objectId()` is defined by a library that is not part of this model. The model assumes it accepts only strings: `ProductRules.ObjectIdText` is a non-empty string rule whose pattern is the abstract `isObjectId` check.
- Joi's conversions are left out, for example numeric strings becoming numbers.
- Joi's error object and messages are left out. The model gives each violation a path and a rule instead.
- JavaScript numbers are `real`. IEEE-754 rounding, `NaN`, infinities and Joi's unsafe-integer check are left out.
- Lone UTF-16 surrogates are not modelled, since Dafny strings hold Unicode scalar values.
- The `trim` and `maxlength` options on the `imageUrls` array path (models/product.js:31-32) are not given an effect on each element. Whether mongoose applies array-level string options element-wise is library behaviour outside this model.
- Mongoose's `required` on the `imageUrls` array is not modelled. The model imposes no condition, so an empty array passes.
- The default `{}` of `additionalAttributes` is applied when building the record. The store puts no constraint on that field (`Mixed`).
- JoiFacts.ValidateRejectionExplained: states that a rejection is non-empty, not which single violation Joi reports first under its default abort-early mode.
- JoiFacts.MissingReported: only the refusal carries over to Joi. Joi's default mode reports only the first violation, so the `Missing` violation this member names may not be the one Joi returns.
- RuleProperties.CreateMissingKey: only the refusal carries over to Joi. For the body `{}` Joi reports only `title` as missing, never `mainImageUrl`.
- RuleProperties.CreateNegativePrice: only the refusal carries over to Joi. When an earlier key also fails, Joi reports that key instead of `Below(0)` at `price`.
- RuleProperties.UpdateNegativePrice: only the refusal carries over to Joi. When an earlier key also fails, Joi reports that key instead of `Below(0)` at `price`.
- RuleProperties.CreateStockOutOfRange: only the refusal carries over to Joi. When an earlier key also fails, Joi reports that key instead of the bound on `numberInStock`.
- RuleProperties.UpdateDiscountAbove: only the refusal carries over to Joi. When an earlier key also fails, Joi reports that key instead of `Above(100)` at `discount`.

## Findings

| source | as written | input that shows it | evidently intended | confidence | as-written member | corrected member |
|---|---|---|---|---|---|---|
| models/product.js:81 | The create rule `Joi.string().min(5).max(50)` checks the title untrimmed. The store trims it first (`trim: true`, `minlength: 5`) and may then refuse it. | a valid create body with `title: "x    "` | the create rule trims the title as the store does, so an accepted title is storable | not executed; medium | ProductStore.CreateAcceptsPaddedTitle | ProductStore.CreateTrimmedStorable |
| models/product.js:90 | The create rule `Joi.string().max(1000)` accepts a main image URL made only of spaces. The store trims it to `""` and refuses it as missing (`required`, `trim: true`). | a valid create body with `mainImageUrl: "   "` | the create rule trims the main image URL, so an accepted URL is non-empty once stored | not executed; medium | ProductStore.CreateAcceptsBlankUrl | ProductStore.CreateTrimmedStorable |
