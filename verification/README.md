# datamaker-js client core in Dafny

This project models the core of `datamaker-js`. That is the TypeScript client
for the DataMaker test-data API. The model has three parts.

- **The field catalogue and record shapes** (`templates.dfy`, module `Templates`).
  A field is one of 51 variants, and its `type` string selects the variant.
  Each variant declares the shape of the `options` object: its keys, the
  kind of value each key takes, which keys are required, and whether
  `options` may be left out. The model reads each shape as closed, the way
  TypeScript checks an object literal written for the field: a key the
  shape does not declare is refused. A generic field `(name, type, options)`
  is well formed when its `type` names a variant and its options fit that
  variant's shape. The `Template`, `AccountTemplate`, `Endpoint` and
  `CustomEndpoint` records are datatypes. A `Data` record is a map from
  keys to values that are strings or numbers.
- **The client** (`client.dfy`, module `Client`). `DataMaker` is a class with
  the fields `apiKey`, `headers` and `options`. Construction resolves the API
  key and the base URL and builds the header map. `Generate` normalises a
  template's quantity in place and sends it. `GenerateFromTemplateId` picks
  the first listed template with the given id. `ExportToApi` chooses the
  target endpoint and its headers, then sends the records one at a time.
  The network is an input value (`Network`): the decoded listings, plus an
  oracle that answers the `i`-th request of an operation. Every method
  returns the requests it sent.
- **The validators** (`utils.dfy`, module `Utils`). They cover the absolute-URL
  test, `isEmptyObj`, `hasOwn`, `validatePositiveInteger`, and the
  empty-input rule of `toBase64`.

`outcomes.dfy` holds `Option`, `Result` and the client's error kinds.
`js_values.dfy` holds the JavaScript values the client handles, with
JavaScript truthiness.

Two behaviours follow the code rather than the prose around it. First, the
constructor rejects only an absent key. Its message says "missing or empty",
but an empty key is accepted. Second, `validatePositiveInteger` accepts 0.

## Model

| member | source | states |
|---|---|---|
| Templates.TypeNameRoundTrip | src/template.ts:322-373 | every variant's `type` string is recognised as that variant and no other |
| Templates.ParseTypeSound | src/template.ts:322-373 | a recognised `type` string is exactly the discriminant of the variant it selects |
| Templates.TypeNameInjective | src/template.ts:322-373 | no two variants share a `type` string |
| Templates.MandatoryOptions | src/template.ts:31-320 | exactly nine variants (`AI`, `Custom`, `RegExp`, `Derived`, `Template`, `API Response`, `DB Response`, `Mapped`, `Nested`) make `options` mandatory |
| Templates.MandatoryIffRequiredKey | src/template.ts:31-320 | a variant makes `options` mandatory exactly when it declares a required option key |
| Templates.OmittedOptions | src/template.ts:1-320 | a field may leave out `options` exactly when its variant does not make them mandatory |
| Templates.TypeName | src/template.ts:1-373 | the `type` string of each of the 51 interfaces of the `DataMakerField` union |
| Templates.ParseType | src/template.ts:322-373 | the variant of the union a `type` string selects, if any |
| Templates.OptionsRequired | src/template.ts:1-320 | whether an interface declares `options` without `?` |
| Templates.KeysOf | src/template.ts:1-320 | each interface's option keys, with the kind of value and whether the key is required |
| Templates.WellFormed | src/template.ts:322-373 | a generic field belongs to the union: its `type` selects a variant and its options fit that variant |
| Templates.WellFormedByDiscriminant | src/template.ts:322-373 | a field is well formed exactly when some variant has its `type` string and the options fit that variant; that variant is unique |
| Templates.RequiredKeysPresent | src/template.ts:31-320 | fitting options of a mandatory variant are an object holding every required key |
| Templates.DeclaredKindHolds | src/template.ts:1-320 | in fitting options, a key that is declared once holds a value of its declared kind |
| Templates.TemplateFieldShape | src/template.ts:276-285 | `Template` options hold `array: boolean` and `quantity: number`; besides these only the strings `templateId` and `foreignKey` may appear |
| Templates.DBResponseFieldShape | src/template.ts:298-308 | `DB Response` options hold `connection` and `sql`; besides these only `query`, `masking` and `prompt` may appear; all are strings |
| Templates.MappedFieldShape | src/template.ts:310-314 | `Mapped` options are exactly a string `field` and a string-to-string `map` |
| Templates.NestedFieldShape | src/template.ts:316-320 | `Nested` options are exactly `array: boolean` and `quantity: number` |
| Templates.TemplateFieldFits | src/template.ts:276-285 | any object with boolean `array` and number `quantity`, and at most the strings `templateId` and `foreignKey` besides, fits a `Template` field |
| Templates.DBResponseFieldFits | src/template.ts:298-308 | any object of strings with `connection` and `sql`, and at most `query`, `masking` and `prompt` besides, fits a `DB Response` field |
| Templates.MappedFieldFits | src/template.ts:310-314 | a string `field` and a string-to-string `map` fit a `Mapped` field |
| Templates.NestedFieldFits | src/template.ts:316-320 | boolean `array` and number `quantity` fit a `Nested` field |
| Templates.SexOption | src/template.ts:49-65 | the `sex` option of `Name`, `First Name` and `Last Name` is "male" or "female" |
| Templates.TemplateFieldNeedsQuantity | src/template.ts:276-285 | `Template` options without `quantity` do not fit; with `array` and `quantity` they do |
| Templates.TemplateWellFormed | src/template.ts:375-381 | every field of a template belongs to the union |
| Templates.WordsAndAITemplate | src/template.test.ts:4-28 | a template with a `Words` field and an `AI` field with a prompt is well formed |
| Templates.DataToJson | src/template.ts:413-415 | a `Data` record becomes an object with the same keys, whose values are strings or numbers |
| Templates.DataFromJson | src/template.ts:413-415 | a JSON value is read as a `Data` record exactly when it is an object of strings and numbers |
| Templates.DataRoundTrip | src/template.ts:413-415 | reading back a record's JSON form gives the record |
| Templates.DataRoundTripBack | src/template.ts:413-415 | an object of strings and numbers is the JSON form of the record read from it |
| Utils.LeadingLetters | src/utils.ts:7 | the result is the length of the longest run of ASCII letters, in either case, at the start of the string |
| Utils.IsAbsoluteURL | src/utils.ts:7-10 | the regular expression read left to right: two slashes at the start, or the leading letters followed by `://` |
| Utils.AbsoluteURLMatchesPattern | src/utils.ts:7-10 | the URL test holds exactly when the string starts with `//`, or with one or more letters followed by `://` |
| Utils.RelativeURLExamples | src/utils.ts:7-10 | `/path`, `path/x`, `://x` and `h2://x` are not absolute |
| Utils.AbsoluteURLExamples | src/utils.ts:7-10 | `https://x`, `HTTP://x` and `//cdn` are absolute |
| Utils.IsEmptyObj | src/utils.ts:25-29 | `null` and `undefined` are empty; an object is empty exactly when it has no key; an array exactly when it has no element |
| Utils.EmptyObjIffNoOwnKey | src/utils.ts:25-34 | an object is empty exactly when `hasOwn` holds for no key |
| Utils.HasOwn | src/utils.ts:32-34 | an object owns exactly the keys of its map |
| Utils.ValidatePositiveInteger | src/utils.ts:90-98 | succeeds exactly on integral numbers at least 0 and returns them unchanged; anything that is not an integral number gets "must be an integer"; a negative integer gets "must be a positive integer" |
| Utils.ValidateIdempotent | src/utils.ts:90-98 | a value the validator returned passes it again unchanged |
| Utils.ValidateExamples | src/utils.ts:91-97 | -1.5 and a string get the integer error, -2 gets the sign error, 0 is returned |
| Utils.ToBase64 | src/utils.ts:75-88 | `null`, `undefined` and `""` give `""`; other input goes to the runtime encoder; without an encoder the helper throws |
| Utils.EmptyInputNeedsNoEncoder | src/utils.ts:75-76 | for an empty input the result is `""` whatever encoder is available, or none |
| Client.ResolveOptions | src/index.ts:78-91 | fails exactly when neither the caller nor the environment gives a key; an empty key is accepted; the stored key is the caller's, else the environment's; the base URL is the caller's, else `https://public.datamaker.app/api`; the other options are copied |
| Client.ResolveIdempotent | src/index.ts:78-91 | resolving stored options again changes nothing, whatever the environment |
| Client.ConstructionExamples | src/index.test.ts:4-38 | the key comes from the environment when not given; a given key wins; with neither, construction throws the missing-key message |
| Client.ClientHeaders | src/index.ts:95-99 | the headers are `Content-Type` and `Authorization` plus the default header names; a default header wins over a built-in one of the same name; otherwise `Content-Type` is `application/json` and `Authorization` is the key |
| Client.HeaderOverrideExample | src/index.test.ts:40-62 | a default `Content-Type: application/gzip` replaces the JSON one, and `Authorization` still carries the key |
| Client.Reply | src/index.ts:116 | a reply succeeds exactly when the network answers, with that answer; a failure becomes a transport error |
| Client.FirstIndexOf | src/index.ts:134 | no result exactly when the id is absent; otherwise the position of the first occurrence of the id |
| Client.FindFirst | src/index.ts:134 | the `find` by id used for templates (line 134) and endpoints (line 171): no result exactly when no element has the id; otherwise the first element with that id |
| Client.FirstMatchWins | src/index.ts:134 | of two templates sharing an id the first is chosen; an empty listing has no match |
| Client.NormalizeQuantity | src/index.ts:113-115 | the result is a non-zero quantity; an absent or zero quantity becomes 1; any other is kept |
| Client.NormalizeIdempotent | src/index.ts:113-115 | normalising twice is normalising once |
| Client.ResolveTarget | src/index.ts:164-183 | an inline endpoint's headers replace the client's whenever present, even when empty; a stored endpoint's headers replace them only when non-empty; a failed listing, an unknown id or an endpoint without headers fails |
| Client.HeaderChoiceAsymmetry | src/index.ts:164-183 | the same empty headers object keeps the client headers on a stored endpoint but replaces them on an inline one; non-empty headers replace them, never merge, in both cases |
| Client.SendAll | src/index.ts:185-190 | one request per record, in input order, each carrying that record to the target with the chosen headers |
| Client.SendAllPrefix | src/index.ts:185-190 | the requests for a prefix of the records are the prefix of the requests |
| Client.SendRecords | src/index.ts:185-200 | succeeds exactly when every call succeeds; then the result has one reply per record, the `i`-th being the reply to record `i`, and each record was sent once in order; otherwise it fails with the first failed call, after which nothing more was sent |
| Client.TemplateObject.constructor | src/index.ts:106-115 | the caller's template object, which `generate` updates in place, starts out holding the given template |
| Client.DataMaker.constructor | src/index.ts:87-99 | stores the resolved options and key and builds the client headers from them |
| Client.DataMaker.Create | src/index.ts:78-100 | throws exactly when no key is found; otherwise gives a fresh client whose options are the resolved ones |
| Client.DataMaker.Generate | src/index.ts:106-117 | a missing template is rejected before anything is sent; otherwise the quantity is normalised in place, the other members are unchanged, and exactly one request carries the updated template |
| Client.DataMaker.GenerateFromTemplateId | src/index.ts:125-150 | lists the templates first; a failed listing or an unknown id fails; otherwise one more request carries the first matching template with the quantity set to the argument, unnormalised |
| Client.DataMaker.ExportToApi | src/index.ts:158-201 | a failed target choice fails after at most the listing request; otherwise the endpoint listing, if any, comes first and the records are sent as `SendRecords` states |

## Left out

- Network and JSON I/O are not modelled. `fetch`, `.json()` and `JSON.stringify` are replaced by the `Network` input: typed listings plus an oracle for the other replies. A record is sent as its value, not as a serialised string.
- `fetchDatamaker` is not part of this model. Only the fact that it is called once, with the base URL, the client headers and the template, is kept.
- A listing reply that decodes to something other than an array of records is not modelled. This covers `null`, an error object, and records with missing members. So the `!templateData` guard ("No templates found in your account.") is unreachable here. That guard also runs after `find`, so in the code a `null` listing already throws the runtime's `TypeError`.
- Client.ResolveOptions: `apiKey: null` is not modelled. The guard compares with `undefined` only, so the code would accept `null`. Here `None` stands for an absent or `undefined` member.
- The custom `fetch` option is not modelled. `timeout`, `maxRetries` and `defaultQuery` are stored and never read.
- `HeadersInit` given as an array of pairs or as a `Headers` object is not modelled. Header maps are plain string-to-string objects.
- Async/await is modelled as plain sequential steps. Concurrency is not modelled.
- Numbers are exact reals. NaN, the infinities and floating-point rounding are not modelled, so `Number.isInteger(NaN)` and a NaN quantity do not arise.
- `readEnv` and `process.env` are not modelled. The environment's key is a parameter of construction.
- `debug`, `isRunningInBrowser`, `sleep`, `uuid4` and `safeJSON` are not modelled. They use the console, global probes, timers, randomness or `JSON.parse`.
- Utils.ToBase64: the encoding itself is not modelled. The runtime's encoder (`Buffer` or `btoa`) is a parameter, and `btoa`'s rejection of non-Latin-1 input is not modelled.
- Utils.IsEmptyObj: inherited enumerable keys are not modelled. Values built from JSON have none.
- Utils.HasOwn: only objects are modelled. Own keys of arrays and strings (indices, `length`) are not.
- `generate` accepts any truthy value in the code. Here it takes a template object, and `null` stands for a falsy argument.
- `GenerateFromTemplateId` writes the quantity onto the freshly decoded template object. No caller can see that object, so the model sends the template paired with the quantity.
- `exportToDB` and `generateFromTemplate` are called in the examples and tests but are not defined by the client. There is nothing to model.
- Option shapes are closed, following TypeScript's excess-property check on a fresh object literal. TypeScript does not apply that check to an object passed from a variable, so extra keys there are allowed by the types but refused here.
- The 21 variants declared `options?: {}` accept any non-null value in TypeScript. Here `{}` is modelled as an object with no keys, so `{ foo: 1 }` or a string is refused.
- An optional key holding an explicit `undefined` (such as `{ count: undefined }` for `Words`) is allowed by the types but refused here, because a key that is present must hold a value of its declared kind, and `undefined` is not a number.
- The `Headers` type (src/template.ts:407-411) is not used by the client and is not modelled.
