/** The field catalogue and the record shapes of src/template.ts: a closed sum
    of 51 field variants, each fixing the shape of its `options`, and the
    `Template`, `AccountTemplate`, `Endpoint`, `CustomEndpoint` and `Data` records. */
module Templates {
  import opened Outcomes
  import JsValues

  /** The 51 variants of the `DataMakerField` union, one per `type` string. */
  datatype FieldType =
    | Words
    | UUID
    | Number
    | Float
    | Boolean
    | AI
    | Custom
    | Date
    | Name
    | FirstName
    | LastName
    | EMail
    | Address
    | City
    | Country
    | PhoneNumber
    | ZipCode
    | Sex
    | Gender
    | Avatar
    | JobTitle
    | RandomString
    | AccountName
    | IBAN
    | CurrencyName
    | CreditCardNumber
    | AccountNumber
    | Password
    | DomainName
    | Color
    | Emoji
    | IPv4
    | MACAddress
    | URL
    | Product
    | Department
    | ProductName
    | Datetime
    | Month
    | Weekday
    | TimeZone
    | Lorem
    | RegExp
    | MongoDBObjectID
    | Null
    | Derived
    | Template
    | APIResponse
    | DBResponse
    | Mapped
    | Nested


  /** The `type` discriminant each variant carries. */
  function TypeName(t: FieldType): string {
    match t
    case Words => "Words"
    case UUID => "UUID"
    case Number => "Number"
    case Float => "Float"
    case Boolean => "Boolean"
    case AI => "AI"
    case Custom => "Custom"
    case Date => "Date"
    case Name => "Name"
    case FirstName => "First Name"
    case LastName => "Last Name"
    case EMail => "E-Mail"
    case Address => "Address"
    case City => "City"
    case Country => "Country"
    case PhoneNumber => "Phone Number"
    case ZipCode => "Zip Code"
    case Sex => "Sex"
    case Gender => "Gender"
    case Avatar => "Avatar"
    case JobTitle => "Job Title"
    case RandomString => "Random String"
    case AccountName => "Account Name"
    case IBAN => "IBAN"
    case CurrencyName => "Currency Name"
    case CreditCardNumber => "Credit Card Number"
    case AccountNumber => "Account Number"
    case Password => "Password"
    case DomainName => "Domain Name"
    case Color => "Color"
    case Emoji => "Emoji"
    case IPv4 => "IPv4"
    case MACAddress => "MAC Address"
    case URL => "URL"
    case Product => "Product"
    case Department => "Department"
    case ProductName => "Product Name"
    case Datetime => "Datetime"
    case Month => "Month"
    case Weekday => "Weekday"
    case TimeZone => "Time Zone"
    case Lorem => "Lorem"
    case RegExp => "RegExp"
    case MongoDBObjectID => "MongoDB ObjectID"
    case Null => "Null"
    case Derived => "Derived"
    case Template => "Template"
    case APIResponse => "API Response"
    case DBResponse => "DB Response"
    case Mapped => "Mapped"
    case Nested => "Nested"
  }

  /** The variant a `type` string selects; `None` for a string outside the catalogue. */
  function ParseType(s: string): Option<FieldType> {
    match s
    case "Words" => Some(FieldType.Words)
    case "UUID" => Some(FieldType.UUID)
    case "Number" => Some(FieldType.Number)
    case "Float" => Some(FieldType.Float)
    case "Boolean" => Some(FieldType.Boolean)
    case "AI" => Some(FieldType.AI)
    case "Custom" => Some(FieldType.Custom)
    case "Date" => Some(FieldType.Date)
    case "Name" => Some(FieldType.Name)
    case "First Name" => Some(FieldType.FirstName)
    case "Last Name" => Some(FieldType.LastName)
    case "E-Mail" => Some(FieldType.EMail)
    case "Address" => Some(FieldType.Address)
    case "City" => Some(FieldType.City)
    case "Country" => Some(FieldType.Country)
    case "Phone Number" => Some(FieldType.PhoneNumber)
    case "Zip Code" => Some(FieldType.ZipCode)
    case "Sex" => Some(FieldType.Sex)
    case "Gender" => Some(FieldType.Gender)
    case "Avatar" => Some(FieldType.Avatar)
    case "Job Title" => Some(FieldType.JobTitle)
    case "Random String" => Some(FieldType.RandomString)
    case "Account Name" => Some(FieldType.AccountName)
    case "IBAN" => Some(FieldType.IBAN)
    case "Currency Name" => Some(FieldType.CurrencyName)
    case "Credit Card Number" => Some(FieldType.CreditCardNumber)
    case "Account Number" => Some(FieldType.AccountNumber)
    case "Password" => Some(FieldType.Password)
    case "Domain Name" => Some(FieldType.DomainName)
    case "Color" => Some(FieldType.Color)
    case "Emoji" => Some(FieldType.Emoji)
    case "IPv4" => Some(FieldType.IPv4)
    case "MAC Address" => Some(FieldType.MACAddress)
    case "URL" => Some(FieldType.URL)
    case "Product" => Some(FieldType.Product)
    case "Department" => Some(FieldType.Department)
    case "Product Name" => Some(FieldType.ProductName)
    case "Datetime" => Some(FieldType.Datetime)
    case "Month" => Some(FieldType.Month)
    case "Weekday" => Some(FieldType.Weekday)
    case "Time Zone" => Some(FieldType.TimeZone)
    case "Lorem" => Some(FieldType.Lorem)
    case "RegExp" => Some(FieldType.RegExp)
    case "MongoDB ObjectID" => Some(FieldType.MongoDBObjectID)
    case "Null" => Some(FieldType.Null)
    case "Derived" => Some(FieldType.Derived)
    case "Template" => Some(FieldType.Template)
    case "API Response" => Some(FieldType.APIResponse)
    case "DB Response" => Some(FieldType.DBResponse)
    case "Mapped" => Some(FieldType.Mapped)
    case "Nested" => Some(FieldType.Nested)
    case _ => None
  }



  /** What a declared option key accepts. */
  datatype Kind =
    | Text      // string
    | Numeric   // number
    | Flag      // boolean
    | TextList  // string[]
    | SexName   // "male" | "female"
    | TextMap   // Record<string, string>

  /** One declared key of an `options` object. */
  datatype OptionKey = OptionKey(key: string, kind: Kind, required: bool)


  function Req(key: string, kind: Kind): OptionKey { OptionKey(key, kind, true) }
  function Opt(key: string, kind: Kind): OptionKey { OptionKey(key, kind, false) }

  /** The option keys of `Words`. */
  const WordsOptions: seq<OptionKey> := [Opt("count", Numeric)]

  /** The option keys of `UUID`. */
  const UUIDOptions: seq<OptionKey> := [Opt("primaryKey", Flag)]

  /** The option keys of `Number`. */
  const NumberOptions: seq<OptionKey> := [Opt("min", Numeric), Opt("max", Numeric), Opt("stringify", Flag)]

  /** The option keys of `Float`. */
  const FloatOptions: seq<OptionKey> := [Opt("min", Numeric), Opt("max", Numeric), Opt("precision", Numeric)]

  /** The option keys of `Boolean`. */
  const BooleanOptions: seq<OptionKey> := [Opt("truthy", Flag), Opt("falsy", Flag)]

  /** The option keys of `AI`. */
  const AIOptions: seq<OptionKey> := [Req("prompt", Text)]

  /** The option keys of `Custom`. */
  const CustomOptions: seq<OptionKey> := [Req("values", TextList)]

  /** The option keys of `Date`, `Phone Number`, `Zip Code`. */
  const FormatOptions: seq<OptionKey> := [Opt("format", Text)]

  /** The option keys of `Name`, `First Name`, `Last Name`. */
  const SexOptions: seq<OptionKey> := [Opt("sex", SexName)]

  /** The option keys of `E-Mail`, `City`, `Country`, `Sex`, `Gender`, `Avatar`, `Job Title`, `Account Name`, `Currency Name`, `Password`, `Domain Name`, `Color`, `Emoji`, `IPv4`, `MAC Address`, `URL`, `Product`, `Department`, `Product Name`, `Time Zone`, `MongoDB ObjectID`. */
  const NoOptions: seq<OptionKey> := []

  /** The option keys of `Address`. */
  const AddressOptions: seq<OptionKey> := [Opt("useFullAddress", Flag)]

  /** The option keys of `Random String`. */
  const RangeOptions: seq<OptionKey> := [Opt("min", Numeric), Opt("max", Numeric)]

  /** The option keys of `IBAN`. */
  const IBANOptions: seq<OptionKey> := [Opt("formatted", Flag), Opt("countryCode", Text)]

  /** The option keys of `Credit Card Number`. */
  const CreditCardNumberOptions: seq<OptionKey> := [Opt("issuer", Text)]

  /** The option keys of `Account Number`. */
  const AccountNumberOptions: seq<OptionKey> := [Opt("length", Numeric)]

  /** The option keys of `Datetime`. */
  const DatetimeOptions: seq<OptionKey> := [Opt("past", Flag)]

  /** The option keys of `Month`, `Weekday`. */
  const AbbrOptions: seq<OptionKey> := [Opt("abbr", Flag)]

  /** The option keys of `Lorem`. */
  const LoremOptions: seq<OptionKey> := [Opt("lineCount", Numeric)]

  /** The option keys of `RegExp`. */
  const RegExpOptions: seq<OptionKey> := [Req("string", Text)]

  /** The option keys of `Null`. */
  const NullOptions: seq<OptionKey> := [Opt("value", Text)]

  /** The option keys of `Derived`. */
  const DerivedOptions: seq<OptionKey> := [Req("value", Text)]

  /** The option keys of `Template`. */
  const TemplateOptions: seq<OptionKey> := [Opt("templateId", Text), Opt("foreignKey", Text), Req("array", Flag), Req("quantity", Numeric)]

  /** The option keys of `API Response`. */
  const APIResponseOptions: seq<OptionKey> := [Req("endpoint", Text), Opt("query", Text), Opt("masking", Text), Opt("prompt", Text)]

  /** The option keys of `DB Response`. */
  const DBResponseOptions: seq<OptionKey> := [Req("connection", Text), Req("sql", Text), Opt("query", Text), Opt("masking", Text), Opt("prompt", Text)]

  /** The option keys of `Mapped`. */
  const MappedOptions: seq<OptionKey> := [Req("field", Text), Req("map", TextMap)]

  /** The option keys of `Nested`. */
  const NestedOptions: seq<OptionKey> := [Req("array", Flag), Req("quantity", Numeric)]

  /** Whether a variant's interface declares `options` without `?`, making the
      `options` object mandatory. */
  predicate OptionsRequired(t: FieldType) {
    match t
    case Words => false
    case UUID => false
    case Number => false
    case Float => false
    case Boolean => false
    case AI => true
    case Custom => true
    case Date => false
    case Name => false
    case FirstName => false
    case LastName => false
    case EMail => false
    case Address => false
    case City => false
    case Country => false
    case PhoneNumber => false
    case ZipCode => false
    case Sex => false
    case Gender => false
    case Avatar => false
    case JobTitle => false
    case RandomString => false
    case AccountName => false
    case IBAN => false
    case CurrencyName => false
    case CreditCardNumber => false
    case AccountNumber => false
    case Password => false
    case DomainName => false
    case Color => false
    case Emoji => false
    case IPv4 => false
    case MACAddress => false
    case URL => false
    case Product => false
    case Department => false
    case ProductName => false
    case Datetime => false
    case Month => false
    case Weekday => false
    case TimeZone => false
    case Lorem => false
    case RegExp => true
    case MongoDBObjectID => false
    case Null => false
    case Derived => true
    case Template => true
    case APIResponse => true
    case DBResponse => true
    case Mapped => true
    case Nested => true
  }

  /** The option keys each variant's interface declares. */
  function KeysOf(t: FieldType): seq<OptionKey> {
    match t
    case Words => WordsOptions
    case UUID => UUIDOptions
    case Number => NumberOptions
    case Float => FloatOptions
    case Boolean => BooleanOptions
    case AI => AIOptions
    case Custom => CustomOptions
    case Date => FormatOptions
    case Name => SexOptions
    case FirstName => SexOptions
    case LastName => SexOptions
    case EMail => NoOptions
    case Address => AddressOptions
    case City => NoOptions
    case Country => NoOptions
    case PhoneNumber => FormatOptions
    case ZipCode => FormatOptions
    case Sex => NoOptions
    case Gender => NoOptions
    case Avatar => NoOptions
    case JobTitle => NoOptions
    case RandomString => RangeOptions
    case AccountName => NoOptions
    case IBAN => IBANOptions
    case CurrencyName => NoOptions
    case CreditCardNumber => CreditCardNumberOptions
    case AccountNumber => AccountNumberOptions
    case Password => NoOptions
    case DomainName => NoOptions
    case Color => NoOptions
    case Emoji => NoOptions
    case IPv4 => NoOptions
    case MACAddress => NoOptions
    case URL => NoOptions
    case Product => NoOptions
    case Department => NoOptions
    case ProductName => NoOptions
    case Datetime => DatetimeOptions
    case Month => AbbrOptions
    case Weekday => AbbrOptions
    case TimeZone => NoOptions
    case Lorem => LoremOptions
    case RegExp => RegExpOptions
    case MongoDBObjectID => NoOptions
    case Null => NullOptions
    case Derived => DerivedOptions
    case Template => TemplateOptions
    case APIResponse => APIResponseOptions
    case DBResponse => DBResponseOptions
    case Mapped => MappedOptions
    case Nested => NestedOptions
  }

  predicate HasKind(v: JsValues.Value, kind: Kind) {
    match kind
    case Text => v.Str?
    case Numeric => v.Num?
    case Flag => v.Bool?
    case TextList => v.Arr? && forall i :: 0 <= i < |v.items| ==> v.items[i].Str?
    case SexName => v == JsValues.Str("male") || v == JsValues.Str("female")
    case TextMap => v.Obj? && forall k :: k in v.props ==> v.props[k].Str?
  }

  /** The keys a shape marks as required. */
  function RequiredKeys(keys: seq<OptionKey>): set<string> {
    set i | 0 <= i < |keys| && keys[i].required :: keys[i].key
  }

  /** An `options` object fits the declared keys: every key it holds is declared
      and holds a value of the declared kind, and every required key is there. */
  predicate ConformsTo(props: map<string, JsValues.Value>, keys: seq<OptionKey>) {
    && (forall k :: k in props ==> exists i :: 0 <= i < |keys| && keys[i].key == k && HasKind(props[k], keys[i].kind))
    && (forall i :: 0 <= i < |keys| && keys[i].required ==> keys[i].key in props)
  }

  /** A field in its generic `{ name, type, options? }` form; `options == None`
      stands for an absent (or `undefined`) `options` property. */
  datatype Field = Field(name: string, typeName: string, options: Option<JsValues.Value>)

  /** Whether `options` is legal for variant `t`. */
  predicate OptionsFit(t: FieldType, options: Option<JsValues.Value>) {
    match options
    case None => !OptionsRequired(t)
    case Some(v) => v.Obj? && ConformsTo(v.props, KeysOf(t))
  }

  /** A field belongs to the `DataMakerField` union: its `type` names one of the
      51 variants and its `options` fit that variant's shape. */
  predicate WellFormed(f: Field) {
    match ParseType(f.typeName)
    case None => false
    case Some(t) => OptionsFit(t, f.options)
  }

  /** `Template`: an optional name, the field list and an optional quantity. */
  datatype Template = Template(name: Option<string>, fields: seq<Field>, quantity: Option<real>)

  predicate TemplateWellFormed(t: Template) {
    forall i :: 0 <= i < |t.fields| ==> WellFormed(t.fields[i])
  }

  /** A template stored in the caller's account (its two always-null members are dropped). */
  datatype AccountTemplate = AccountTemplate(
    id: string, name: string, fields: seq<Field>,
    createdAt: string, createdBy: string, teamId: string)

  /** A header object: header name to value. */
  type HeaderMap = map<string, string>

  /** An endpoint stored in the caller's account. */
  datatype Endpoint = Endpoint(
    id: string, name: string, httpMethod: string, url: string,
    headers: Option<HeaderMap>, queryParams: Option<map<string, string>>,
    createdAt: string, createdBy: string,
    teamId: Option<string>, endpointFolderId: Option<string>)

  /** An endpoint given inline by the caller: `url` and `method`, optional `headers`. */
  datatype CustomEndpoint = CustomEndpoint(url: string, httpMethod: string, headers: Option<HeaderMap>)

  /** A value of a generated record: a string or a number, nothing else. */
  datatype DataValue = DataString(s: string) | DataNumber(n: real)

  /** A generated record. */
  type Data = map<string, DataValue>

  function DataValueToJson(x: DataValue): JsValues.Value {
    match x
    case DataString(s) => JsValues.Str(s)
    case DataNumber(n) => JsValues.Num(n)
  }

  /** A record as the JSON object it stands for. */
  function DataToJson(d: Data): (v: JsValues.Value)
    ensures v.Obj? && v.props.Keys == d.Keys
    ensures forall k :: k in d ==> v.props[k].Str? || v.props[k].Num?
  {
    JsValues.Obj(map k | k in d :: DataValueToJson(d[k]))
  }

  /** A JSON value that is a `Data` record: an object whose values are all
      strings or numbers. */
  predicate IsDataJson(v: JsValues.Value) {
    v.Obj? && forall k :: k in v.props ==> v.props[k].Str? || v.props[k].Num?
  }

  /** Reads a record from JSON, refusing anything but an object of strings
      and numbers. */
  function DataFromJson(v: JsValues.Value): (r: Option<Data>)
    ensures r.Some? <==> IsDataJson(v)
    ensures r.Some? ==> r.value.Keys == v.props.Keys
  {
    if IsDataJson(v) then
      Some(map k | k in v.props :: if v.props[k].Str? then DataString(v.props[k].s) else DataNumber(v.props[k].n))
    else None
  }

  /** Every record survives a trip through JSON. */
  lemma DataRoundTrip(d: Data)
    ensures DataFromJson(DataToJson(d)) == Some(d)
  {
    var v := DataToJson(d);
    assert IsDataJson(v);
    var back := DataFromJson(v).value;
    forall k | k in d
      ensures back[k] == d[k]
    {
      match d[k]
      case DataString(s) =>
      case DataNumber(n) =>
    }
    assert back == d;
  }

  /** Every object of strings and numbers is the JSON form of the record read from it. */
  lemma DataRoundTripBack(v: JsValues.Value)
    requires IsDataJson(v)
    ensures DataToJson(DataFromJson(v).value) == v
  {
    var d := DataFromJson(v).value;
    assert DataToJson(d).props == v.props;
  }

  // ---------------------------------------------------------------------------
  // Properties of the catalogue

  /** Each variant's `type` string selects that variant and no other. */
  lemma TypeNameRoundTrip(t: FieldType)
    ensures ParseType(TypeName(t)) == Some(t)
  {
    if t in {FieldType.Words, FieldType.UUID, FieldType.Number, FieldType.Float, FieldType.Boolean, FieldType.AI, FieldType.Custom, FieldType.Date, FieldType.Name, FieldType.FirstName, FieldType.LastName, FieldType.EMail, FieldType.Address, FieldType.City, FieldType.Country, FieldType.PhoneNumber, FieldType.ZipCode, FieldType.Sex, FieldType.Gender, FieldType.Avatar} {
      RoundTripGroup1(t);
    } else if t in {FieldType.JobTitle, FieldType.RandomString, FieldType.AccountName, FieldType.IBAN, FieldType.CurrencyName, FieldType.CreditCardNumber, FieldType.AccountNumber, FieldType.Password, FieldType.DomainName, FieldType.Color} {
      RoundTripGroup2(t);
    } else if t in {FieldType.Emoji, FieldType.IPv4, FieldType.MACAddress, FieldType.URL, FieldType.Product, FieldType.Department, FieldType.ProductName} {
      RoundTripGroup3(t);
    } else if t in {FieldType.Datetime, FieldType.Month, FieldType.Weekday, FieldType.TimeZone, FieldType.Lorem} {
      RoundTripGroup4(t);
    } else if t in {FieldType.RegExp, FieldType.MongoDBObjectID, FieldType.Null, FieldType.Derived} {
      RoundTripGroup5(t);
    } else if t in {FieldType.Template, FieldType.APIResponse, FieldType.DBResponse} {
      RoundTripGroup6(t);
    } else {
      RoundTripGroup7(t);
    }
  }

  /** `TypeNameRoundTrip` for the variants declared at src/template.ts:1-120. */
  lemma {:induction false} RoundTripGroup1(t: FieldType)
    requires t in {FieldType.Words, FieldType.UUID, FieldType.Number, FieldType.Float, FieldType.Boolean, FieldType.AI, FieldType.Custom, FieldType.Date, FieldType.Name, FieldType.FirstName, FieldType.LastName, FieldType.EMail, FieldType.Address, FieldType.City, FieldType.Country, FieldType.PhoneNumber, FieldType.ZipCode, FieldType.Sex, FieldType.Gender, FieldType.Avatar}
    ensures ParseType(TypeName(t)) == Some(t)
  {
    match t
    case Words =>
    case UUID =>
    case Number =>
    case Float =>
    case Boolean =>
    case AI =>
    case Custom =>
    case Date =>
    case Name =>
    case FirstName =>
    case LastName =>
    case EMail =>
    case Address =>
    case City =>
    case Country =>
    case PhoneNumber =>
    case ZipCode =>
    case Sex =>
    case Gender =>
    case Avatar =>
    case _ => assert false;
  }

  /** `TypeNameRoundTrip` for the variants declared at src/template.ts:121-179. */
  lemma {:induction false} RoundTripGroup2(t: FieldType)
    requires t in {FieldType.JobTitle, FieldType.RandomString, FieldType.AccountName, FieldType.IBAN, FieldType.CurrencyName, FieldType.CreditCardNumber, FieldType.AccountNumber, FieldType.Password, FieldType.DomainName, FieldType.Color}
    ensures ParseType(TypeName(t)) == Some(t)
  {
    match t
    case JobTitle =>
    case RandomString =>
    case AccountName =>
    case IBAN =>
    case CurrencyName =>
    case CreditCardNumber =>
    case AccountNumber =>
    case Password =>
    case DomainName =>
    case Color =>
    case _ => assert false;
  }

  /** `TypeNameRoundTrip` for the variants declared at src/template.ts:180-221. */
  lemma {:induction false} RoundTripGroup3(t: FieldType)
    requires t in {FieldType.Emoji, FieldType.IPv4, FieldType.MACAddress, FieldType.URL, FieldType.Product, FieldType.Department, FieldType.ProductName}
    ensures ParseType(TypeName(t)) == Some(t)
  {
    match t
    case Emoji =>
    case IPv4 =>
    case MACAddress =>
    case URL =>
    case Product =>
    case Department =>
    case ProductName =>
    case _ => assert false;
  }

  /** `TypeNameRoundTrip` for the variants declared at src/template.ts:222-251. */
  lemma {:induction false} RoundTripGroup4(t: FieldType)
    requires t in {FieldType.Datetime, FieldType.Month, FieldType.Weekday, FieldType.TimeZone, FieldType.Lorem}
    ensures ParseType(TypeName(t)) == Some(t)
  {
    match t
    case Datetime =>
    case Month =>
    case Weekday =>
    case TimeZone =>
    case Lorem =>
    case _ => assert false;
  }

  /** `TypeNameRoundTrip` for the variants declared at src/template.ts:252-275. */
  lemma {:induction false} RoundTripGroup5(t: FieldType)
    requires t in {FieldType.RegExp, FieldType.MongoDBObjectID, FieldType.Null, FieldType.Derived}
    ensures ParseType(TypeName(t)) == Some(t)
  {
    match t
    case RegExp =>
    case MongoDBObjectID =>
    case Null =>
    case Derived =>
    case _ => assert false;
  }

  /** `TypeNameRoundTrip` for the variants declared at src/template.ts:276-308. */
  lemma {:induction false} RoundTripGroup6(t: FieldType)
    requires t in {FieldType.Template, FieldType.APIResponse, FieldType.DBResponse}
    ensures ParseType(TypeName(t)) == Some(t)
  {
    match t
    case Template =>
    case APIResponse =>
    case DBResponse =>
    case _ => assert false;
  }

  /** `TypeNameRoundTrip` for the variants declared at src/template.ts:310-321. */
  lemma {:induction false} RoundTripGroup7(t: FieldType)
    requires t in {FieldType.Mapped, FieldType.Nested}
    ensures ParseType(TypeName(t)) == Some(t)
  {
    match t
    case Mapped =>
    case Nested =>
    case _ => assert false;
  }

  /** A recognised `type` string is exactly the discriminant of the variant it selects. */
  lemma ParseTypeSound(s: string, t: FieldType)
    requires ParseType(s) == Some(t)
    ensures TypeName(t) == s
  {
    if t in {FieldType.Words, FieldType.UUID, FieldType.Number, FieldType.Float, FieldType.Boolean, FieldType.AI, FieldType.Custom, FieldType.Date} {
      SoundGroup1(s, t);
    } else if t in {FieldType.Name, FieldType.FirstName, FieldType.LastName, FieldType.EMail, FieldType.Address, FieldType.City, FieldType.Country, FieldType.PhoneNumber} {
      SoundGroup2(s, t);
    } else if t in {FieldType.ZipCode, FieldType.Sex, FieldType.Gender, FieldType.Avatar, FieldType.JobTitle, FieldType.RandomString, FieldType.AccountName, FieldType.IBAN} {
      SoundGroup3(s, t);
    } else if t in {FieldType.CurrencyName, FieldType.CreditCardNumber, FieldType.AccountNumber, FieldType.Password, FieldType.DomainName, FieldType.Color, FieldType.Emoji, FieldType.IPv4} {
      SoundGroup4(s, t);
    } else if t in {FieldType.MACAddress, FieldType.URL, FieldType.Product, FieldType.Department, FieldType.ProductName, FieldType.Datetime} {
      SoundGroup5(s, t);
    } else if t in {FieldType.Month, FieldType.Weekday, FieldType.TimeZone, FieldType.Lorem, FieldType.RegExp, FieldType.MongoDBObjectID} {
      SoundGroup6(s, t);
    } else {
      SoundGroup7(s, t);
    }
  }

  /** `ParseTypeSound` for the variants declared at src/template.ts:1-48. */
  lemma {:induction false} SoundGroup1(s: string, t: FieldType)
    requires t in {FieldType.Words, FieldType.UUID, FieldType.Number, FieldType.Float, FieldType.Boolean, FieldType.AI, FieldType.Custom, FieldType.Date} && ParseType(s) == Some(t)
    ensures TypeName(t) == s
  {
    match t
    case Words =>
    case UUID =>
    case Number =>
    case Float =>
    case Boolean =>
    case AI =>
    case Custom =>
    case Date =>
    case _ => assert false;
  }

  /** `ParseTypeSound` for the variants declared at src/template.ts:49-96. */
  lemma {:induction false} SoundGroup2(s: string, t: FieldType)
    requires t in {FieldType.Name, FieldType.FirstName, FieldType.LastName, FieldType.EMail, FieldType.Address, FieldType.City, FieldType.Country, FieldType.PhoneNumber} && ParseType(s) == Some(t)
    ensures TypeName(t) == s
  {
    match t
    case Name =>
    case FirstName =>
    case LastName =>
    case EMail =>
    case Address =>
    case City =>
    case Country =>
    case PhoneNumber =>
    case _ => assert false;
  }

  /** `ParseTypeSound` for the variants declared at src/template.ts:97-143. */
  lemma {:induction false} SoundGroup3(s: string, t: FieldType)
    requires t in {FieldType.ZipCode, FieldType.Sex, FieldType.Gender, FieldType.Avatar, FieldType.JobTitle, FieldType.RandomString, FieldType.AccountName, FieldType.IBAN} && ParseType(s) == Some(t)
    ensures TypeName(t) == s
  {
    match t
    case ZipCode =>
    case Sex =>
    case Gender =>
    case Avatar =>
    case JobTitle =>
    case RandomString =>
    case AccountName =>
    case IBAN =>
    case _ => assert false;
  }

  /** `ParseTypeSound` for the variants declared at src/template.ts:144-191. */
  lemma {:induction false} SoundGroup4(s: string, t: FieldType)
    requires t in {FieldType.CurrencyName, FieldType.CreditCardNumber, FieldType.AccountNumber, FieldType.Password, FieldType.DomainName, FieldType.Color, FieldType.Emoji, FieldType.IPv4} && ParseType(s) == Some(t)
    ensures TypeName(t) == s
  {
    match t
    case CurrencyName =>
    case CreditCardNumber =>
    case AccountNumber =>
    case Password =>
    case DomainName =>
    case Color =>
    case Emoji =>
    case IPv4 =>
    case _ => assert false;
  }

  /** `ParseTypeSound` for the variants declared at src/template.ts:192-227. */
  lemma {:induction false} SoundGroup5(s: string, t: FieldType)
    requires t in {FieldType.MACAddress, FieldType.URL, FieldType.Product, FieldType.Department, FieldType.ProductName, FieldType.Datetime} && ParseType(s) == Some(t)
    ensures TypeName(t) == s
  {
    match t
    case MACAddress =>
    case URL =>
    case Product =>
    case Department =>
    case ProductName =>
    case Datetime =>
    case _ => assert false;
  }

  /** `ParseTypeSound` for the variants declared at src/template.ts:228-263. */
  lemma {:induction false} SoundGroup6(s: string, t: FieldType)
    requires t in {FieldType.Month, FieldType.Weekday, FieldType.TimeZone, FieldType.Lorem, FieldType.RegExp, FieldType.MongoDBObjectID} && ParseType(s) == Some(t)
    ensures TypeName(t) == s
  {
    match t
    case Month =>
    case Weekday =>
    case TimeZone =>
    case Lorem =>
    case RegExp =>
    case MongoDBObjectID =>
    case _ => assert false;
  }

  /** `ParseTypeSound` for the variants declared at src/template.ts:264-321. */
  lemma {:induction false} SoundGroup7(s: string, t: FieldType)
    requires t in {FieldType.Null, FieldType.Derived, FieldType.Template, FieldType.APIResponse, FieldType.DBResponse, FieldType.Mapped, FieldType.Nested} && ParseType(s) == Some(t)
    ensures TypeName(t) == s
  {
    match t
    case Null =>
    case Derived =>
    case Template =>
    case APIResponse =>
    case DBResponse =>
    case Mapped =>
    case Nested =>
    case _ => assert false;
  }

  /** Two variants never share a `type` string. */
  lemma TypeNameInjective(t: FieldType, u: FieldType)
    ensures TypeName(t) == TypeName(u) ==> t == u
  {
    TypeNameRoundTrip(t);
    TypeNameRoundTrip(u);
  }

  /** Exactly nine variants make `options` mandatory. */
  lemma MandatoryOptions(t: FieldType)
    ensures OptionsRequired(t) <==>
      t in {FieldType.AI, FieldType.Custom, FieldType.RegExp, FieldType.Derived, FieldType.Template,
            FieldType.APIResponse, FieldType.DBResponse, FieldType.Mapped, FieldType.Nested}
  {
  }

  /** The option shapes of the variants whose `options` may be left out. */
  predicate OptionalVariantShape(keys: seq<OptionKey>) {
    || keys == WordsOptions
    || keys == UUIDOptions
    || keys == NumberOptions
    || keys == FloatOptions
    || keys == BooleanOptions
    || keys == FormatOptions
    || keys == SexOptions
    || keys == NoOptions
    || keys == AddressOptions
    || keys == RangeOptions
    || keys == IBANOptions
    || keys == CreditCardNumberOptions
    || keys == AccountNumberOptions
    || keys == DatetimeOptions
    || keys == AbbrOptions
    || keys == LoremOptions
    || keys == NullOptions
  }

  /** The option shapes of the nine variants whose `options` are mandatory. */
  predicate MandatoryVariantShape(keys: seq<OptionKey>) {
    || keys == AIOptions
    || keys == CustomOptions
    || keys == RegExpOptions
    || keys == DerivedOptions
    || keys == TemplateOptions
    || keys == APIResponseOptions
    || keys == DBResponseOptions
    || keys == MappedOptions
    || keys == NestedOptions
  }

  /** A variant whose `options` may be left out declares one of the optional shapes. */
  lemma OptionalVariantsShapes(t: FieldType)
    ensures !OptionsRequired(t) ==> OptionalVariantShape(KeysOf(t))
  {
  }

  /** A variant whose `options` are mandatory declares one of the mandatory shapes. */
  lemma MandatoryVariantsShapes(t: FieldType)
    ensures OptionsRequired(t) ==> MandatoryVariantShape(KeysOf(t))
  {
  }

  /** No key of an optional shape is required. */
  lemma OptionalShapesRequireNothing(keys: seq<OptionKey>)
    requires OptionalVariantShape(keys)
    ensures RequiredKeys(keys) == {}
  {
  }

  /** Every mandatory shape has at least one required key. */
  lemma MandatoryShapesRequireSomething(keys: seq<OptionKey>)
    requires MandatoryVariantShape(keys)
    ensures RequiredKeys(keys) != {}
  {
    if keys == AIOptions {
      assert keys[0].key in RequiredKeys(keys);
    } else if keys == CustomOptions {
      assert keys[0].key in RequiredKeys(keys);
    } else if keys == RegExpOptions {
      assert keys[0].key in RequiredKeys(keys);
    } else if keys == DerivedOptions {
      assert keys[0].key in RequiredKeys(keys);
    } else if keys == TemplateOptions {
      assert keys[2].key in RequiredKeys(keys);
    } else if keys == APIResponseOptions {
      assert keys[0].key in RequiredKeys(keys);
    } else if keys == DBResponseOptions {
      assert keys[0].key in RequiredKeys(keys);
    } else if keys == MappedOptions {
      assert keys[0].key in RequiredKeys(keys);
    } else if keys == NestedOptions {
      assert keys[0].key in RequiredKeys(keys);
    }
  }

  /** A variant makes `options` mandatory exactly when it declares a required key. */
  lemma MandatoryIffRequiredKey(t: FieldType)
    ensures OptionsRequired(t) <==> RequiredKeys(KeysOf(t)) != {}
  {
    if OptionsRequired(t) {
      MandatoryVariantsShapes(t);
      MandatoryShapesRequireSomething(KeysOf(t));
    } else {
      OptionalVariantsShapes(t);
      OptionalShapesRequireNothing(KeysOf(t));
    }
  }

  /** A field may leave `options` out exactly when its variant does not make them mandatory. */
  lemma OmittedOptions(name: string, t: FieldType)
    ensures WellFormed(Field(name, TypeName(t), None)) <==> !OptionsRequired(t)
  {
    TypeNameRoundTrip(t);
  }

  /** The `type` string alone fixes the legal options: a field is well formed
      exactly when some variant has that string as its discriminant and the
      options fit that variant, and no other variant has the same string. */
  lemma WellFormedByDiscriminant(f: Field)
    ensures WellFormed(f) <==> exists t :: TypeName(t) == f.typeName && OptionsFit(t, f.options)
    ensures forall t, u :: TypeName(t) == f.typeName && TypeName(u) == f.typeName ==> t == u
  {
    if WellFormed(f) {
      var t := ParseType(f.typeName).value;
      ParseTypeSound(f.typeName, t);
      assert TypeName(t) == f.typeName && OptionsFit(t, f.options);
    }
    if exists t :: TypeName(t) == f.typeName && OptionsFit(t, f.options) {
      var t :| TypeName(t) == f.typeName && OptionsFit(t, f.options);
      TypeNameRoundTrip(t);
    }
    forall t, u | TypeName(t) == f.typeName && TypeName(u) == f.typeName
      ensures t == u
    {
      TypeNameInjective(t, u);
    }
  }

  /** When a variant makes `options` mandatory, fitting options are an object
      holding every required key of that variant. */
  lemma RequiredKeysPresent(t: FieldType, options: Option<JsValues.Value>)
    requires OptionsFit(t, options) && OptionsRequired(t)
    ensures options.Some? && options.value.Obj?
    ensures forall k :: k in RequiredKeys(KeysOf(t)) ==> k in options.value.props
  {
  }

  /** Each key of an option shape is declared once. */
  predicate DistinctKeys(keys: seq<OptionKey>) {
    forall i, j :: 0 <= i < j < |keys| ==> keys[i].key != keys[j].key
  }

  /** In fitting options, a key declared once holds a value of its declared kind. */
  lemma DeclaredKindHolds(props: map<string, JsValues.Value>, keys: seq<OptionKey>, i: nat)
    requires ConformsTo(props, keys) && DistinctKeys(keys)
    requires i < |keys| && keys[i].key in props
    ensures HasKind(props[keys[i].key], keys[i].kind)
  {
    var k := keys[i].key;
    var j :| 0 <= j < |keys| && keys[j].key == k && HasKind(props[k], keys[j].kind);
  }

  /** The options of a `Template` field carry `array: boolean` and `quantity: number`;
      besides them they may only hold the strings `templateId` and `foreignKey`. */
  lemma TemplateFieldShape(options: Option<JsValues.Value>)
    requires OptionsFit(FieldType.Template, options)
    ensures options.Some? && options.value.Obj?
    ensures var m := options.value.props;
      && "array" in m && m["array"].Bool?
      && "quantity" in m && m["quantity"].Num?
      && (forall k :: k in m ==> k in {"templateId", "foreignKey", "array", "quantity"})
      && ("templateId" in m ==> m["templateId"].Str?)
      && ("foreignKey" in m ==> m["foreignKey"].Str?)
  {
    var keys := TemplateOptions;
    assert KeysOf(FieldType.Template) == keys;
    var m := options.value.props;
    assert DistinctKeys(keys);
    assert keys[2].required && keys[3].required;
    DeclaredKindHolds(m, keys, 2);
    DeclaredKindHolds(m, keys, 3);
    if "templateId" in m { DeclaredKindHolds(m, keys, 0); }
    if "foreignKey" in m { DeclaredKindHolds(m, keys, 1); }
  }

  /** The options of a `DB Response` field carry string `connection` and `sql`;
      besides them they may only hold the strings `query`, `masking` and `prompt`. */
  lemma DBResponseFieldShape(options: Option<JsValues.Value>)
    requires OptionsFit(FieldType.DBResponse, options)
    ensures options.Some? && options.value.Obj?
    ensures var m := options.value.props;
      && "connection" in m && "sql" in m
      && (forall k :: k in m ==> k in {"connection", "sql", "query", "masking", "prompt"} && m[k].Str?)
  {
    var keys := DBResponseOptions;
    assert KeysOf(FieldType.DBResponse) == keys;
    assert keys[0].required && keys[1].required;
    assert forall i :: 0 <= i < |keys| ==> keys[i].kind == Text;
  }

  /** The options of a `Mapped` field are a string `field` and a string-to-string `map`, nothing else. */
  lemma MappedFieldShape(options: Option<JsValues.Value>)
    requires OptionsFit(FieldType.Mapped, options)
    ensures options.Some? && options.value.Obj?
    ensures var m := options.value.props;
      && m.Keys == {"field", "map"}
      && m["field"].Str?
      && m["map"].Obj? && forall k :: k in m["map"].props ==> m["map"].props[k].Str?
  {
    var keys := MappedOptions;
    assert KeysOf(FieldType.Mapped) == keys;
    var m := options.value.props;
    assert DistinctKeys(keys);
    assert keys[0].required && keys[1].required;
    DeclaredKindHolds(m, keys, 0);
    DeclaredKindHolds(m, keys, 1);
  }

  /** The options of a `Nested` field are `array: boolean` and `quantity: number`, nothing else. */
  lemma NestedFieldShape(options: Option<JsValues.Value>)
    requires OptionsFit(FieldType.Nested, options)
    ensures options.Some? && options.value.Obj?
    ensures var m := options.value.props;
      && m.Keys == {"array", "quantity"} && m["array"].Bool? && m["quantity"].Num?
  {
    var keys := NestedOptions;
    assert KeysOf(FieldType.Nested) == keys;
    var m := options.value.props;
    assert DistinctKeys(keys);
    assert keys[0].required && keys[1].required;
    DeclaredKindHolds(m, keys, 0);
    DeclaredKindHolds(m, keys, 1);
  }

  /** Conversely, any object with boolean `array` and number `quantity`, and at most
      the strings `templateId` and `foreignKey` besides, fits a `Template` field. */
  lemma TemplateFieldFits(m: map<string, JsValues.Value>)
    requires "array" in m && m["array"].Bool?
    requires "quantity" in m && m["quantity"].Num?
    requires forall k :: k in m ==> k in {"templateId", "foreignKey", "array", "quantity"}
    requires "templateId" in m ==> m["templateId"].Str?
    requires "foreignKey" in m ==> m["foreignKey"].Str?
    ensures OptionsFit(FieldType.Template, Some(JsValues.Obj(m)))
  {
    var keys := TemplateOptions;
    assert KeysOf(FieldType.Template) == keys;
    forall k | k in m
      ensures exists i :: 0 <= i < |keys| && keys[i].key == k && HasKind(m[k], keys[i].kind)
    {
      if k == "templateId" { assert keys[0].key == k; }
      else if k == "foreignKey" { assert keys[1].key == k; }
      else if k == "array" { assert keys[2].key == k; }
      else { assert keys[3].key == k; }
    }
  }

  /** Conversely, any object of strings holding `connection` and `sql`, and at most
      `query`, `masking` and `prompt` besides, fits a `DB Response` field. */
  lemma DBResponseFieldFits(m: map<string, JsValues.Value>)
    requires "connection" in m && "sql" in m
    requires forall k :: k in m ==> k in {"connection", "sql", "query", "masking", "prompt"} && m[k].Str?
    ensures OptionsFit(FieldType.DBResponse, Some(JsValues.Obj(m)))
  {
    var keys := DBResponseOptions;
    assert KeysOf(FieldType.DBResponse) == keys;
    forall k | k in m
      ensures exists i :: 0 <= i < |keys| && keys[i].key == k && HasKind(m[k], keys[i].kind)
    {
      if k == "connection" { assert keys[0].key == k; }
      else if k == "sql" { assert keys[1].key == k; }
      else if k == "query" { assert keys[2].key == k; }
      else if k == "masking" { assert keys[3].key == k; }
      else { assert keys[4].key == k; }
    }
  }

  /** Conversely, a string `field` and a string-to-string `map` fit a `Mapped` field. */
  lemma MappedFieldFits(m: map<string, JsValues.Value>)
    requires m.Keys == {"field", "map"} && m["field"].Str?
    requires m["map"].Obj? && forall k :: k in m["map"].props ==> m["map"].props[k].Str?
    ensures OptionsFit(FieldType.Mapped, Some(JsValues.Obj(m)))
  {
    var keys := MappedOptions;
    assert KeysOf(FieldType.Mapped) == keys;
    forall k | k in m
      ensures exists i :: 0 <= i < |keys| && keys[i].key == k && HasKind(m[k], keys[i].kind)
    {
      if k == "field" { assert keys[0].key == k; }
      else { assert keys[1].key == k; }
    }
  }

  /** Conversely, boolean `array` and number `quantity` fit a `Nested` field. */
  lemma NestedFieldFits(m: map<string, JsValues.Value>)
    requires m.Keys == {"array", "quantity"} && m["array"].Bool? && m["quantity"].Num?
    ensures OptionsFit(FieldType.Nested, Some(JsValues.Obj(m)))
  {
    var keys := NestedOptions;
    assert KeysOf(FieldType.Nested) == keys;
    forall k | k in m
      ensures exists i :: 0 <= i < |keys| && keys[i].key == k && HasKind(m[k], keys[i].kind)
    {
      if k == "array" { assert keys[0].key == k; }
      else { assert keys[1].key == k; }
    }
  }

  /** The `sex` option of `Name`, `First Name` and `Last Name` is "male" or "female". */
  lemma SexOption(t: FieldType, options: Option<JsValues.Value>)
    requires t in {FieldType.Name, FieldType.FirstName, FieldType.LastName} && OptionsFit(t, options)
    requires options.Some? && options.value.Obj? && "sex" in options.value.props
    ensures options.value.props["sex"] in {JsValues.Str("male"), JsValues.Str("female")}
  {
    assert KeysOf(t) == SexOptions;
    DeclaredKindHolds(options.value.props, SexOptions, 0);
  }

  /** `Template` options without `quantity` do not fit; with both required keys they do. */
  lemma TemplateFieldNeedsQuantity()
    ensures !OptionsFit(FieldType.Template, Some(JsValues.Obj(map["array" := JsValues.Bool(true)])))
    ensures OptionsFit(FieldType.Template,
      Some(JsValues.Obj(map["array" := JsValues.Bool(true), "quantity" := JsValues.Num(3.0)])))
  {
    var keys := TemplateOptions;
    assert KeysOf(FieldType.Template) == keys;
    assert keys[3].required && keys[3].key == "quantity";
    assert keys[2].key == "array" && keys[2].kind == Flag;
  }

  /** A template with a `Words` field and an `AI` field conforms. */
  lemma WordsAndAITemplate()
    ensures TemplateWellFormed(Template.Template(Some("My Template"), [
      Field("Field1", "Words", Some(JsValues.Obj(map["count" := JsValues.Num(5.0)]))),
      Field("Hello", "AI", Some(JsValues.Obj(map["prompt" := JsValues.Str("F1 Drivers")])))
    ], Some(5.0)))
  {
    TypeNameRoundTrip(FieldType.Words);
    TypeNameRoundTrip(FieldType.AI);
    assert KeysOf(FieldType.Words) == WordsOptions && WordsOptions[0].key == "count";
    assert KeysOf(FieldType.AI) == AIOptions && AIOptions[0].key == "prompt";
  }
}
