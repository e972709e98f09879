/**
 * The five record kinds of the goods ledger and how a stored document reads
 * back as each of them.
 *
 * A stored document is the JSON form of one record; `Doc` keeps the record
 * itself, tagged with the kind that was written, and the `Decode…` functions
 * read it back as a given kind. `Encode` gives the JSON object a record is
 * written as (one member per field, named by the field's struct tag), and the
 * `Unmarshal…` functions read an object the way the JSON decoder does: each
 * field takes the member whose name matches its tag, exactly or up to case,
 * and keeps its zero value when there is none. `DecodeFollowsTags` proves the
 * decoders agree with that reading. It rests on `OnlyDocTypeShared`: the only
 * member name two kinds share is "DocType", and Asset has none. So a document
 * of another kind reads back as the zero record with only its DocType filled
 * in, and an absent value reads back as the zero record.
 */
module Records {
  import opened Wrappers

  /** A generic asset; `size` and `appraisedValue` are integers. */
  datatype Asset = Asset(id: string, color: string, size: int, owner: string, appraisedValue: int)

  datatype Account = Account(
    accountToken: string,
    accountType: string,
    accountName: string,
    accountUsername: string,
    accountEmail: string,
    accountPhoneNumber: string,
    accountPassword: string,
    accountOwnerManufacturerID: string,
    docType: string)

  datatype Product = Product(
    productOwnerAccountID: string,
    productManufacturerID: string,
    productManufacturerName: string,
    productFactoryID: string,
    productID: string,
    productName: string,
    productType: string,
    productBatch: string,
    productSerialinBatch: string,
    productManufacturingLocation: string,
    productManufacturingDate: string,
    productExpiryDate: string,
    docType: string)

  datatype Manufacturer = Manufacturer(
    manufacturerAccountID: string,
    manufacturerName: string,
    manufacturerTradeLicenceID: string,
    manufacturerLocation: string,
    manufacturerFoundingDate: string,
    docType: string)

  datatype Factory = Factory(
    factoryManufacturerID: string,
    factoryID: string,
    factoryName: string,
    factoryLocation: string,
    docType: string)

  /** One document of the world state, tagged with the kind of record that was written. */
  datatype Doc =
    | AssetDoc(asset: Asset)
    | AccountDoc(account: Account)
    | ManufacturerDoc(manufacturer: Manufacturer)
    | FactoryDoc(factory: Factory)
    | ProductDoc(product: Product)

  /** Go's zero values of the five structs. */
  const ZeroAsset := Asset("", "", 0, "", 0)
  const ZeroAccount := Account("", "", "", "", "", "", "", "", "")
  const ZeroProduct := Product("", "", "", "", "", "", "", "", "", "", "", "", "")
  const ZeroManufacturer := Manufacturer("", "", "", "", "", "")
  const ZeroFactory := Factory("", "", "", "", "")

  /** The document's "DocType" member, if it has one. */
  function DocTypeOf(d: Doc): Option<string>
  {
    match d
    case AssetDoc(_) => None
    case AccountDoc(a) => Some(a.docType)
    case ManufacturerDoc(m) => Some(m.docType)
    case FactoryDoc(f) => Some(f.docType)
    case ProductDoc(p) => Some(p.docType)
  }

  /** The DocType a document of another kind contributes when it is read back. */
  function CarriedDocType(d: Doc): string
  {
    match DocTypeOf(d)
    case Some(t) => t
    case None => ""
  }

  /** A stored value (or none) read back into a zero Asset. */
  function DecodeAsset(v: Option<Doc>): Asset
  {
    match v
    case Some(AssetDoc(a)) => a
    case _ => ZeroAsset
  }

  /** A stored value (or none) read back into a zero Account. */
  function DecodeAccount(v: Option<Doc>): Account
  {
    match v
    case None => ZeroAccount
    case Some(AccountDoc(a)) => a
    case Some(d) => ZeroAccount.(docType := CarriedDocType(d))
  }

  /** A stored value (or none) read back into a zero Manufacturer. */
  function DecodeManufacturer(v: Option<Doc>): Manufacturer
  {
    match v
    case None => ZeroManufacturer
    case Some(ManufacturerDoc(m)) => m
    case Some(d) => ZeroManufacturer.(docType := CarriedDocType(d))
  }

  /** A stored value (or none) read back into a zero Factory. */
  function DecodeFactory(v: Option<Doc>): Factory
  {
    match v
    case None => ZeroFactory
    case Some(FactoryDoc(f)) => f
    case Some(d) => ZeroFactory.(docType := CarriedDocType(d))
  }

  /** A stored value (or none) read back into a zero Product. */
  function DecodeProduct(v: Option<Doc>): Product
  {
    match v
    case None => ZeroProduct
    case Some(ProductDoc(p)) => p
    case Some(d) => ZeroProduct.(docType := CarriedDocType(d))
  }

  // The JSON form of a document, as `json.Marshal` writes it and `json.Unmarshal` reads it.

  /** A JSON member value: the five structs hold only strings and integers. */
  datatype Value = Str(s: string) | Num(n: int)

  /** A JSON object: member name to value. */
  type Object = map<string, Value>

  /** The JSON member names (struct tags) of each kind, in field order. */
  const AssetTags: seq<string> := ["ID", "color", "size", "owner", "appraisedValue"]
  const AccountTags: seq<string> := ["AccountToken", "AccountType", "AccountName", "AccountUsername",
    "AccountEmail", "AccountPhoneNumber", "AccountPassword", "AccountOwnerManufacturerID", "DocType"]
  const ProductTags: seq<string> := ["ProductOwnerAccountID", "ProductManufacturerID",
    "ProductManufacturerName", "ProductFactoryID", "ProductID", "ProductName", "ProductType",
    "ProductBatch", "ProductSerialinBatch", "ProductManufacturingLocation", "ProductManufacturingDate",
    "ProductExpiryDate", "DocType"]
  const ManufacturerTags: seq<string> := ["ManufacturerAccountID", "ManufacturerName",
    "ManufacturerTradeLicenceID", "ManufacturerLocation", "ManufacturerFoundingDate", "DocType"]
  const FactoryTags: seq<string> := ["FactoryManufacturerID", "FactoryID", "FactoryName", "FactoryLocation", "DocType"]

  /** The kind of record a document holds. */
  function KindOf(d: Doc): nat
  {
    match d
    case AssetDoc(_) => 0
    case AccountDoc(_) => 1
    case ManufacturerDoc(_) => 2
    case FactoryDoc(_) => 3
    case ProductDoc(_) => 4
  }

  /** The member names of the document's kind. */
  function Tags(d: Doc): seq<string>
  {
    match d
    case AssetDoc(_) => AssetTags
    case AccountDoc(_) => AccountTags
    case ManufacturerDoc(_) => ManufacturerTags
    case FactoryDoc(_) => FactoryTags
    case ProductDoc(_) => ProductTags
  }

  /** The JSON object a record is stored as: one member per field, named by its tag. */
  function Encode(d: Doc): Object
  {
    match d
    case AssetDoc(a) => EncodeAsset(a)
    case AccountDoc(a) => EncodeAccount(a)
    case ManufacturerDoc(m) => EncodeManufacturer(m)
    case FactoryDoc(f) => EncodeFactory(f)
    case ProductDoc(p) => EncodeProduct(p)
  }

  function EncodeAsset(a: Asset): Object
  {
    map["ID" := Str(a.id), "color" := Str(a.color), "size" := Num(a.size), "owner" := Str(a.owner),
        "appraisedValue" := Num(a.appraisedValue)]
  }

  function EncodeAccount(a: Account): Object
  {
    map["AccountToken" := Str(a.accountToken), "AccountType" := Str(a.accountType),
        "AccountName" := Str(a.accountName), "AccountUsername" := Str(a.accountUsername),
        "AccountEmail" := Str(a.accountEmail), "AccountPhoneNumber" := Str(a.accountPhoneNumber),
        "AccountPassword" := Str(a.accountPassword),
        "AccountOwnerManufacturerID" := Str(a.accountOwnerManufacturerID), "DocType" := Str(a.docType)]
  }

  function EncodeManufacturer(m: Manufacturer): Object
  {
    map["ManufacturerAccountID" := Str(m.manufacturerAccountID), "ManufacturerName" := Str(m.manufacturerName),
        "ManufacturerTradeLicenceID" := Str(m.manufacturerTradeLicenceID),
        "ManufacturerLocation" := Str(m.manufacturerLocation),
        "ManufacturerFoundingDate" := Str(m.manufacturerFoundingDate), "DocType" := Str(m.docType)]
  }

  function EncodeFactory(f: Factory): Object
  {
    map["FactoryManufacturerID" := Str(f.factoryManufacturerID), "FactoryID" := Str(f.factoryID),
        "FactoryName" := Str(f.factoryName), "FactoryLocation" := Str(f.factoryLocation),
        "DocType" := Str(f.docType)]
  }

  function EncodeProduct(p: Product): Object
  {
    map["ProductOwnerAccountID" := Str(p.productOwnerAccountID),
        "ProductManufacturerID" := Str(p.productManufacturerID),
        "ProductManufacturerName" := Str(p.productManufacturerName),
        "ProductFactoryID" := Str(p.productFactoryID), "ProductID" := Str(p.productID),
        "ProductName" := Str(p.productName), "ProductType" := Str(p.productType),
        "ProductBatch" := Str(p.productBatch), "ProductSerialinBatch" := Str(p.productSerialinBatch),
        "ProductManufacturingLocation" := Str(p.productManufacturingLocation),
        "ProductManufacturingDate" := Str(p.productManufacturingDate),
        "ProductExpiryDate" := Str(p.productExpiryDate), "DocType" := Str(p.docType)]
  }

  /** A document's JSON form has exactly the member names of its kind. */
  lemma EncodeMembers(d: Doc)
    ensures forall t :: t in Encode(d) <==> t in Tags(d)
  {
    match d
    case AssetDoc(a) => AssetMembers(a);
    case AccountDoc(a) => AccountMembers(a);
    case ManufacturerDoc(m) => ManufacturerMembers(m);
    case FactoryDoc(f) => FactoryMembers(f);
    case ProductDoc(p) => ProductMembers(p);
  }

  lemma AssetMembers(a: Asset)
    ensures forall t :: t in EncodeAsset(a) <==> t in AssetTags
  {
  }

  lemma AccountMembers(a: Account)
    ensures forall t :: t in EncodeAccount(a) <==> t in AccountTags
  {
  }

  lemma ManufacturerMembers(m: Manufacturer)
    ensures forall t :: t in EncodeManufacturer(m) <==> t in ManufacturerTags
  {
  }

  lemma FactoryMembers(f: Factory)
    ensures forall t :: t in EncodeFactory(f) <==> t in FactoryTags
  {
  }

  lemma ProductMembers(p: Product)
    ensures forall t :: t in EncodeProduct(p) <==> t in ProductTags
  {
  }

  /** ASCII lower case. */
  function Lower(c: char): char
  {
    if 'A' <= c <= 'Z' then (c as int + 32) as char else c
  }

  function Fold(s: string): string
  {
    seq(|s|, i requires 0 <= i < |s| => Lower(s[i]))
  }

  /** The decoder's case-insensitive comparison of a member name with a tag. */
  predicate SameFold(a: string, b: string)
  {
    Fold(a) == Fold(b)
  }

  /**
   * The member of `o` a field tagged `tag` is read from: the member of that
   * exact name, else one whose name equals the tag up to case, else none.
   */
  ghost function Member(o: Object, tag: string): Option<Value>
  {
    if tag in o then Some(o[tag])
    else if exists k :: k in o && SameFold(k, tag) then
      var k :| k in o && SameFold(k, tag);
      Some(o[k])
    else None
  }

  /** A string field: the matching member if it is a string, else the zero value. */
  ghost function StrMember(o: Object, tag: string): string
  {
    match Member(o, tag)
    case Some(Str(s)) => s
    case _ => ""
  }

  /** An integer field: the matching member if it is a number, else the zero value. */
  ghost function NumMember(o: Object, tag: string): int
  {
    match Member(o, tag)
    case Some(Num(n)) => n
    case _ => 0
  }

  /** `json.Unmarshal` of an object into a zero Asset. */
  ghost function UnmarshalAsset(o: Object): Asset
  {
    Asset(StrMember(o, "ID"), StrMember(o, "color"), NumMember(o, "size"), StrMember(o, "owner"),
          NumMember(o, "appraisedValue"))
  }

  /** `json.Unmarshal` of an object into a zero Account. */
  ghost function UnmarshalAccount(o: Object): Account
  {
    Account(StrMember(o, "AccountToken"), StrMember(o, "AccountType"), StrMember(o, "AccountName"),
            StrMember(o, "AccountUsername"), StrMember(o, "AccountEmail"), StrMember(o, "AccountPhoneNumber"),
            StrMember(o, "AccountPassword"), StrMember(o, "AccountOwnerManufacturerID"),
            StrMember(o, "DocType"))
  }

  /** `json.Unmarshal` of an object into a zero Manufacturer. */
  ghost function UnmarshalManufacturer(o: Object): Manufacturer
  {
    Manufacturer(StrMember(o, "ManufacturerAccountID"), StrMember(o, "ManufacturerName"),
                 StrMember(o, "ManufacturerTradeLicenceID"), StrMember(o, "ManufacturerLocation"),
                 StrMember(o, "ManufacturerFoundingDate"), StrMember(o, "DocType"))
  }

  /** `json.Unmarshal` of an object into a zero Factory. */
  ghost function UnmarshalFactory(o: Object): Factory
  {
    Factory(StrMember(o, "FactoryManufacturerID"), StrMember(o, "FactoryID"), StrMember(o, "FactoryName"),
            StrMember(o, "FactoryLocation"), StrMember(o, "DocType"))
  }

  /** `json.Unmarshal` of an object into a zero Product. */
  ghost function UnmarshalProduct(o: Object): Product
  {
    Product(StrMember(o, "ProductOwnerAccountID"), StrMember(o, "ProductManufacturerID"),
            StrMember(o, "ProductManufacturerName"), StrMember(o, "ProductFactoryID"),
            StrMember(o, "ProductID"), StrMember(o, "ProductName"), StrMember(o, "ProductType"),
            StrMember(o, "ProductBatch"), StrMember(o, "ProductSerialinBatch"),
            StrMember(o, "ProductManufacturingLocation"), StrMember(o, "ProductManufacturingDate"),
            StrMember(o, "ProductExpiryDate"), StrMember(o, "DocType"))
  }

  /** The first two letters of a name, lower-cased (the whole name when shorter). */
  function Head(s: string): string
  {
    if |s| < 2 then Fold(s) else [Lower(s[0]), Lower(s[1])]
  }

  /** Names equal up to case agree in length and in their heads. */
  lemma FoldHead(a: string, b: string)
    requires SameFold(a, b)
    ensures |a| == |b| && Head(a) == Head(b)
  {
    if |a| >= 2 {
      assert Fold(a)[0] == Fold(b)[0] && Fold(a)[1] == Fold(b)[1];
    }
  }

  /** The heads of a kind's member names other than "DocType". */
  function KindHeads(d: Doc): set<string>
  {
    match d
    case AssetDoc(_) => {"id", "co", "si", "ow", "ap"}
    case AccountDoc(_) => {"ac"}
    case ManufacturerDoc(_) => {"ma"}
    case FactoryDoc(_) => {"fa"}
    case ProductDoc(_) => {"pr"}
  }

  /** Every member name of a kind other than "DocType" has one of that kind's heads. */
  lemma TagHeads(d: Doc, a: string)
    requires a in Tags(d)
    ensures a == "DocType" || Head(a) in KindHeads(d)
    ensures a == "DocType" ==> !d.AssetDoc?
  {
    match d
    case AssetDoc(_) => AssetTagHeads();
    case AccountDoc(_) => AccountTagHeads();
    case ManufacturerDoc(_) => ManufacturerTagHeads();
    case FactoryDoc(_) => FactoryTagHeads();
    case ProductDoc(_) => ProductTagHeads();
  }

  /** Different kinds have different heads, and none of them is the head of "DocType". */
  lemma KindHeadsDisjoint(d: Doc, e: Doc)
    requires KindOf(d) != KindOf(e)
    ensures KindHeads(d) !! KindHeads(e)
    ensures Head("DocType") !in KindHeads(d)
  {
    assert Head("DocType") == "do";
  }

  lemma AssetTagHeads()
    ensures forall i :: 0 <= i < |AssetTags| ==> AssetTags[i] == "DocType" || Head(AssetTags[i]) in {"id", "co", "si", "ow", "ap"}
    ensures "DocType" !in AssetTags
  {
  }

  lemma AccountTagHeads()
    ensures forall i :: 0 <= i < |AccountTags| ==> AccountTags[i] == "DocType" || Head(AccountTags[i]) in {"ac"}
    ensures "DocType" in AccountTags
  {
  }

  lemma ManufacturerTagHeads()
    ensures forall i :: 0 <= i < |ManufacturerTags| ==> ManufacturerTags[i] == "DocType" || Head(ManufacturerTags[i]) in {"ma"}
    ensures "DocType" in ManufacturerTags
  {
  }

  lemma FactoryTagHeads()
    ensures forall i :: 0 <= i < |FactoryTags| ==> FactoryTags[i] == "DocType" || Head(FactoryTags[i]) in {"fa"}
    ensures "DocType" in FactoryTags
  {
  }

  lemma ProductTagHeads()
    ensures forall i :: 0 <= i < |ProductTags| ==> ProductTags[i] == "DocType" || Head(ProductTags[i]) in {"pr"}
    ensures "DocType" in ProductTags
  {
  }

  /**
   * "DocType" is the only member name two kinds share, even up to case;
   * Asset shares none.
   */
  lemma OnlyDocTypeShared(d: Doc, e: Doc, a: string, b: string)
    requires KindOf(d) != KindOf(e)
    requires a in Tags(d) && b in Tags(e) && SameFold(a, b)
    ensures a == "DocType" && b == "DocType"
    ensures !d.AssetDoc? && !e.AssetDoc?
  {
    FoldHead(a, b);
    TagHeads(d, a);
    TagHeads(e, b);
    KindHeadsDisjoint(d, e);
    KindHeadsDisjoint(e, d);
  }

  /** A field whose tag belongs to another kind finds no member in a document of this kind. */
  lemma ForeignTagAbsent(d: Doc, e: Doc, t: string)
    requires KindOf(d) != KindOf(e) && t in Tags(e) && t != "DocType"
    ensures Member(Encode(d), t) == None
  {
    if t in Encode(d) {
      OnlyDocTypeShared(d, e, t, t);
    } else if k :| k in Encode(d) && SameFold(k, t) {
      OnlyDocTypeShared(d, e, k, t);
    }
  }

  /** The DocType field of a document reads back as the DocType it carries, if any. */
  lemma DocTypeMember(d: Doc)
    ensures StrMember(Encode(d), "DocType") == CarriedDocType(d)
  {
    if d.AssetDoc? {
      if k :| k in Encode(d) && SameFold(k, "DocType") {
        OnlyDocTypeShared(d, AccountDoc(ZeroAccount), k, "DocType");
      }
    }
  }

  /** An Asset reads back as itself from its own JSON form. */
  lemma AssetRoundTrip(x: Asset)
    ensures UnmarshalAsset(Encode(AssetDoc(x))) == x
  {
  }

  /** A document of another kind has none of an Asset's members, so it reads back as the zero Asset. */
  lemma ForeignAsAsset(d: Doc)
    requires !d.AssetDoc?
    ensures UnmarshalAsset(Encode(d)) == ZeroAsset
  {
    var e := AssetDoc(ZeroAsset);
    ForeignTagAbsent(d, e, "ID");
    ForeignTagAbsent(d, e, "color");
    ForeignTagAbsent(d, e, "size");
    ForeignTagAbsent(d, e, "owner");
    ForeignTagAbsent(d, e, "appraisedValue");
  }

  /** An Account reads back as itself from its own JSON form. */
  lemma AccountRoundTrip(x: Account)
    ensures UnmarshalAccount(Encode(AccountDoc(x))) == x
  {
  }

  /**
   * A document of another kind shares only its "DocType" member with an Account,
   * so it reads back as the zero Account carrying that DocType.
   */
  lemma ForeignAsAccount(d: Doc)
    requires !d.AccountDoc?
    ensures UnmarshalAccount(Encode(d)) == ZeroAccount.(docType := CarriedDocType(d))
  {
    DocTypeMember(d);
    var e := AccountDoc(ZeroAccount);
    ForeignTagAbsent(d, e, "AccountToken");
    ForeignTagAbsent(d, e, "AccountType");
    ForeignTagAbsent(d, e, "AccountName");
    ForeignTagAbsent(d, e, "AccountUsername");
    ForeignTagAbsent(d, e, "AccountEmail");
    ForeignTagAbsent(d, e, "AccountPhoneNumber");
    ForeignTagAbsent(d, e, "AccountPassword");
    ForeignTagAbsent(d, e, "AccountOwnerManufacturerID");
  }

  /** A Manufacturer reads back as itself from its own JSON form. */
  lemma ManufacturerRoundTrip(x: Manufacturer)
    ensures UnmarshalManufacturer(Encode(ManufacturerDoc(x))) == x
  {
  }

  /**
   * A document of another kind shares only its "DocType" member with a Manufacturer,
   * so it reads back as the zero Manufacturer carrying that DocType.
   */
  lemma ForeignAsManufacturer(d: Doc)
    requires !d.ManufacturerDoc?
    ensures UnmarshalManufacturer(Encode(d)) == ZeroManufacturer.(docType := CarriedDocType(d))
  {
    DocTypeMember(d);
    var e := ManufacturerDoc(ZeroManufacturer);
    ForeignTagAbsent(d, e, "ManufacturerAccountID");
    ForeignTagAbsent(d, e, "ManufacturerName");
    ForeignTagAbsent(d, e, "ManufacturerTradeLicenceID");
    ForeignTagAbsent(d, e, "ManufacturerLocation");
    ForeignTagAbsent(d, e, "ManufacturerFoundingDate");
  }

  /** A Factory reads back as itself from its own JSON form. */
  lemma FactoryRoundTrip(x: Factory)
    ensures UnmarshalFactory(Encode(FactoryDoc(x))) == x
  {
  }

  /**
   * A document of another kind shares only its "DocType" member with a Factory,
   * so it reads back as the zero Factory carrying that DocType.
   */
  lemma ForeignAsFactory(d: Doc)
    requires !d.FactoryDoc?
    ensures UnmarshalFactory(Encode(d)) == ZeroFactory.(docType := CarriedDocType(d))
  {
    DocTypeMember(d);
    var e := FactoryDoc(ZeroFactory);
    ForeignTagAbsent(d, e, "FactoryManufacturerID");
    ForeignTagAbsent(d, e, "FactoryID");
    ForeignTagAbsent(d, e, "FactoryName");
    ForeignTagAbsent(d, e, "FactoryLocation");
  }

  /** A Product reads back as itself from its own JSON form. */
  lemma ProductRoundTrip(x: Product)
    ensures UnmarshalProduct(Encode(ProductDoc(x))) == x
  {
    ProductOwnerMembers(x);
    ProductIdentityMembers(x);
    ProductTrailingMembers(x);
  }

  lemma ProductOwnerMembers(x: Product)
    ensures StrMember(Encode(ProductDoc(x)), "ProductOwnerAccountID") == x.productOwnerAccountID
    ensures StrMember(Encode(ProductDoc(x)), "ProductManufacturerID") == x.productManufacturerID
    ensures StrMember(Encode(ProductDoc(x)), "ProductManufacturerName") == x.productManufacturerName
  {
  }

  lemma ProductIdentityMembers(x: Product)
    ensures StrMember(Encode(ProductDoc(x)), "ProductFactoryID") == x.productFactoryID
    ensures StrMember(Encode(ProductDoc(x)), "ProductID") == x.productID
    ensures StrMember(Encode(ProductDoc(x)), "ProductName") == x.productName
  {
  }

  lemma ProductTrailingMembers(x: Product)
    ensures StrMember(Encode(ProductDoc(x)), "ProductType") == x.productType
    ensures StrMember(Encode(ProductDoc(x)), "ProductBatch") == x.productBatch
    ensures StrMember(Encode(ProductDoc(x)), "ProductSerialinBatch") == x.productSerialinBatch
    ensures StrMember(Encode(ProductDoc(x)), "ProductManufacturingLocation") == x.productManufacturingLocation
    ensures StrMember(Encode(ProductDoc(x)), "ProductManufacturingDate") == x.productManufacturingDate
    ensures StrMember(Encode(ProductDoc(x)), "ProductExpiryDate") == x.productExpiryDate
    ensures StrMember(Encode(ProductDoc(x)), "DocType") == x.docType
  {
  }


  /**
   * A document of another kind shares only its "DocType" member with a Product,
   * so it reads back as the zero Product carrying that DocType.
   */
  lemma ForeignAsProduct(d: Doc)
    requires !d.ProductDoc?
    ensures UnmarshalProduct(Encode(d)) == ZeroProduct.(docType := CarriedDocType(d))
  {
    DocTypeMember(d);
    var e := ProductDoc(ZeroProduct);
    ForeignTagAbsent(d, e, "ProductOwnerAccountID");
    ForeignTagAbsent(d, e, "ProductManufacturerID");
    ForeignTagAbsent(d, e, "ProductManufacturerName");
    ForeignTagAbsent(d, e, "ProductFactoryID");
    ForeignTagAbsent(d, e, "ProductID");
    ForeignTagAbsent(d, e, "ProductName");
    ForeignTagAbsent(d, e, "ProductType");
    ForeignTagAbsent(d, e, "ProductBatch");
    ForeignTagAbsent(d, e, "ProductSerialinBatch");
    ForeignTagAbsent(d, e, "ProductManufacturingLocation");
    ForeignTagAbsent(d, e, "ProductManufacturingDate");
    ForeignTagAbsent(d, e, "ProductExpiryDate");
  }

  /** Reading any document as an Asset follows the Asset's tags. */
  lemma DecodeAssetFollowsTags(d: Doc)
    ensures DecodeAsset(Some(d)) == UnmarshalAsset(Encode(d))
  {
    if d.AssetDoc? {
      AssetRoundTrip(d.asset);
    } else {
      ForeignAsAsset(d);
    }
  }

  /** Reading any document as an Account follows the Account's tags. */
  lemma DecodeAccountFollowsTags(d: Doc)
    ensures DecodeAccount(Some(d)) == UnmarshalAccount(Encode(d))
  {
    if d.AccountDoc? {
      AccountRoundTrip(d.account);
    } else {
      ForeignAsAccount(d);
    }
  }

  /** Reading any document as a Manufacturer follows the Manufacturer's tags. */
  lemma DecodeManufacturerFollowsTags(d: Doc)
    ensures DecodeManufacturer(Some(d)) == UnmarshalManufacturer(Encode(d))
  {
    if d.ManufacturerDoc? {
      ManufacturerRoundTrip(d.manufacturer);
    } else {
      ForeignAsManufacturer(d);
    }
  }

  /** Reading any document as a Factory follows the Factory's tags. */
  lemma DecodeFactoryFollowsTags(d: Doc)
    ensures DecodeFactory(Some(d)) == UnmarshalFactory(Encode(d))
  {
    if d.FactoryDoc? {
      FactoryRoundTrip(d.factory);
    } else {
      ForeignAsFactory(d);
    }
  }

  /** Reading any document as a Product follows the Product's tags. */
  lemma DecodeProductFollowsTags(d: Doc)
    ensures DecodeProduct(Some(d)) == UnmarshalProduct(Encode(d))
  {
    if d.ProductDoc? {
      ProductRoundTrip(d.product);
    } else {
      ForeignAsProduct(d);
    }
  }

  /**
   * The decoders agree with `json.Unmarshal` over the stored JSON form: each
   * field takes the member whose name matches its tag, else its zero value.
   * An absent value (nil bytes) fails to parse and leaves the zero record.
   */
  lemma DecodeFollowsTags(d: Doc)
    ensures DecodeAsset(Some(d)) == UnmarshalAsset(Encode(d))
    ensures DecodeAccount(Some(d)) == UnmarshalAccount(Encode(d))
    ensures DecodeManufacturer(Some(d)) == UnmarshalManufacturer(Encode(d))
    ensures DecodeFactory(Some(d)) == UnmarshalFactory(Encode(d))
    ensures DecodeProduct(Some(d)) == UnmarshalProduct(Encode(d))
  {
    DecodeAssetFollowsTags(d);
    DecodeAccountFollowsTags(d);
    DecodeManufacturerFollowsTags(d);
    DecodeFactoryFollowsTags(d);
    DecodeProductFollowsTags(d);
  }
}
