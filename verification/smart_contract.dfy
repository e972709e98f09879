/**
 * The contract functions of the goods-ledger chaincode. Each takes the
 * transaction's stub (the world state) and works on it by read, modify and
 * write, exactly as the chaincode does; each is proved to leave the table
 * and return what the corresponding function of Ledger says.
 */
module SmartContract {
  import opened Wrappers
  import opened Records
  import opened KeyOrder
  import opened WorldState
  import opened Ledger

  // ---------------------------------------------------------------- assets

  /** Puts the six sample assets, one after the other. */
  method InitLedger(stub: Stub)
    modifies stub
    ensures stub.state == Seeded(old(stub.state), InitialAssets)
    ensures forall i :: 0 <= i < |InitialAssets| ==>
              ReadAssetIn(stub.state, InitialAssets[i].id) == Success(InitialAssets[i])
  {
    var assets := InitialAssets;
    for i := 0 to |assets|
      invariant stub.state == Seeded(old(stub.state), assets[..i])
    {
      var asset := assets[i];
      stub.PutState(asset.id, AssetDoc(asset));
      assert assets[..i + 1][..i] == assets[..i];
    }
    assert assets[..|assets|] == assets;
    InitLedgerSeeds(old(stub.state));
  }

  /** True exactly when some document, of any kind, is stored under id. */
  method AssetExists(stub: Stub, id: string) returns (found: bool)
    ensures found <==> id in stub.state
  {
    var value := stub.GetState(id);
    found := value.Some?;
  }

  method CreateAsset(stub: Stub, id: string, color: string, size: int, owner: string, appraisedValue: int)
    returns (out: Outcome<Error>)
    modifies stub
    ensures Step(out, stub.state) == CreateAssetIn(old(stub.state), Asset(id, color, size, owner, appraisedValue))
  {
    var found := AssetExists(stub, id);
    if found {
      return Fail(AlreadyExists(id));
    }
    var asset := Asset(id, color, size, owner, appraisedValue);
    stub.PutState(id, AssetDoc(asset));
    out := Pass;
  }

  method ReadAsset(stub: Stub, id: string) returns (r: Result<Asset, Error>)
    ensures r == ReadAssetIn(stub.state, id)
    ensures r.Failure? <==> id !in stub.state
    ensures id in stub.state && stub.state[id].AssetDoc? ==> r == Success(stub.state[id].asset)
  {
    var value := stub.GetState(id);
    if value.None? {
      return Failure(DoesNotExist(id));
    }
    r := Success(DecodeAsset(value));
  }

  method UpdateAsset(stub: Stub, id: string, color: string, size: int, owner: string, appraisedValue: int)
    returns (out: Outcome<Error>)
    modifies stub
    ensures Step(out, stub.state) == UpdateAssetIn(old(stub.state), Asset(id, color, size, owner, appraisedValue))
  {
    var found := AssetExists(stub, id);
    if !found {
      return Fail(DoesNotExist(id));
    }
    var asset := Asset(id, color, size, owner, appraisedValue);
    stub.PutState(id, AssetDoc(asset));
    out := Pass;
  }

  method DeleteAsset(stub: Stub, id: string) returns (out: Outcome<Error>)
    modifies stub
    ensures Step(out, stub.state) == DeleteAssetIn(old(stub.state), id)
  {
    var found := AssetExists(stub, id);
    if !found {
      return Fail(DoesNotExist(id));
    }
    stub.DelState(id);
    out := Pass;
  }

  method TransferAsset(stub: Stub, id: string, newOwner: string) returns (out: Outcome<Error>)
    modifies stub
    ensures Step(out, stub.state) == TransferAssetIn(old(stub.state), id, newOwner)
  {
    var r := ReadAsset(stub, id);
    if r.Failure? {
      return Fail(r.error);
    }
    var asset := r.value.(owner := newOwner);
    stub.PutState(id, AssetDoc(asset));
    out := Pass;
  }

  /** Scans the whole namespace and reads every value as an Asset. */
  method GetAllAssets(stub: Stub) returns (assets: seq<Asset>)
    ensures assets == AllAssets(stub.state)
    ensures |assets| == |stub.state|
  {
    var items := stub.GetStateByRange();
    assets := [];
    var i := 0;
    while i < |items|
      invariant 0 <= i <= |items|
      invariant |assets| == i
      invariant forall j :: 0 <= j < i ==> assets[j] == DecodeAsset(Some(items[j].value))
    {
      var asset := DecodeAsset(Some(items[i].value));
      assets := assets + [asset];
      i := i + 1;
    }
    AllAssetsListsEveryKey(stub.state);
  }

  // ------------------------------------------------- unconditional writes

  /** Stores the account under accountKey, replacing whatever was there; the phone number is left empty. */
  method RegisterAccount(stub: Stub, accountKey: string, accountToken: string, accountType: string,
                         accountName: string, accountUsername: string, accountEmail: string,
                         accountPassword: string, accountOwnerManufacturerID: string, docType: string)
    modifies stub
    ensures stub.state == old(stub.state)[accountKey := AccountDoc(Account(
              accountToken, accountType, accountName, accountUsername, accountEmail, "",
              accountPassword, accountOwnerManufacturerID, docType))]
  {
    var account := Account(
      accountToken := accountToken,
      accountType := accountType,
      accountName := accountName,
      accountUsername := accountUsername,
      accountEmail := accountEmail,
      accountPhoneNumber := "",
      accountPassword := accountPassword,
      accountOwnerManufacturerID := accountOwnerManufacturerID,
      docType := docType);
    stub.PutState(accountKey, AccountDoc(account));
  }

  /**
   * Stores the manufacturer under manufacturerKey, the SECOND parameter,
   * replacing whatever was there; the first parameter is its account ID.
   */
  method AddManufacturer(stub: Stub, manufacturerAccountID: string, manufacturerKey: string,
                         manufacturerName: string, manufacturerTradeLicenceID: string,
                         manufacturerLocation: string, manufacturerFoundingDate: string, docType: string)
    modifies stub
    ensures stub.state == old(stub.state)[manufacturerKey := ManufacturerDoc(Manufacturer(
              manufacturerAccountID, manufacturerName, manufacturerTradeLicenceID,
              manufacturerLocation, manufacturerFoundingDate, docType))]
  {
    var manufacturer := Manufacturer(
      manufacturerAccountID := manufacturerAccountID,
      manufacturerName := manufacturerName,
      manufacturerTradeLicenceID := manufacturerTradeLicenceID,
      manufacturerLocation := manufacturerLocation,
      manufacturerFoundingDate := manufacturerFoundingDate,
      docType := docType);
    stub.PutState(manufacturerKey, ManufacturerDoc(manufacturer));
  }

  /** Stores the factory under factoryKey, replacing whatever was there. */
  method AddFactory(stub: Stub, factoryKey: string, factoryManufacturerID: string, factoryID: string,
                    factoryName: string, factoryLocation: string, docType: string)
    modifies stub
    ensures stub.state == old(stub.state)[factoryKey := FactoryDoc(Factory(
              factoryManufacturerID, factoryID, factoryName, factoryLocation, docType))]
  {
    var factory := Factory(
      factoryManufacturerID := factoryManufacturerID,
      factoryID := factoryID,
      factoryName := factoryName,
      factoryLocation := factoryLocation,
      docType := docType);
    stub.PutState(factoryKey, FactoryDoc(factory));
  }

  /** Stores the product under productKey, replacing whatever was there. */
  method AddProduct(stub: Stub, productKey: string, productOwnerAccountID: string, productManufacturerID: string,
                    productManufacturerName: string, productFactoryID: string, productID: string,
                    productName: string, productType: string, productBatch: string, productSerialinBatch: string,
                    productManufacturingLocation: string, productManufacturingDate: string,
                    productExpiryDate: string, docType: string)
    modifies stub
    ensures stub.state == old(stub.state)[productKey := ProductDoc(Product(
              productOwnerAccountID, productManufacturerID, productManufacturerName, productFactoryID,
              productID, productName, productType, productBatch, productSerialinBatch,
              productManufacturingLocation, productManufacturingDate, productExpiryDate, docType))]
  {
    var product := Product(
      productOwnerAccountID := productOwnerAccountID,
      productManufacturerID := productManufacturerID,
      productManufacturerName := productManufacturerName,
      productFactoryID := productFactoryID,
      productID := productID,
      productName := productName,
      productType := productType,
      productBatch := productBatch,
      productSerialinBatch := productSerialinBatch,
      productManufacturingLocation := productManufacturingLocation,
      productManufacturingDate := productManufacturingDate,
      productExpiryDate := productExpiryDate,
      docType := docType);
    stub.PutState(productKey, ProductDoc(product));
  }

  // --------------------------------------------------------------- updates

  method UpdateProductOwner(stub: Stub, productKey: string, productOwnerAccountID: string)
    modifies stub
    ensures stub.state == UpdateProductOwnerIn(old(stub.state), productKey, productOwnerAccountID)
  {
    var value := stub.GetState(productKey);
    var product := DecodeProduct(value);  // the decoder's error is not checked
    product := product.(productOwnerAccountID := productOwnerAccountID);
    stub.PutState(productKey, ProductDoc(product));
  }

  method UpdateAccountOwnerManufacturerID(stub: Stub, accountKey: string, accountOwnerManufacturerID: string)
    modifies stub
    ensures stub.state == UpdateAccountOwnerManufacturerIDIn(old(stub.state), accountKey, accountOwnerManufacturerID)
  {
    var value := stub.GetState(accountKey);
    var account := DecodeAccount(value);
    account := account.(accountOwnerManufacturerID := accountOwnerManufacturerID);
    stub.PutState(accountKey, AccountDoc(account));
  }

  method UpdateAccountToken(stub: Stub, accountKey: string, accountToken: string)
    modifies stub
    ensures stub.state == UpdateAccountTokenIn(old(stub.state), accountKey, accountToken)
  {
    var value := stub.GetState(accountKey);
    var account := DecodeAccount(value);
    account := account.(accountToken := accountToken);
    stub.PutState(accountKey, AccountDoc(account));
  }

  method UpdateAccount(stub: Stub, accountKey: string, accountToken: string, accountName: string,
                       accountEmail: string, accountPhoneNumber: string)
    modifies stub
    ensures stub.state == UpdateAccountIn(old(stub.state), accountKey, accountToken, accountName,
                                          accountEmail, accountPhoneNumber)
  {
    var value := stub.GetState(accountKey);
    var account := DecodeAccount(value);
    account := account.(accountToken := accountToken);
    account := account.(accountName := accountName);
    account := account.(accountEmail := accountEmail);
    account := account.(accountPhoneNumber := accountPhoneNumber);
    stub.PutState(accountKey, AccountDoc(account));
  }

  method UpdateManufacturer(stub: Stub, manufacturerKey: string, manufacturerName: string,
                            manufacturerTradeLicenceID: string, manufacturerLocation: string,
                            manufacturerFoundingDate: string)
    modifies stub
    ensures stub.state == UpdateManufacturerIn(old(stub.state), manufacturerKey, manufacturerName,
                                               manufacturerTradeLicenceID, manufacturerLocation,
                                               manufacturerFoundingDate)
  {
    var value := stub.GetState(manufacturerKey);
    var manufacturer := DecodeManufacturer(value);
    manufacturer := manufacturer.(manufacturerName := manufacturerName);
    manufacturer := manufacturer.(manufacturerTradeLicenceID := manufacturerTradeLicenceID);
    manufacturer := manufacturer.(manufacturerLocation := manufacturerLocation);
    manufacturer := manufacturer.(manufacturerFoundingDate := manufacturerFoundingDate);
    stub.PutState(manufacturerKey, ManufacturerDoc(manufacturer));
  }

  method UpdateFactory(stub: Stub, factoryKey: string, factoryManufacturerID: string, factoryName: string,
                       factoryLocation: string)
    modifies stub
    ensures stub.state == UpdateFactoryIn(old(stub.state), factoryKey, factoryManufacturerID, factoryName,
                                          factoryLocation)
  {
    var value := stub.GetState(factoryKey);
    var factory := DecodeFactory(value);
    factory := factory.(factoryManufacturerID := factoryManufacturerID);
    factory := factory.(factoryName := factoryName);
    factory := factory.(factoryLocation := factoryLocation);
    stub.PutState(factoryKey, FactoryDoc(factory));
  }

  method UpdateProduct(stub: Stub, productKey: string, productOwnerAccountID: string, productFactoryID: string,
                       productName: string, productType: string, productBatch: string,
                       productSerialinBatch: string, productManufacturingLocation: string,
                       productManufacturingDate: string, productExpiryDate: string)
    modifies stub
    ensures stub.state == UpdateProductIn(old(stub.state), productKey, productOwnerAccountID, productFactoryID,
                                          productName, productType, productBatch, productSerialinBatch,
                                          productManufacturingLocation, productManufacturingDate,
                                          productExpiryDate)
  {
    var value := stub.GetState(productKey);
    var product := DecodeProduct(value);
    product := product.(productOwnerAccountID := productOwnerAccountID);
    product := product.(productFactoryID := productFactoryID);
    product := product.(productName := productName);
    product := product.(productType := productType);
    product := product.(productBatch := productBatch);
    product := product.(productSerialinBatch := productSerialinBatch);
    product := product.(productManufacturingLocation := productManufacturingLocation);
    product := product.(productManufacturingDate := productManufacturingDate);
    product := product.(productExpiryDate := productExpiryDate);
    stub.PutState(productKey, ProductDoc(product));
  }

  // ------------------------------------------- iterator response builders

  method ConstructAccountQueryResponseFromIterator(items: seq<KV>) returns (accounts: seq<Account>)
    ensures accounts == DecodeAccounts(items)
  {
    accounts := [];
    var i := 0;
    while i < |items|
      invariant 0 <= i <= |items|
      invariant |accounts| == i
      invariant forall j :: 0 <= j < i ==> accounts[j] == DecodeAccount(Some(items[j].value))
    {
      var account := DecodeAccount(Some(items[i].value));
      accounts := accounts + [account];
      i := i + 1;
    }
  }

  method ConstructProductQueryResponseFromIterator(items: seq<KV>) returns (products: seq<Product>)
    ensures products == DecodeProducts(items)
  {
    products := [];
    var i := 0;
    while i < |items|
      invariant 0 <= i <= |items|
      invariant |products| == i
      invariant forall j :: 0 <= j < i ==> products[j] == DecodeProduct(Some(items[j].value))
    {
      var product := DecodeProduct(Some(items[i].value));
      products := products + [product];
      i := i + 1;
    }
  }

  method ConstructManufacturerQueryResponseFromIterator(items: seq<KV>) returns (manufacturers: seq<Manufacturer>)
    ensures manufacturers == DecodeManufacturers(items)
  {
    manufacturers := [];
    var i := 0;
    while i < |items|
      invariant 0 <= i <= |items|
      invariant |manufacturers| == i
      invariant forall j :: 0 <= j < i ==> manufacturers[j] == DecodeManufacturer(Some(items[j].value))
    {
      var manufacturer := DecodeManufacturer(Some(items[i].value));
      manufacturers := manufacturers + [manufacturer];
      i := i + 1;
    }
  }

  method ConstructFactoryQueryResponseFromIterator(items: seq<KV>) returns (factories: seq<Factory>)
    ensures factories == DecodeFactories(items)
  {
    factories := [];
    var i := 0;
    while i < |items|
      invariant 0 <= i <= |items|
      invariant |factories| == i
      invariant forall j :: 0 <= j < i ==> factories[j] == DecodeFactory(Some(items[j].value))
    {
      var factory := DecodeFactory(Some(items[i].value));
      factories := factories + [factory];
      i := i + 1;
    }
  }

  // --------------------------------------------------- query execution

  method GetAccountQueryResult(stub: Stub, sel: Selector) returns (accounts: seq<Account>)
    ensures accounts == DecodeAccounts(Query(stub.state, sel))
  {
    var items := stub.GetQueryResult(sel);
    accounts := ConstructAccountQueryResponseFromIterator(items);
  }

  method GetProductQueryResult(stub: Stub, sel: Selector) returns (products: seq<Product>)
    ensures products == DecodeProducts(Query(stub.state, sel))
  {
    var items := stub.GetQueryResult(sel);
    products := ConstructProductQueryResponseFromIterator(items);
  }

  method GetManufacturerQueryResult(stub: Stub, sel: Selector) returns (manufacturers: seq<Manufacturer>)
    ensures manufacturers == DecodeManufacturers(Query(stub.state, sel))
  {
    var items := stub.GetQueryResult(sel);
    manufacturers := ConstructManufacturerQueryResponseFromIterator(items);
  }

  method GetFactoryQueryResult(stub: Stub, sel: Selector) returns (factories: seq<Factory>)
    ensures factories == DecodeFactories(Query(stub.state, sel))
  {
    var items := stub.GetQueryResult(sel);
    factories := ConstructFactoryQueryResponseFromIterator(items);
  }

  // --------------------------------------------------------------- queries

  /** The accounts stored with DocType "account" and AccountToken equal to accountToken: one per matching key, in key order. */
  method QueryAccountbyToken(stub: Stub, accountToken: string) returns (accounts: seq<Account>)
    ensures var ks := Ordered(MatchingKeys(stub.state, Selector("account", AccountToken, accountToken)));
      |accounts| == |ks| && forall i :: 0 <= i < |ks| ==> ks[i] in stub.state && stub.state[ks[i]] == AccountDoc(accounts[i])
    ensures forall i :: 0 <= i < |accounts| ==> accounts[i].docType == "account" && accounts[i].accountToken == accountToken
  {
    var sel := Selector("account", AccountToken, accountToken);
    accounts := GetAccountQueryResult(stub, sel);
    AccountQueryExact(stub.state, sel);
    AccountQueryFields(stub.state, sel);
  }

  /** The accounts stored with DocType "account" and AccountEmail equal to accountEmail: one per matching key, in key order. */
  method QueryAccountbyEmail(stub: Stub, accountEmail: string) returns (accounts: seq<Account>)
    ensures var ks := Ordered(MatchingKeys(stub.state, Selector("account", AccountEmail, accountEmail)));
      |accounts| == |ks| && forall i :: 0 <= i < |ks| ==> ks[i] in stub.state && stub.state[ks[i]] == AccountDoc(accounts[i])
    ensures forall i :: 0 <= i < |accounts| ==> accounts[i].docType == "account" && accounts[i].accountEmail == accountEmail
  {
    var sel := Selector("account", AccountEmail, accountEmail);
    accounts := GetAccountQueryResult(stub, sel);
    AccountQueryExact(stub.state, sel);
    AccountQueryFields(stub.state, sel);
  }

  /** The accounts stored with DocType "account" and AccountUsername equal to accountUsername: one per matching key, in key order. */
  method QueryAccountbyUsername(stub: Stub, accountUsername: string) returns (accounts: seq<Account>)
    ensures var ks := Ordered(MatchingKeys(stub.state, Selector("account", AccountUsername, accountUsername)));
      |accounts| == |ks| && forall i :: 0 <= i < |ks| ==> ks[i] in stub.state && stub.state[ks[i]] == AccountDoc(accounts[i])
    ensures forall i :: 0 <= i < |accounts| ==> accounts[i].docType == "account" && accounts[i].accountUsername == accountUsername
  {
    var sel := Selector("account", AccountUsername, accountUsername);
    accounts := GetAccountQueryResult(stub, sel);
    AccountQueryExact(stub.state, sel);
    AccountQueryFields(stub.state, sel);
  }

  /** The manufacturers stored with DocType "manufacturer" and ManufacturerAccountID equal to manufacturerAccountID: one per matching key, in key order. */
  method QueryManufacturerbyAccountID(stub: Stub, manufacturerAccountID: string) returns (manufacturers: seq<Manufacturer>)
    ensures var ks := Ordered(MatchingKeys(stub.state, Selector("manufacturer", ManufacturerAccountID, manufacturerAccountID)));
      |manufacturers| == |ks| && forall i :: 0 <= i < |ks| ==> ks[i] in stub.state && stub.state[ks[i]] == ManufacturerDoc(manufacturers[i])
    ensures forall i :: 0 <= i < |manufacturers| ==> manufacturers[i].docType == "manufacturer" && manufacturers[i].manufacturerAccountID == manufacturerAccountID
  {
    var sel := Selector("manufacturer", ManufacturerAccountID, manufacturerAccountID);
    manufacturers := GetManufacturerQueryResult(stub, sel);
    ManufacturerQueryExact(stub.state, sel);
    ManufacturerQueryFields(stub.state, sel);
  }

  /** The manufacturers stored with DocType "manufacturer" and ManufacturerTradeLicenceID equal to manufacturerTradeLicenceID: one per matching key, in key order. */
  method QueryManufacturerbyTradeLicenceID(stub: Stub, manufacturerTradeLicenceID: string) returns (manufacturers: seq<Manufacturer>)
    ensures var ks := Ordered(MatchingKeys(stub.state, Selector("manufacturer", ManufacturerTradeLicenceID, manufacturerTradeLicenceID)));
      |manufacturers| == |ks| && forall i :: 0 <= i < |ks| ==> ks[i] in stub.state && stub.state[ks[i]] == ManufacturerDoc(manufacturers[i])
    ensures forall i :: 0 <= i < |manufacturers| ==> manufacturers[i].docType == "manufacturer" && manufacturers[i].manufacturerTradeLicenceID == manufacturerTradeLicenceID
  {
    var sel := Selector("manufacturer", ManufacturerTradeLicenceID, manufacturerTradeLicenceID);
    manufacturers := GetManufacturerQueryResult(stub, sel);
    ManufacturerQueryExact(stub.state, sel);
    ManufacturerQueryFields(stub.state, sel);
  }

  /** The factories stored with DocType "factory" and FactoryID equal to factoryID: one per matching key, in key order. */
  method QueryFactorybyID(stub: Stub, factoryID: string) returns (factories: seq<Factory>)
    ensures var ks := Ordered(MatchingKeys(stub.state, Selector("factory", FactoryID, factoryID)));
      |factories| == |ks| && forall i :: 0 <= i < |ks| ==> ks[i] in stub.state && stub.state[ks[i]] == FactoryDoc(factories[i])
    ensures forall i :: 0 <= i < |factories| ==> factories[i].docType == "factory" && factories[i].factoryID == factoryID
  {
    var sel := Selector("factory", FactoryID, factoryID);
    factories := GetFactoryQueryResult(stub, sel);
    FactoryQueryExact(stub.state, sel);
    FactoryQueryFields(stub.state, sel);
  }

  /** The factories stored with DocType "factory" and FactoryManufacturerID equal to factoryManufacturerID: one per matching key, in key order. */
  method QueryFactorybyManufacturerID(stub: Stub, factoryManufacturerID: string) returns (factories: seq<Factory>)
    ensures var ks := Ordered(MatchingKeys(stub.state, Selector("factory", FactoryManufacturerID, factoryManufacturerID)));
      |factories| == |ks| && forall i :: 0 <= i < |ks| ==> ks[i] in stub.state && stub.state[ks[i]] == FactoryDoc(factories[i])
    ensures forall i :: 0 <= i < |factories| ==> factories[i].docType == "factory" && factories[i].factoryManufacturerID == factoryManufacturerID
  {
    var sel := Selector("factory", FactoryManufacturerID, factoryManufacturerID);
    factories := GetFactoryQueryResult(stub, sel);
    FactoryQueryExact(stub.state, sel);
    FactoryQueryFields(stub.state, sel);
  }

  /** The products stored with DocType "product" and ProductID equal to productID: one per matching key, in key order. */
  method QueryProductbyID(stub: Stub, productID: string) returns (products: seq<Product>)
    ensures var ks := Ordered(MatchingKeys(stub.state, Selector("product", ProductID, productID)));
      |products| == |ks| && forall i :: 0 <= i < |ks| ==> ks[i] in stub.state && stub.state[ks[i]] == ProductDoc(products[i])
    ensures forall i :: 0 <= i < |products| ==> products[i].docType == "product" && products[i].productID == productID
  {
    var sel := Selector("product", ProductID, productID);
    products := GetProductQueryResult(stub, sel);
    ProductQueryExact(stub.state, sel);
    ProductQueryFields(stub.state, sel);
  }

  /**
   * The product stored under the document key productCode, if its DocType is
   * "product": the selector names the key itself, so at most one document
   * matches, of whatever kind it is.
   */
  method QueryProductbyCode(stub: Stub, productCode: string) returns (products: seq<Product>)
    ensures |products| <= 1
    ensures |products| == 1 <==> productCode in stub.state && DocTypeOf(stub.state[productCode]) == Some("product")
    ensures |products| == 1 ==> products[0] == DecodeProduct(Some(stub.state[productCode]))
  {
    products := GetProductQueryResult(stub, Selector("product", DocumentKey, productCode));
    KeyQueryExact(stub.state, "product", productCode);
  }

  /** The products stored with DocType "product" and ProductOwnerAccountID equal to productOwnerAccountID: one per matching key, in key order. */
  method QueryProductbyOwnerAccountID(stub: Stub, productOwnerAccountID: string) returns (products: seq<Product>)
    ensures var ks := Ordered(MatchingKeys(stub.state, Selector("product", ProductOwnerAccountID, productOwnerAccountID)));
      |products| == |ks| && forall i :: 0 <= i < |ks| ==> ks[i] in stub.state && stub.state[ks[i]] == ProductDoc(products[i])
    ensures forall i :: 0 <= i < |products| ==> products[i].docType == "product" && products[i].productOwnerAccountID == productOwnerAccountID
  {
    var sel := Selector("product", ProductOwnerAccountID, productOwnerAccountID);
    products := GetProductQueryResult(stub, sel);
    ProductQueryExact(stub.state, sel);
    ProductQueryFields(stub.state, sel);
  }

  /** The products stored with DocType "product" and ProductManufacturerID equal to productManufacturerID: one per matching key, in key order. */
  method QueryProductbyManufacturerID(stub: Stub, productManufacturerID: string) returns (products: seq<Product>)
    ensures var ks := Ordered(MatchingKeys(stub.state, Selector("product", ProductManufacturerID, productManufacturerID)));
      |products| == |ks| && forall i :: 0 <= i < |ks| ==> ks[i] in stub.state && stub.state[ks[i]] == ProductDoc(products[i])
    ensures forall i :: 0 <= i < |products| ==> products[i].docType == "product" && products[i].productManufacturerID == productManufacturerID
  {
    var sel := Selector("product", ProductManufacturerID, productManufacturerID);
    products := GetProductQueryResult(stub, sel);
    ProductQueryExact(stub.state, sel);
    ProductQueryFields(stub.state, sel);
  }

  /** The products stored with DocType "product" and ProductFactoryID equal to productFactoryID: one per matching key, in key order. */
  method QueryProductbyFactoryID(stub: Stub, productFactoryID: string) returns (products: seq<Product>)
    ensures var ks := Ordered(MatchingKeys(stub.state, Selector("product", ProductFactoryID, productFactoryID)));
      |products| == |ks| && forall i :: 0 <= i < |ks| ==> ks[i] in stub.state && stub.state[ks[i]] == ProductDoc(products[i])
    ensures forall i :: 0 <= i < |products| ==> products[i].docType == "product" && products[i].productFactoryID == productFactoryID
  {
    var sel := Selector("product", ProductFactoryID, productFactoryID);
    products := GetProductQueryResult(stub, sel);
    ProductQueryExact(stub.state, sel);
    ProductQueryFields(stub.state, sel);
  }
}
