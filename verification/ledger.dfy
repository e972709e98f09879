/**
 * What each contract function does to the world-state table, as functions
 * from the table before the call to the result and the table after it, and
 * the properties of those functions. The methods in SmartContract are proved
 * to do exactly this.
 */
module Ledger {
  import opened Wrappers
  import opened Records
  import opened KeyOrder
  import opened WorldState

  /** The errors the asset functions raise themselves. */
  datatype Error =
    | AlreadyExists(id: string)  // "the asset %s already exists"
    | DoesNotExist(id: string)   // "the asset %s does not exist"

  /** What a state-changing call returns, and the table it leaves behind. */
  datatype Step = Step(outcome: Outcome<Error>, store: Store)

  // ---------------------------------------------------------------- assets

  /** The six assets InitLedger writes. */
  const InitialAssets: seq<Asset> := [
    Asset("asset1", "blue", 5, "Tomoko", 300),
    Asset("asset2", "red", 5, "Brad", 400),
    Asset("asset3", "green", 10, "Jin Soo", 500),
    Asset("asset4", "yellow", 10, "Max", 600),
    Asset("asset5", "black", 15, "Adriana", 700),
    Asset("asset6", "white", 15, "Michel", 800)
  ]

  /** The table after putting each asset under its ID, one after the other. */
  function Seeded(s: Store, assets: seq<Asset>): Store
    decreases |assets|
  {
    if assets == [] then s
    else
      var last := assets[|assets| - 1];
      Seeded(s, assets[..|assets| - 1])[last.id := AssetDoc(last)]
  }

  /** The IDs of the assets. */
  function IDs(assets: seq<Asset>): set<string>
    decreases |assets|
  {
    if assets == [] then {} else IDs(assets[..|assets| - 1]) + {assets[|assets| - 1].id}
  }

  predicate DistinctIDs(assets: seq<Asset>)
  {
    forall i, j :: 0 <= i < j < |assets| ==> assets[i].id != assets[j].id
  }

  /**
   * Putting assets with distinct IDs stores each one under its own ID, adds
   * exactly those keys, and leaves every other key as it was.
   */
  lemma {:induction false} SeededContents(s: Store, assets: seq<Asset>)
    requires DistinctIDs(assets)
    ensures Seeded(s, assets).Keys == s.Keys + IDs(assets)
    ensures forall i :: 0 <= i < |assets| ==> Lookup(Seeded(s, assets), assets[i].id) == Some(AssetDoc(assets[i]))
    ensures forall k :: k !in IDs(assets) ==> Lookup(Seeded(s, assets), k) == Lookup(s, k)
    decreases |assets|
  {
    if assets != [] {
      var init, last := assets[..|assets| - 1], assets[|assets| - 1];
      assert DistinctIDs(init) by {
        forall i, j | 0 <= i < j < |init|
          ensures init[i].id != init[j].id
        {
          assert init[i] == assets[i] && init[j] == assets[j];
        }
      }
      SeededContents(s, init);
      var u, t := Seeded(s, init), Seeded(s, assets);
      assert t == u[last.id := AssetDoc(last)];
      forall i | 0 <= i < |assets|
        ensures Lookup(t, assets[i].id) == Some(AssetDoc(assets[i]))
      {
        if i < |init| {
          assert assets[i] == init[i] && assets[i].id != last.id;
        }
      }
      forall k | k !in IDs(assets)
        ensures Lookup(t, k) == Lookup(s, k)
      {
        assert k !in IDs(init) && k != last.id;
      }
    }
  }

  /** Each of those assets then reads back exactly. */
  lemma SeededReads(s: Store, assets: seq<Asset>)
    requires DistinctIDs(assets)
    ensures forall i :: 0 <= i < |assets| ==> ReadAssetIn(Seeded(s, assets), assets[i].id) == Success(assets[i])
  {
    SeededContents(s, assets);
    var t := Seeded(s, assets);
    forall i | 0 <= i < |assets|
      ensures ReadAssetIn(t, assets[i].id) == Success(assets[i])
    {
      assert Lookup(t, assets[i].id) == Some(AssetDoc(assets[i]));
    }
  }

  /** ReadAsset: the stored document read as an Asset, or DoesNotExist. */
  function ReadAssetIn(s: Store, id: string): Result<Asset, Error>
  {
    if id in s then Success(DecodeAsset(Some(s[id]))) else Failure(DoesNotExist(id))
  }

  lemma InitialAssetsDistinct()
    ensures DistinctIDs(InitialAssets)
  {
    forall i, j | 0 <= i < j < |InitialAssets|
      ensures InitialAssets[i].id != InitialAssets[j].id
    {
      assert InitialAssets[i].id[5] != InitialAssets[j].id[5];
    }
  }

  /**
   * After InitLedger each of the six assets reads back exactly as listed,
   * the six IDs are added to the table and every other key is untouched.
   */
  lemma InitLedgerSeeds(s: Store)
    ensures Seeded(s, InitialAssets).Keys == s.Keys + IDs(InitialAssets)
    ensures forall i :: 0 <= i < |InitialAssets| ==>
              ReadAssetIn(Seeded(s, InitialAssets), InitialAssets[i].id) == Success(InitialAssets[i])
    ensures forall k :: k !in IDs(InitialAssets) ==>
              Lookup(Seeded(s, InitialAssets), k) == Lookup(s, k)
  {
    InitialAssetsDistinct();
    SeededContents(s, InitialAssets);
    SeededReads(s, InitialAssets);
  }

  /** CreateAsset: refuse an ID already in use, otherwise store the new asset. */
  function CreateAssetIn(s: Store, a: Asset): Step
  {
    if a.id in s then Step(Fail(AlreadyExists(a.id)), s)
    else Step(Pass, s[a.id := AssetDoc(a)])
  }

  /**
   * Creating an asset under a used ID fails and changes nothing; under a fresh
   * ID it succeeds, adds only that key, and reading it back returns exactly
   * the fields given.
   */
  lemma CreateAssetThenRead(s: Store, a: Asset)
    ensures a.id in s ==> CreateAssetIn(s, a) == Step(Fail(AlreadyExists(a.id)), s)
    ensures a.id !in s ==>
              && CreateAssetIn(s, a).outcome == Pass
              && ReadAssetIn(CreateAssetIn(s, a).store, a.id) == Success(a)
              && CreateAssetIn(s, a).store.Keys == s.Keys + {a.id}
              && forall k :: k != a.id ==> Lookup(CreateAssetIn(s, a).store, k) == Lookup(s, k)
  {
  }

  /** UpdateAsset: refuse a missing ID, otherwise overwrite all five fields. */
  function UpdateAssetIn(s: Store, a: Asset): Step
  {
    if a.id !in s then Step(Fail(DoesNotExist(a.id)), s)
    else Step(Pass, s[a.id := AssetDoc(a)])
  }

  /**
   * Updating a missing asset fails and changes nothing. Otherwise the asset
   * reads back with exactly the new fields, no key is added or removed, no
   * other key changes, and a second identical update changes nothing more.
   */
  lemma UpdateAssetReplaces(s: Store, a: Asset)
    ensures a.id !in s ==> UpdateAssetIn(s, a) == Step(Fail(DoesNotExist(a.id)), s)
    ensures a.id in s ==>
              && UpdateAssetIn(s, a).outcome == Pass
              && ReadAssetIn(UpdateAssetIn(s, a).store, a.id) == Success(a)
              && UpdateAssetIn(s, a).store.Keys == s.Keys
              && (forall k :: k != a.id ==> Lookup(UpdateAssetIn(s, a).store, k) == Lookup(s, k))
              && UpdateAssetIn(UpdateAssetIn(s, a).store, a) == UpdateAssetIn(s, a)
  {
  }

  /** DeleteAsset: refuse a missing ID, otherwise remove the key. */
  function DeleteAssetIn(s: Store, id: string): Step
  {
    if id !in s then Step(Fail(DoesNotExist(id)), s)
    else Step(Pass, s - {id})
  }

  /**
   * Deleting a missing asset fails and changes nothing. Otherwise exactly
   * that key is removed, every other key keeps its document, and reading the
   * deleted ID afterwards fails with DoesNotExist.
   */
  lemma DeleteAssetRemoves(s: Store, id: string)
    ensures id !in s ==> DeleteAssetIn(s, id) == Step(Fail(DoesNotExist(id)), s)
    ensures id in s ==>
              && DeleteAssetIn(s, id).outcome == Pass
              && DeleteAssetIn(s, id).store.Keys == s.Keys - {id}
              && (forall k :: k != id ==> Lookup(DeleteAssetIn(s, id).store, k) == Lookup(s, k))
              && ReadAssetIn(DeleteAssetIn(s, id).store, id) == Failure(DoesNotExist(id))
  {
  }

  /** TransferAsset: read the asset (failing if missing), set its owner, store it. */
  function TransferAssetIn(s: Store, id: string, newOwner: string): Step
  {
    match ReadAssetIn(s, id)
    case Failure(e) => Step(Fail(e), s)
    case Success(a) => Step(Pass, s[id := AssetDoc(a.(owner := newOwner))])
  }

  /**
   * Transferring a missing asset fails and changes nothing. Otherwise the
   * asset reads back with the new owner and its ID, color, size and
   * appraised value unchanged, and no other key changes.
   */
  lemma TransferAssetChangesOwnerOnly(s: Store, id: string, newOwner: string)
    ensures id !in s ==> TransferAssetIn(s, id, newOwner) == Step(Fail(DoesNotExist(id)), s)
    ensures id in s ==>
              var before := DecodeAsset(Some(s[id]));
              var after := ReadAssetIn(TransferAssetIn(s, id, newOwner).store, id);
              && TransferAssetIn(s, id, newOwner).outcome == Pass
              && after.Success?
              && after.value.owner == newOwner
              && after.value.id == before.id
              && after.value.color == before.color
              && after.value.size == before.size
              && after.value.appraisedValue == before.appraisedValue
              && TransferAssetIn(s, id, newOwner).store.Keys == s.Keys
              && forall k :: k != id ==> Lookup(TransferAssetIn(s, id, newOwner).store, k) == Lookup(s, k)
  {
  }

  /** Every value an iterator delivered, read as an Asset. */
  function DecodeAssets(kvs: seq<KV>): seq<Asset>
  {
    seq(|kvs|, i requires 0 <= i < |kvs| => DecodeAsset(Some(kvs[i].value)))
  }

  /** GetAllAssets: every document of the namespace read as an Asset, in key order. */
  function AllAssets(s: Store): seq<Asset>
  {
    DecodeAssets(Scan(s))
  }

  /**
   * The listing has exactly one entry per key of the whole table, in key
   * order; an asset document lists as itself, a document of another kind as
   * the zero Asset, so every stored asset is listed.
   */
  lemma AllAssetsListsEveryKey(s: Store)
    ensures |AllAssets(s)| == |s|
    ensures forall i :: 0 <= i < |s| ==>
              Ordered(s.Keys)[i] in s && AllAssets(s)[i] == DecodeAsset(Some(s[Ordered(s.Keys)[i]]))
    ensures forall k :: k in s && s[k].AssetDoc? ==> s[k].asset in AllAssets(s)
    ensures forall k :: k in s && !s[k].AssetDoc? ==> ZeroAsset in AllAssets(s)
  {
    AllAssetsInKeyOrder(s);
    var all := AllAssets(s);
    forall k | k in s
      ensures DecodeAsset(Some(s[k])) in all
    {
      var ks := Ordered(s.Keys);
      assert k in s.Keys;
      var i :| 0 <= i < |ks| && ks[i] == k;
      assert all[i] == DecodeAsset(Some(s[k]));
    }
  }

  /** The i-th entry of the listing is the document under the i-th key, read as an Asset. */
  lemma AllAssetsInKeyOrder(s: Store)
    ensures |AllAssets(s)| == |s|
    ensures forall i :: 0 <= i < |s| ==>
              Ordered(s.Keys)[i] in s && AllAssets(s)[i] == DecodeAsset(Some(s[Ordered(s.Keys)[i]]))
  {
    var scan, all, ks := Scan(s), AllAssets(s), Ordered(s.Keys);
    ScanListsTable(s);
    forall i | 0 <= i < |s|
      ensures ks[i] in s && all[i] == DecodeAsset(Some(s[ks[i]]))
    {
      assert KeysOf(scan)[i] == scan[i].key;
    }
  }

  /** An asset created and not since deleted is in the listing. */
  lemma CreatedAssetIsListed(s: Store, a: Asset)
    requires a.id !in s
    ensures a in AllAssets(CreateAssetIn(s, a).store)
    ensures a.id !in DeleteAssetIn(CreateAssetIn(s, a).store, a.id).store
  {
    var t := CreateAssetIn(s, a).store;
    AllAssetsListsEveryKey(t);
    assert a.id in t && t[a.id] == AssetDoc(a);
  }

  // ------------------------------------------------- single-field updates

  /*
   * Each Update* function reads the stored value into a zero record of its
   * kind, ignoring the decoder's error, sets the named fields and stores the
   * record. It never fails: a missing key yields a zero record with only the
   * named fields set.
   */

  /** UpdateProductOwner */
  function UpdateProductOwnerIn(s: Store, key: string, productOwnerAccountID: string): Store
  {
    s[key := ProductDoc(DecodeProduct(Lookup(s, key)).(productOwnerAccountID := productOwnerAccountID))]
  }

  /** UpdateAccountOwnerManufacturerID */
  function UpdateAccountOwnerManufacturerIDIn(s: Store, key: string, accountOwnerManufacturerID: string): Store
  {
    s[key := AccountDoc(DecodeAccount(Lookup(s, key)).(accountOwnerManufacturerID := accountOwnerManufacturerID))]
  }

  /** UpdateAccountToken */
  function UpdateAccountTokenIn(s: Store, key: string, accountToken: string): Store
  {
    s[key := AccountDoc(DecodeAccount(Lookup(s, key)).(accountToken := accountToken))]
  }

  /**
   * Setting one field leaves the stored record of that kind otherwise as it
   * was, makes a zero record with only that field from a missing key, touches
   * no other key, and is idempotent.
   */
  lemma UpdateProductOwnerSetsOnlyOwner(s: Store, key: string, owner: string)
    ensures var t := UpdateProductOwnerIn(s, key, owner);
      && t.Keys == s.Keys + {key}
      && (forall k :: k != key ==> Lookup(t, k) == Lookup(s, k))
      && t[key].ProductDoc?
      && (key in s && s[key].ProductDoc? ==> t[key].product == s[key].product.(productOwnerAccountID := owner))
      && (key !in s ==> t[key].product == ZeroProduct.(productOwnerAccountID := owner))
      && UpdateProductOwnerIn(t, key, owner) == t
  {
  }

  lemma UpdateAccountOwnerManufacturerIDSetsOnlyIt(s: Store, key: string, id: string)
    ensures var t := UpdateAccountOwnerManufacturerIDIn(s, key, id);
      && t.Keys == s.Keys + {key}
      && (forall k :: k != key ==> Lookup(t, k) == Lookup(s, k))
      && t[key].AccountDoc?
      && (key in s && s[key].AccountDoc? ==> t[key].account == s[key].account.(accountOwnerManufacturerID := id))
      && (key !in s ==> t[key].account == ZeroAccount.(accountOwnerManufacturerID := id))
      && UpdateAccountOwnerManufacturerIDIn(t, key, id) == t
  {
  }

  lemma UpdateAccountTokenSetsOnlyToken(s: Store, key: string, token: string)
    ensures var t := UpdateAccountTokenIn(s, key, token);
      && t.Keys == s.Keys + {key}
      && (forall k :: k != key ==> Lookup(t, k) == Lookup(s, k))
      && t[key].AccountDoc?
      && (key in s && s[key].AccountDoc? ==> t[key].account == s[key].account.(accountToken := token))
      && (key !in s ==> t[key].account == ZeroAccount.(accountToken := token))
      && UpdateAccountTokenIn(t, key, token) == t
  {
  }

  // ------------------------------------------------ multi-field updates

  /** UpdateAccount: token, name, email and phone number. */
  function UpdateAccountIn(s: Store, key: string, token: string, name: string, email: string, phone: string): Store
  {
    s[key := AccountDoc(DecodeAccount(Lookup(s, key)).(
      accountToken := token, accountName := name, accountEmail := email, accountPhoneNumber := phone))]
  }

  /** UpdateManufacturer: name, trade licence ID, location and founding date. */
  function UpdateManufacturerIn(s: Store, key: string, name: string, tradeLicenceID: string,
                                location: string, foundingDate: string): Store
  {
    s[key := ManufacturerDoc(DecodeManufacturer(Lookup(s, key)).(
      manufacturerName := name, manufacturerTradeLicenceID := tradeLicenceID,
      manufacturerLocation := location, manufacturerFoundingDate := foundingDate))]
  }

  /** UpdateFactory: manufacturer ID, name and location. */
  function UpdateFactoryIn(s: Store, key: string, manufacturerID: string, name: string, location: string): Store
  {
    s[key := FactoryDoc(DecodeFactory(Lookup(s, key)).(
      factoryManufacturerID := manufacturerID, factoryName := name, factoryLocation := location))]
  }

  /** UpdateProduct: every field except manufacturer ID, manufacturer name, product ID and DocType. */
  function UpdateProductIn(s: Store, key: string, ownerAccountID: string, factoryID: string, name: string,
                           productType: string, batch: string, serialInBatch: string,
                           manufacturingLocation: string, manufacturingDate: string, expiryDate: string): Store
  {
    s[key := ProductDoc(DecodeProduct(Lookup(s, key)).(
      productOwnerAccountID := ownerAccountID, productFactoryID := factoryID, productName := name,
      productType := productType, productBatch := batch, productSerialinBatch := serialInBatch,
      productManufacturingLocation := manufacturingLocation,
      productManufacturingDate := manufacturingDate, productExpiryDate := expiryDate))]
  }

  /**
   * UpdateAccount sets token, name, email and phone number and keeps type,
   * username, password, owner manufacturer ID and DocType of a stored
   * account (all empty for a missing key); no other key changes, and a
   * repeated identical update changes nothing more.
   */
  lemma UpdateAccountKeepsTheRest(s: Store, key: string, token: string, name: string, email: string, phone: string)
    ensures var t := UpdateAccountIn(s, key, token, name, email, phone);
      && t.Keys == s.Keys + {key}
      && (forall k :: k != key ==> Lookup(t, k) == Lookup(s, k))
      && t[key].AccountDoc?
      && var a := t[key].account;
      && a.accountToken == token && a.accountName == name
      && a.accountEmail == email && a.accountPhoneNumber == phone
      && (key in s && s[key].AccountDoc? ==>
            var b := s[key].account;
            && a.accountType == b.accountType && a.accountUsername == b.accountUsername
            && a.accountPassword == b.accountPassword
            && a.accountOwnerManufacturerID == b.accountOwnerManufacturerID
            && a.docType == b.docType)
      && (key !in s ==>
            a.accountType == "" && a.accountUsername == "" && a.accountPassword == ""
            && a.accountOwnerManufacturerID == "" && a.docType == "")
      && UpdateAccountIn(t, key, token, name, email, phone) == t
  {
  }

  /**
   * UpdateManufacturer sets name, trade licence ID, location and founding
   * date and keeps the account ID and DocType of a stored manufacturer.
   */
  lemma UpdateManufacturerKeepsTheRest(s: Store, key: string, name: string, tradeLicenceID: string,
                                       location: string, foundingDate: string)
    ensures var t := UpdateManufacturerIn(s, key, name, tradeLicenceID, location, foundingDate);
      && t.Keys == s.Keys + {key}
      && (forall k :: k != key ==> Lookup(t, k) == Lookup(s, k))
      && t[key].ManufacturerDoc?
      && var m := t[key].manufacturer;
      && m.manufacturerName == name && m.manufacturerTradeLicenceID == tradeLicenceID
      && m.manufacturerLocation == location && m.manufacturerFoundingDate == foundingDate
      && (key in s && s[key].ManufacturerDoc? ==>
            m.manufacturerAccountID == s[key].manufacturer.manufacturerAccountID
            && m.docType == s[key].manufacturer.docType)
      && (key !in s ==> m.manufacturerAccountID == "" && m.docType == "")
      && UpdateManufacturerIn(t, key, name, tradeLicenceID, location, foundingDate) == t
  {
  }

  /**
   * UpdateFactory sets manufacturer ID, name and location and keeps the
   * factory ID and DocType of a stored factory.
   */
  lemma UpdateFactoryKeepsTheRest(s: Store, key: string, manufacturerID: string, name: string, location: string)
    ensures var t := UpdateFactoryIn(s, key, manufacturerID, name, location);
      && t.Keys == s.Keys + {key}
      && (forall k :: k != key ==> Lookup(t, k) == Lookup(s, k))
      && t[key].FactoryDoc?
      && var f := t[key].factory;
      && f.factoryManufacturerID == manufacturerID && f.factoryName == name && f.factoryLocation == location
      && (key in s && s[key].FactoryDoc? ==>
            f.factoryID == s[key].factory.factoryID && f.docType == s[key].factory.docType)
      && (key !in s ==> f.factoryID == "" && f.docType == "")
      && UpdateFactoryIn(t, key, manufacturerID, name, location) == t
  {
  }

  /**
   * UpdateProduct sets the nine named fields and keeps manufacturer ID,
   * manufacturer name, product ID and DocType of a stored product.
   */
  lemma UpdateProductKeepsTheRest(s: Store, key: string, ownerAccountID: string, factoryID: string, name: string,
                                  productType: string, batch: string, serialInBatch: string,
                                  manufacturingLocation: string, manufacturingDate: string, expiryDate: string)
    ensures var t := UpdateProductIn(s, key, ownerAccountID, factoryID, name, productType, batch, serialInBatch,
                                     manufacturingLocation, manufacturingDate, expiryDate);
      && t.Keys == s.Keys + {key}
      && (forall k :: k != key ==> Lookup(t, k) == Lookup(s, k))
      && t[key].ProductDoc?
      && var p := t[key].product;
      && p.productOwnerAccountID == ownerAccountID && p.productFactoryID == factoryID
      && p.productName == name && p.productType == productType && p.productBatch == batch
      && p.productSerialinBatch == serialInBatch && p.productManufacturingLocation == manufacturingLocation
      && p.productManufacturingDate == manufacturingDate && p.productExpiryDate == expiryDate
      && (key in s && s[key].ProductDoc? ==>
            var q := s[key].product;
            && p.productManufacturerID == q.productManufacturerID
            && p.productManufacturerName == q.productManufacturerName
            && p.productID == q.productID && p.docType == q.docType)
      && (key !in s ==>
            p.productManufacturerID == "" && p.productManufacturerName == "" && p.productID == "" && p.docType == "")
      && UpdateProductIn(t, key, ownerAccountID, factoryID, name, productType, batch, serialInBatch,
                         manufacturingLocation, manufacturingDate, expiryDate) == t
  {
  }

  /**
   * Updating a key that holds a record of another kind replaces it with a
   * record of the update's kind that keeps nothing of the old one but its
   * DocType.
   */
  lemma UpdateOverForeignKindKeepsOnlyDocType(s: Store, key: string, owner: string)
    requires key in s && !s[key].ProductDoc?
    ensures UpdateProductOwnerIn(s, key, owner)[key]
              == ProductDoc(ZeroProduct.(productOwnerAccountID := owner, docType := CarriedDocType(s[key])))
  {
  }

  // --------------------------------------------------------------- queries

  /** The construct*QueryResponseFromIterator helpers: each value read as the query's kind. */
  function DecodeAccounts(kvs: seq<KV>): seq<Account>
  {
    seq(|kvs|, i requires 0 <= i < |kvs| => DecodeAccount(Some(kvs[i].value)))
  }

  function DecodeManufacturers(kvs: seq<KV>): seq<Manufacturer>
  {
    seq(|kvs|, i requires 0 <= i < |kvs| => DecodeManufacturer(Some(kvs[i].value)))
  }

  function DecodeFactories(kvs: seq<KV>): seq<Factory>
  {
    seq(|kvs|, i requires 0 <= i < |kvs| => DecodeFactory(Some(kvs[i].value)))
  }

  function DecodeProducts(kvs: seq<KV>): seq<Product>
  {
    seq(|kvs|, i requires 0 <= i < |kvs| => DecodeProduct(Some(kvs[i].value)))
  }

  /**
   * A query on an Account member returns, in key order, exactly the accounts
   * stored under the matching keys, one per key.
   */
  lemma AccountQueryExact(s: Store, sel: Selector)
    requires sel.field == AccountToken || sel.field == AccountEmail || sel.field == AccountUsername
    ensures var r, ks := DecodeAccounts(Query(s, sel)), Ordered(MatchingKeys(s, sel));
      && |r| == |ks|
      && forall i :: 0 <= i < |ks| ==>
           ks[i] in s && s[ks[i]] == AccountDoc(r[i])
  {
    QueryExact(s, sel);
    var q, ks := Query(s, sel), Ordered(MatchingKeys(s, sel));
    forall i | 0 <= i < |ks|
      ensures ks[i] in s && s[ks[i]] == AccountDoc(DecodeAccounts(q)[i])
    {
      assert q[i] == KV(ks[i], s[ks[i]]) && Matches(sel, q[i]);
      MatchedKind(sel, q[i]);
    }
  }

  /** Every account such a query returns carries the selector's DocType and the selector's value in the named member. */
  lemma AccountQueryFields(s: Store, sel: Selector)
    requires sel.field == AccountToken || sel.field == AccountEmail || sel.field == AccountUsername
    ensures var r := DecodeAccounts(Query(s, sel));
      forall i :: 0 <= i < |r| ==>
           && r[i].docType == sel.docType
           && (sel.field == AccountToken ==> r[i].accountToken == sel.value)
           && (sel.field == AccountEmail ==> r[i].accountEmail == sel.value)
           && (sel.field == AccountUsername ==> r[i].accountUsername == sel.value)
  {
    QueryEnumeratesMatches(s, sel);
    var q, r := Query(s, sel), DecodeAccounts(Query(s, sel));
    forall i | 0 <= i < |r|
      ensures r[i].docType == sel.docType
           && (sel.field == AccountToken ==> r[i].accountToken == sel.value)
           && (sel.field == AccountEmail ==> r[i].accountEmail == sel.value)
           && (sel.field == AccountUsername ==> r[i].accountUsername == sel.value)
    {
      assert q[i] in q && Matches(sel, q[i]);
      MatchedKind(sel, q[i]);
      assert q[i].value == AccountDoc(r[i]);
    }
  }

  /** The same for a query on a Manufacturer member. */
  lemma ManufacturerQueryExact(s: Store, sel: Selector)
    requires sel.field == ManufacturerAccountID || sel.field == ManufacturerTradeLicenceID
    ensures var r, ks := DecodeManufacturers(Query(s, sel)), Ordered(MatchingKeys(s, sel));
      && |r| == |ks|
      && forall i :: 0 <= i < |ks| ==>
           ks[i] in s && s[ks[i]] == ManufacturerDoc(r[i])
  {
    QueryExact(s, sel);
    var q, ks := Query(s, sel), Ordered(MatchingKeys(s, sel));
    forall i | 0 <= i < |ks|
      ensures ks[i] in s && s[ks[i]] == ManufacturerDoc(DecodeManufacturers(q)[i])
    {
      assert q[i] == KV(ks[i], s[ks[i]]) && Matches(sel, q[i]);
      MatchedKind(sel, q[i]);
    }
  }

  /** Every manufacturer such a query returns carries the selector's DocType and the selector's value in the named member. */
  lemma ManufacturerQueryFields(s: Store, sel: Selector)
    requires sel.field == ManufacturerAccountID || sel.field == ManufacturerTradeLicenceID
    ensures var r := DecodeManufacturers(Query(s, sel));
      forall i :: 0 <= i < |r| ==>
           && r[i].docType == sel.docType
           && (sel.field == ManufacturerAccountID ==> r[i].manufacturerAccountID == sel.value)
           && (sel.field == ManufacturerTradeLicenceID ==> r[i].manufacturerTradeLicenceID == sel.value)
  {
    QueryEnumeratesMatches(s, sel);
    var q, r := Query(s, sel), DecodeManufacturers(Query(s, sel));
    forall i | 0 <= i < |r|
      ensures r[i].docType == sel.docType
           && (sel.field == ManufacturerAccountID ==> r[i].manufacturerAccountID == sel.value)
           && (sel.field == ManufacturerTradeLicenceID ==> r[i].manufacturerTradeLicenceID == sel.value)
    {
      assert q[i] in q && Matches(sel, q[i]);
      MatchedKind(sel, q[i]);
      assert q[i].value == ManufacturerDoc(r[i]);
    }
  }

  /** The same for a query on a Factory member. */
  lemma FactoryQueryExact(s: Store, sel: Selector)
    requires sel.field == FactoryID || sel.field == FactoryManufacturerID
    ensures var r, ks := DecodeFactories(Query(s, sel)), Ordered(MatchingKeys(s, sel));
      && |r| == |ks|
      && forall i :: 0 <= i < |ks| ==>
           ks[i] in s && s[ks[i]] == FactoryDoc(r[i])
  {
    QueryExact(s, sel);
    var q, ks := Query(s, sel), Ordered(MatchingKeys(s, sel));
    forall i | 0 <= i < |ks|
      ensures ks[i] in s && s[ks[i]] == FactoryDoc(DecodeFactories(q)[i])
    {
      assert q[i] == KV(ks[i], s[ks[i]]) && Matches(sel, q[i]);
      MatchedKind(sel, q[i]);
    }
  }

  /** Every factory such a query returns carries the selector's DocType and the selector's value in the named member. */
  lemma FactoryQueryFields(s: Store, sel: Selector)
    requires sel.field == FactoryID || sel.field == FactoryManufacturerID
    ensures var r := DecodeFactories(Query(s, sel));
      forall i :: 0 <= i < |r| ==>
           && r[i].docType == sel.docType
           && (sel.field == FactoryID ==> r[i].factoryID == sel.value)
           && (sel.field == FactoryManufacturerID ==> r[i].factoryManufacturerID == sel.value)
  {
    QueryEnumeratesMatches(s, sel);
    var q, r := Query(s, sel), DecodeFactories(Query(s, sel));
    forall i | 0 <= i < |r|
      ensures r[i].docType == sel.docType
           && (sel.field == FactoryID ==> r[i].factoryID == sel.value)
           && (sel.field == FactoryManufacturerID ==> r[i].factoryManufacturerID == sel.value)
    {
      assert q[i] in q && Matches(sel, q[i]);
      MatchedKind(sel, q[i]);
      assert q[i].value == FactoryDoc(r[i]);
    }
  }

  /** The same for a query on a Product member. */
  lemma ProductQueryExact(s: Store, sel: Selector)
    requires sel.field == ProductID || sel.field == ProductOwnerAccountID
          || sel.field == ProductManufacturerID || sel.field == ProductFactoryID
    ensures var r, ks := DecodeProducts(Query(s, sel)), Ordered(MatchingKeys(s, sel));
      && |r| == |ks|
      && forall i :: 0 <= i < |ks| ==>
           ks[i] in s && s[ks[i]] == ProductDoc(r[i])
  {
    QueryExact(s, sel);
    var q, ks := Query(s, sel), Ordered(MatchingKeys(s, sel));
    forall i | 0 <= i < |ks|
      ensures ks[i] in s && s[ks[i]] == ProductDoc(DecodeProducts(q)[i])
    {
      assert q[i] == KV(ks[i], s[ks[i]]) && Matches(sel, q[i]);
      MatchedKind(sel, q[i]);
    }
  }

  /** Every product such a query returns carries the selector's DocType and the selector's value in the named member. */
  lemma ProductQueryFields(s: Store, sel: Selector)
    requires sel.field == ProductID || sel.field == ProductOwnerAccountID
          || sel.field == ProductManufacturerID || sel.field == ProductFactoryID
    ensures var r := DecodeProducts(Query(s, sel));
      forall i :: 0 <= i < |r| ==>
           && r[i].docType == sel.docType
           && (sel.field == ProductID ==> r[i].productID == sel.value)
           && (sel.field == ProductOwnerAccountID ==> r[i].productOwnerAccountID == sel.value)
           && (sel.field == ProductManufacturerID ==> r[i].productManufacturerID == sel.value)
           && (sel.field == ProductFactoryID ==> r[i].productFactoryID == sel.value)
  {
    QueryEnumeratesMatches(s, sel);
    var q, r := Query(s, sel), DecodeProducts(Query(s, sel));
    forall i | 0 <= i < |r|
      ensures r[i].docType == sel.docType
           && (sel.field == ProductID ==> r[i].productID == sel.value)
           && (sel.field == ProductOwnerAccountID ==> r[i].productOwnerAccountID == sel.value)
           && (sel.field == ProductManufacturerID ==> r[i].productManufacturerID == sel.value)
           && (sel.field == ProductFactoryID ==> r[i].productFactoryID == sel.value)
    {
      assert q[i] in q && Matches(sel, q[i]);
      MatchedKind(sel, q[i]);
      assert q[i].value == ProductDoc(r[i]);
    }
  }

  /**
   * A query on the document key finds at most the one document stored under
   * that key, and finds it exactly when its DocType is the requested one,
   * whatever kind of record it holds.
   */
  lemma KeyQueryExact(s: Store, docType: string, key: string)
    ensures var q := Query(s, Selector(docType, DocumentKey, key));
      && |q| <= 1
      && (|q| == 1 <==> key in s && DocTypeOf(s[key]) == Some(docType))
      && (|q| == 1 ==> q[0] == KV(key, s[key]))
  {
    var sel := Selector(docType, DocumentKey, key);
    var M := MatchingKeys(s, sel);
    KeyMatchesOnlyKey(s, docType, key);
    QueryExact(s, sel);
    if key in s && DocTypeOf(s[key]) == Some(docType) {
      OrderedSingleton(key);
      assert Ordered(M)[0] == key;
    }
  }

  /** Only the key itself can match a selector on the document key. */
  lemma KeyMatchesOnlyKey(s: Store, docType: string, key: string)
    ensures MatchingKeys(s, Selector(docType, DocumentKey, key))
              == if key in s && DocTypeOf(s[key]) == Some(docType) then {key} else {}
  {
    var sel := Selector(docType, DocumentKey, key);
    forall k | k in s
      ensures Matches(sel, KV(k, s[k])) <==> k == key && DocTypeOf(s[k]) == Some(docType)
    {
    }
  }

  // ---------------------------------------- writes seen through the queries

  /** A query returns the stored entry of every key whose document matches. */
  lemma FoundWhenMatching(s: Store, sel: Selector, key: string)
    requires key in s && Matches(sel, KV(key, s[key]))
    ensures exists i :: 0 <= i < |Query(s, sel)| && Query(s, sel)[i] == KV(key, s[key])
  {
    QueryExact(s, sel);
    var ks := Ordered(MatchingKeys(s, sel));
    assert key in MatchingKeys(s, sel);
    var i :| 0 <= i < |ks| && ks[i] == key;
    assert Query(s, sel)[i] == KV(key, s[key]);
  }

  /**
   * An account registered with DocType "account" is found by a token query,
   * whatever was stored under its key before.
   */
  lemma RegisteredAccountIsFound(s: Store, key: string, a: Account)
    requires a.docType == "account"
    ensures a in DecodeAccounts(Query(s[key := AccountDoc(a)], Selector("account", AccountToken, a.accountToken)))
  {
    var t, sel := s[key := AccountDoc(a)], Selector("account", AccountToken, a.accountToken);
    FoundWhenMatching(t, sel, key);
    var q := Query(t, sel);
    var i :| 0 <= i < |q| && q[i] == KV(key, AccountDoc(a));
    assert DecodeAccounts(q)[i] == a;
  }

  /**
   * A manufacturer is found by the account ID it was added with (the first
   * parameter of AddManufacturer), not by its storage key.
   */
  lemma AddedManufacturerIsFoundByAccountID(s: Store, key: string, m: Manufacturer)
    requires m.docType == "manufacturer"
    ensures m in DecodeManufacturers(Query(s[key := ManufacturerDoc(m)],
                                           Selector("manufacturer", ManufacturerAccountID, m.manufacturerAccountID)))
    ensures key != m.manufacturerAccountID ==>
              key !in MatchingKeys(s[key := ManufacturerDoc(m)], Selector("manufacturer", ManufacturerAccountID, key))
  {
    var t, sel := s[key := ManufacturerDoc(m)], Selector("manufacturer", ManufacturerAccountID, m.manufacturerAccountID);
    FoundWhenMatching(t, sel, key);
    var q := Query(t, sel);
    var i :| 0 <= i < |q| && q[i] == KV(key, ManufacturerDoc(m));
    assert DecodeManufacturers(q)[i] == m;
  }

  /** A factory added with DocType "factory" is found by its factory ID. */
  lemma AddedFactoryIsFoundByID(s: Store, key: string, f: Factory)
    requires f.docType == "factory"
    ensures f in DecodeFactories(Query(s[key := FactoryDoc(f)], Selector("factory", FactoryID, f.factoryID)))
  {
    var t, sel := s[key := FactoryDoc(f)], Selector("factory", FactoryID, f.factoryID);
    FoundWhenMatching(t, sel, key);
    var q := Query(t, sel);
    var i :| 0 <= i < |q| && q[i] == KV(key, FactoryDoc(f));
    assert DecodeFactories(q)[i] == f;
  }

  /** A product added with DocType "product" is the one result of a code query on its key. */
  lemma AddedProductIsFoundByCode(s: Store, key: string, p: Product)
    requires p.docType == "product"
    ensures DecodeProducts(Query(s[key := ProductDoc(p)], Selector("product", DocumentKey, key))) == [p]
  {
    KeyQueryExact(s[key := ProductDoc(p)], "product", key);
  }

  /**
   * Of two accounts with tokens "t1" and "t2", a query for token "t1" returns
   * exactly the first.
   */
  lemma TokenQuerySeparatesAccounts(k1: string, k2: string, a1: Account, a2: Account)
    requires k1 != k2
    requires a1.docType == "account" && a2.docType == "account"
    requires a1.accountToken == "t1" && a2.accountToken == "t2"
    ensures DecodeAccounts(Query(map[k1 := AccountDoc(a1), k2 := AccountDoc(a2)],
                                 Selector("account", AccountToken, "t1"))) == [a1]
  {
    var s, sel := map[k1 := AccountDoc(a1), k2 := AccountDoc(a2)], Selector("account", AccountToken, "t1");
    assert MatchingKeys(s, sel) == {k1};
    OrderedSingleton(k1);
    AccountQueryExact(s, sel);
  }
}
