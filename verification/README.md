# Goods-ledger chaincode: a Dafny model of its world-state record manager

The goods-ledger smart contract keeps five kinds of record in the world state
of a permissioned ledger: generic assets, accounts, manufacturers, factories
and products. Every contract function runs inside one transaction and reaches
the state only through its transaction stub: it reads one key, writes one
key, deletes one key, scans the whole key range, or runs an equality
selector (a rich query on `DocType` plus one member, or the document key
`_id`).

This project models that record manager:

- `Records` (`records.dfy`): the five record structs, the stored document
  (`Doc`, the record tagged with the kind that was written), Go's zero
  records, and how a document reads back into a record of a requested kind
  (`DecodeAccount`, …). Beside these decoders stands a reference reading
  built from the struct tags: `Encode` writes a record as a JSON object with
  one member per tag, and `UnmarshalAccount`, … fill each field from the
  member whose name matches its tag, exactly or up to case, else leave it
  zero. The decoders are proved equal to that reading, and `DocType` is
  proved to be the only member name two kinds share (Asset has none). So a
  document of another kind reads back as the zero record that carries only
  its DocType, and an absent value reads back as the zero record.
- `KeyOrder` (`key_order.dfy`): lexicographic key order, and `Ordered(S)`,
  the unique increasing listing of a key set. This is the order of a range
  scan and of query results.
- `WorldState` (`world_state.dfy`): the table (`map<string, Doc>`), the open
  range scan, selectors and their matching, the query as a filter over the
  scan, and the class `Stub`. `Stub` holds the table and offers the host
  calls (`GetState`, `PutState`, `DelState`, `GetStateByRange`,
  `GetQueryResult`).
- `Ledger` (`ledger.dfy`): what each contract function does, as a function
  from the table before the call to its result and the table after it
  (`CreateAssetIn`, `UpdateAccountIn`, …). Lemmas state the promised
  properties of these functions.
- `SmartContract` (`smart_contract.dfy`): the contract functions themselves,
  as methods that change a `Stub` step by step, the way the chaincode does.
  `InitLedger` puts the six assets in a loop. `GetAllAssets` and the four
  `Construct…FromIterator` methods build their results with loops over the
  iterator's entries. Each method's `ensures` ties its result and the new
  table to the `Ledger` function or query that specifies it, or states the
  new table directly. `RegisterAccount` and the `Add…` methods state the
  single write they make. `AssetExists` states when it answers true.

The asset functions check existence themselves and fail with `AlreadyExists`
or `DoesNotExist`. The account, manufacturer, factory and product functions
never check: `RegisterAccount` and the `Add…` functions overwrite
unconditionally. The `Update…` functions decode whatever is stored, ignoring
the decoder's error, so on a missing key they write a zero record with only
the named fields set. Only the asset functions report a missing record as
not found. The queries return their records in key order.

`AddManufacturer` takes the manufacturer's account ID first and its storage
key second. The web client calls it with the two swapped. The model keeps
the chaincode's order, and `Ledger.AddedManufacturerIsFoundByAccountID`
states which of the two a query finds.

## Model

| member | source | states |
|---|---|---|
| Records.DecodeFollowsTags | fabric-samples/goods-ledger/chaincode-go/chaincode/smartcontract.go:17-73 | Reading any stored document as any of the five kinds equals `json.Unmarshal` of its JSON form into that struct: each field takes the member named by its tag (exactly or up to case), else its zero value. An absent value reads back as Unmarshal of nothing, the zero record. |
| Records.OnlyDocTypeShared | fabric-samples/goods-ledger/chaincode-go/chaincode/smartcontract.go:17-73 | For two different kinds, a member name of one that equals a member name of the other up to case is "DocType" in both, and neither kind is Asset. |
| Records.EncodeMembers | fabric-samples/goods-ledger/chaincode-go/chaincode/smartcontract.go:17-73 | A record's JSON form has exactly one member per struct tag of its kind and no other. |
| Records.ForeignAsAccount | fabric-samples/goods-ledger/chaincode-go/chaincode/smartcontract.go:30-40 | A document of any other kind reads back as the zero Account carrying that document's DocType ("" for an Asset). |
| Records.ProductRoundTrip | fabric-samples/goods-ledger/chaincode-go/chaincode/smartcontract.go:42-56 | A Product reads back unchanged from its own JSON form. |
| KeyOrder.Ordered | fabric-samples/goods-ledger/chaincode-go/chaincode/smartcontract.go:211-216 | The scan order: lists every key of the set exactly once, strictly increasing, and has the set's size. |
| KeyOrder.OrderedFirst | fabric-samples/goods-ledger/chaincode-go/chaincode/smartcontract.go:211-216 | A scan starts with the least key and then lists the remaining keys in order. |
| KeyOrder.EnumerationUnique | fabric-samples/goods-ledger/chaincode-go/chaincode/smartcontract.go:211-216 | There is only one increasing listing of a key set, so the scan order is fully determined by the keys. |
| WorldState.ScanListsTable | fabric-samples/goods-ledger/chaincode-go/chaincode/smartcontract.go:211-216 | The open range scan lists every stored entry once, with its stored document, in increasing key order, and nothing else. |
| WorldState.SelectKeeps | fabric-samples/goods-ledger/chaincode-go/chaincode/smartcontract.go:710-718 | Filtering by a selector keeps exactly the entries that match, and keeps the entries in key order. |
| WorldState.QueryEnumeratesMatches | fabric-samples/goods-ledger/chaincode-go/chaincode/smartcontract.go:710-718 | Every query result is a stored entry that matches the selector, and the result keys list the matching keys in increasing order. |
| WorldState.QueryExact | fabric-samples/goods-ledger/chaincode-go/chaincode/smartcontract.go:710-748 | A query returns one entry per matching key, in key order, each with the document stored under that key, and nothing else. |
| WorldState.Stub.GetState | fabric-samples/goods-ledger/chaincode-go/chaincode/smartcontract.go:185-192 | Yields the stored document exactly when the key is present, and none (nil) otherwise. |
| WorldState.Stub.PutState | fabric-samples/goods-ledger/chaincode-go/chaincode/smartcontract.go:123 | Host primitive: the new table is the old one with the key mapped to the document, whether or not the key was present. |
| WorldState.Stub.DelState | fabric-samples/goods-ledger/chaincode-go/chaincode/smartcontract.go:181 | Host primitive: the new table is the old one without the key, and nothing else changes. |
| WorldState.Stub.GetStateByRange | fabric-samples/goods-ledger/chaincode-go/chaincode/smartcontract.go:214 | Host primitive: yields the range scan, which `WorldState.ScanListsTable` proves is every stored entry once, in increasing key order. |
| WorldState.Stub.GetQueryResult | fabric-samples/goods-ledger/chaincode-go/chaincode/smartcontract.go:711 | Host primitive: yields the selector's results, which `WorldState.QueryExact` proves are the stored entries under exactly the matching keys, in key order. |
| Ledger.InitLedgerSeeds | fabric-samples/goods-ledger/chaincode-go/chaincode/smartcontract.go:76-99 | After the six puts, each sample asset reads back exactly as listed. The six IDs are added and every other key is unchanged. |
| Ledger.SeededContents | fabric-samples/goods-ledger/chaincode-go/chaincode/smartcontract.go:86-96 | Putting assets with distinct IDs one by one stores each under its ID. It adds exactly those keys and changes no other key. |
| Ledger.CreateAssetThenRead | fabric-samples/goods-ledger/chaincode-go/chaincode/smartcontract.go:102-143 | Create on a used ID fails with AlreadyExists and changes nothing. On a fresh ID it adds only that key, and ReadAsset then returns exactly the given fields. |
| Ledger.UpdateAssetReplaces | fabric-samples/goods-ledger/chaincode-go/chaincode/smartcontract.go:146-169 | Update on a missing ID fails with DoesNotExist and changes nothing. Otherwise all five fields are replaced, no key is added or removed, no other key changes, and a repeated update changes nothing more. |
| Ledger.DeleteAssetRemoves | fabric-samples/goods-ledger/chaincode-go/chaincode/smartcontract.go:172-182 | Delete on a missing ID fails with DoesNotExist and changes nothing. Otherwise it removes exactly that key, and a later read fails with DoesNotExist. |
| Ledger.TransferAssetChangesOwnerOnly | fabric-samples/goods-ledger/chaincode-go/chaincode/smartcontract.go:195-208 | Transfer of a missing asset fails with DoesNotExist and changes nothing. Otherwise only the owner changes: ID, color, size and appraised value stay, and no other key changes. |
| Ledger.AllAssetsListsEveryKey | fabric-samples/goods-ledger/chaincode-go/chaincode/smartcontract.go:211-236 | The listing has one entry per key of the whole table, in key order, each the stored document read as an Asset. Every stored asset appears; a document of another kind appears as the zero Asset. |
| Ledger.CreatedAssetIsListed | fabric-samples/goods-ledger/chaincode-go/chaincode/smartcontract.go:102-124 | An asset created under a fresh ID appears in the listing, and deleting it removes its key. |
| Ledger.UpdateProductOwnerSetsOnlyOwner | fabric-samples/goods-ledger/chaincode-go/chaincode/smartcontract.go:339-360 | Only the product's owner account ID changes, and no other key changes. A missing key gets a zero product with only that field set. The update is idempotent. |
| Ledger.UpdateAccountOwnerManufacturerIDSetsOnlyIt | fabric-samples/goods-ledger/chaincode-go/chaincode/smartcontract.go:362-383 | The same for an account's owner manufacturer ID. |
| Ledger.UpdateAccountTokenSetsOnlyToken | fabric-samples/goods-ledger/chaincode-go/chaincode/smartcontract.go:385-406 | The same for an account's token. |
| Ledger.UpdateAccountKeepsTheRest | fabric-samples/goods-ledger/chaincode-go/chaincode/smartcontract.go:408-432 | Token, name, email and phone are set. Type, username, password, owner manufacturer ID and DocType are kept, or empty for a missing key. No other key changes, and the update is idempotent. |
| Ledger.UpdateManufacturerKeepsTheRest | fabric-samples/goods-ledger/chaincode-go/chaincode/smartcontract.go:434-459 | Name, trade licence ID, location and founding date are set. The account ID and DocType are kept, or empty for a missing key. No other key changes, and the update is idempotent. |
| Ledger.UpdateFactoryKeepsTheRest | fabric-samples/goods-ledger/chaincode-go/chaincode/smartcontract.go:461-484 | Manufacturer ID, name and location are set. Factory ID and DocType are kept, or empty for a missing key. No other key changes, and the update is idempotent. |
| Ledger.UpdateProductKeepsTheRest | fabric-samples/goods-ledger/chaincode-go/chaincode/smartcontract.go:486-516 | The nine named fields are set. Manufacturer ID, manufacturer name, product ID and DocType are kept, or empty for a missing key. No other key changes, and the update is idempotent. |
| Ledger.UpdateOverForeignKindKeepsOnlyDocType | fabric-samples/goods-ledger/chaincode-go/chaincode/smartcontract.go:339-360 | Updating a key that holds another kind of record replaces it with a zero product that keeps only the old DocType plus the new owner. |
| Ledger.AccountQueryExact | fabric-samples/goods-ledger/chaincode-go/chaincode/smartcontract.go:518-564 | An account query returns, in key order, exactly the accounts stored under the matching keys, one per key. |
| Ledger.AccountQueryFields | fabric-samples/goods-ledger/chaincode-go/chaincode/smartcontract.go:518-564 | Every account returned carries the selector's DocType and the selector's value in the named member. |
| Ledger.ManufacturerQueryExact | fabric-samples/goods-ledger/chaincode-go/chaincode/smartcontract.go:566-596 | The same for manufacturer queries. |
| Ledger.ManufacturerQueryFields | fabric-samples/goods-ledger/chaincode-go/chaincode/smartcontract.go:566-596 | Every manufacturer returned carries the selector's DocType and value. |
| Ledger.FactoryQueryExact | fabric-samples/goods-ledger/chaincode-go/chaincode/smartcontract.go:598-628 | The same for factory queries. |
| Ledger.FactoryQueryFields | fabric-samples/goods-ledger/chaincode-go/chaincode/smartcontract.go:598-628 | Every factory returned carries the selector's DocType and value. |
| Ledger.ProductQueryExact | fabric-samples/goods-ledger/chaincode-go/chaincode/smartcontract.go:630-708 | The same for product queries on a product member (all but the `_id` query). |
| Ledger.ProductQueryFields | fabric-samples/goods-ledger/chaincode-go/chaincode/smartcontract.go:630-708 | Every product returned carries the selector's DocType and value. |
| Ledger.KeyQueryExact | fabric-samples/goods-ledger/chaincode-go/chaincode/smartcontract.go:646-660 | A query on `_id` returns at most the one document stored under that key. It returns it exactly when its DocType is the requested one, whatever kind of record it holds. |
| Ledger.FoundWhenMatching | fabric-samples/goods-ledger/chaincode-go/chaincode/smartcontract.go:710-718 | A query returns the stored entry of every matching key. |
| Ledger.RegisteredAccountIsFound | fabric-samples/goods-ledger/chaincode-go/chaincode/smartcontract.go:242-264 | An account registered with DocType "account" is then found by its token, whatever was stored under the key before. |
| Ledger.AddedManufacturerIsFoundByAccountID | fabric-samples/goods-ledger/chaincode-go/chaincode/smartcontract.go:266-286 | A manufacturer is found by the account ID passed first to AddManufacturer. When its storage key differs from that ID, a query by the storage key does not match it. |
| Ledger.AddedFactoryIsFoundByID | fabric-samples/goods-ledger/chaincode-go/chaincode/smartcontract.go:288-307 | A factory added with DocType "factory" is found by its factory ID. |
| Ledger.AddedProductIsFoundByCode | fabric-samples/goods-ledger/chaincode-go/chaincode/smartcontract.go:309-337 | A product added with DocType "product" is the only result of a code query on its key. |
| Ledger.TokenQuerySeparatesAccounts | fabric-samples/goods-ledger/chaincode-go/chaincode/smartcontract.go:518-532 | With two accounts holding tokens "t1" and "t2", a query for "t1" returns exactly the first. |
| SmartContract.InitLedger | fabric-samples/goods-ledger/chaincode-go/chaincode/smartcontract.go:76-99 | The loop leaves the old table with the six assets put in order (`Ledger.Seeded`), and each of the six then reads back exactly as listed. |
| SmartContract.AssetExists | fabric-samples/goods-ledger/chaincode-go/chaincode/smartcontract.go:185-192 | True exactly when some document is stored under the ID. |
| SmartContract.CreateAsset | fabric-samples/goods-ledger/chaincode-go/chaincode/smartcontract.go:102-124 | Result and new table equal `Ledger.CreateAssetIn`: fails with AlreadyExists and changes nothing on a used ID; otherwise stores exactly the given asset (consequences in `Ledger.CreateAssetThenRead`). |
| SmartContract.ReadAsset | fabric-samples/goods-ledger/chaincode-go/chaincode/smartcontract.go:127-143 | Fails exactly when the ID is absent, and returns the stored asset when one is there. |
| SmartContract.UpdateAsset | fabric-samples/goods-ledger/chaincode-go/chaincode/smartcontract.go:146-169 | Result and new table equal `Ledger.UpdateAssetIn`: fails with DoesNotExist and changes nothing on a missing ID; otherwise replaces all five fields (consequences in `Ledger.UpdateAssetReplaces`). |
| SmartContract.DeleteAsset | fabric-samples/goods-ledger/chaincode-go/chaincode/smartcontract.go:172-182 | Result and new table equal `Ledger.DeleteAssetIn`: fails with DoesNotExist and changes nothing on a missing ID; otherwise removes exactly that key (consequences in `Ledger.DeleteAssetRemoves`). |
| SmartContract.TransferAsset | fabric-samples/goods-ledger/chaincode-go/chaincode/smartcontract.go:195-208 | Result and new table equal `Ledger.TransferAssetIn`: fails with the read's DoesNotExist on a missing ID; otherwise rewrites the asset with only the owner changed (consequences in `Ledger.TransferAssetChangesOwnerOnly`). |
| SmartContract.GetAllAssets | fabric-samples/goods-ledger/chaincode-go/chaincode/smartcontract.go:211-236 | The loop returns the key-ordered listing, with exactly one entry per stored key. |
| SmartContract.RegisterAccount | fabric-samples/goods-ledger/chaincode-go/chaincode/smartcontract.go:242-264 | Stores the account under its key, overwriting unconditionally, with an empty phone number. |
| SmartContract.AddManufacturer | fabric-samples/goods-ledger/chaincode-go/chaincode/smartcontract.go:266-286 | Stores the manufacturer under the second parameter, overwriting unconditionally, with the first parameter as its account ID. |
| SmartContract.AddFactory | fabric-samples/goods-ledger/chaincode-go/chaincode/smartcontract.go:288-307 | Stores the factory under its key, overwriting unconditionally. |
| SmartContract.AddProduct | fabric-samples/goods-ledger/chaincode-go/chaincode/smartcontract.go:309-337 | Stores the product under its key, overwriting unconditionally. |
| SmartContract.UpdateProductOwner | fabric-samples/goods-ledger/chaincode-go/chaincode/smartcontract.go:339-360 | The new table is `Ledger.UpdateProductOwnerIn` of the old one: the decoded record with only the owner account ID set, stored without any existence check. |
| SmartContract.UpdateAccountOwnerManufacturerID | fabric-samples/goods-ledger/chaincode-go/chaincode/smartcontract.go:362-383 | The new table is `Ledger.UpdateAccountOwnerManufacturerIDIn` of the old one: the decoded account with only the owner manufacturer ID set, stored without any existence check. |
| SmartContract.UpdateAccountToken | fabric-samples/goods-ledger/chaincode-go/chaincode/smartcontract.go:385-406 | The new table is `Ledger.UpdateAccountTokenIn` of the old one: the decoded account with only the token set, stored without any existence check. |
| SmartContract.UpdateAccount | fabric-samples/goods-ledger/chaincode-go/chaincode/smartcontract.go:408-432 | The new table is `Ledger.UpdateAccountIn` of the old one: the decoded account with token, name, email and phone set (the rest kept, see `Ledger.UpdateAccountKeepsTheRest`). |
| SmartContract.UpdateManufacturer | fabric-samples/goods-ledger/chaincode-go/chaincode/smartcontract.go:434-459 | The new table is `Ledger.UpdateManufacturerIn` of the old one: the decoded manufacturer with its four named fields set (the rest kept, see `Ledger.UpdateManufacturerKeepsTheRest`). |
| SmartContract.UpdateFactory | fabric-samples/goods-ledger/chaincode-go/chaincode/smartcontract.go:461-484 | The new table is `Ledger.UpdateFactoryIn` of the old one: the decoded factory with its three named fields set (the rest kept, see `Ledger.UpdateFactoryKeepsTheRest`). |
| SmartContract.UpdateProduct | fabric-samples/goods-ledger/chaincode-go/chaincode/smartcontract.go:486-516 | The new table is `Ledger.UpdateProductIn` of the old one: the decoded product with its nine named fields set (the rest kept, see `Ledger.UpdateProductKeepsTheRest`). |
| SmartContract.ConstructAccountQueryResponseFromIterator | fabric-samples/goods-ledger/chaincode-go/chaincode/smartcontract.go:750-766 | The loop returns every delivered value read as an Account, in delivery order. |
| SmartContract.ConstructProductQueryResponseFromIterator | fabric-samples/goods-ledger/chaincode-go/chaincode/smartcontract.go:768-784 | The same, read as a Product. |
| SmartContract.ConstructManufacturerQueryResponseFromIterator | fabric-samples/goods-ledger/chaincode-go/chaincode/smartcontract.go:786-802 | The same, read as a Manufacturer. |
| SmartContract.ConstructFactoryQueryResponseFromIterator | fabric-samples/goods-ledger/chaincode-go/chaincode/smartcontract.go:804-820 | The same, read as a Factory. |
| SmartContract.GetAccountQueryResult | fabric-samples/goods-ledger/chaincode-go/chaincode/smartcontract.go:710-718 | Returns the query's matching documents read as Accounts, in key order. |
| SmartContract.GetProductQueryResult | fabric-samples/goods-ledger/chaincode-go/chaincode/smartcontract.go:720-728 | The same, read as Products. |
| SmartContract.GetManufacturerQueryResult | fabric-samples/goods-ledger/chaincode-go/chaincode/smartcontract.go:730-738 | The same, read as Manufacturers. |
| SmartContract.GetFactoryQueryResult | fabric-samples/goods-ledger/chaincode-go/chaincode/smartcontract.go:740-748 | The same, read as Factories. |
| SmartContract.QueryAccountbyToken | fabric-samples/goods-ledger/chaincode-go/chaincode/smartcontract.go:518-532 | Returns one account per key whose document has DocType "account" and the given token, in key order, each equal to the stored account. Every result carries that DocType and token. |
| SmartContract.QueryAccountbyEmail | fabric-samples/goods-ledger/chaincode-go/chaincode/smartcontract.go:534-548 | The same for the email. |
| SmartContract.QueryAccountbyUsername | fabric-samples/goods-ledger/chaincode-go/chaincode/smartcontract.go:550-564 | The same for the username. |
| SmartContract.QueryManufacturerbyAccountID | fabric-samples/goods-ledger/chaincode-go/chaincode/smartcontract.go:566-580 | The same for DocType "manufacturer" and the account ID. |
| SmartContract.QueryManufacturerbyTradeLicenceID | fabric-samples/goods-ledger/chaincode-go/chaincode/smartcontract.go:582-596 | The same for DocType "manufacturer" and the trade licence ID. |
| SmartContract.QueryFactorybyID | fabric-samples/goods-ledger/chaincode-go/chaincode/smartcontract.go:598-612 | The same for DocType "factory" and the factory ID. |
| SmartContract.QueryFactorybyManufacturerID | fabric-samples/goods-ledger/chaincode-go/chaincode/smartcontract.go:614-628 | The same for DocType "factory" and the manufacturer ID. |
| SmartContract.QueryProductbyID | fabric-samples/goods-ledger/chaincode-go/chaincode/smartcontract.go:630-644 | The same for DocType "product" and the product ID. |
| SmartContract.QueryProductbyCode | fabric-samples/goods-ledger/chaincode-go/chaincode/smartcontract.go:646-660 | At most one result. There is exactly one when the code is a stored key whose document has DocType "product", and it is that document read as a Product. |
| SmartContract.QueryProductbyOwnerAccountID | fabric-samples/goods-ledger/chaincode-go/chaincode/smartcontract.go:662-676 | The same as QueryProductbyID, for the owner account ID. |
| SmartContract.QueryProductbyManufacturerID | fabric-samples/goods-ledger/chaincode-go/chaincode/smartcontract.go:678-692 | The same as QueryProductbyID, for the manufacturer ID. |
| SmartContract.QueryProductbyFactoryID | fabric-samples/goods-ledger/chaincode-go/chaincode/smartcontract.go:694-708 | The same as QueryProductbyID, for the factory ID. |

## Left out

- JSON encoding: a stored value is the record itself, tagged with its kind. Marshalling cannot fail for these structs, so the marshal error paths are not modelled.
- Name matching: Go's decoder compares member names with full Unicode case folding. The model folds ASCII letters only, which covers every struct tag and every member this contract writes.
- JSON text: `Encode` and the `Unmarshal…` functions work on JSON objects (member name to value). Byte-level syntax, escaping and parse errors other than the absent value are not modelled.
- Host failures: errors from GetState, PutState, DelState, GetStateByRange, GetQueryResult and an iterator's Next are not modelled. The host calls always succeed in the model.
- Unmarshal failures: a document written by this contract always decodes, so the per-item decode error that aborts GetAllAssets and the Construct… loops cannot arise. Documents written by other code are not modelled.
- Iterator lifetime: closing the result iterators (`defer Close`) is not modelled.
- Transactions: read-your-writes, multi-version concurrency control, endorsement and ordering belong to the host platform and are not modelled.
- Selector text: each query builds its selector by string formatting, so an argument containing quotes could change the selector. The model treats the argument as a literal value.
- Query engine: results of the state database's rich query are modelled in key order and without a page or result limit.
- Host key checks: the host rejects some keys (for example the empty key). The model accepts every string key.
- Integer width: Asset's `Size` and `AppraisedValue` are Go `int` (64-bit). They are unbounded integers here, because no operation computes with them.
- Empty results: Go returns a nil slice for an empty listing or query. The model returns the empty sequence.
- Web client: the Node.js application that calls the contract is not part of this model.
