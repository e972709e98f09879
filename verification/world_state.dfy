/**
 * The world state as the contract sees it through its transaction stub: one
 * flat table from string keys to documents, read and written one key at a
 * time, scanned in key order, and searched with equality selectors.
 */
module WorldState {
  import opened Wrappers
  import opened Records
  import opened KeyOrder

  type Store = map<string, Doc>

  /** One key/value pair delivered by a result iterator. */
  datatype KV = KV(key: string, value: Doc)

  /** GetState: the stored document, or none (nil) for an absent key. */
  function Lookup(s: Store, key: string): Option<Doc>
  {
    if key in s then Some(s[key]) else None
  }

  function KeysOf(kvs: seq<KV>): seq<string>
  {
    seq(|kvs|, i requires 0 <= i < |kvs| => kvs[i].key)
  }

  predicate KeysSorted(kvs: seq<KV>)
  {
    forall i, j :: 0 <= i < j < |kvs| ==> Less(kvs[i].key, kvs[j].key)
  }

  /** An open range scan: every entry of the table once, in increasing key order. */
  function Scan(s: Store): seq<KV>
  {
    var ks := Ordered(s.Keys);
    seq(|ks|, i requires 0 <= i < |ks| => KV(ks[i], s[ks[i]]))
  }

  /** The document members an equality selector can name. */
  datatype Field =
    | AccountToken | AccountEmail | AccountUsername
    | ManufacturerAccountID | ManufacturerTradeLicenceID
    | FactoryID | FactoryManufacturerID
    | ProductID | ProductOwnerAccountID | ProductManufacturerID | ProductFactoryID
    | DocumentKey  // "_id", the key the document is stored under

  /** `{"selector": {"DocType": docType, <field>: value}}` */
  datatype Selector = Selector(docType: string, field: Field, value: string)

  /** The value of a member in the stored document, or none when the document has no such member. */
  function FieldValue(f: Field, key: string, d: Doc): Option<string>
  {
    match f
    case DocumentKey => Some(key)
    case AccountToken => if d.AccountDoc? then Some(d.account.accountToken) else None
    case AccountEmail => if d.AccountDoc? then Some(d.account.accountEmail) else None
    case AccountUsername => if d.AccountDoc? then Some(d.account.accountUsername) else None
    case ManufacturerAccountID =>
      if d.ManufacturerDoc? then Some(d.manufacturer.manufacturerAccountID) else None
    case ManufacturerTradeLicenceID =>
      if d.ManufacturerDoc? then Some(d.manufacturer.manufacturerTradeLicenceID) else None
    case FactoryID => if d.FactoryDoc? then Some(d.factory.factoryID) else None
    case FactoryManufacturerID => if d.FactoryDoc? then Some(d.factory.factoryManufacturerID) else None
    case ProductID => if d.ProductDoc? then Some(d.product.productID) else None
    case ProductOwnerAccountID => if d.ProductDoc? then Some(d.product.productOwnerAccountID) else None
    case ProductManufacturerID => if d.ProductDoc? then Some(d.product.productManufacturerID) else None
    case ProductFactoryID => if d.ProductDoc? then Some(d.product.productFactoryID) else None
  }

  /** Both members the selector names are present and equal to the given strings. */
  predicate Matches(sel: Selector, kv: KV)
  {
    DocTypeOf(kv.value) == Some(sel.docType) && FieldValue(sel.field, kv.key, kv.value) == Some(sel.value)
  }

  /** A document that matches a selector on a member of one record kind holds a record of that kind. */
  lemma MatchedKind(sel: Selector, kv: KV)
    requires Matches(sel, kv)
    ensures (sel.field == AccountToken || sel.field == AccountEmail || sel.field == AccountUsername)
              ==> kv.value.AccountDoc?
    ensures (sel.field == ManufacturerAccountID || sel.field == ManufacturerTradeLicenceID)
              ==> kv.value.ManufacturerDoc?
    ensures (sel.field == FactoryID || sel.field == FactoryManufacturerID) ==> kv.value.FactoryDoc?
    ensures (sel.field == ProductID || sel.field == ProductOwnerAccountID
             || sel.field == ProductManufacturerID || sel.field == ProductFactoryID)
              ==> kv.value.ProductDoc?
  {
  }

  /** The entries of kvs that satisfy the selector, in their original order. */
  function Select(kvs: seq<KV>, sel: Selector): seq<KV>
    decreases |kvs|
  {
    if kvs == [] then []
    else
      var last := kvs[|kvs| - 1];
      Select(kvs[..|kvs| - 1], sel) + (if Matches(sel, last) then [last] else [])
  }

  /**
   * Selecting keeps exactly the entries that satisfy the selector, and keeps
   * increasing keys increasing.
   */
  lemma {:induction false} SelectKeeps(kvs: seq<KV>, sel: Selector)
    ensures forall x :: x in Select(kvs, sel) ==> x in kvs && Matches(sel, x)
    ensures forall x :: x in kvs && Matches(sel, x) ==> x in Select(kvs, sel)
    ensures KeysSorted(kvs) ==> KeysSorted(Select(kvs, sel))
    decreases |kvs|
  {
    if kvs != [] {
      var init, last := kvs[..|kvs| - 1], kvs[|kvs| - 1];
      assert kvs == init + [last];
      SelectKeeps(init, sel);
      var r := Select(kvs, sel);
      assert r == Select(init, sel) + (if Matches(sel, last) then [last] else []);
      if KeysSorted(kvs) {
        forall x | x in Select(init, sel)
          ensures Less(x.key, last.key)
        {
          var p :| 0 <= p < |init| && init[p] == x;
          assert kvs[p] == x;
        }
      }
    }
  }

  /** The range scan lists every entry of the table, in increasing key order. */
  lemma ScanListsTable(s: Store)
    ensures KeysOf(Scan(s)) == Ordered(s.Keys)
    ensures KeysSorted(Scan(s))
    ensures forall x :: x in Scan(s) ==> x.key in s && x.value == s[x.key]
    ensures forall k :: k in s ==> KV(k, s[k]) in Scan(s)
  {
    var ks, scan := Ordered(s.Keys), Scan(s);
    assert |scan| == |ks|;
    forall i | 0 <= i < |scan|
      ensures ks[i] in s && scan[i] == KV(ks[i], s[ks[i]]) && KeysOf(scan)[i] == ks[i]
    {
    }
    forall k | k in s
      ensures KV(k, s[k]) in scan
    {
      var i :| 0 <= i < |ks| && ks[i] == k;
      assert scan[i] == KV(k, s[k]);
    }
  }

  /** The keys whose documents satisfy the selector. */
  ghost function MatchingKeys(s: Store, sel: Selector): set<string>
  {
    set k | k in s && Matches(sel, KV(k, s[k]))
  }

  /** A selector query: the matching entries of the table, in key order. */
  function Query(s: Store, sel: Selector): seq<KV>
  {
    Select(Scan(s), sel)
  }

  /** The entries a query returns are stored entries, and their keys enumerate the matching keys. */
  lemma QueryEnumeratesMatches(s: Store, sel: Selector)
    ensures forall x :: x in Query(s, sel) ==> x.key in s && x.value == s[x.key] && Matches(sel, x)
    ensures Enumerates(KeysOf(Query(s, sel)), MatchingKeys(s, sel))
  {
    var q, M := Query(s, sel), MatchingKeys(s, sel);
    var ks := KeysOf(q);
    ScanListsTable(s);
    SelectKeeps(Scan(s), sel);
    assert KeysSorted(q);
    forall i, j | 0 <= i < j < |ks|
      ensures Less(ks[i], ks[j])
    {
      assert ks[i] == q[i].key && ks[j] == q[j].key;
    }
    forall i | 0 <= i < |ks|
      ensures ks[i] in M
    {
      assert q[i] in q;
    }
    forall k | k in M
      ensures k in ks
    {
      assert KV(k, s[k]) in Scan(s);
      var i :| 0 <= i < |q| && q[i] == KV(k, s[k]);
      assert ks[i] == k;
    }
  }

  /**
   * A query returns one entry per matching key, in increasing key order, each
   * with the document stored under that key, and nothing else.
   */
  lemma QueryExact(s: Store, sel: Selector)
    ensures |Query(s, sel)| == |Ordered(MatchingKeys(s, sel))| == |MatchingKeys(s, sel)|
    ensures forall i :: 0 <= i < |Query(s, sel)| ==>
              var k := Ordered(MatchingKeys(s, sel))[i];
              k in s && Query(s, sel)[i] == KV(k, s[k]) && Matches(sel, KV(k, s[k]))
  {
    var q, M := Query(s, sel), MatchingKeys(s, sel);
    QueryEnumeratesMatches(s, sel);
    EnumerationUnique(KeysOf(q), Ordered(M), M);
    forall i | 0 <= i < |q|
      ensures q[i].key == Ordered(M)[i] && q[i] in q
    {
      assert KeysOf(q)[i] == q[i].key;
    }
  }

  /** The transaction stub's view of the world state. */
  class Stub {
    var state: Store

    constructor (initial: Store)
      ensures state == initial
    {
      state := initial;
    }

    method GetState(key: string) returns (v: Option<Doc>)
      ensures v.Some? <==> key in state
      ensures v.Some? ==> v.value == state[key]
    {
      v := Lookup(state, key);
    }

    method PutState(key: string, value: Doc)
      modifies this
      ensures state == old(state)[key := value]
    {
      state := state[key := value];
    }

    method DelState(key: string)
      modifies this
      ensures state == old(state) - {key}
    {
      state := state - {key};
    }

    /** GetStateByRange("", ""): the open-ended scan of the whole namespace. */
    method GetStateByRange() returns (kvs: seq<KV>)
      ensures kvs == Scan(state)
    {
      kvs := Scan(state);
    }

    /** GetQueryResult: the documents satisfying an equality selector. */
    method GetQueryResult(sel: Selector) returns (kvs: seq<KV>)
      ensures kvs == Query(state, sel)
    {
      kvs := Query(state, sel);
    }
  }
}
