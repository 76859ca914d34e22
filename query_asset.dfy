/**
 * The asset index: one document per unspent-or-spent output, keyed by
 * `address-assetType-transactionHash-outputIndex`, soft-deleted through `isRemoved`,
 * listed by cursor and aggregated into per-type balances.
 */
module QueryAsset {
  import opened Common
  import opened Sequences
  import opened SortOrder
  import opened Sorting
  import opened Documents
  import opened Search
  import opened Confirmation

  /** The fields of an asset descriptor that the index uses. */
  datatype Asset = Asset(assetType: string, transactionHash: string, transactionOutputIndex: nat, amount: nat)

  /** A document of the `asset` index. */
  datatype AssetRecord = AssetRecord(
    address: string,
    asset: Asset,
    blockNumber: int,
    parcelIndex: int,
    transactionIndex: int,
    isRemoved: bool)

  /** One entry of a UTXO listing: a record without its address and removal flag. */
  datatype Utxo = Utxo(asset: Asset, blockNumber: int, parcelIndex: int, transactionIndex: int)

  /** The optional paging parameters of a UTXO listing. */
  datatype UtxoParams = UtxoParams(
    lastBlockNumber: Option<int>,
    lastParcelIndex: Option<int>,
    lastTransactionIndex: Option<int>,
    itemsPerPage: Option<nat>)

  /** The optional paging parameters of a balance aggregation. */
  datatype AggsParams = AggsParams(page: Option<nat>, itemsPerPage: Option<nat>)

  /** One aggregation bucket: an asset type, its summed amount and its number of records. */
  datatype Bucket = Bucket(assetType: string, totalAssetQuantity: nat, utxoQuantity: nat)

  const DefaultItemsPerPage: nat := 25

  // ---------------------------------------------------------------------------
  // Document ids

  function Digit(d: nat): char
    requires d < 10
  {
    "0123456789"[d]
  }

  /** The decimal text of a number, as a template literal renders it. */
  function DecimalString(n: nat): (s: string)
    ensures |s| > 0
  {
    if n < 10 then [Digit(n)] else DecimalString(n / 10) + [Digit(n % 10)]
  }

  /** The document id of an output: `${address}-${assetType}-${transactionHash}-${outputIndex}`. */
  function AssetId(address: string, assetType: string, transactionHash: string, transactionOutputIndex: nat): (id: string)
    ensures |id| > |address| && id[..|address|] == address && id[|address|] == '-'
  {
    address + "-" + assetType + "-" + transactionHash + "-" + DecimalString(transactionOutputIndex)
  }

  function RecordId(r: AssetRecord): string
  {
    AssetId(r.address, r.asset.assetType, r.asset.transactionHash, r.asset.transactionOutputIndex)
  }

  /** Every document is stored under the id built from its own identity fields. */
  ghost predicate StoredAtOwnId(docs: map<string, AssetRecord>)
  {
    forall id :: id in docs ==> RecordId(docs[id]) == id
  }

  /**
   * The parts of an id are joined with `-`, so two different identities whose parts
   * contain `-` share one id, and indexing either overwrites the other's document.
   */
  lemma AssetIdCollision()
    ensures AssetId("a-b", "c", "h", 0) == AssetId("a", "b-c", "h", 0)
  {
  }

  // ---------------------------------------------------------------------------
  // The lifecycle mutators

  /** The `asset` index: a table of documents keyed by id. */
  class AssetIndex {
    var docs: map<string, AssetRecord>

    ghost predicate Valid()
      reads this
    {
      StoredAtOwnId(docs)
    }

    constructor ()
      ensures Valid() && docs == map[]
    {
      docs := map[];
    }

    /**
     * `indexAsset`: an update with `doc_as_upsert`, so the document is created when absent
     * and overwritten field by field when present; every stored field is given, and the
     * output is live.
     */
    method IndexAsset(address: string, assetDoc: Asset, blockNumber: int, parcelIndex: int, transactionIndex: int)
      requires Valid()
      modifies this
      ensures Valid()
      ensures docs == old(docs)[AssetId(address, assetDoc.assetType, assetDoc.transactionHash, assetDoc.transactionOutputIndex)
                                := AssetRecord(address, assetDoc, blockNumber, parcelIndex, transactionIndex, false)]
    {
      var id := AssetId(address, assetDoc.assetType, assetDoc.transactionHash, assetDoc.transactionOutputIndex);
      docs := docs[id := AssetRecord(address, assetDoc, blockNumber, parcelIndex, transactionIndex, false)];
    }

    /**
     * `removeAsset`: a partial update of `isRemoved` to true without upsert; the store
     * refuses it when no document has that id.
     */
    method RemoveAsset(address: string, assetType: string, transactionHash: string, transactionOutputIndex: nat)
      returns (outcome: Outcome)
      requires Valid()
      modifies this
      ensures Valid()
      ensures var id := AssetId(address, assetType, transactionHash, transactionOutputIndex);
        && (outcome == Updated <==> id in old(docs))
        && docs == if id in old(docs) then old(docs)[id := old(docs)[id].(isRemoved := true)] else old(docs)
    {
      var id := AssetId(address, assetType, transactionHash, transactionOutputIndex);
      if id in docs {
        docs := docs[id := docs[id].(isRemoved := true)];
        outcome := Updated;
      } else {
        outcome := NotFound;
      }
    }

    /** `revivalAsset`: the partial update of `isRemoved` back to false, again without upsert. */
    method RevivalAsset(address: string, assetType: string, transactionHash: string, transactionOutputIndex: nat)
      returns (outcome: Outcome)
      requires Valid()
      modifies this
      ensures Valid()
      ensures var id := AssetId(address, assetType, transactionHash, transactionOutputIndex);
        && (outcome == Updated <==> id in old(docs))
        && docs == if id in old(docs) then old(docs)[id := old(docs)[id].(isRemoved := false)] else old(docs)
    {
      var id := AssetId(address, assetType, transactionHash, transactionOutputIndex);
      if id in docs {
        docs := docs[id := docs[id].(isRemoved := false)];
        outcome := Updated;
      } else {
        outcome := NotFound;
      }
    }
  }

  /** Indexing the same output twice leaves the table as one indexing does. */
  method IndexAssetTwice(index: AssetIndex, address: string, assetDoc: Asset, blockNumber: int, parcelIndex: int, transactionIndex: int)
    requires index.Valid()
    modifies index
    ensures index.Valid()
    ensures index.docs == old(index.docs)[AssetId(address, assetDoc.assetType, assetDoc.transactionHash, assetDoc.transactionOutputIndex)
                                          := AssetRecord(address, assetDoc, blockNumber, parcelIndex, transactionIndex, false)]
  {
    index.IndexAsset(address, assetDoc, blockNumber, parcelIndex, transactionIndex);
    index.IndexAsset(address, assetDoc, blockNumber, parcelIndex, transactionIndex);
  }

  /**
   * Index, remove, revive the same output: both partial updates find the document, and
   * the table ends as it was right after indexing.
   */
  method IndexRemoveRevive(index: AssetIndex, address: string, assetDoc: Asset, blockNumber: int, parcelIndex: int, transactionIndex: int)
    returns (removed: Outcome, revived: Outcome)
    requires index.Valid()
    modifies index
    ensures index.Valid()
    ensures removed == Updated && revived == Updated
    ensures index.docs == old(index.docs)[AssetId(address, assetDoc.assetType, assetDoc.transactionHash, assetDoc.transactionOutputIndex)
                                          := AssetRecord(address, assetDoc, blockNumber, parcelIndex, transactionIndex, false)]
  {
    index.IndexAsset(address, assetDoc, blockNumber, parcelIndex, transactionIndex);
    ghost var indexed := index.docs;
    removed := index.RemoveAsset(address, assetDoc.assetType, assetDoc.transactionHash, assetDoc.transactionOutputIndex);
    revived := index.RevivalAsset(address, assetDoc.assetType, assetDoc.transactionHash, assetDoc.transactionOutputIndex);
    assert index.docs == indexed;
  }

  // ---------------------------------------------------------------------------
  // Query building blocks

  /** The sort of the UTXO listing: block number, parcel index, transaction index. */
  function AssetKey(r: AssetRecord): seq<int>
  {
    [r.blockNumber, r.parcelIndex, r.transactionIndex]
  }

  function UtxoKey(u: Utxo): seq<int>
  {
    [u.blockNumber, u.parcelIndex, u.transactionIndex]
  }

  function ToUtxo(r: AssetRecord): (u: Utxo)
    ensures UtxoKey(u) == AssetKey(r)
  {
    Utxo(r.asset, r.blockNumber, r.parcelIndex, r.transactionIndex)
  }

  /** The projection of the search hits (`_.map` over `hits.hits`). */
  function Project(s: seq<AssetRecord>): (r: seq<Utxo>)
    ensures |r| == |s| && forall i :: 0 <= i < |s| ==> r[i] == ToUtxo(s[i])
  {
    seq(|s|, i requires 0 <= i < |s| => ToUtxo(s[i]))
  }

  /** A record of `address`, not removed, inside the confirmation window `window`. */
  predicate Live(r: AssetRecord, address: string, window: Range)
  {
    r.address == address && !r.isRemoved && InRange(r.blockNumber, window)
  }

  predicate LiveOfType(r: AssetRecord, address: string, assetType: string, window: Range)
  {
    Live(r, address, window) && r.asset.assetType == assetType
  }

  function LivePred(address: string, window: Range): (p: AssetRecord -> bool)
    ensures forall r :: p(r) == Live(r, address, window)
  {
    r => Live(r, address, window)
  }

  function LiveOfTypePred(address: string, assetType: string, window: Range): (p: AssetRecord -> bool)
    ensures forall r :: p(r) == LiveOfType(r, address, assetType, window)
  {
    r => LiveOfType(r, address, assetType, window)
  }

  /** The `search_after` tuple of a UTXO listing, with the `||` defaults. */
  function UtxoCursor(params: UtxoParams): (c: seq<Bound>)
    ensures |c| == 3
  {
    [CursorField(params.lastBlockNumber), CursorField(params.lastParcelIndex), CursorField(params.lastTransactionIndex)]
  }

  // ---------------------------------------------------------------------------
  // getUTXOListByAssetType

  /** The ids of the records a UTXO listing may return: its filter and its cursor. */
  ghost function ListableIds(docs: map<string, AssetRecord>, address: string, assetType: string,
                             window: Range, cursor: seq<Bound>): set<string>
  {
    set id | id in docs && LiveOfType(docs[id], address, assetType, window) && BelowCursor(AssetKey(docs[id]), cursor)
  }

  /** The records a UTXO listing returns, before projection. */
  ghost function UtxoPage(docs: map<string, AssetRecord>, address: string, assetType: string,
                          currentBestBlockNumber: int, confirmThreshold: int, isConfirmed: bool,
                          params: UtxoParams): seq<AssetRecord>
  {
    SearchAfter(Hits(docs),
                LiveOfTypePred(address, assetType, ResolveWindow(currentBestBlockNumber, confirmThreshold, isConfirmed)),
                AssetKey, UtxoCursor(params), OrDefault(params.itemsPerPage, DefaultItemsPerPage))
  }

  /** `getUTXOListByAssetType`. */
  ghost function GetUTXOListByAssetType(docs: map<string, AssetRecord>, address: string, assetType: string,
                                        currentBestBlockNumber: int, confirmThreshold: int, isConfirmed: bool,
                                        params: UtxoParams): (r: seq<Utxo>)
    ensures |r| <= OrDefault(params.itemsPerPage, DefaultItemsPerPage)
  {
    Project(UtxoPage(docs, address, assetType, currentBestBlockNumber, confirmThreshold, isConfirmed, params))
  }

  /**
   * Every listed entry is the projection of a stored record of that address and type,
   * not removed, inside the window, strictly below the cursor; at most `itemsPerPage`
   * entries (25 when absent or 0) are listed.
   */
  lemma UtxoListSelects(docs: map<string, AssetRecord>, address: string, assetType: string,
                        currentBestBlockNumber: int, confirmThreshold: int, isConfirmed: bool,
                        params: UtxoParams)
    ensures var r := GetUTXOListByAssetType(docs, address, assetType, currentBestBlockNumber, confirmThreshold, isConfirmed, params);
      && |r| <= OrDefault(params.itemsPerPage, DefaultItemsPerPage)
      && forall i :: 0 <= i < |r| ==>
           exists id :: id in docs && ToUtxo(docs[id]) == r[i]
             && docs[id].address == address && docs[id].asset.assetType == assetType && !docs[id].isRemoved
             && InRange(docs[id].blockNumber, ResolveWindow(currentBestBlockNumber, confirmThreshold, isConfirmed))
             && BelowCursor(UtxoKey(r[i]), UtxoCursor(params))
  {
    var window := ResolveWindow(currentBestBlockNumber, confirmThreshold, isConfirmed);
    var cursor := UtxoCursor(params);
    var page := UtxoPage(docs, address, assetType, currentBestBlockNumber, confirmThreshold, isConfirmed, params);
    var r := Project(page);
    forall i | 0 <= i < |r|
      ensures exists id :: (id in docs && ToUtxo(docs[id]) == r[i]
             && docs[id].address == address && docs[id].asset.assetType == assetType && !docs[id].isRemoved
             && InRange(docs[id].blockNumber, window)
             && BelowCursor(UtxoKey(r[i]), cursor))
    {
      var x := page[i];
      assert x in page;
      assert x in Hits(docs) && LiveOfType(x, address, assetType, window) && BelowCursor(AssetKey(x), cursor);
      HitsMembership(docs, x);
      var id :| id in docs && docs[id] == x;
      assert ToUtxo(docs[id]) == r[i];
    }
  }

  /** The listing is non-increasing in `(blockNumber, parcelIndex, transactionIndex)`. */
  lemma UtxoListOrdered(docs: map<string, AssetRecord>, address: string, assetType: string,
                        currentBestBlockNumber: int, confirmThreshold: int, isConfirmed: bool,
                        params: UtxoParams)
    ensures var r := GetUTXOListByAssetType(docs, address, assetType, currentBestBlockNumber, confirmThreshold, isConfirmed, params);
      forall i, j :: 0 <= i < j < |r| ==> LexLe(UtxoKey(r[j]), UtxoKey(r[i]))
  {
    var page := UtxoPage(docs, address, assetType, currentBestBlockNumber, confirmThreshold, isConfirmed, params);
    assert SortedDesc(page, AssetKey);
  }

  /**
   * The listing is as long as the page size allows and the matching ids provide: the
   * records of that address and type, live, in the window and strictly below the cursor.
   */
  lemma UtxoListCount(docs: map<string, AssetRecord>, address: string, assetType: string,
                      currentBestBlockNumber: int, confirmThreshold: int, isConfirmed: bool,
                      params: UtxoParams)
    ensures var window := ResolveWindow(currentBestBlockNumber, confirmThreshold, isConfirmed);
      |GetUTXOListByAssetType(docs, address, assetType, currentBestBlockNumber, confirmThreshold, isConfirmed, params)|
      == Min(OrDefault(params.itemsPerPage, DefaultItemsPerPage),
             |ListableIds(docs, address, assetType, window, UtxoCursor(params))|)
  {
    var window := ResolveWindow(currentBestBlockNumber, confirmThreshold, isConfirmed);
    var cursor := UtxoCursor(params);
    var both := And(LiveOfTypePred(address, assetType, window), BelowPred(AssetKey, cursor));
    var page := UtxoPage(docs, address, assetType, currentBestBlockNumber, confirmThreshold, isConfirmed, params);
    assert |page| == Min(OrDefault(params.itemsPerPage, DefaultItemsPerPage), CountWhere(docs, both));
    var ids := ListableIds(docs, address, assetType, window, cursor);
    forall id ensures id in ids <==> id in docs && both(docs[id]) {
    }
    CountIsIdSet(docs, both, ids);
  }

  /**
   * The listing is the top of the matching records: a matching record that is not listed
   * sorts at or below every listed entry.
   */
  lemma UtxoListTop(docs: map<string, AssetRecord>, address: string, assetType: string,
                    currentBestBlockNumber: int, confirmThreshold: int, isConfirmed: bool,
                    params: UtxoParams, id: string)
    requires id in docs
    requires LiveOfType(docs[id], address, assetType, ResolveWindow(currentBestBlockNumber, confirmThreshold, isConfirmed))
    requires BelowCursor(AssetKey(docs[id]), UtxoCursor(params))
    requires ToUtxo(docs[id]) !in GetUTXOListByAssetType(docs, address, assetType, currentBestBlockNumber, confirmThreshold, isConfirmed, params)
    ensures var r := GetUTXOListByAssetType(docs, address, assetType, currentBestBlockNumber, confirmThreshold, isConfirmed, params);
      forall i :: 0 <= i < |r| ==> LexLe(AssetKey(docs[id]), UtxoKey(r[i]))
  {
    var page := UtxoPage(docs, address, assetType, currentBestBlockNumber, confirmThreshold, isConfirmed, params);
    var r := Project(page);
    var x := docs[id];
    HitsMembership(docs, x);
    if x in page {
      assert false;
    }
    forall i | 0 <= i < |r| ensures LexLe(AssetKey(x), UtxoKey(r[i])) {
      assert UtxoKey(r[i]) == AssetKey(page[i]);
    }
  }

  /**
   * A table whose documents sit under their own ids holds at most one record per output
   * identity: address, asset type, transaction hash and output index.
   */
  lemma OneRecordPerIdentity(docs: map<string, AssetRecord>)
    requires StoredAtOwnId(docs)
    ensures forall j, k :: j in docs && k in docs && RecordId(docs[j]) == RecordId(docs[k]) ==> j == k
  {
  }

  /** On a table whose documents sit under their own ids, a UTXO page holds no record twice. */
  lemma UtxoPageDistinct(docs: map<string, AssetRecord>, address: string, assetType: string,
                         currentBestBlockNumber: int, confirmThreshold: int, isConfirmed: bool,
                         params: UtxoParams)
    requires StoredAtOwnId(docs)
    ensures Distinct(UtxoPage(docs, address, assetType, currentBestBlockNumber, confirmThreshold, isConfirmed, params))
  {
    var p := LiveOfTypePred(address, assetType, ResolveWindow(currentBestBlockNumber, confirmThreshold, isConfirmed));
    forall j, k | j in docs && k in docs && j != k && p(docs[j]) && p(docs[k]) ensures docs[j] != docs[k] {
      assert RecordId(docs[j]) == j && RecordId(docs[k]) == k;
    }
    HitsDistinct(docs, p);
    SearchAfterDistinct(Hits(docs), p, AssetKey, UtxoCursor(params), OrDefault(params.itemsPerPage, DefaultItemsPerPage));
  }

  /**
   * On a table whose documents sit under their own ids, a UTXO listing returns no output
   * twice, although the projection drops the address and the removal flag.
   */
  lemma UtxoListDistinct(docs: map<string, AssetRecord>, address: string, assetType: string,
                         currentBestBlockNumber: int, confirmThreshold: int, isConfirmed: bool,
                         params: UtxoParams)
    requires StoredAtOwnId(docs)
    ensures Distinct(GetUTXOListByAssetType(docs, address, assetType, currentBestBlockNumber, confirmThreshold, isConfirmed, params))
  {
    var page := UtxoPage(docs, address, assetType, currentBestBlockNumber, confirmThreshold, isConfirmed, params);
    var r := Project(page);
    UtxoPageDistinct(docs, address, assetType, currentBestBlockNumber, confirmThreshold, isConfirmed, params);
    forall i, j | 0 <= i < j < |r| ensures r[i] != r[j] {
      assert page[i] in page && page[j] in page;
      assert page[i].address == page[j].address && !page[i].isRemoved && !page[j].isRemoved;
    }
  }

  /** With no confirmed block (the threshold reaches past every record), the confirmed listing is empty. */
  lemma ConfirmedListEmpty(docs: map<string, AssetRecord>, address: string, assetType: string,
                           currentBestBlockNumber: int, confirmThreshold: int, params: UtxoParams)
    requires forall id :: id in docs ==> docs[id].blockNumber > currentBestBlockNumber - confirmThreshold
    ensures GetUTXOListByAssetType(docs, address, assetType, currentBestBlockNumber, confirmThreshold, true, params) == []
  {
    var window := ResolveWindow(currentBestBlockNumber, confirmThreshold, true);
    var p := And(LiveOfTypePred(address, assetType, window), BelowPred(AssetKey, UtxoCursor(params)));
    forall x | x in Hits(docs) ensures !p(x) {
      HitsMembership(docs, x);
      var id :| id in docs && docs[id] == x;
    }
    FilterNone(Hits(docs), p);
  }

  /** The parameters a client sends to continue after record `r`: its position as the cursor. */
  function ContinueAfter(r: AssetRecord, itemsPerPage: Option<nat>): (params: UtxoParams)
    ensures UtxoCursor(params) == CursorOf(AssetKey(r))
  {
    UtxoParams(Some(r.blockNumber), Some(r.parcelIndex), Some(r.transactionIndex), itemsPerPage)
  }

  /**
   * The `||` quirk: continuing after a listable record with a key field 0 (the first parcel
   * of a block, or the first transaction of a parcel) lists at least one entry again, and the
   * first one sorts at or above that record: the listing does not move past it.
   */
  lemma UtxoListRestartsAfterZero(docs: map<string, AssetRecord>, address: string, assetType: string,
                                  currentBestBlockNumber: int, confirmThreshold: int, isConfirmed: bool,
                                  id: string, itemsPerPage: Option<nat>)
    requires id in docs
    requires LiveOfType(docs[id], address, assetType, ResolveWindow(currentBestBlockNumber, confirmThreshold, isConfirmed))
    requires docs[id].blockNumber == 0 || docs[id].parcelIndex == 0 || docs[id].transactionIndex == 0
    ensures var next := GetUTXOListByAssetType(docs, address, assetType, currentBestBlockNumber, confirmThreshold,
                                               isConfirmed, ContinueAfter(docs[id], itemsPerPage));
      |next| > 0 && LexLe(AssetKey(docs[id]), UtxoKey(next[0]))
  {
    var x := docs[id];
    var window := ResolveWindow(currentBestBlockNumber, confirmThreshold, isConfirmed);
    var params := ContinueAfter(x, itemsPerPage);
    HitsMembership(docs, x);
    assert AssetKey(x)[0] == 0 || AssetKey(x)[1] == 0 || AssetKey(x)[2] == 0;
    NoProgressAfterZeroField(Hits(docs), LiveOfTypePred(address, assetType, window), AssetKey, x,
                             OrDefault(itemsPerPage, DefaultItemsPerPage));
    var page := UtxoPage(docs, address, assetType, currentBestBlockNumber, confirmThreshold, isConfirmed, params);
    assert UtxoKey(Project(page)[0]) == AssetKey(page[0]);
  }

  /** A record below the cursor taken from a key with no zero field does not share that key. */
  lemma PastNonzeroCursor(x: AssetRecord, last: AssetRecord)
    requires last.blockNumber != 0 && last.parcelIndex != 0 && last.transactionIndex != 0
    requires BelowCursor(AssetKey(x), CursorOf(AssetKey(last)))
    ensures AssetKey(x) != AssetKey(last)
  {
    CursorOfNonzero(AssetKey(last));
    BelowExact(AssetKey(x), AssetKey(last));
  }

  /**
   * Continuing after a record whose key fields are all nonzero lists nothing else from the
   * same transaction: the next page skips the outputs that share its
   * `(blockNumber, parcelIndex, transactionIndex)` and were not on the previous page. A later
   * cursor that re-admits the key through a 0 field can list them again.
   */
  lemma UtxoListSkipsSameTransaction(docs: map<string, AssetRecord>, address: string, assetType: string,
                                     currentBestBlockNumber: int, confirmThreshold: int, isConfirmed: bool,
                                     last: AssetRecord, itemsPerPage: Option<nat>)
    requires last.blockNumber != 0 && last.parcelIndex != 0 && last.transactionIndex != 0
    ensures var next := GetUTXOListByAssetType(docs, address, assetType, currentBestBlockNumber, confirmThreshold,
                                               isConfirmed, ContinueAfter(last, itemsPerPage));
      forall i :: 0 <= i < |next| ==> UtxoKey(next[i]) != AssetKey(last)
  {
    var params := ContinueAfter(last, itemsPerPage);
    var page := UtxoPage(docs, address, assetType, currentBestBlockNumber, confirmThreshold, isConfirmed, params);
    forall i | 0 <= i < |page| ensures AssetKey(page[i]) != AssetKey(last) {
      assert page[i] in page;
      PastNonzeroCursor(page[i], last);
    }
  }

  /** All listable records of an address and type inside a window, in the order of the listing's sort. */
  ghost function UtxoRanking(docs: map<string, AssetRecord>, address: string, assetType: string, window: Range): seq<AssetRecord>
  {
    Ranked(Hits(docs), LiveOfTypePred(address, assetType, window), AssetKey)
  }

  /** Without a cursor (fields absent or 0) the listing is the projected top of the ranking. */
  lemma UtxoListFirstPage(docs: map<string, AssetRecord>, address: string, assetType: string,
                          currentBestBlockNumber: int, confirmThreshold: int, isConfirmed: bool,
                          params: UtxoParams)
    requires params.lastBlockNumber.None? || params.lastBlockNumber == Some(0)
    requires params.lastParcelIndex.None? || params.lastParcelIndex == Some(0)
    requires params.lastTransactionIndex.None? || params.lastTransactionIndex == Some(0)
    ensures GetUTXOListByAssetType(docs, address, assetType, currentBestBlockNumber, confirmThreshold, isConfirmed, params)
            == Project(Take(UtxoRanking(docs, address, assetType, ResolveWindow(currentBestBlockNumber, confirmThreshold, isConfirmed)),
                            OrDefault(params.itemsPerPage, DefaultItemsPerPage)))
  {
    var window := ResolveWindow(currentBestBlockNumber, confirmThreshold, isConfirmed);
    assert UtxoCursor(params) == Top(3);
    FirstPage(Hits(docs), LiveOfTypePred(address, assetType, window), AssetKey, 3,
              OrDefault(params.itemsPerPage, DefaultItemsPerPage));
  }

  /**
   * No two listable records of an address and type inside a window come from the same
   * transaction: each transaction pays that address at most one output of that type.
   */
  ghost predicate OneOutputPerTransaction(docs: map<string, AssetRecord>, address: string, assetType: string, window: Range)
  {
    forall g, h :: g in docs && h in docs && g != h
      && LiveOfType(docs[g], address, assetType, window) && LiveOfType(docs[h], address, assetType, window)
      ==> AssetKey(docs[g]) != AssetKey(docs[h])
  }

  /** With one output per transaction, the ranking is strictly decreasing. */
  lemma UtxoRankingStrict(docs: map<string, AssetRecord>, address: string, assetType: string, window: Range)
    requires OneOutputPerTransaction(docs, address, assetType, window)
    ensures StrictlyDesc(UtxoRanking(docs, address, assetType, window), AssetKey)
  {
    var p := LiveOfTypePred(address, assetType, window);
    var ranked := UtxoRanking(docs, address, assetType, window);
    HitsDistinct(docs, p);
    RankedDistinct(Hits(docs), p, AssetKey);
    forall i, j | 0 <= i < j < |ranked| ensures LexLess(AssetKey(ranked[j]), AssetKey(ranked[i])) {
      RankedMembership(Hits(docs), p, AssetKey, ranked[i]);
      RankedMembership(Hits(docs), p, AssetKey, ranked[j]);
      HitsMembership(docs, ranked[i]);
      HitsMembership(docs, ranked[j]);
    }
  }

  /**
   * With one output per transaction, cursor paging is exhaustive: continuing after the
   * `i`-th ranked record, all key fields nonzero, lists the records right after it.
   */
  lemma UtxoListNextPage(docs: map<string, AssetRecord>, address: string, assetType: string,
                         currentBestBlockNumber: int, confirmThreshold: int, isConfirmed: bool,
                         i: nat, itemsPerPage: Option<nat>)
    requires OneOutputPerTransaction(docs, address, assetType, ResolveWindow(currentBestBlockNumber, confirmThreshold, isConfirmed))
    requires i < |UtxoRanking(docs, address, assetType, ResolveWindow(currentBestBlockNumber, confirmThreshold, isConfirmed))|
    requires var last := UtxoRanking(docs, address, assetType, ResolveWindow(currentBestBlockNumber, confirmThreshold, isConfirmed))[i];
      last.blockNumber != 0 && last.parcelIndex != 0 && last.transactionIndex != 0
    ensures var ranked := UtxoRanking(docs, address, assetType, ResolveWindow(currentBestBlockNumber, confirmThreshold, isConfirmed));
      GetUTXOListByAssetType(docs, address, assetType, currentBestBlockNumber, confirmThreshold, isConfirmed,
                             ContinueAfter(ranked[i], itemsPerPage))
      == Project(Take(ranked[i + 1..], OrDefault(itemsPerPage, DefaultItemsPerPage)))
  {
    var window := ResolveWindow(currentBestBlockNumber, confirmThreshold, isConfirmed);
    var ranked := UtxoRanking(docs, address, assetType, window);
    UtxoRankingStrict(docs, address, assetType, window);
    assert KeyWidth(AssetKey, 3);
    assert AssetKey(ranked[i])[0] != 0 && AssetKey(ranked[i])[1] != 0 && AssetKey(ranked[i])[2] != 0;
    NextPage(Hits(docs), LiveOfTypePred(address, assetType, window), AssetKey, 3, i,
             OrDefault(itemsPerPage, DefaultItemsPerPage));
  }

  // ---------------------------------------------------------------------------
  // Group-sum building blocks

  /** The summed amount of some records (the `sum` metric over `asset.amount`). */
  function Total(recs: seq<AssetRecord>): nat
  {
    if |recs| == 0 then 0 else recs[0].asset.amount + Total(recs[1..])
  }

  lemma {:induction false} TotalAppend(s: seq<AssetRecord>, t: seq<AssetRecord>)
    ensures Total(s + t) == Total(s) + Total(t)
    decreases |s|
  {
    if |s| == 0 {
      assert s + t == t;
    } else {
      assert (s + t)[1..] == s[1..] + t;
      TotalAppend(s[1..], t);
    }
  }

  /** The sum does not depend on the order in which the store visits the records. */
  lemma {:induction false} TotalPermutation(s: seq<AssetRecord>, t: seq<AssetRecord>)
    requires multiset(s) == multiset(t)
    ensures Total(s) == Total(t)
    decreases |s|
  {
    if |s| == 0 {
      assert |multiset(t)| == 0;
    } else {
      var x := s[0];
      assert x in multiset(t);
      var i :| 0 <= i < |t| && t[i] == x;
      var rest := t[..i] + t[i + 1..];
      TotalWithout(t, i);
      assert s == [x] + s[1..];
      MultisetCancel(multiset(s[1..]), multiset(rest), x);
      TotalPermutation(s[1..], rest);
    }
  }

  /** Taking the record at `i` out of `t` removes it from the multiset and its amount from the sum. */
  lemma TotalWithout(t: seq<AssetRecord>, i: nat)
    requires i < |t|
    ensures multiset(t) == multiset(t[..i] + t[i + 1..]) + multiset{t[i]}
    ensures Total(t) == Total(t[..i] + t[i + 1..]) + t[i].asset.amount
  {
    SplitAt(t, i);
    var before, after := t[..i], t[i + 1..];
    TotalAppend(before + [t[i]], after);
    TotalAppend(before, [t[i]]);
    TotalAppend(before, after);
  }

  lemma MultisetCancel<T>(a: multiset<T>, b: multiset<T>, x: T)
    requires multiset{x} + a == b + multiset{x}
    ensures a == b
  {
    assert a == (multiset{x} + a) - multiset{x};
  }

  /** Filtering a sequence that is `t` plus one more record `v`, up to order, adds `v`'s amount when it matches. */
  lemma TotalOfExtraRecord(s: seq<AssetRecord>, t: seq<AssetRecord>, v: AssetRecord, p: AssetRecord -> bool)
    requires multiset(s) == multiset(t) + multiset{v}
    ensures Total(Filter(s, p)) == Total(Filter(t, p)) + (if p(v) then v.asset.amount else 0)
  {
    assert multiset(s) == multiset(t + [v]);
    FilterPermutation(s, t + [v], p);
    TotalPermutation(Filter(s, p), Filter(t + [v], p));
    FilterAppend(t, [v], p);
    TotalAppend(Filter(t, p), Filter([v], p));
    assert Filter([v], p) == if p(v) then [v] else [];
  }

  /** The sums over two predicates that split a third add up to the sum over the third. */
  lemma {:induction false} TotalSplit(s: seq<AssetRecord>, p: AssetRecord -> bool, q: AssetRecord -> bool,
                                      both: AssetRecord -> bool)
    requires forall x :: both(x) == (p(x) || q(x)) && !(p(x) && q(x))
    ensures Total(Filter(s, p)) + Total(Filter(s, q)) == Total(Filter(s, both))
    decreases |s|
  {
    if |s| > 0 {
      TotalSplit(s[1..], p, q, both);
      var head := [s[0]];
      TotalAppend(Filter(head, p), Filter(s[1..], p));
      TotalAppend(Filter(head, q), Filter(s[1..], q));
      TotalAppend(Filter(head, both), Filter(s[1..], both));
    }
  }

  /** The records of one asset type. */
  function HasType(assetType: string): (p: AssetRecord -> bool)
    ensures forall r :: p(r) == (r.asset.assetType == assetType)
  {
    (r: AssetRecord) => r.asset.assetType == assetType
  }

  /** The bucket of one asset type over `recs`: its summed amount and its number of records. */
  function GroupBucket(recs: seq<AssetRecord>, assetType: string): Bucket
  {
    var group := Filter(recs, HasType(assetType));
    Bucket(assetType, Total(group), |group|)
  }

  /** The asset types occurring in `recs`, each once. */
  function Types(recs: seq<AssetRecord>): (ts: seq<string>)
    ensures forall t :: t in ts <==> exists r :: r in recs && r.asset.assetType == t
    ensures Distinct(ts)
  {
    if |recs| == 0 then []
    else
      var rest := Types(recs[1..]);
      assert forall r :: r in recs[1..] ==> r in recs;
      if recs[0].asset.assetType in rest then rest else [recs[0].asset.assetType] + rest
  }

  /** The buckets of a composite `terms` aggregation on `asset.assetType`, with its metrics. */
  function Group(recs: seq<AssetRecord>): seq<Bucket>
  {
    var ts := Types(recs);
    seq(|ts|, i requires 0 <= i < |ts| => GroupBucket(recs, ts[i]))
  }

  /**
   * Grouping yields exactly one bucket per asset type of `recs`: every bucket holds the sum
   * and count of its type's records and at least one record, and no type has two buckets.
   */
  lemma GroupShape(recs: seq<AssetRecord>)
    ensures forall b :: b in Group(recs) ==> b == GroupBucket(recs, b.assetType) && b.utxoQuantity > 0
    ensures forall b :: b in Group(recs) ==> exists r :: r in recs && r.asset.assetType == b.assetType
    ensures forall r :: r in recs ==> exists b :: b in Group(recs) && b.assetType == r.asset.assetType
    ensures Distinct(Group(recs))
  {
    forall b | b in Group(recs)
      ensures b == GroupBucket(recs, b.assetType) && b.utxoQuantity > 0
      ensures exists r :: r in recs && r.asset.assetType == b.assetType
    {
      GroupMember(recs, b);
    }
    forall r | r in recs ensures exists b :: b in Group(recs) && b.assetType == r.asset.assetType {
      GroupCovers(recs, r);
    }
    GroupDistinct(recs);
  }

  lemma GroupMember(recs: seq<AssetRecord>, b: Bucket)
    requires b in Group(recs)
    ensures b == GroupBucket(recs, b.assetType) && b.utxoQuantity > 0
    ensures exists r :: r in recs && r.asset.assetType == b.assetType
  {
    var ts := Types(recs);
    var bs := Group(recs);
    var i :| 0 <= i < |bs| && bs[i] == b;
    assert ts[i] in ts;
    var r :| r in recs && r.asset.assetType == ts[i];
    assert r in Filter(recs, HasType(ts[i]));
  }

  lemma GroupCovers(recs: seq<AssetRecord>, r: AssetRecord)
    requires r in recs
    ensures exists b :: b in Group(recs) && b.assetType == r.asset.assetType
  {
    var ts := Types(recs);
    var bs := Group(recs);
    assert r.asset.assetType in ts;
    var i :| 0 <= i < |ts| && ts[i] == r.asset.assetType;
    assert bs[i] in bs;
  }

  lemma GroupDistinct(recs: seq<AssetRecord>)
    ensures Distinct(Group(recs))
  {
    var ts := Types(recs);
    var bs := Group(recs);
    forall i, j | 0 <= i < j < |bs| ensures bs[i] != bs[j] {
      assert bs[i].assetType == ts[i] && bs[j].assetType == ts[j];
    }
  }

  /** The sort of the aggregation: the bucket's summed amount. */
  function BucketKey(b: Bucket): seq<int>
  {
    [b.totalAssetQuantity]
  }

  /** The records `p` selects, summed as the `sum` metric reports it. */
  ghost function SumWhere(docs: map<string, AssetRecord>, p: AssetRecord -> bool): nat
  {
    Total(Filter(Hits(docs), p))
  }

  /** The ids of the live records of one address and type inside a window. */
  ghost function OwnedIds(docs: map<string, AssetRecord>, address: string, assetType: string, window: Range): set<string>
  {
    set id | id in docs && LiveOfType(docs[id], address, assetType, window)
  }

  /** The bucket of a type over the live records of an address is that type's sum and number of ids. */
  lemma GroupOfLive(docs: map<string, AssetRecord>, address: string, window: Range, assetType: string)
    ensures GroupBucket(Filter(Hits(docs), LivePred(address, window)), assetType)
            == Bucket(assetType, SumWhere(docs, LiveOfTypePred(address, assetType, window)),
                      |OwnedIds(docs, address, assetType, window)|)
  {
    var ofType := LiveOfTypePred(address, assetType, window);
    FilterFilter(Hits(docs), LivePred(address, window), HasType(assetType));
    FilterExt(Hits(docs), And(LivePred(address, window), HasType(assetType)), ofType);
    var ids := OwnedIds(docs, address, assetType, window);
    forall id ensures id in ids <==> id in docs && ofType(docs[id]) {
    }
    CountIsIdSet(docs, ofType, ids);
  }

  // ---------------------------------------------------------------------------
  // getAggsUTXOList

  /** All buckets of the live records of an address inside a window, by summed amount, largest first. */
  ghost function RankedBuckets(docs: map<string, AssetRecord>, address: string, window: Range): seq<Bucket>
  {
    SortDesc(Group(Filter(Hits(docs), LivePred(address, window))), BucketKey)
  }

  /** `getAggsUTXOList`: the page `page` (0-based) of the ranked buckets. */
  ghost function GetAggsUTXOList(docs: map<string, AssetRecord>, address: string,
                                 currentBestBlockNumber: int, confirmThreshold: int, isConfirmed: bool,
                                 params: AggsParams): (r: seq<Bucket>)
    ensures |r| <= OrDefault(params.itemsPerPage, DefaultItemsPerPage)
  {
    PageAt(RankedBuckets(docs, address, ResolveWindow(currentBestBlockNumber, confirmThreshold, isConfirmed)),
           params.page, params.itemsPerPage, DefaultItemsPerPage)
  }

  /** The ranking holds exactly the buckets of the grouping. */
  lemma RankedMember(docs: map<string, AssetRecord>, address: string, window: Range, b: Bucket)
    ensures b in RankedBuckets(docs, address, window) <==> b in Group(Filter(Hits(docs), LivePred(address, window)))
  {
    var g := Group(Filter(Hits(docs), LivePred(address, window)));
    var ranked := RankedBuckets(docs, address, window);
    assert b in ranked <==> b in multiset(ranked);
    assert b in g <==> b in multiset(g);
  }

  /**
   * Every bucket of a balance page stands for one asset type of the address: its
   * `utxoQuantity` is the number of live in-window records of that type, at least one, and
   * its `totalAssetQuantity` is their summed amount.
   */
  lemma AggsBucketsMeaning(docs: map<string, AssetRecord>, address: string,
                           currentBestBlockNumber: int, confirmThreshold: int, isConfirmed: bool,
                           params: AggsParams)
    ensures var window := ResolveWindow(currentBestBlockNumber, confirmThreshold, isConfirmed);
      forall b :: b in GetAggsUTXOList(docs, address, currentBestBlockNumber, confirmThreshold, isConfirmed, params) ==>
        && b.utxoQuantity == |OwnedIds(docs, address, b.assetType, window)| > 0
        && b.totalAssetQuantity == SumWhere(docs, LiveOfTypePred(address, b.assetType, window))
  {
    var window := ResolveWindow(currentBestBlockNumber, confirmThreshold, isConfirmed);
    var live := Filter(Hits(docs), LivePred(address, window));
    var ranked := RankedBuckets(docs, address, window);
    var r := GetAggsUTXOList(docs, address, currentBestBlockNumber, confirmThreshold, isConfirmed, params);
    forall b | b in r
      ensures b.utxoQuantity == |OwnedIds(docs, address, b.assetType, window)| > 0
      ensures b.totalAssetQuantity == SumWhere(docs, LiveOfTypePred(address, b.assetType, window))
    {
      InRanking(docs, address, currentBestBlockNumber, confirmThreshold, isConfirmed, params, b);
      RankedMember(docs, address, window, b);
      GroupMember(live, b);
      GroupOfLive(docs, address, window, b.assetType);
    }
  }

  /** A bucket of a page is a bucket of the ranking it is sliced from. */
  lemma InRanking(docs: map<string, AssetRecord>, address: string,
                  currentBestBlockNumber: int, confirmThreshold: int, isConfirmed: bool,
                  params: AggsParams, b: Bucket)
    requires b in GetAggsUTXOList(docs, address, currentBestBlockNumber, confirmThreshold, isConfirmed, params)
    ensures b in RankedBuckets(docs, address, ResolveWindow(currentBestBlockNumber, confirmThreshold, isConfirmed))
  {
    var ranked := RankedBuckets(docs, address, ResolveWindow(currentBestBlockNumber, confirmThreshold, isConfirmed));
    var size := OrDefault(params.itemsPerPage, DefaultItemsPerPage);
    SliceMembers(ranked, OrDefault(params.page, 0) * size, size);
  }

  /** Buckets sorted on `BucketKey` are non-increasing in the summed amount. */
  lemma TotalsDescending(bs: seq<Bucket>)
    requires SortedDesc(bs, BucketKey)
    ensures forall i, j :: 0 <= i < j < |bs| ==> bs[j].totalAssetQuantity <= bs[i].totalAssetQuantity
  {
    forall i, j | 0 <= i < j < |bs| ensures bs[j].totalAssetQuantity <= bs[i].totalAssetQuantity {
      assert LexLe(BucketKey(bs[j]), BucketKey(bs[i]));
    }
  }

  /** A balance page is non-increasing in the summed amount. */
  lemma AggsListOrdered(docs: map<string, AssetRecord>, address: string,
                        currentBestBlockNumber: int, confirmThreshold: int, isConfirmed: bool,
                        params: AggsParams)
    ensures var r := GetAggsUTXOList(docs, address, currentBestBlockNumber, confirmThreshold, isConfirmed, params);
      forall i, j :: 0 <= i < j < |r| ==> r[j].totalAssetQuantity <= r[i].totalAssetQuantity
  {
    var ranked := RankedBuckets(docs, address, ResolveWindow(currentBestBlockNumber, confirmThreshold, isConfirmed));
    var size := OrDefault(params.itemsPerPage, DefaultItemsPerPage);
    var from := OrDefault(params.page, 0) * size;
    var r := Slice(ranked, from, size);
    SliceSorted(ranked, from, size, BucketKey);
    TotalsDescending(r);
  }

  /** No two buckets share an asset type. */
  ghost predicate DistinctTypes(bs: seq<Bucket>)
  {
    forall i, j :: 0 <= i < j < |bs| ==> bs[i].assetType != bs[j].assetType
  }

  lemma SliceDistinctTypes(bs: seq<Bucket>, from: nat, size: nat)
    requires DistinctTypes(bs)
    ensures DistinctTypes(Slice(bs, from, size))
  {
    var r := Slice(bs, from, size);
    forall i, j | 0 <= i < j < |r| ensures r[i].assetType != r[j].assetType {
      assert r[i] == bs[from + i] && r[j] == bs[from + j];
    }
  }

  /** No asset type has two buckets in the ranking. */
  lemma RankedDistinctTypes(docs: map<string, AssetRecord>, address: string, window: Range)
    ensures DistinctTypes(RankedBuckets(docs, address, window))
  {
    var live := Filter(Hits(docs), LivePred(address, window));
    var ranked := RankedBuckets(docs, address, window);
    GroupDistinct(live);
    DistinctPermutation(Group(live), ranked);
    forall i, j | 0 <= i < j < |ranked| ensures ranked[i].assetType != ranked[j].assetType {
      RankedMember(docs, address, window, ranked[i]);
      RankedMember(docs, address, window, ranked[j]);
      GroupMember(live, ranked[i]);
      GroupMember(live, ranked[j]);
    }
  }

  /** No asset type has two buckets on a balance page. */
  lemma AggsListDistinctTypes(docs: map<string, AssetRecord>, address: string,
                              currentBestBlockNumber: int, confirmThreshold: int, isConfirmed: bool,
                              params: AggsParams)
    ensures var r := GetAggsUTXOList(docs, address, currentBestBlockNumber, confirmThreshold, isConfirmed, params);
      forall i, j :: 0 <= i < j < |r| ==> r[i].assetType != r[j].assetType
  {
    var window := ResolveWindow(currentBestBlockNumber, confirmThreshold, isConfirmed);
    var size := OrDefault(params.itemsPerPage, DefaultItemsPerPage);
    RankedDistinctTypes(docs, address, window);
    SliceDistinctTypes(RankedBuckets(docs, address, window), OrDefault(params.page, 0) * size, size);
  }

  /** The ranking has a bucket of a type exactly when the address holds a live in-window record of it. */
  lemma RankedBucketsComplete(docs: map<string, AssetRecord>, address: string, window: Range, assetType: string)
    ensures (exists b :: b in RankedBuckets(docs, address, window) && b.assetType == assetType)
            <==> OwnedIds(docs, address, assetType, window) != {}
  {
    var live := Filter(Hits(docs), LivePred(address, window));
    var ranked := RankedBuckets(docs, address, window);
    if exists b :: b in ranked && b.assetType == assetType {
      var b :| b in ranked && b.assetType == assetType;
      RankedMember(docs, address, window, b);
      GroupMember(live, b);
      var r :| r in live && r.asset.assetType == assetType;
      HitsMembership(docs, r);
      var id :| id in docs && docs[id] == r;
      assert id in OwnedIds(docs, address, assetType, window);
    }
    if OwnedIds(docs, address, assetType, window) != {} {
      var id :| id in OwnedIds(docs, address, assetType, window);
      HitsMembership(docs, docs[id]);
      assert docs[id] in live;
      GroupCovers(live, docs[id]);
      var b :| b in Group(live) && b.assetType == assetType;
      RankedMember(docs, address, window, b);
    }
  }

  /**
   * Consecutive balance pages tile the ranking: the ranking up to page `page` followed by
   * page `page` is the ranking up to the next page.
   */
  lemma AggsPagesTile(docs: map<string, AssetRecord>, address: string,
                      currentBestBlockNumber: int, confirmThreshold: int, isConfirmed: bool,
                      page: nat, itemsPerPage: nat)
    requires itemsPerPage > 0
    ensures var ranked := RankedBuckets(docs, address, ResolveWindow(currentBestBlockNumber, confirmThreshold, isConfirmed));
      Take(ranked, page * itemsPerPage)
        + GetAggsUTXOList(docs, address, currentBestBlockNumber, confirmThreshold, isConfirmed,
                          AggsParams(Some(page), Some(itemsPerPage)))
      == Take(ranked, page * itemsPerPage + itemsPerPage)
  {
    var ranked := RankedBuckets(docs, address, ResolveWindow(currentBestBlockNumber, confirmThreshold, isConfirmed));
    PageAtTiles(ranked, page, itemsPerPage, DefaultItemsPerPage);
  }

  /** An absent or zero page is the first page, and an absent or zero page size is 25. */
  lemma AggsFirstPageDefault(docs: map<string, AssetRecord>, address: string,
                             currentBestBlockNumber: int, confirmThreshold: int, isConfirmed: bool,
                             params: AggsParams)
    requires params.page.None? || params.page == Some(0)
    ensures var ranked := RankedBuckets(docs, address, ResolveWindow(currentBestBlockNumber, confirmThreshold, isConfirmed));
      GetAggsUTXOList(docs, address, currentBestBlockNumber, confirmThreshold, isConfirmed, params)
      == Take(ranked, OrDefault(params.itemsPerPage, DefaultItemsPerPage))
    ensures params.itemsPerPage.None? || params.itemsPerPage == Some(0) ==>
      GetAggsUTXOList(docs, address, currentBestBlockNumber, confirmThreshold, isConfirmed, params)
      == Take(RankedBuckets(docs, address, ResolveWindow(currentBestBlockNumber, confirmThreshold, isConfirmed)), 25)
  {
    var ranked := RankedBuckets(docs, address, ResolveWindow(currentBestBlockNumber, confirmThreshold, isConfirmed));
    PageAtFirst(ranked, params.page, params.itemsPerPage, DefaultItemsPerPage);
  }

  lemma NoConfirmedBuckets(docs: map<string, AssetRecord>, address: string,
                           currentBestBlockNumber: int, confirmThreshold: int)
    requires forall id :: id in docs ==> docs[id].blockNumber > currentBestBlockNumber - confirmThreshold
    ensures RankedBuckets(docs, address, ResolveWindow(currentBestBlockNumber, confirmThreshold, true)) == []
  {
    var window := ResolveWindow(currentBestBlockNumber, confirmThreshold, true);
    var ranked := RankedBuckets(docs, address, window);
    if |ranked| > 0 {
      RankedBucketsComplete(docs, address, window, ranked[0].assetType);
      assert false;
    }
  }

  /** With no confirmed block, the confirmed balance list is empty. */
  lemma ConfirmedAggsEmpty(docs: map<string, AssetRecord>, address: string,
                           currentBestBlockNumber: int, confirmThreshold: int, params: AggsParams)
    requires forall id :: id in docs ==> docs[id].blockNumber > currentBestBlockNumber - confirmThreshold
    ensures GetAggsUTXOList(docs, address, currentBestBlockNumber, confirmThreshold, true, params) == []
  {
    var window := ResolveWindow(currentBestBlockNumber, confirmThreshold, true);
    var ranked := RankedBuckets(docs, address, window);
    NoConfirmedBuckets(docs, address, currentBestBlockNumber, confirmThreshold);
    assert PageAt(ranked, params.page, params.itemsPerPage, DefaultItemsPerPage) == [];
  }

  // ---------------------------------------------------------------------------
  // getAggsUTXOByAssetType

  /** `getAggsUTXOByAssetType`: the first bucket of the records of one type, or `undefined` when there is none. */
  ghost function GetAggsUTXOByAssetType(docs: map<string, AssetRecord>, address: string, assetType: string,
                                        currentBestBlockNumber: int, confirmThreshold: int, isConfirmed: bool): (r: Option<Bucket>)
    ensures r.Some? ==> r.value.assetType == assetType && r.value.utxoQuantity > 0
  {
    var window := ResolveWindow(currentBestBlockNumber, confirmThreshold, isConfirmed);
    var recs := Filter(Hits(docs), LiveOfTypePred(address, assetType, window));
    var buckets := SortDesc(Group(recs), BucketKey);
    SingleTypeGroup(recs, assetType);
    if |buckets| == 0 then None else Some(buckets[0])
  }

  /**
   * The single-type balance is `undefined` exactly when the address holds no live in-window
   * record of the type, and otherwise that type with the records' summed amount and count.
   */
  lemma AggsByTypeMeaning(docs: map<string, AssetRecord>, address: string, assetType: string,
                          currentBestBlockNumber: int, confirmThreshold: int, isConfirmed: bool)
    ensures var window := ResolveWindow(currentBestBlockNumber, confirmThreshold, isConfirmed);
      var r := GetAggsUTXOByAssetType(docs, address, assetType, currentBestBlockNumber, confirmThreshold, isConfirmed);
      && (r.None? <==> OwnedIds(docs, address, assetType, window) == {})
      && (r.Some? ==> r.value == Bucket(assetType, SumWhere(docs, LiveOfTypePred(address, assetType, window)),
                                        |OwnedIds(docs, address, assetType, window)|))
  {
    var window := ResolveWindow(currentBestBlockNumber, confirmThreshold, isConfirmed);
    var p := LiveOfTypePred(address, assetType, window);
    var recs := Filter(Hits(docs), p);
    var ids := OwnedIds(docs, address, assetType, window);
    forall id ensures id in ids <==> id in docs && p(docs[id]) {
    }
    CountIsIdSet(docs, p, ids);
    SingleTypeGroup(recs, assetType);
  }

  /** Records that all have type `t` sort into no bucket when there are none, else into the one bucket of `t`. */
  lemma SingleTypeGroup(recs: seq<AssetRecord>, t: string)
    requires forall r :: r in recs ==> r.asset.assetType == t
    ensures var buckets := SortDesc(Group(recs), BucketKey);
      && (|buckets| == 0 <==> |recs| == 0)
      && (|buckets| > 0 ==> buckets[0] == Bucket(t, Total(recs), |recs|))
  {
    var buckets := SortDesc(Group(recs), BucketKey);
    if |recs| > 0 {
      assert recs[0].asset.assetType in Types(recs);
    }
    if |buckets| > 0 {
      var b := buckets[0];
      assert b in multiset(Group(recs));
      GroupMember(recs, b);
      forall i | 0 <= i < |recs| ensures HasType(t)(recs[i]) {
        assert recs[i] in recs;
      }
      FilterAll(recs, HasType(t));
    }
  }

  /** The single-type balance is the bucket of that type in the full ranking, when there is one. */
  lemma AggsByTypeInRanking(docs: map<string, AssetRecord>, address: string, assetType: string,
                            currentBestBlockNumber: int, confirmThreshold: int, isConfirmed: bool)
    ensures var window := ResolveWindow(currentBestBlockNumber, confirmThreshold, isConfirmed);
      var r := GetAggsUTXOByAssetType(docs, address, assetType, currentBestBlockNumber, confirmThreshold, isConfirmed);
      (r.Some? ==> r.value in RankedBuckets(docs, address, window))
      && (r.None? ==> forall b :: b in RankedBuckets(docs, address, window) ==> b.assetType != assetType)
  {
    var window := ResolveWindow(currentBestBlockNumber, confirmThreshold, isConfirmed);
    var live := Filter(Hits(docs), LivePred(address, window));
    var ranked := RankedBuckets(docs, address, window);
    AggsByTypeMeaning(docs, address, assetType, currentBestBlockNumber, confirmThreshold, isConfirmed);
    RankedBucketsComplete(docs, address, window, assetType);
    if OwnedIds(docs, address, assetType, window) != {} {
      var b :| b in ranked && b.assetType == assetType;
      RankedMember(docs, address, window, b);
      GroupMember(live, b);
      GroupOfLive(docs, address, window, assetType);
    }
  }

  // ---------------------------------------------------------------------------
  // Balances under updates

  /** A sum is the sum without the record at `k`, plus that record's amount when it matches. */
  lemma SumWhereAt(m: map<string, AssetRecord>, k: string, p: AssetRecord -> bool)
    requires k in m
    ensures SumWhere(m, p) == SumWhere(m - {k}, p) + (if p(m[k]) then m[k].asset.amount else 0)
  {
    HitsRemove(m, k);
    TotalOfExtraRecord(Hits(m), Hits(m - {k}), m[k], p);
  }

  /** Replacing the record at `k` takes its amount out of a sum and puts the new one in. */
  lemma SumWhereReplace(m: map<string, AssetRecord>, k: string, v: AssetRecord, p: AssetRecord -> bool)
    ensures SumWhere(m[k := v], p) + (if k in m && p(m[k]) then m[k].asset.amount else 0)
            == SumWhere(m, p) + (if p(v) then v.asset.amount else 0)
  {
    SumWhereAt(m[k := v], k, p);
    RemoveUpdated(m, k, v);
    if k in m {
      SumWhereAt(m, k, p);
    } else {
      RemoveAbsent(m, k);
    }
  }

  /** Removing a live output lowers its type's balance by its amount and drops it from the count. */
  lemma RemoveLowersBalance(docs: map<string, AssetRecord>, id: string, address: string, assetType: string, window: Range)
    requires id in docs && LiveOfType(docs[id], address, assetType, window)
    ensures var after := docs[id := docs[id].(isRemoved := true)];
      && SumWhere(after, LiveOfTypePred(address, assetType, window)) + docs[id].asset.amount
         == SumWhere(docs, LiveOfTypePred(address, assetType, window))
      && OwnedIds(after, address, assetType, window) == OwnedIds(docs, address, assetType, window) - {id}
  {
    SumWhereReplace(docs, id, docs[id].(isRemoved := true), LiveOfTypePred(address, assetType, window));
  }

  /** Reviving a removed output of the address inside the window raises its type's balance by its amount. */
  lemma RevivalRaisesBalance(docs: map<string, AssetRecord>, id: string, address: string, assetType: string, window: Range)
    requires id in docs && docs[id].isRemoved && LiveOfType(docs[id].(isRemoved := false), address, assetType, window)
    ensures var after := docs[id := docs[id].(isRemoved := false)];
      && SumWhere(after, LiveOfTypePred(address, assetType, window))
         == SumWhere(docs, LiveOfTypePred(address, assetType, window)) + docs[id].asset.amount
      && OwnedIds(after, address, assetType, window) == OwnedIds(docs, address, assetType, window) + {id}
  {
    SumWhereReplace(docs, id, docs[id].(isRemoved := false), LiveOfTypePred(address, assetType, window));
  }

  /** The records of an address and type that are not removed, in any block. */
  function HeldPred(address: string, assetType: string): (p: AssetRecord -> bool)
    ensures forall r :: p(r) == (r.address == address && !r.isRemoved && r.asset.assetType == assetType)
  {
    (r: AssetRecord) => r.address == address && !r.isRemoved && r.asset.assetType == assetType
  }

  /** The confirmed and the unconfirmed balance of a type add up to all that the address holds of it. */
  lemma BalanceSplitsByWindow(docs: map<string, AssetRecord>, address: string, assetType: string,
                              currentBestBlockNumber: int, confirmThreshold: int)
    ensures SumWhere(docs, LiveOfTypePred(address, assetType, ResolveWindow(currentBestBlockNumber, confirmThreshold, true)))
            + SumWhere(docs, LiveOfTypePred(address, assetType, ResolveWindow(currentBestBlockNumber, confirmThreshold, false)))
            == SumWhere(docs, HeldPred(address, assetType))
  {
    var confirmed := LiveOfTypePred(address, assetType, ResolveWindow(currentBestBlockNumber, confirmThreshold, true));
    var unconfirmed := LiveOfTypePred(address, assetType, ResolveWindow(currentBestBlockNumber, confirmThreshold, false));
    forall x ensures HeldPred(address, assetType)(x) == (confirmed(x) || unconfirmed(x)) && !(confirmed(x) && unconfirmed(x)) {
      WindowsPartition(x.blockNumber, currentBestBlockNumber, confirmThreshold);
    }
    TotalSplit(Hits(docs), confirmed, unconfirmed, HeldPred(address, assetType));
  }

  /** The ids of the three example outputs: one per transaction, output 0 each. */
  const ExampleIds: seq<string> := [AssetId("addr", "T", "tx1", 0), AssetId("addr", "T", "tx2", 0), AssetId("addr", "T", "tx3", 0)]

  /**
   * Two live outputs of 7 and 3 and a removed output of 100, all of address `addr` and
   * type `T`, each stored under its own id.
   */
  function ExampleDocs(): (docs: map<string, AssetRecord>)
    ensures StoredAtOwnId(docs)
  {
    map[ExampleIds[0] := AssetRecord("addr", Asset("T", "tx1", 0, 7), 1, 0, 0, false),
        ExampleIds[1] := AssetRecord("addr", Asset("T", "tx2", 0, 3), 2, 0, 0, false),
        ExampleIds[2] := AssetRecord("addr", Asset("T", "tx3", 0, 100), 3, 0, 0, true)]
  }

  /** The three example ids differ: they differ in the transaction hash. */
  lemma ExampleIdsDistinct()
    ensures ExampleIds[0] != ExampleIds[1] && ExampleIds[0] != ExampleIds[2] && ExampleIds[1] != ExampleIds[2]
  {
    assert DecimalString(0) == "0";
    assert ExampleIds[0] == "addr-T-tx1-0" && ExampleIds[1] == "addr-T-tx2-0" && ExampleIds[2] == "addr-T-tx3-0";
    assert ExampleIds[0][9] != ExampleIds[1][9] && ExampleIds[0][9] != ExampleIds[2][9] && ExampleIds[1][9] != ExampleIds[2][9];
  }

  /** The sum over a table of three records is the sum of the amounts of those that match. */
  lemma SumWhereOfThree(a: string, x: AssetRecord, b: string, y: AssetRecord, c: string, z: AssetRecord,
                        p: AssetRecord -> bool)
    requires a != b && a != c && b != c
    ensures SumWhere(map[a := x, b := y, c := z], p)
            == (if p(x) then x.asset.amount else 0) + (if p(y) then y.asset.amount else 0)
               + (if p(z) then z.asset.amount else 0)
  {
    var one := map[a := x];
    var two := one[b := y];
    assert SumWhere(map[], p) == 0;
    SumWhereReplace(map[], a, x, p);
    SumWhereReplace(one, b, y, p);
    SumWhereReplace(two, c, z, p);
  }

  lemma ExampleSum()
    ensures SumWhere(ExampleDocs(), LiveOfTypePred("addr", "T", AtMost(10))) == 10
  {
    var p := LiveOfTypePred("addr", "T", AtMost(10));
    var first := AssetRecord("addr", Asset("T", "tx1", 0, 7), 1, 0, 0, false);
    var second := AssetRecord("addr", Asset("T", "tx2", 0, 3), 2, 0, 0, false);
    var removed := AssetRecord("addr", Asset("T", "tx3", 0, 100), 3, 0, 0, true);
    assert p(first) && p(second) && !p(removed);
    ExampleIdsDistinct();
    SumWhereOfThree(ExampleIds[0], first, ExampleIds[1], second, ExampleIds[2], removed, p);
  }

  lemma ExampleOwned()
    ensures |OwnedIds(ExampleDocs(), "addr", "T", AtMost(10))| == 2
  {
    ExampleIdsDistinct();
    assert OwnedIds(ExampleDocs(), "addr", "T", AtMost(10)) == {ExampleIds[0], ExampleIds[1]};
  }

  /** In the example table the single-type balance of `T` with 10 confirmed blocks is 10 over 2 outputs. */
  lemma AggsByTypeExample()
    ensures GetAggsUTXOByAssetType(ExampleDocs(), "addr", "T", 10, 0, true) == Some(Bucket("T", 10, 2))
  {
    AggsByTypeMeaning(ExampleDocs(), "addr", "T", 10, 0, true);
    ExampleSum();
    ExampleOwned();
  }
}
