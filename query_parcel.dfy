/**
 * The parcel index: one document per parcel, stored under the parcel's hash, hidden from
 * every query once retracted, listed by cursor or by address page, and counted.
 */
module QueryParcel {
  import opened Common
  import opened Sequences
  import opened SortOrder
  import opened Sorting
  import opened Documents
  import opened Search

  /** The fields of a parcel's action that the queries use. */
  datatype Action = Action(receiver: Option<string>)

  /** A document of the `parcel` index. */
  datatype Parcel = Parcel(
    hash: string,
    signer: string,
    action: Action,
    blockNumber: int,
    parcelIndex: int,
    isRetracted: bool)

  /** A partial document for an update: the fields it sets. */
  datatype ParcelPatch = ParcelPatch(
    hash: Option<string>,
    signer: Option<string>,
    action: Option<Action>,
    blockNumber: Option<int>,
    parcelIndex: Option<int>,
    isRetracted: Option<bool>)

  /** The optional paging parameters of the parcel listing. */
  datatype ParcelsParams = ParcelsParams(
    lastBlockNumber: Option<int>,
    lastParcelIndex: Option<int>,
    itemsPerPage: Option<nat>)

  /** The optional paging parameters of the parcels of an address. */
  datatype AddressParams = AddressParams(page: Option<nat>, itemsPerPage: Option<nat>)

  const DefaultItemsPerPage: nat := 25
  const DefaultAddressItemsPerPage: nat := 6

  // ---------------------------------------------------------------------------
  // Partial documents

  /** A field of a merged document: the patch's value when it sets one, else the stored one. */
  function PatchField<T>(field: Option<T>, current: T): T
  {
    if field.Some? then field.value else current
  }

  /** A partial update merges the fields the patch sets into the stored document. */
  function Apply(p: Parcel, patch: ParcelPatch): (r: Parcel)
    ensures patch == ParcelPatch(None, None, None, None, None, None) ==> r == p
  {
    Parcel(PatchField(patch.hash, p.hash), PatchField(patch.signer, p.signer), PatchField(patch.action, p.action),
           PatchField(patch.blockNumber, p.blockNumber), PatchField(patch.parcelIndex, p.parcelIndex),
           PatchField(patch.isRetracted, p.isRetracted))
  }

  /** The partial document of `retractParcel`. */
  const RetractPatch := ParcelPatch(None, None, None, None, None, Some(true))

  /** Retracting changes the retraction flag and nothing else. */
  lemma RetractChangesOnlyFlag(p: Parcel)
    ensures Apply(p, RetractPatch) == p.(isRetracted := true)
    ensures Apply(p, RetractPatch).hash == p.hash
  {
  }

  /** Applying the same partial document twice is the same as applying it once. */
  lemma ApplyIdempotent(p: Parcel, patch: ParcelPatch)
    ensures Apply(Apply(p, patch), patch) == Apply(p, patch)
  {
  }

  /** Every stored parcel sits under its own hash. */
  ghost predicate KeyedByHash(docs: map<string, Parcel>)
  {
    forall h :: h in docs ==> docs[h].hash == h
  }

  // ---------------------------------------------------------------------------
  // The table and its writes

  class ParcelIndex {
    var docs: map<string, Parcel>

    ghost predicate Valid()
      reads this
    {
      KeyedByHash(docs)
    }

    constructor()
      ensures Valid() && docs == map[]
    {
      docs := map[];
    }

    /** `indexParcel`: the whole document replaces whatever is stored under its hash. */
    method IndexParcel(parcel: Parcel)
      modifies this
      ensures docs == old(docs)[parcel.hash := parcel]
      ensures old(Valid()) ==> Valid()
    {
      docs := docs[parcel.hash := parcel];
    }

    /**
     * `updateParcel`: merges a partial document into the parcel stored under `hash`; the
     * update fails, changing nothing, when no such parcel exists.
     */
    method UpdateParcel(hash: string, patch: ParcelPatch) returns (outcome: Outcome)
      modifies this
      ensures outcome == Updated <==> hash in old(docs)
      ensures docs == if hash in old(docs) then old(docs)[hash := Apply(old(docs)[hash], patch)] else old(docs)
      ensures old(Valid()) && (patch.hash.None? || patch.hash == Some(hash)) ==> Valid()
    {
      if hash in docs {
        docs := docs[hash := Apply(docs[hash], patch)];
        outcome := Updated;
      } else {
        outcome := NotFound;
      }
    }

    /**
     * `retractParcel`: sets only `isRetracted` on the parcel stored under `hash`. The
     * document stays in the table, yet `getParcel` no longer finds it.
     */
    method RetractParcel(hash: string) returns (outcome: Outcome)
      modifies this
      ensures outcome == Updated <==> hash in old(docs)
      ensures docs == if hash in old(docs) then old(docs)[hash := old(docs)[hash].(isRetracted := true)] else old(docs)
      ensures old(Valid()) ==> Valid() && GetParcel(docs, hash) == None
    {
      if hash in docs {
        RetractChangesOnlyFlag(docs[hash]);
      }
      outcome := UpdateParcel(hash, RetractPatch);
      if Valid() {
        GetParcelLookup(docs, hash);
      }
    }
  }

  // ---------------------------------------------------------------------------
  // Query building blocks

  /** The sort of every parcel query: block number, then parcel index. */
  function ParcelKey(p: Parcel): seq<int>
  {
    [p.blockNumber, p.parcelIndex]
  }

  /** Parcels that are not retracted. */
  function VisiblePred(): (q: Parcel -> bool)
    ensures forall p :: q(p) == !p.isRetracted
  {
    (p: Parcel) => !p.isRetracted
  }

  /** The filter of `getParcel`: not retracted, with hash `hash`. */
  function WithHashPred(hash: string): (q: Parcel -> bool)
    ensures forall p :: q(p) == (!p.isRetracted && p.hash == hash)
  {
    (p: Parcel) => !p.isRetracted && p.hash == hash
  }

  /** The filter of the address queries: not retracted, signed by or paying to `address`. */
  function ByAddressPred(address: string): (q: Parcel -> bool)
    ensures forall p :: q(p) == (!p.isRetracted && (p.signer == address || p.action.receiver == Some(address)))
  {
    (p: Parcel) => !p.isRetracted && (p.signer == address || p.action.receiver == Some(address))
  }

  // ---------------------------------------------------------------------------
  // getParcel

  /** `getParcel`: the top match of the hash filter, or `null` when the match count is 0. */
  ghost function GetParcel(docs: map<string, Parcel>, hash: string): (r: Option<Parcel>)
    ensures r.Some? ==> r.value.hash == hash && !r.value.isRetracted
  {
    var q := WithHashPred(hash);
    if |Filter(Hits(docs), q)| == 0 then None
    else
      var page := SearchFrom(Hits(docs), q, ParcelKey, 0, 1);
      RankedMembership(Hits(docs), q, ParcelKey, page[0]);
      Some(page[0])
  }

  /**
   * `getParcel` returns only a stored, non-retracted parcel with that hash, and returns
   * `null` exactly when there is none.
   */
  lemma GetParcelMeaning(docs: map<string, Parcel>, hash: string)
    ensures var r := GetParcel(docs, hash);
      && (r.Some? ==> exists id :: id in docs && docs[id] == r.value && r.value.hash == hash && !r.value.isRetracted)
      && (r.None? <==> forall id :: id in docs ==> docs[id].hash != hash || docs[id].isRetracted)
  {
    var q := WithHashPred(hash);
    var r := GetParcel(docs, hash);
    if r.Some? {
      var page := SearchFrom(Hits(docs), q, ParcelKey, 0, 1);
      RankedMembership(Hits(docs), q, ParcelKey, page[0]);
      HitsMembership(docs, page[0]);
    }
    if exists id :: id in docs && docs[id].hash == hash && !docs[id].isRetracted {
      var id :| id in docs && docs[id].hash == hash && !docs[id].isRetracted;
      HitsMembership(docs, docs[id]);
      assert docs[id] in Filter(Hits(docs), q);
    }
  }

  /** On a table keyed by hash, `getParcel` is a lookup that hides retracted parcels. */
  lemma GetParcelLookup(docs: map<string, Parcel>, hash: string)
    requires KeyedByHash(docs)
    ensures GetParcel(docs, hash) == if hash in docs && !docs[hash].isRetracted then Some(docs[hash]) else None
  {
    GetParcelMeaning(docs, hash);
  }

  /**
   * After `indexParcel`, `getParcel` of its hash returns the document just written unless
   * it is retracted, and every other hash reads as before.
   */
  lemma IndexThenGet(docs: map<string, Parcel>, parcel: Parcel, hash: string)
    requires KeyedByHash(docs)
    ensures GetParcel(docs[parcel.hash := parcel], parcel.hash) == if parcel.isRetracted then None else Some(parcel)
    ensures hash != parcel.hash ==> GetParcel(docs[parcel.hash := parcel], hash) == GetParcel(docs, hash)
  {
    var after := docs[parcel.hash := parcel];
    assert KeyedByHash(after);
    GetParcelLookup(after, parcel.hash);
    GetParcelLookup(after, hash);
    GetParcelLookup(docs, hash);
  }

  // ---------------------------------------------------------------------------
  // getParcels

  /** The `search_after` tuple of the parcel listing, with the `||` defaults. */
  function ParcelCursor(params: ParcelsParams): (c: seq<Bound>)
    ensures |c| == 2
  {
    [CursorField(params.lastBlockNumber), CursorField(params.lastParcelIndex)]
  }

  /** `getParcels`. */
  ghost function GetParcels(docs: map<string, Parcel>, params: ParcelsParams): (r: seq<Parcel>)
    ensures |r| <= OrDefault(params.itemsPerPage, DefaultItemsPerPage)
  {
    SearchAfter(Hits(docs), VisiblePred(), ParcelKey, ParcelCursor(params),
                OrDefault(params.itemsPerPage, DefaultItemsPerPage))
  }

  /** The hashes of the parcels the listing may return: not retracted, strictly below the cursor. */
  ghost function ListableHashes(docs: map<string, Parcel>, cursor: seq<Bound>): set<string>
  {
    set h | h in docs && !docs[h].isRetracted && BelowCursor(ParcelKey(docs[h]), cursor)
  }

  /**
   * The listing returns stored, non-retracted parcels strictly below the cursor, in
   * non-increasing `(blockNumber, parcelIndex)` order.
   */
  lemma ParcelsSelect(docs: map<string, Parcel>, params: ParcelsParams)
    ensures var r := GetParcels(docs, params);
      && (forall i :: 0 <= i < |r| ==>
            (exists h :: h in docs && docs[h] == r[i]) && !r[i].isRetracted
            && BelowCursor(ParcelKey(r[i]), ParcelCursor(params)))
      && forall i, j :: 0 <= i < j < |r| ==> LexLe(ParcelKey(r[j]), ParcelKey(r[i]))
  {
    var r := GetParcels(docs, params);
    forall i | 0 <= i < |r| ensures exists h :: h in docs && docs[h] == r[i] {
      assert r[i] in r;
      HitsMembership(docs, r[i]);
    }
  }

  /** The listing is as long as the page size (25 when absent or 0) and the listable parcels allow. */
  lemma ParcelsCount(docs: map<string, Parcel>, params: ParcelsParams)
    ensures |GetParcels(docs, params)|
            == Min(OrDefault(params.itemsPerPage, DefaultItemsPerPage), |ListableHashes(docs, ParcelCursor(params))|)
  {
    var cursor := ParcelCursor(params);
    var both := And(VisiblePred(), BelowPred(ParcelKey, cursor));
    var hashes := ListableHashes(docs, cursor);
    forall h ensures h in hashes <==> h in docs && both(docs[h]) {
    }
    CountIsIdSet(docs, both, hashes);
  }

  /** A listable parcel that is not listed sorts at or below every listed parcel. */
  lemma ParcelsTop(docs: map<string, Parcel>, params: ParcelsParams, hash: string)
    requires hash in docs && !docs[hash].isRetracted
    requires BelowCursor(ParcelKey(docs[hash]), ParcelCursor(params))
    requires docs[hash] !in GetParcels(docs, params)
    ensures var r := GetParcels(docs, params);
      forall i :: 0 <= i < |r| ==> LexLe(ParcelKey(docs[hash]), ParcelKey(r[i]))
  {
    HitsMembership(docs, docs[hash]);
  }

  /** The ranking of the listing: every non-retracted parcel, largest key first. */
  ghost function ParcelRanking(docs: map<string, Parcel>): seq<Parcel>
  {
    Ranked(Hits(docs), VisiblePred(), ParcelKey)
  }

  /** Without a cursor (fields absent or 0) the listing is the top of the ranking. */
  lemma ParcelsFirstPage(docs: map<string, Parcel>, params: ParcelsParams)
    requires params.lastBlockNumber.None? || params.lastBlockNumber == Some(0)
    requires params.lastParcelIndex.None? || params.lastParcelIndex == Some(0)
    ensures GetParcels(docs, params) == Take(ParcelRanking(docs), OrDefault(params.itemsPerPage, DefaultItemsPerPage))
  {
    assert ParcelCursor(params) == Top(2);
    FirstPage(Hits(docs), VisiblePred(), ParcelKey, 2, OrDefault(params.itemsPerPage, DefaultItemsPerPage));
  }

  /** No two distinct non-retracted parcels share a position `(blockNumber, parcelIndex)`. */
  ghost predicate DistinctPositions(docs: map<string, Parcel>)
  {
    forall g, h :: g in docs && h in docs && g != h && !docs[g].isRetracted && !docs[h].isRetracted
      ==> ParcelKey(docs[g]) != ParcelKey(docs[h])
  }

  /** On a table keyed by hash, no two ids hold equal documents. */
  lemma KeyedDocsDiffer(docs: map<string, Parcel>)
    requires KeyedByHash(docs)
    ensures forall g, h :: g in docs && h in docs && g != h ==> docs[g] != docs[h]
  {
  }

  /** On a table keyed by hash, a cursor page holds no parcel twice. */
  lemma ParcelsDistinct(docs: map<string, Parcel>, params: ParcelsParams)
    requires KeyedByHash(docs)
    ensures Distinct(GetParcels(docs, params))
  {
    KeyedDocsDiffer(docs);
    HitsDistinct(docs, VisiblePred());
    SearchAfterDistinct(Hits(docs), VisiblePred(), ParcelKey, ParcelCursor(params),
                        OrDefault(params.itemsPerPage, DefaultItemsPerPage));
  }

  /** With distinct positions, the ranking is strictly decreasing. */
  lemma RankingStrict(docs: map<string, Parcel>)
    requires DistinctPositions(docs)
    ensures StrictlyDesc(ParcelRanking(docs), ParcelKey)
  {
    var ranked := ParcelRanking(docs);
    var visible := Filter(Hits(docs), VisiblePred());
    HitsDistinct(docs, VisiblePred());
    DistinctPermutation(visible, ranked);
    forall i, j | 0 <= i < j < |ranked| ensures LexLess(ParcelKey(ranked[j]), ParcelKey(ranked[i])) {
      RankedMembership(Hits(docs), VisiblePred(), ParcelKey, ranked[i]);
      RankedMembership(Hits(docs), VisiblePred(), ParcelKey, ranked[j]);
      HitsMembership(docs, ranked[i]);
      HitsMembership(docs, ranked[j]);
    }
  }

  /** The parameters a client sends to continue after parcel `last`: its position as the cursor. */
  function ContinueAfter(last: Parcel, itemsPerPage: Option<nat>): (params: ParcelsParams)
    ensures ParcelCursor(params) == CursorOf(ParcelKey(last))
  {
    ParcelsParams(Some(last.blockNumber), Some(last.parcelIndex), itemsPerPage)
  }

  /**
   * With distinct positions, cursor paging is exhaustive: the page requested with the
   * position of the `i`-th ranked parcel, both fields nonzero, continues right after it.
   */
  lemma ParcelsNextPage(docs: map<string, Parcel>, i: nat, itemsPerPage: Option<nat>)
    requires DistinctPositions(docs)
    requires i < |ParcelRanking(docs)|
    requires ParcelRanking(docs)[i].blockNumber != 0 && ParcelRanking(docs)[i].parcelIndex != 0
    ensures var last := ParcelRanking(docs)[i];
      GetParcels(docs, ContinueAfter(last, itemsPerPage))
      == Take(ParcelRanking(docs)[i + 1..], OrDefault(itemsPerPage, DefaultItemsPerPage))
  {
    var last := ParcelRanking(docs)[i];
    var size := OrDefault(itemsPerPage, DefaultItemsPerPage);
    RankingStrict(docs);
    assert KeyWidth(ParcelKey, 2);
    assert ParcelKey(last)[0] != 0 && ParcelKey(last)[1] != 0;
    NextPage(Hits(docs), VisiblePred(), ParcelKey, 2, i, size);
  }

  /**
   * The `||` quirk: after a page that ends on the first parcel of its block (parcel index 0),
   * the next page starts at or above that parcel instead of moving past it.
   */
  lemma ParcelsRestartAfterIndexZero(docs: map<string, Parcel>, hash: string, itemsPerPage: Option<nat>)
    requires hash in docs && !docs[hash].isRetracted && docs[hash].parcelIndex == 0
    ensures var last := docs[hash];
      var next := GetParcels(docs, ContinueAfter(last, itemsPerPage));
      |next| > 0 && LexLe(ParcelKey(last), ParcelKey(next[0]))
  {
    var last := docs[hash];
    HitsMembership(docs, last);
    assert ParcelKey(last)[1] == 0;
    NoProgressAfterZeroField(Hits(docs), VisiblePred(), ParcelKey, last, OrDefault(itemsPerPage, DefaultItemsPerPage));
  }

  // ---------------------------------------------------------------------------
  // Counts

  /** `getTotalParcelCount`. */
  ghost function GetTotalParcelCount(docs: map<string, Parcel>): (count: nat)
    ensures count <= |docs|
  {
    CountWhere(docs, VisiblePred())
  }

  /** `getTotalParcelCountByPlatformAddress`: never more than the total count. */
  ghost function GetTotalParcelCountByPlatformAddress(docs: map<string, Parcel>, address: string): (count: nat)
    ensures count <= GetTotalParcelCount(docs)
  {
    FilterWeaker(Hits(docs), ByAddressPred(address), VisiblePred());
    CountWhere(docs, ByAddressPred(address))
  }

  /** The total count is the number of non-retracted parcels, and the length of the full listing. */
  lemma TotalCountMeaning(docs: map<string, Parcel>)
    ensures GetTotalParcelCount(docs) == |set h | h in docs && !docs[h].isRetracted|
    ensures GetTotalParcelCount(docs) == |ParcelRanking(docs)|
  {
    var hashes := set h | h in docs && !docs[h].isRetracted;
    forall h ensures h in hashes <==> h in docs && VisiblePred()(docs[h]) {
    }
    CountIsIdSet(docs, VisiblePred(), hashes);
  }

  // ---------------------------------------------------------------------------
  // getParcelsByPlatformAddress

  /** All parcels of an address, largest key first. */
  ghost function AddressRanking(docs: map<string, Parcel>, address: string): seq<Parcel>
  {
    Ranked(Hits(docs), ByAddressPred(address), ParcelKey)
  }

  /** The 0-based offset of a 1-based page; page 0 counts as page 1. */
  function PageOffset(page: Option<nat>, size: nat): nat
  {
    (OrDefault(page, 1) - 1) * size
  }

  lemma PageOffsetOfPage(page: nat, size: nat)
    requires page > 0
    ensures PageOffset(Some(page), size) == (page - 1) * size
  {
  }

  /** `getParcelsByPlatformAddress`. */
  ghost function GetParcelsByPlatformAddress(docs: map<string, Parcel>, address: string, params: AddressParams): (r: seq<Parcel>)
    ensures |r| <= OrDefault(params.itemsPerPage, DefaultAddressItemsPerPage)
  {
    var size := OrDefault(params.itemsPerPage, DefaultAddressItemsPerPage);
    SearchFrom(Hits(docs), ByAddressPred(address), ParcelKey, PageOffset(params.page, size), size)
  }

  /** The address count is the number of parcels of the address, and the length of its ranking. */
  lemma AddressCountMeaning(docs: map<string, Parcel>, address: string)
    ensures GetTotalParcelCountByPlatformAddress(docs, address)
            == |set h | h in docs && !docs[h].isRetracted
                        && (docs[h].signer == address || docs[h].action.receiver == Some(address))|
    ensures GetTotalParcelCountByPlatformAddress(docs, address) == |AddressRanking(docs, address)|
  {
    var hashes := set h | h in docs && !docs[h].isRetracted
                          && (docs[h].signer == address || docs[h].action.receiver == Some(address));
    forall h ensures h in hashes <==> h in docs && ByAddressPred(address)(docs[h]) {
    }
    CountIsIdSet(docs, ByAddressPred(address), hashes);
  }

  /** On a table keyed by hash, a page of an address holds no parcel twice. */
  lemma AddressPageDistinct(docs: map<string, Parcel>, address: string, params: AddressParams)
    requires KeyedByHash(docs)
    ensures Distinct(GetParcelsByPlatformAddress(docs, address, params))
  {
    var size := OrDefault(params.itemsPerPage, DefaultAddressItemsPerPage);
    KeyedDocsDiffer(docs);
    HitsDistinct(docs, ByAddressPred(address));
    SearchFromDistinct(Hits(docs), ByAddressPred(address), ParcelKey, PageOffset(params.page, size), size);
  }

  /**
   * A page of an address holds non-retracted parcels signed by or paying to the address,
   * in non-increasing key order, at most `itemsPerPage` of them (6 when absent or 0).
   */
  lemma AddressPageSelect(docs: map<string, Parcel>, address: string, params: AddressParams)
    ensures var r := GetParcelsByPlatformAddress(docs, address, params);
      && |r| <= OrDefault(params.itemsPerPage, DefaultAddressItemsPerPage)
      && (forall i :: 0 <= i < |r| ==>
            (exists h :: h in docs && docs[h] == r[i]) && !r[i].isRetracted
            && (r[i].signer == address || r[i].action.receiver == Some(address)))
      && forall i, j :: 0 <= i < j < |r| ==> LexLe(ParcelKey(r[j]), ParcelKey(r[i]))
  {
    var size := OrDefault(params.itemsPerPage, DefaultAddressItemsPerPage);
    var from := PageOffset(params.page, size);
    var ranked := AddressRanking(docs, address);
    var r := GetParcelsByPlatformAddress(docs, address, params);
    SliceMembers(ranked, from, size);
    SliceSorted(ranked, from, size, ParcelKey);
    forall i | 0 <= i < |r| ensures (exists h :: h in docs && docs[h] == r[i]) {
      assert r[i] in ranked;
      RankedMembership(Hits(docs), ByAddressPred(address), ParcelKey, r[i]);
      HitsMembership(docs, r[i]);
    }
    forall i | 0 <= i < |r|
      ensures !r[i].isRetracted && (r[i].signer == address || r[i].action.receiver == Some(address))
    {
      assert r[i] in ranked;
      RankedMembership(Hits(docs), ByAddressPred(address), ParcelKey, r[i]);
    }
  }

  /** A missing page, page 0 and page 1 are the same page. */
  lemma AddressPageZeroIsOne(docs: map<string, Parcel>, address: string, itemsPerPage: Option<nat>)
    ensures GetParcelsByPlatformAddress(docs, address, AddressParams(None, itemsPerPage))
            == GetParcelsByPlatformAddress(docs, address, AddressParams(Some(0), itemsPerPage))
            == GetParcelsByPlatformAddress(docs, address, AddressParams(Some(1), itemsPerPage))
            == Take(AddressRanking(docs, address), OrDefault(itemsPerPage, DefaultAddressItemsPerPage))
  {
    var size := OrDefault(itemsPerPage, DefaultAddressItemsPerPage);
    assert PageOffset(None, size) == 0 && PageOffset(Some(0), size) == 0 && PageOffset(Some(1), size) == 0;
    var ranked := AddressRanking(docs, address);
    assert Slice(ranked, 0, size) == Take(ranked, size);
  }

  /** Pages 1 to `pages` of an address, in order, with `itemsPerPage` parcels each. */
  ghost function PagesUpTo(docs: map<string, Parcel>, address: string, itemsPerPage: nat, pages: nat): seq<Parcel>
  {
    if pages == 0 then []
    else PagesUpTo(docs, address, itemsPerPage, pages - 1)
         + GetParcelsByPlatformAddress(docs, address, AddressParams(Some(pages), Some(itemsPerPage)))
  }

  lemma {:induction false} PagesAreSlices(docs: map<string, Parcel>, address: string, itemsPerPage: nat, pages: nat)
    requires itemsPerPage > 0
    ensures PagesUpTo(docs, address, itemsPerPage, pages) == PagesOf(AddressRanking(docs, address), itemsPerPage, pages)
  {
    if pages > 0 {
      PagesAreSlices(docs, address, itemsPerPage, pages - 1);
      PageOffsetOfPage(pages, itemsPerPage);
    }
  }

  /** Pages 1 to `pages` concatenate to the first `pages * itemsPerPage` parcels of the ranking. */
  lemma PagesConcatenate(docs: map<string, Parcel>, address: string, itemsPerPage: nat, pages: nat)
    requires itemsPerPage > 0
    ensures PagesUpTo(docs, address, itemsPerPage, pages) == Take(AddressRanking(docs, address), pages * itemsPerPage)
  {
    PagesAreSlices(docs, address, itemsPerPage, pages);
    PagesOfPrefix(AddressRanking(docs, address), itemsPerPage, pages);
  }

  /**
   * Pages 1 to `ceil(count / itemsPerPage)`, with `count` the address count, reproduce the
   * whole ranking of the address.
   */
  lemma AllPagesReproduceList(docs: map<string, Parcel>, address: string, itemsPerPage: nat)
    requires itemsPerPage > 0
    ensures var count := GetTotalParcelCountByPlatformAddress(docs, address);
      PagesUpTo(docs, address, itemsPerPage, CeilDiv(count, itemsPerPage)) == AddressRanking(docs, address)
  {
    var ranked := AddressRanking(docs, address);
    AddressCountMeaning(docs, address);
    PagesAreSlices(docs, address, itemsPerPage, CeilDiv(|ranked|, itemsPerPage));
    PagesOfCeil(ranked, itemsPerPage);
  }
}
