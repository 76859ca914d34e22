# codechain-indexer: the asset and parcel indices

This project models the indexing and query core of codechain-indexer's two ElasticSearch
action classes, `QueryAsset` and `QueryParcel`, and proves properties of that model in Dafny.

- **The asset index.** It holds one document per transaction output. Each document sits
  under the id `address-assetType-transactionHash-outputIndex`.
  - Outputs are written by `indexAsset`, an upsert that marks the output live.
  - `removeAsset` and `revivalAsset` soft-delete and restore an output through its
    `isRemoved` flag.
  - Queries pick a confirmation window, either confirmed or unconfirmed, from the best
    block and a threshold.
    - `getUTXOListByAssetType` lists the live outputs of an address and an asset type,
      newest first, paged by a `search_after` cursor on
      `(blockNumber, parcelIndex, transactionIndex)`.
    - `getAggsUTXOList` groups the live outputs of an address by asset type. Each bucket
      holds a type's summed amount and its number of outputs. Buckets are sorted by sum,
      largest first, and cut into 0-based pages.
    - `getAggsUTXOByAssetType` is the same aggregation for one type. It answers
      `undefined` when the address holds no live output of that type in the window.
- **The parcel index.** It holds one document per parcel under the parcel's hash.
  - `indexParcel` replaces a document whole.
  - `updateParcel` merges a partial document into an existing one, and `retractParcel`
    uses it to set `isRetracted`.
  - Every query hides retracted parcels.
    - `getParcel` looks a parcel up by hash.
    - `getParcels` pages by cursor on `(blockNumber, parcelIndex)`.
    - `getParcelsByPlatformAddress` pages by offset, with 1-based pages, over the parcels
      an address signed or received.
    - Two count queries count over the same filters.

The model follows the source's form.

- **Tables.** Each index is a class holding a `map` from document id to document. The
  writes are methods that update that map.
- **Queries.** Each query is a function of a snapshot of the map, built from filter, sort,
  `search_after`, slice and group-sum.
- **Enumeration order.** The store returns the documents of a map in an order fixed by
  choice (`Documents.Hits`). Within one snapshot of a table, the order among documents with
  equal sort keys is left unconstrained. It is, however, the same for every query of that
  snapshot (see "Left out").
- **Defaults.** The `||` defaults of the request bodies are modelled exactly.
  - `Common.OrDefault` selects the default page size or page number.
  - `SortOrder.CursorField` selects the `Number.MAX_VALUE` cursor sentinel.
  - In both, a field that is absent and a field equal to 0 select the default. That is why
    continuing after a record with a 0 key field can return records again (see the
    `UtxoListRestartsAfterZero` and `ParcelsRestartAfterIndexZero` lemmas).
  - The opposite happens when no field is 0. `search_after` is strict, so the next page
    starts strictly below the last key. All outputs of one transaction share
    `(blockNumber, parcelIndex, transactionIndex)`. So when a page ends partway through a
    transaction's outputs, the next page skips the rest of them
    (`UtxoListSkipsSameTransaction`). A later page can return them again only when a later
    cursor re-admits their key through a 0 field. `Search.NextPage` shows that nothing is
    skipped when all keys are distinct.

Files:

| File | Contents |
|---|---|
| `common.dfy` | `Option`, `Outcome`, `Min`, `OrDefault` |
| `sequences.dfy` | filter, take and slice on sequences, with their lemmas |
| `ordering.dfy` | lexicographic order, and cursor bounds with `Number.MAX_VALUE` as `Max` |
| `sorting.dfy` | the descending sort on key tuples |
| `documents.dfy` | a keyed document table, its enumeration and its `count` |
| `search.dfy` | the store's `sort` + `search_after` + `size` search and its `sort` + `from` + `size` search |
| `confirmation.dfy` | the confirmation window |
| `query_asset.dfy` | the asset index |
| `query_parcel.dfy` | the parcel index |

## Model

| member | source | states |
|---|---|---|
| SortOrder.BelowExact | src/es/actions/QueryAsset.ts:54-58 | a key comes after a cursor with no `MAX_VALUE` field exactly when it is lexicographically strictly below the cursor tuple |
| SortOrder.CursorOfNonzero | src/es/actions/QueryAsset.ts:55-57 | built from a key with no zero field, the cursor repeats that key exactly |
| SortOrder.CursorReadmits | src/es/actions/QueryAsset.ts:55-57 | the cursor built from a record's key lets that same key through again exactly when one of its fields is 0 |
| SortOrder.BelowMonotone | src/es/actions/QueryAsset.ts:54-58 | every key at or below a key that comes after the cursor also comes after it |
| SortOrder.BelowTop | src/es/actions/QueryAsset.ts:55-57 | every key comes after the all-`MAX_VALUE` cursor of the first page |
| Sorting.SortDesc | src/es/actions/QueryAsset.ts:48-52 | the descending sort returns a permutation of its input whose keys never increase |
| Sorting.InsertSorted | src/es/actions/QueryAsset.ts:48-52 | inserting one document into a sorted result keeps it sorted |
| Sorting.FilterSorted | src/es/actions/QueryAsset.ts:48-58 | dropping the documents before the cursor keeps a sorted result sorted |
| Sorting.SliceSorted | src/es/actions/QueryAsset.ts:183-194 | a `from`/`size` window of a sorted result is sorted |
| Documents.HitsMembership | src/es/actions/QueryParcel.ts:104-110 | a document appears in the search hits exactly when some id stores it |
| Documents.HitsUpdate | src/es/actions/QueryAsset.ts:332-347 | after storing a document under an id, the hits are the other ids' documents plus the new one, as a multiset |
| Documents.CountIsIds | src/es/actions/QueryParcel.ts:136-142 | the store's `count` of a filter is the number of ids whose document matches it |
| Documents.CountIsIdSet | src/es/actions/QueryParcel.ts:136-142 | the store's `count` equals the size of any set holding exactly the matching ids |
| Documents.HitsDistinct | src/es/actions/QueryParcel.ts:34-47 | when no two matching ids hold equal documents, no document is returned twice |
| Search.SearchAfter | src/es/actions/QueryAsset.ts:48-58 | a `search_after` page returns only matches after the cursor, in non-increasing key order, at most `size` of them, and as many as `size` and the matches allow; every match it leaves out sorts at or below everything it returns |
| Search.SearchAfterFacts | src/es/actions/QueryAsset.ts:48-58 | the matches after a cursor, taken from the ranking, are sorted and are exactly the matches whose key comes after the cursor |
| Search.Ranked | src/es/actions/QueryAsset.ts:48-52 | the ranking holds exactly the matches of the query, as a multiset, sorted by non-increasing key |
| Search.RankedMembership | src/es/actions/QueryParcel.ts:34-47 | the sorted matches are exactly the stored documents that satisfy the query |
| Search.RankedDistinct | src/es/actions/QueryAsset.ts:48-52 | sorting adds no repeats: when the matches hold no document twice, neither does the ranking |
| Search.SearchAfterDistinct | src/es/actions/QueryAsset.ts:48-58 | when the matches hold no document twice, neither does a `search_after` page |
| Search.SearchFrom | src/es/actions/QueryParcel.ts:66-69 | a `from`/`size` search returns the entries of the ranking from offset `from` on, at most `size` of them, and nothing when `from` is past the end |
| Search.SearchFromDistinct | src/es/actions/QueryParcel.ts:66-69 | when the matches hold no document twice, neither does a `from`/`size` page |
| Search.FirstPage | src/es/actions/QueryAsset.ts:53-58 | with the all-`MAX_VALUE` cursor, the page is the top `size` entries of the ranking |
| Search.NextPage | src/es/actions/QueryAsset.ts:53-58 | with distinct, nonzero keys, the cursor of the `i`-th ranked entry yields the next `size` entries after it: nothing skipped, nothing repeated |
| Search.NoProgressAfterZeroField | src/es/actions/QueryAsset.ts:55-57 | when the last entry of a page has a key field 0, the next page is non-empty and starts at or above that entry |
| Search.TieIsSkipped | src/es/actions/QueryAsset.ts:54-58 | a match that shares the exact key of the cursor, with no zero field, is never returned |
| Search.PageAtFirst | src/es/actions/QueryAsset.ts:192-193 | an absent or 0 page number gives the first `size` entries, `size` defaulted as the request does |
| Search.PageAtTiles | src/es/actions/QueryAsset.ts:192-193 | the entries before 0-based page `page` followed by that page are the entries before page `page + 1` |
| Search.PagesOfPrefix | src/es/actions/QueryParcel.ts:68-69 | 1-based offset pages 1 to `k` concatenate to the first `k * n` entries |
| Search.PagesOfCeil | src/es/actions/QueryParcel.ts:68-69 | pages 1 to `ceil(len / n)` reproduce the whole ranking |
| Confirmation.ResolveWindow | src/es/actions/QueryAsset.ts:25-38 | the `range` clause built from the best block and the threshold admits a block exactly when at least `confirmThreshold` blocks separate it from the best block (confirmed), or exactly when not (unconfirmed) |
| Confirmation.WindowsPartition | src/es/actions/QueryAsset.ts:26-37 | for a fixed best block and threshold, every block lies in exactly one of the two windows |
| QueryAsset.AssetId | src/es/actions/QueryAsset.ts:335 | an output's id starts with its address followed by `-`; `AssetIdCollision` shows that ids are not injective |
| QueryAsset.AssetIdCollision | src/es/actions/QueryAsset.ts:335 | the identities (`a-b`, `c`) and (`a`, `b-c`), with the same hash and index, get the same id |
| QueryAsset.DecimalString | src/es/actions/QueryAsset.ts:335 | the rendering of an output index in the id is never empty |
| QueryAsset.AssetIndex.IndexAsset | src/es/actions/QueryAsset.ts:332-347 | the id built from the address and the asset's type, transaction hash and output index now holds exactly the given fields with `isRemoved` false; every other id is unchanged; every document still sits under its own id |
| QueryAsset.AssetIndex.RemoveAsset | src/es/actions/QueryAsset.ts:357-367 | on an existing id, only `isRemoved` changes, to true, and the update reports success; on a missing id, the update fails and the table is unchanged |
| QueryAsset.AssetIndex.RevivalAsset | src/es/actions/QueryAsset.ts:376-386 | on an existing id, only `isRemoved` changes, to false, and the update reports success; on a missing id, the update fails and the table is unchanged |
| QueryAsset.IndexAssetTwice | src/es/actions/QueryAsset.ts:332-347 | indexing the same output twice leaves the table as one indexing does |
| QueryAsset.IndexRemoveRevive | src/es/actions/QueryAsset.ts:332-386 | index, remove, revive with the same identity: both updates find the document, and the table ends as it was after indexing |
| QueryAsset.ToUtxo | src/es/actions/QueryAsset.ts:91-98 | the projection keeps the sort key of the record it projects |
| QueryAsset.UtxoCursor | src/es/actions/QueryAsset.ts:54-58 | the UTXO cursor has the three fields of the sort |
| QueryAsset.GetUTXOListByAssetType | src/es/actions/QueryAsset.ts:12-99 | a listing holds at most the defaulted page size of entries; what it holds is given by `UtxoListSelects`, `UtxoListOrdered`, `UtxoListCount`, `UtxoListTop`, `UtxoListFirstPage`, `UtxoListNextPage`, `UtxoListRestartsAfterZero` and `UtxoListSkipsSameTransaction` |
| QueryAsset.UtxoListSelects | src/es/actions/QueryAsset.ts:59-98 | every listed entry projects a stored record of that address and type that is not removed, lies in the window and comes after the cursor; at most `itemsPerPage` entries are listed, 25 when absent or 0 |
| QueryAsset.UtxoListOrdered | src/es/actions/QueryAsset.ts:48-52 | the listing is non-increasing in `(blockNumber, parcelIndex, transactionIndex)` |
| QueryAsset.UtxoListCount | src/es/actions/QueryAsset.ts:53-88 | the listing's length is the smaller of the page size and the number of matching ids after the cursor |
| QueryAsset.UtxoListTop | src/es/actions/QueryAsset.ts:48-88 | a matching record after the cursor that is not listed sorts at or below every listed entry |
| QueryAsset.UtxoPageDistinct | src/es/actions/QueryAsset.ts:39-89 | on such a table, the records of a UTXO page are pairwise different |
| QueryAsset.UtxoListDistinct | src/es/actions/QueryAsset.ts:39-98 | on such a table, a UTXO listing returns no output twice, even after the projection drops the address and the removal flag |
| QueryAsset.ConfirmedListEmpty | src/es/actions/QueryAsset.ts:26-31 | when the threshold reaches past every record's block, the confirmed listing is empty |
| QueryAsset.ContinueAfter | src/es/actions/QueryAsset.ts:54-58 | the parameters a client sends after a record make the cursor of that record's key |
| QueryAsset.UtxoListRestartsAfterZero | src/es/actions/QueryAsset.ts:55-57 | continuing after a listable record with a 0 key field lists at least one entry, and the first sorts at or above that record |
| QueryAsset.PastNonzeroCursor | src/es/actions/QueryAsset.ts:54-58 | a record after the cursor of a key with no zero field does not share that key |
| QueryAsset.UtxoListSkipsSameTransaction | src/es/actions/QueryAsset.ts:48-58 | the next page after a record whose key fields are all nonzero lists no other output with the same `(blockNumber, parcelIndex, transactionIndex)` |
| QueryAsset.UtxoListFirstPage | src/es/actions/QueryAsset.ts:53-58 | without cursor fields, or with fields 0, the listing is the projected top of the ranking of listable records |
| QueryAsset.UtxoRankingStrict | src/es/actions/QueryAsset.ts:48-52 | when each transaction pays the address at most one output of the type, the ranking of listable records strictly decreases |
| QueryAsset.UtxoListNextPage | src/es/actions/QueryAsset.ts:48-58 | with one output per transaction, continuing after the `i`-th ranked record, all key fields nonzero, lists exactly the records right after it: nothing skipped, nothing repeated |
| QueryAsset.Types | src/es/actions/QueryAsset.ts:164-176 | the bucket keys are exactly the asset types present among the records, each once |
| QueryAsset.GroupShape | src/es/actions/QueryAsset.ts:164-182 | grouping yields one bucket per asset type present: each holds its type's summed amount and record count, at least one record; every record's type has a bucket; no bucket repeats |
| QueryAsset.GroupMember | src/es/actions/QueryAsset.ts:164-182 | a bucket is the sum and count of its type's records and has at least one record |
| QueryAsset.GroupCovers | src/es/actions/QueryAsset.ts:164-176 | every record's asset type has a bucket |
| QueryAsset.GroupDistinct | src/es/actions/QueryAsset.ts:164-176 | no bucket occurs twice |
| QueryAsset.TotalPermutation | src/es/actions/QueryAsset.ts:178-182 | the `sum` metric does not depend on the order of the records |
| QueryAsset.TotalAppend | src/es/actions/QueryAsset.ts:178-182 | the sum over two runs of records is the sum of their sums |
| QueryAsset.TotalOfExtraRecord | src/es/actions/QueryAsset.ts:178-182 | one more record adds its amount to a sum exactly when it matches |
| QueryAsset.TotalSplit | src/es/actions/QueryAsset.ts:178-182 | sums over two filters that split a third add up to the sum over the third |
| QueryAsset.GroupOfLive | src/es/actions/QueryAsset.ts:140-182 | the bucket of a type over an address's live records is that type's summed amount and its number of live ids |
| QueryAsset.RankedMember | src/es/actions/QueryAsset.ts:183-191 | sorting the buckets by sum neither adds nor drops a bucket |
| QueryAsset.GetAggsUTXOList | src/es/actions/QueryAsset.ts:101-208 | a balance page holds at most the defaulted page size of buckets; what it holds is given by `AggsBucketsMeaning`, `AggsListOrdered`, `AggsListDistinctTypes`, `RankedBucketsComplete`, `InRanking`, `AggsFirstPageDefault` and `AggsPagesTile` |
| QueryAsset.AggsBucketsMeaning | src/es/actions/QueryAsset.ts:140-207 | every bucket of a balance page has as `utxoQuantity` the number of live in-window outputs of its type, at least one, and as `totalAssetQuantity` their summed amount |
| QueryAsset.InRanking | src/es/actions/QueryAsset.ts:192-193 | a page holds only buckets of the full ranking |
| QueryAsset.TotalsDescending | src/es/actions/QueryAsset.ts:183-191 | buckets sorted by sum have non-increasing `totalAssetQuantity` |
| QueryAsset.AggsListOrdered | src/es/actions/QueryAsset.ts:183-194 | a balance page is non-increasing in `totalAssetQuantity` |
| QueryAsset.SliceDistinctTypes | src/es/actions/QueryAsset.ts:192-193 | a window of buckets with distinct types has distinct types |
| QueryAsset.RankedDistinctTypes | src/es/actions/QueryAsset.ts:164-191 | no two ranked buckets share an asset type |
| QueryAsset.AggsListDistinctTypes | src/es/actions/QueryAsset.ts:164-207 | no two buckets of a balance page share an asset type |
| QueryAsset.RankedBucketsComplete | src/es/actions/QueryAsset.ts:140-191 | the ranking has a bucket of a type exactly when the address holds a live in-window output of that type |
| QueryAsset.AggsPagesTile | src/es/actions/QueryAsset.ts:192-193 | the ranking before 0-based page `page` followed by that page is the ranking before page `page + 1` |
| QueryAsset.AggsFirstPageDefault | src/es/actions/QueryAsset.ts:192-193 | an absent or 0 page is the top of the ranking, 25 buckets when the page size is absent or 0 |
| QueryAsset.NoConfirmedBuckets | src/es/actions/QueryAsset.ts:118-123 | when the threshold reaches past every record's block, there is no confirmed bucket |
| QueryAsset.ConfirmedAggsEmpty | src/es/actions/QueryAsset.ts:118-123 | when the threshold reaches past every record's block, every confirmed balance page is empty |
| QueryAsset.GetAggsUTXOByAssetType | src/es/actions/QueryAsset.ts:210-323 | a single-type balance, when defined, is of the asked type and counts at least one output; `AggsByTypeMeaning` and `AggsByTypeInRanking` give its value |
| QueryAsset.AggsByTypeMeaning | src/es/actions/QueryAsset.ts:247-322 | the single-type balance is `undefined` exactly when the address holds no live in-window output of the type; otherwise it is that type with the outputs' summed amount and count |
| QueryAsset.SingleTypeGroup | src/es/actions/QueryAsset.ts:278-322 | records of one type give no bucket when there are none, and otherwise a first bucket of that type with their sum and count |
| QueryAsset.AggsByTypeInRanking | src/es/actions/QueryAsset.ts:247-322 | a single-type balance is the bucket of that type in the full ranking; when it is `undefined`, the ranking has no bucket of that type |
| QueryAsset.SumWhereAt | src/es/actions/QueryAsset.ts:178-182 | a sum over a table is the sum without one id plus that id's amount when it matches |
| QueryAsset.SumWhereReplace | src/es/actions/QueryAsset.ts:332-347 | storing a document under an id takes the old document's amount out of a sum and puts the new one's in |
| QueryAsset.RemoveLowersBalance | src/es/actions/QueryAsset.ts:357-367 | removing a live output lowers its type's balance by its amount and drops its id from the counted outputs |
| QueryAsset.RevivalRaisesBalance | src/es/actions/QueryAsset.ts:376-386 | reviving an output of the address in the window raises its type's balance by its amount and adds its id to the counted outputs |
| QueryAsset.BalanceSplitsByWindow | src/es/actions/QueryAsset.ts:26-37 | the confirmed and the unconfirmed balance of a type add up to everything the address holds of it |
| QueryAsset.SumWhereOfThree | src/es/actions/QueryAsset.ts:178-182 | the sum over a table of three documents is the sum of the matching documents' amounts |
| QueryAsset.ExampleSum | src/es/actions/QueryAsset.ts:247-322 | two live outputs of 7 and 3 and a removed output of 100 sum to 10 |
| QueryAsset.ExampleOwned | src/es/actions/QueryAsset.ts:247-322 | of those three outputs, two are counted |
| QueryAsset.AggsByTypeExample | src/es/actions/QueryAsset.ts:313-322 | on that table the single-type balance is the type with total 10 and count 2 |
| QueryParcel.Apply | src/es/actions/QueryParcel.ts:125-134 | merging a partial document that sets no field leaves the parcel as it was; `ApplyIdempotent` and `RetractChangesOnlyFlag` state the rest |
| QueryParcel.RetractChangesOnlyFlag | src/es/actions/QueryParcel.ts:112-114 | the retraction patch sets `isRetracted` and leaves every other field as it was |
| QueryParcel.ApplyIdempotent | src/es/actions/QueryParcel.ts:125-134 | merging the same partial document twice is the same as merging it once |
| QueryParcel.ParcelIndex.IndexParcel | src/es/actions/QueryParcel.ts:116-123 | the document under the parcel's hash is replaced whole by the parcel, with no merge; every other hash is unchanged |
| QueryParcel.ParcelIndex.UpdateParcel | src/es/actions/QueryParcel.ts:125-134 | on an existing hash, the fields the patch sets are merged into the stored parcel and the update reports success; on a missing hash, the update fails and the table is unchanged |
| QueryParcel.ParcelIndex.RetractParcel | src/es/actions/QueryParcel.ts:112-114 | on an existing hash, only `isRetracted` changes, to true; a missing hash fails and changes nothing; afterwards the document is still stored, yet `getParcel` of that hash answers `null` |
| QueryParcel.GetParcel | src/es/actions/QueryParcel.ts:11-25 | a parcel returned for a hash has that hash and is not retracted; `GetParcelMeaning` and `GetParcelLookup` give when it is `null` and which parcel it is |
| QueryParcel.GetParcelMeaning | src/es/actions/QueryParcel.ts:11-25 | `getParcel` returns only a stored, non-retracted parcel with that hash, and returns `null` exactly when there is none |
| QueryParcel.GetParcelLookup | src/es/actions/QueryParcel.ts:11-25 | on a table keyed by hash, `getParcel` is a lookup that hides retracted parcels |
| QueryParcel.IndexThenGet | src/es/actions/QueryParcel.ts:11-123 | after `indexParcel`, `getParcel` of its hash returns the new document unless it is retracted, and every other hash reads as before |
| QueryParcel.ParcelCursor | src/es/actions/QueryParcel.ts:36-39 | the parcel cursor has the two fields of the sort |
| QueryParcel.GetParcels | src/es/actions/QueryParcel.ts:27-48 | a listing holds at most the defaulted page size of parcels; what it holds is given by `ParcelsSelect`, `ParcelsCount`, `ParcelsTop`, `ParcelsFirstPage`, `ParcelsNextPage` and `ParcelsRestartAfterIndexZero` |
| QueryParcel.ParcelsSelect | src/es/actions/QueryParcel.ts:34-47 | `getParcels` returns stored, non-retracted parcels after the cursor, non-increasing in `(blockNumber, parcelIndex)`, at most `itemsPerPage` of them, 25 when absent or 0 |
| QueryParcel.ParcelsCount | src/es/actions/QueryParcel.ts:34-47 | the listing's length is the smaller of the page size and the number of visible hashes after the cursor |
| QueryParcel.ParcelsTop | src/es/actions/QueryParcel.ts:34-47 | a visible parcel after the cursor that is not listed sorts at or below every listed parcel |
| QueryParcel.ParcelsFirstPage | src/es/actions/QueryParcel.ts:36-40 | without cursor fields, or with fields 0, the listing is the top of the ranking of visible parcels |
| QueryParcel.KeyedDocsDiffer | src/es/actions/QueryParcel.ts:116-123 | on a table keyed by hash, documents under different hashes differ |
| QueryParcel.ParcelsDistinct | src/es/actions/QueryParcel.ts:27-48 | on a table keyed by hash, a `getParcels` page holds no parcel twice |
| QueryParcel.RankingStrict | src/es/actions/QueryParcel.ts:35 | when no two visible parcels share a position, the ranking strictly decreases |
| QueryParcel.ContinueAfter | src/es/actions/QueryParcel.ts:36-39 | the parameters a client sends after a parcel make the cursor of that parcel's position |
| QueryParcel.ParcelsNextPage | src/es/actions/QueryParcel.ts:34-47 | with distinct positions, continuing after the `i`-th ranked parcel, both fields nonzero, returns the parcels ranked right after it: nothing skipped, nothing repeated |
| QueryParcel.ParcelsRestartAfterIndexZero | src/es/actions/QueryParcel.ts:37-38 | continuing after a visible parcel with parcel index 0 returns at least one parcel, and the first sorts at or above it |
| QueryParcel.GetTotalParcelCount | src/es/actions/QueryParcel.ts:50-57 | the total count never exceeds the number of stored documents; `TotalCountMeaning` gives its value |
| QueryParcel.TotalCountMeaning | src/es/actions/QueryParcel.ts:50-57 | `getTotalParcelCount` is the number of non-retracted parcels and the length of their full ranking |
| QueryParcel.GetTotalParcelCountByPlatformAddress | src/es/actions/QueryParcel.ts:86-102 | the count of an address never exceeds the total count; `AddressCountMeaning` gives its value |
| QueryParcel.AddressCountMeaning | src/es/actions/QueryParcel.ts:86-102 | `getTotalParcelCountByPlatformAddress` is the number of non-retracted parcels signed by or paying to the address, and the length of their ranking |
| QueryParcel.GetParcelsByPlatformAddress | src/es/actions/QueryParcel.ts:59-84 | a page holds at most the defaulted page size of parcels; what it holds is given by `AddressPageSelect`, `AddressPageZeroIsOne`, `PagesAreSlices`, `PagesConcatenate` and `AllPagesReproduceList` |
| QueryParcel.AddressPageSelect | src/es/actions/QueryParcel.ts:59-84 | a page of an address holds stored, non-retracted parcels signed by or paying to it, non-increasing in key, at most `itemsPerPage` of them, 6 when absent or 0 |
| QueryParcel.AddressPageDistinct | src/es/actions/QueryParcel.ts:59-84 | on a table keyed by hash, a page of an address holds no parcel twice |
| QueryParcel.AddressPageZeroIsOne | src/es/actions/QueryParcel.ts:68-69 | an absent page, page 0 and page 1 are the same page: the top `itemsPerPage` parcels of the address |
| QueryParcel.PagesAreSlices | src/es/actions/QueryParcel.ts:66-69 | pages 1 to `k` of an address are the `k` consecutive `(page - 1) * size` windows of its ranking |
| QueryParcel.PagesConcatenate | src/es/actions/QueryParcel.ts:66-69 | pages 1 to `k` of an address concatenate to the first `k * itemsPerPage` parcels of its ranking |
| QueryParcel.AllPagesReproduceList | src/es/actions/QueryParcel.ts:59-102 | pages 1 to `ceil(count / itemsPerPage)`, where `count` is the address count, reproduce the address's whole ranking |

## Left out

- The ElasticSearch client is not modelled: transport, the asset writes' `refresh: "true"`, promises, response wire shapes (`hits.hits`, `aggregations`) and error codes. Writes are immediately visible, and an update of a missing id is the `NotFound` outcome.
- `QueryParcel.IndexThenGet`, `QueryParcel.ParcelIndex.RetractParcel`: `indexParcel` and `updateParcel` pass no `refresh` (src/es/actions/QueryParcel.ts:116-134), unlike the asset writes. So `retractParcel` passes none either. In the store, a search issued right after one of these writes can still see the old state until the index refreshes. The read-after-write facts of these two members (`getParcel` sees the new parcel; `getParcel` answers `null` after a retraction) hold for the model's immediately visible writes only.
- `Search.PageAtTiles`, `QueryAsset.AggsPagesTile`, `QueryParcel.PagesAreSlices`, `QueryParcel.PagesConcatenate`, `QueryParcel.AllPagesReproduceList`: these assume that separate `from`/`size` requests over one unchanged table see the same order among tied keys, because `Documents.Hits` is one function of the table. The store does not promise this, and neither sort has a tiebreaker field (src/es/actions/QueryParcel.ts:67, src/es/actions/QueryAsset.ts:183-191). With tied keys, the store's pages may overlap or miss documents.
- `QueryAsset.DecimalString`: numbers are unbounded integers, not JavaScript doubles. This function renders every output index in plain decimal, while the template literal at src/es/actions/QueryAsset.ts:335 switches to exponent notation from 1e21 on. Likewise, block numbers, indices and amounts above 2^53 are exact here, where the store and the client would round them.
- `Number.MAX_VALUE` is the sentinel `Max`, above every integer, not a double. The `sum` metric, a double in the store, is an exact natural-number sum of `amount`.
- Page sizes and page numbers are natural numbers. Negative or fractional values, which `||` would pass through, are not modelled.
- The composite aggregation's own bucket limit does not appear in the request bodies, so grouping is complete over all matching records.
- The order among documents with equal sort keys, and among buckets with equal sums, is whatever the model's enumeration of the snapshot gives. Beyond that, it is left unconstrained. It is the same for every query of one snapshot (see the line on `Search.PageAtTiles` above).
- Documents hold only the fields the queries and the writes use. The other fields of `ParcelDoc`, `AssetDoc` and `Action` are omitted, and the `H256` type is a plain string.
- `getUTXOListByAssetType` passes `assetType` (src/es/actions/QueryAsset.ts:72), while `getAggsUTXOByAssetType` passes `assetType.value` (src/es/actions/QueryAsset.ts:260). Likewise `indexAsset` builds the id from `assetDoc.assetType` (line 335), while the partial updates use `.value` (lines 360 and 379). All are modelled as the same string. If the unwrapped `H256` serialises differently, the filter at line 72 matches nothing, and that is not modelled.
- `QueryAsset.AssetId`: ids are built by joining the parts with `-`, exactly as the source does. So the collisions between identities whose parts contain `-` are reproduced: `AssetIdCollision` exhibits one, and `IndexAsset` then overwrites the other identity's record. No lemma excludes or describes collisions in general.
- `QueryParcel.Apply`: a partial update merges top-level fields only. The store's recursive merge of nested objects, such as `action` and `asset`, is not modelled. The same holds for `indexAsset`, whose `doc` gives every modelled field.
- `QueryParcel.ParcelIndex.UpdateParcel`: a patch that changes `hash` breaks the keyed-by-hash invariant. The contract promises the invariant only for patches that leave `hash` alone.
- src/server/actions/AddressAction.ts and src/models/assetmintoutput.ts are not part of this model. The first is routing and node calls; the second is a schema declaration.
- `searchParcel` and `countParcel` (src/es/actions/QueryParcel.ts:104-110, 136-142) are the store's search and count themselves: `Search.SearchAfter`, `Search.SearchFrom` and `Documents.CountWhere`.
