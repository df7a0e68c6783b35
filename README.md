# xbbg blpapi adapter: verified model

This project models three pieces of logic from `xbbg/blpapi.py`, a thin client
over the Bloomberg API, and proves properties about them:

- **Curve-list row extraction.** This is the parser nested in `get_curveList`.
  - A response message holds a `results` array. Each result is a sequence of
    named fields, and each field holds either one string or an array of
    strings.
  - Each result yields one row `(curve, description, country, currency,
    curveid, type, subtype)`.
  - Every cell starts as `""`, and each recognised key overwrites its own cell.
  - The values of a `type` or `subtype` field are joined with `", "`.
  - Other keys are read but ignored.
  - It is modelled as the method `CurveList.ProcessMessage`, with the source's
    nested loops and seven accumulators. That method is proved equal to a fold,
    `CurveList.Parse`, and the lemmas are stated about the fold.
- **Default substitution** in `instruments`, `curveList` and `govList` (module
  `Search`).
  - A `None` query becomes `"Dhaka"`, `"SOFR"` or `"Bangladesh"`.
  - A `None` maxResults becomes 10.
  - Anything supplied passes through unchanged into the `//blp/instruments`
    request.
- **Block data through the on-disk cache** (`bds` / `_bds_`, module `BlockData`).
  - The cache directory is a map from cache key to table.
  - The cache-key derivation (`storage.ref_file`), the vendor round trip and the
    pandas reshaping are opaque functions of an `Env`.
  - Every request sent to the vendor is appended to a log, so proofs can count
    requests.
  - `BlockData.TickerOutcome` states one `_bds_` call as a function of the store
    before the call, and the lemmas are about it.
  - The class `BlockData.Client` holds the cache as a mutable `map` field and
    the log as a ghost field. Its methods `FetchTicker` (`_bds_`) and `Fetch`
    (`bds`, through `FetchEach`) are proved to follow these functions exactly.

Modelling decisions:
- `field.getValueAsString()` with no argument reads value 0, which is the
  API's default index.
  - On an array field with no values, this read raises. The exception
    propagates out of the generator, so the model's parse returns `None` for the
    whole message.
  - `type` and `subtype` fields are read by index over `numValues()` instead,
    so they never raise. An empty array gives `""`.
- `if data_file:` is modelled as "the cache key is not `""`". `files.exists('')`
  is false, so a call hits the cache exactly when its key is non-empty and
  present.
- In `_bds_` the cache check comes before the `raw` check, as in the code. A
  `raw` call whose key is already cached gets the cached (shaped) table back.
- The guard at `xbbg/blpapi.py:241` uses `any(...)`. An empty table, or one
  lacking *either* the `ticker` or the `field` column, gives an empty table.

## Model

| member | source | states |
|---|---|---|
| `Strings.SplitJoin` | xbbg/blpapi.py:150-157 | joining with ", " is invertible when there is at least one value and no value contains a comma: splitting the cell gives back the values in order |
| `Strings.Join` | xbbg/blpapi.py:152-156 | definition: `sep.join(xs)`, the items in order with the separator between neighbours, "" for no items |
| `Strings.JoinShort` | xbbg/blpapi.py:152 | join of no values is "", join of one value is that value |
| `CurveList.Values` | xbbg/blpapi.py:151-155 | definition: the values read by index over `numValues()`; a scalar field has exactly one |
| `CurveList.AsScalar` | xbbg/blpapi.py:160 | definition: `getValueAsString()` reads value 0; a scalar gives its string, an empty array raises (None) |
| `CurveList.Cells` | xbbg/blpapi.py:171 | the yielded tuple has seven cells, the i-th being the column of the i-th recognised key in the order curve, description, country, currency, curveid, type, subtype |
| `CurveList.Cell` | xbbg/blpapi.py:150-160 | reading a field raises exactly when its key is neither type nor subtype and its value is an array with no values |
| `CurveList.ApplyField` | xbbg/blpapi.py:147-170 | one field overwrites the column of its own key with its value, leaves every other column unchanged, leaves the row unchanged for an unrecognised key, and fails exactly when reading it raises |
| `CurveList.ApplyAll` | xbbg/blpapi.py:147-170 | definition: the inner loop as a fold of `ApplyField` over the fields in index order, failing from the first raising read on |
| `CurveList.ParseElement` | xbbg/blpapi.py:139-171 | definition: one result's row is that fold started from the all-empty row |
| `CurveList.Parse` | xbbg/blpapi.py:135-171 | definition: the rows of a message, one per result in index order, or None when any result's field read raises |
| `CurveList.ProcessMessage` | xbbg/blpapi.py:135-171 | the nested loops with seven accumulators compute exactly the fold `Parse` over results and fields, including the failure of a raising read |
| `CurveList.ApplyAllFailureSticks` | xbbg/blpapi.py:158-160 | once a field read in a result raises, the result fails whatever fields follow |
| `CurveList.ParseFailureSticks` | xbbg/blpapi.py:137-171 | once one result fails, the whole message fails |
| `CurveList.ParseRowPerResult` | xbbg/blpapi.py:137-171 | the message parses iff every result does, and then there is exactly one row per result, in index order, the i-th row being the i-th result's |
| `CurveList.ApplyAllFailsIff` | xbbg/blpapi.py:147-160 | a result fails to parse iff one of its fields is a non-type/subtype array with no values |
| `CurveList.ApplyAllColumn` | xbbg/blpapi.py:139-171 | each recognised column of a result's row is the value of the last field carrying that key, or its starting value when no field does |
| `CurveList.LastOccurrenceWins` | xbbg/blpapi.py:147-171 | when a key occurs more than once in a result, the last occurrence's value is the one emitted |
| `CurveList.AbsentKeyStaysEmpty` | xbbg/blpapi.py:139-145 | a recognised key that no field carries leaves its column "" |
| `CurveList.EmptyElementRow` | xbbg/blpapi.py:139-171 | a result with no fields yields ("", "", "", "", "", "", "") |
| `CurveList.UnrecognisedKeyIgnored` | xbbg/blpapi.py:158-170 | a readable field whose key is not recognised does not change the row |
| `CurveList.JoinedCell` | xbbg/blpapi.py:150-157 | a type/subtype cell is its values joined by ", ": "" for none, the value for one, and it splits back into the values when none holds a comma |
| `CurveList.TwoValuesExample` | xbbg/blpapi.py:154-157 | the type values ["A", "B"] give the cell "A, B" |
| `Search.Columns` | xbbg/blpapi.py:84-85 | the curve-list header has one label per cell of a parsed row, in the same order: the recognised key of each cell, except that the subtype cell is labelled 'subType' |
| `Search.DefaultQuery` | xbbg/blpapi.py:49-110 | definition: the query a `None` becomes: "Dhaka" for instruments, "SOFR" for curveList, "Bangladesh" for govList |
| `Search.OperationName` | xbbg/blpapi.py:115-181 | definition: the operation each call requests on //blp/instruments: instrumentListRequest, curveListRequest, govtListRequest |
| `Search.BuildRequest` | xbbg/blpapi.py:49-110 | a None query becomes the call's default, a None maxResults becomes 10, supplied values pass through unchanged, on the call's fixed service and operation |
| `Search.Defaults` | xbbg/blpapi.py:49-110 | the defaults are "Dhaka", "SOFR" and "Bangladesh" for instruments, curveList and govList, and 10 for maxResults |
| `Search.SubstitutionIdempotent` | xbbg/blpapi.py:49-110 | substituting again changes nothing, and the query and maxResults are substituted independently |
| `BlockData.WithHasDate` | xbbg/blpapi.py:224 | has_date is added as True only when absent; every option the caller gave, has_date included, keeps its value |
| `BlockData.KeyOf` | xbbg/blpapi.py:225 | definition: the cache key is the opaque key function applied to ticker, field and the has_date-completed options |
| `BlockData.Hit` | xbbg/blpapi.py:226 | definition: a hit is a non-empty key that the cache holds (`files.exists('')` is false) |
| `BlockData.MakeRequest` | xbbg/blpapi.py:230-235 | definition: a //blp/refdata request, PortfolioDataRequest when use_port else ReferenceDataRequest, carrying ticker, field and options |
| `BlockData.RequestFor` | xbbg/blpapi.py:224-235 | definition: the request of a call, built from the has_date-completed options |
| `BlockData.Truthy` | xbbg/blpapi.py:240 | definition: Python truthiness of an option value: True, a non-empty string, a non-zero number, a non-empty mapping |
| `BlockData.IsRaw` | xbbg/blpapi.py:240 | definition: `kwargs.get('raw', False)` is truthy; an absent raw counts as False |
| `BlockData.IsEmpty` | xbbg/blpapi.py:241 | definition: `DataFrame.empty`, no columns or no rows |
| `BlockData.Unusable` | xbbg/blpapi.py:241 | definition: empty, or lacking either the ticker or the field column |
| `BlockData.ColMaps` | xbbg/blpapi.py:249 | definition: `kwargs.get('col_maps', None)` |
| `BlockData.TickerOutcome` | xbbg/blpapi.py:224-256 | a call leaves the cache as it was or, on a miss with a non-empty key, adds exactly its own key holding the table it returns; it sends at most one request, only appends to the log, and never caches under "" |
| `BlockData.CacheHit` | xbbg/blpapi.py:225-228 | a hit returns the cached table and leaves cache and request log unchanged |
| `BlockData.MissSendsOneRequest` | xbbg/blpapi.py:230-239 | a miss sends exactly one request: refdata, PortfolioDataRequest or ReferenceDataRequest by use_port, with the has_date-completed options |
| `BlockData.MissOutcome` | xbbg/blpapi.py:239-256 | on a miss, raw output is returned uncached; an empty table or one lacking ticker or field gives the empty table uncached; otherwise the shaped table is returned and stored under a non-empty key |
| `BlockData.SecondCallIsHit` | xbbg/blpapi.py:225-256 | once a call's table is stored under its key, repeating the call returns the same table with the store unchanged |
| `BlockData.TwoCallsOneRequest` | xbbg/blpapi.py:224-256 | two identical cacheable calls send exactly one request and return the same table |
| `BlockData.AsList` | xbbg/blpapi.py:210 | a single ticker string becomes a one-element list; a list is kept |
| `BlockData.BatchOutcome` | xbbg/blpapi.py:209-211 | bds yields one table per ticker, sends at most one request per ticker and only appends to the log, and keeps every cached entry |
| `BlockData.BatchTableAt` | xbbg/blpapi.py:209-211 | the i-th table of a bds call is the i-th ticker's `_bds_` outcome on the store the first i calls left |
| `BlockData.RepeatedTickerOneRequest` | xbbg/blpapi.py:209-256 | a ticker listed twice in one cacheable bds call is requested at most once and yields the same table twice |
| `BlockData.Client.constructor` | xbbg/blpapi.py:226 | the client starts from whatever the cache directory holds, with no requests sent |
| `BlockData.Client.FetchTicker` | xbbg/blpapi.py:214-256 | `_bds_` returns exactly the table of `TickerOutcome` and leaves the cache and request log as it says |
| `BlockData.Client.Fetch` | xbbg/blpapi.py:194-211 | `bds` returns exactly the per-ticker tables of `BatchOutcome` and leaves the cache and request log as it says |
| `BlockData.Client.FetchEach` | xbbg/blpapi.py:209-211 | the `_bds_` calls over a ticker list, in order, return exactly `BatchOutcome`'s tables and leave its cache and request log |

## Left out

- The Bloomberg session and transport are not modelled: `create_request`,
  `init_request`, `send_request` and `rec_events`. The vendor is an opaque
  function from request to table, and `process.process_ref` is part of it. For
  the search calls, only the request is modelled; the round trip that follows
  is not.
- Draining several response messages into one table (`rec_events` feeding
  `pd.DataFrame`) is not modelled. The curve-list parser is modelled per
  message.
- The `results` lookup on a message is not modelled: the parser receives the
  results array directly, so a message without `results` cannot be expressed.
- Field values are strings or arrays of strings. Nested elements, and the
  API's conversion of other scalar types to strings, are not modelled.
- The parsers of `get_instruments` and `get_govermentList` are not modelled.
  They are direct `getElementAsString` projections, and how the API handles a
  missing field there is not visible.
- Calling `instruments`, `curveList` or `govList` without a `query` or a
  `maxResults` argument is not modelled. Both are required positional
  parameters, so leaving either out raises TypeError; only an explicit `None`
  is substituted.
- The pandas shaping is one opaque function of the raw table and `col_maps`:
  `set_index`, `droplevel`, `rename_axis` and `pipeline.standard_cols`.
- Combining tickers with `pd.concat` is not modelled: `Client.Fetch` returns
  the per-ticker tables in ticker order. For an empty ticker list it returns
  no tables, where `pd.concat` of nothing raises.
- Cache storage is abstract: the key derivation is an opaque function,
  `storage.ref_file`. Pickle read and write, and folder creation, are map
  lookup and map update. Reading back a stored table gives the same table by
  construction. The key is a function of ticker, field and options only: not of
  the clock or of what the directory holds. The second-call results
  (`SecondCallIsHit`, `TwoCallsOneRequest`, `RepeatedTickerOneRequest`) rely on
  this.
- Keyword arguments are modelled only as far as this code reads them:
  booleans, strings, integers and string maps. The model accepts any option
  name. In the source, an option named like a parameter it is passed next to
  raises TypeError: `ticker`, `fld`, `logger` or `use_port` (line 209), `ext`
  (line 225), `service` or `request` (lines 230-233, 237), and `tickers` or
  `flds` (line 235).
- The `print` diagnostics and the logger are not modelled.
- Races between concurrent callers sharing one cache directory are out of
  scope (concurrency).
