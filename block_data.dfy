/**
 * Block-data fetches with the on-disk cache (`bds` and `_bds_`). The cache is a
 * map from cache key to stored table; the vendor, the cache-key derivation and
 * the pandas reshaping are opaque functions of an environment; every request
 * sent to the vendor is recorded in a log.
 */
module BlockData {
  import opened Wrappers

  /** A keyword-argument value, as far as this code looks at one. */
  datatype Opt = Flag(b: bool) | Text(s: string) | Number(n: int) | Mapping(m: map<string, string>)

  /** Python truthiness of a keyword-argument value. */
  predicate Truthy(o: Opt) {
    match o
    case Flag(b) => b
    case Text(s) => s != ""
    case Number(n) => n != 0
    case Mapping(m) => m != map[]
  }

  /** The caller's `**kwargs`. */
  type Options = map<string, Opt>

  /** `if 'has_date' not in kwargs: kwargs['has_date'] = True`. */
  function WithHasDate(kwargs: Options): (opts: Options)
    ensures opts.Keys == kwargs.Keys + {"has_date"}
    ensures "has_date" !in kwargs ==> opts["has_date"] == Flag(true)
    ensures forall k :: k in kwargs ==> opts[k] == kwargs[k]
  {
    if "has_date" in kwargs then kwargs else kwargs["has_date" := Flag(true)]
  }

  /** `kwargs.get('raw', False)` taken as a condition. */
  predicate IsRaw(opts: Options) {
    "raw" in opts && Truthy(opts["raw"])
  }

  /** `kwargs.get('col_maps', None)`. */
  function ColMaps(opts: Options): Option<Opt> {
    if "col_maps" in opts then Some(opts["col_maps"]) else None
  }

  /** A table: its column labels and its rows of cells. */
  datatype Table = Table(columns: seq<string>, rows: seq<seq<string>>)

  /** `pd.DataFrame()`. */
  const EmptyTable: Table := Table([], [])

  /** `DataFrame.empty`: no columns or no rows. */
  predicate IsEmpty(t: Table) {
    |t.columns| == 0 || |t.rows| == 0
  }

  /** The guard: empty, or lacking a `ticker` or a `field` column. */
  predicate Unusable(t: Table) {
    IsEmpty(t) || "ticker" !in t.columns || "field" !in t.columns
  }

  /** A reference-data request as `create_request` and `init_request` build it. */
  datatype Request = Request(service: string, operation: string, ticker: string, fld: string, options: Options)

  function MakeRequest(ticker: string, fld: string, usePort: bool, opts: Options): Request {
    Request("//blp/refdata", if usePort then "PortfolioDataRequest" else "ReferenceDataRequest", ticker, fld, opts)
  }

  /**
   * What this code calls but does not define: the cache key (the path
   * `storage.ref_file` derives, "" when there is none), the vendor's answer to a
   * request, and the reshaping by ticker with `standard_cols` applied.
   */
  datatype Env = Env(keyOf: (string, string, Options) -> string,
                     respond: Request -> Table,
                     shape: (Table, Option<Opt>) -> Table)

  /** The cache contents and the log of requests sent so far. */
  datatype Store = Store(cache: map<string, Table>, sent: seq<Request>)

  datatype Outcome = Outcome(table: Table, store: Store)

  /** The cache key of one call; the step that adds `has_date` comes first. */
  function KeyOf(env: Env, ticker: string, fld: string, kwargs: Options): string {
    env.keyOf(ticker, fld, WithHasDate(kwargs))
  }

  /** A cached file exists for the key; `files.exists('')` is false. */
  predicate Hit(env: Env, st: Store, ticker: string, fld: string, kwargs: Options) {
    var key := KeyOf(env, ticker, fld, kwargs);
    key != "" && key in st.cache
  }

  /** The request a miss sends. */
  function RequestFor(ticker: string, fld: string, usePort: bool, kwargs: Options): Request {
    MakeRequest(ticker, fld, usePort, WithHasDate(kwargs))
  }

  /** One `_bds_` call, as a function of the store before it. */
  function TickerOutcome(env: Env, st: Store, ticker: string, fld: string, usePort: bool, kwargs: Options): (o: Outcome)
    ensures o.store.cache == st.cache ||
            (!Hit(env, st, ticker, fld, kwargs) && KeyOf(env, ticker, fld, kwargs) != "" &&
             o.store.cache == st.cache[KeyOf(env, ticker, fld, kwargs) := o.table])
    ensures |st.sent| <= |o.store.sent| <= |st.sent| + 1 && o.store.sent[..|st.sent|] == st.sent
    ensures "" in o.store.cache ==> "" in st.cache
  {
    var opts := WithHasDate(kwargs);
    var key := KeyOf(env, ticker, fld, kwargs);
    if Hit(env, st, ticker, fld, kwargs) then Outcome(st.cache[key], st)
    else
      var req := RequestFor(ticker, fld, usePort, kwargs);
      var sent := st.sent + [req];
      var res := env.respond(req);
      if IsRaw(opts) then Outcome(res, Store(st.cache, sent))
      else if Unusable(res) then Outcome(EmptyTable, Store(st.cache, sent))
      else
        var data := env.shape(res, ColMaps(opts));
        Outcome(data, Store(if key != "" then st.cache[key := data] else st.cache, sent))
  }

  /** A hit returns the stored table and sends nothing; the store is unchanged. */
  lemma CacheHit(env: Env, st: Store, ticker: string, fld: string, usePort: bool, kwargs: Options)
    requires Hit(env, st, ticker, fld, kwargs)
    ensures TickerOutcome(env, st, ticker, fld, usePort, kwargs)
            == Outcome(st.cache[KeyOf(env, ticker, fld, kwargs)], st)
  {
  }

  /** A miss sends exactly one request, the one for this ticker, field and options. */
  lemma MissSendsOneRequest(env: Env, st: Store, ticker: string, fld: string, usePort: bool, kwargs: Options)
    requires !Hit(env, st, ticker, fld, kwargs)
    ensures TickerOutcome(env, st, ticker, fld, usePort, kwargs).store.sent
            == st.sent + [RequestFor(ticker, fld, usePort, kwargs)]
  {
  }

  /**
   * On a miss: raw output is the vendor's table and is not cached; an unusable
   * table gives the empty table and is not cached; otherwise the shaped table
   * is returned and, when there is a key, stored under it.
   */
  lemma MissOutcome(env: Env, st: Store, ticker: string, fld: string, usePort: bool, kwargs: Options)
    requires !Hit(env, st, ticker, fld, kwargs)
    ensures var o := TickerOutcome(env, st, ticker, fld, usePort, kwargs);
            var opts := WithHasDate(kwargs);
            var res := env.respond(RequestFor(ticker, fld, usePort, kwargs));
            var key := KeyOf(env, ticker, fld, kwargs);
            (IsRaw(opts) ==> o.table == res && o.store.cache == st.cache) &&
            (!IsRaw(opts) && Unusable(res) ==> o.table == EmptyTable && o.store.cache == st.cache) &&
            (!IsRaw(opts) && !Unusable(res) ==>
               o.table == env.shape(res, ColMaps(opts)) &&
               o.store.cache == (if key != "" then st.cache[key := o.table] else st.cache))
  {
  }

  /** A call whose table was stored makes the same call again a hit with no new request. */
  lemma {:induction false} SecondCallIsHit(env: Env, st: Store, ticker: string, fld: string, usePort: bool, kwargs: Options)
    requires var o := TickerOutcome(env, st, ticker, fld, usePort, kwargs);
             KeyOf(env, ticker, fld, kwargs) != "" && KeyOf(env, ticker, fld, kwargs) in o.store.cache
    ensures var o := TickerOutcome(env, st, ticker, fld, usePort, kwargs);
            TickerOutcome(env, o.store, ticker, fld, usePort, kwargs) == o
  {
    var o := TickerOutcome(env, st, ticker, fld, usePort, kwargs);
    if !Hit(env, st, ticker, fld, kwargs) {
      MissOutcome(env, st, ticker, fld, usePort, kwargs);
    }
    assert Hit(env, o.store, ticker, fld, kwargs);
  }

  /**
   * Two identical calls on a store without the key send exactly one request when
   * the first one is cacheable: not raw, usable, and with a key.
   */
  lemma {:induction false} TwoCallsOneRequest(env: Env, st: Store, ticker: string, fld: string, usePort: bool, kwargs: Options)
    requires !Hit(env, st, ticker, fld, kwargs)
    requires KeyOf(env, ticker, fld, kwargs) != ""
    requires !IsRaw(WithHasDate(kwargs))
    requires !Unusable(env.respond(RequestFor(ticker, fld, usePort, kwargs)))
    ensures var o1 := TickerOutcome(env, st, ticker, fld, usePort, kwargs);
            var o2 := TickerOutcome(env, o1.store, ticker, fld, usePort, kwargs);
            o2.store.sent == st.sent + [RequestFor(ticker, fld, usePort, kwargs)] && o2.table == o1.table
  {
    MissOutcome(env, st, ticker, fld, usePort, kwargs);
    MissSendsOneRequest(env, st, ticker, fld, usePort, kwargs);
    SecondCallIsHit(env, st, ticker, fld, usePort, kwargs);
  }

  /** The `tickers` argument of `bds`: one ticker string or a list of them. */
  datatype Tickers = OneTicker(ticker: string) | TickerList(tickers: seq<string>)

  /** `if isinstance(tickers, str): tickers = [tickers]`. */
  function AsList(t: Tickers): (ts: seq<string>)
    ensures t.OneTicker? ==> ts == [t.ticker]
    ensures t.TickerList? ==> ts == t.tickers
  {
    match t
    case OneTicker(s) => [s]
    case TickerList(ts) => ts
  }

  datatype Batch = Batch(tables: seq<Table>, store: Store)

  /** `map(part, tickers)`: one `_bds_` call per ticker in order, each seeing the store the previous one left. */
  function BatchOutcome(env: Env, st: Store, tickers: seq<string>, fld: string, usePort: bool, kwargs: Options): (b: Batch)
    ensures |b.tables| == |tickers|
    ensures |st.sent| <= |b.store.sent| <= |st.sent| + |tickers| && b.store.sent[..|st.sent|] == st.sent
    ensures forall k :: k in st.cache ==> k in b.store.cache && b.store.cache[k] == st.cache[k]
    decreases |tickers|
  {
    if |tickers| == 0 then Batch([], st)
    else
      var b := BatchOutcome(env, st, tickers[..|tickers| - 1], fld, usePort, kwargs);
      var o := TickerOutcome(env, b.store, tickers[|tickers| - 1], fld, usePort, kwargs);
      Batch(b.tables + [o.table], o.store)
  }

  /** The i-th table of a batch is the i-th ticker's call on the store the first i calls left. */
  lemma {:induction false} BatchTableAt(env: Env, st: Store, ts: seq<string>, fld: string, usePort: bool, kwargs: Options, i: nat)
    requires i < |ts|
    ensures BatchOutcome(env, st, ts, fld, usePort, kwargs).tables[i]
            == TickerOutcome(env, BatchOutcome(env, st, ts[..i], fld, usePort, kwargs).store, ts[i], fld, usePort, kwargs).table
    decreases |ts|
  {
    if i < |ts| - 1 {
      var p := ts[..|ts| - 1];
      BatchTableAt(env, st, p, fld, usePort, kwargs, i);
      assert p[..i] == ts[..i];
    } else {
      assert ts[..|ts| - 1] == ts[..i];
    }
  }

  /** The same ticker listed twice is fetched from the vendor at most once. */
  lemma {:induction false} RepeatedTickerOneRequest(env: Env, st: Store, ticker: string, fld: string, usePort: bool, kwargs: Options)
    requires KeyOf(env, ticker, fld, kwargs) != ""
    requires !IsRaw(WithHasDate(kwargs))
    requires !Unusable(env.respond(RequestFor(ticker, fld, usePort, kwargs)))
    ensures var b := BatchOutcome(env, st, [ticker, ticker], fld, usePort, kwargs);
            |b.store.sent| <= |st.sent| + 1 && b.tables[0] == b.tables[1]
  {
    var ts := [ticker, ticker];
    assert ts[..1] == [ticker] && [ticker][..0] == [];
    var b1 := BatchOutcome(env, st, [ticker], fld, usePort, kwargs);
    if Hit(env, st, ticker, fld, kwargs) {
      CacheHit(env, st, ticker, fld, usePort, kwargs);
      CacheHit(env, b1.store, ticker, fld, usePort, kwargs);
    } else {
      TwoCallsOneRequest(env, st, ticker, fld, usePort, kwargs);
    }
  }

  /**
   * The block-data client: the cache directory as a map, plus the log of
   * requests it has sent, which only the proofs look at.
   */
  class Client {
    var disk: map<string, Table>
    ghost var sent: seq<Request>
    const env: Env

    ghost function State(): Store
      reads this
    {
      Store(disk, sent)
    }

    constructor (env: Env, disk: map<string, Table>)
      ensures this.env == env && this.disk == disk && sent == []
    {
      this.env := env;
      this.disk := disk;
      sent := [];
    }

    /** `_bds_`: one ticker, through the cache. */
    method FetchTicker(ticker: string, fld: string, usePort: bool, kwargs: Options) returns (t: Table)
      modifies this
      ensures var o := TickerOutcome(env, old(State()), ticker, fld, usePort, kwargs);
              t == o.table && disk == o.store.cache && sent == o.store.sent
    {
      var opts := kwargs;
      if "has_date" !in opts {
        opts := opts["has_date" := Flag(true)];
      }
      var key := env.keyOf(ticker, fld, opts);
      if key != "" && key in disk {
        return disk[key];
      }
      var request := MakeRequest(ticker, fld, usePort, opts);
      sent := sent + [request];
      var res := env.respond(request);
      if IsRaw(opts) {
        return res;
      }
      if Unusable(res) {
        return EmptyTable;
      }
      var data := env.shape(res, ColMaps(opts));
      if key != "" {
        disk := disk[key := data];
      }
      return data;
    }

    /** `bds`: a single ticker is made a list, then every ticker is fetched in turn. */
    method Fetch(tickers: Tickers, fld: string, usePort: bool, kwargs: Options) returns (tables: seq<Table>)
      modifies this
      ensures var b := BatchOutcome(env, old(State()), AsList(tickers), fld, usePort, kwargs);
              tables == b.tables && disk == b.store.cache && sent == b.store.sent
    {
      tables := FetchEach(AsList(tickers), fld, usePort, kwargs);
    }

    /** `map(part, tickers)`: one `_bds_` call per ticker, in order. */
    method FetchEach(ts: seq<string>, fld: string, usePort: bool, kwargs: Options) returns (tables: seq<Table>)
      modifies this
      ensures var b := BatchOutcome(env, old(State()), ts, fld, usePort, kwargs);
              tables == b.tables && disk == b.store.cache && sent == b.store.sent
      decreases |ts|
    {
      if |ts| == 0 {
        return [];
      }
      var first := FetchEach(ts[..|ts| - 1], fld, usePort, kwargs);
      var t := FetchTicker(ts[|ts| - 1], fld, usePort, kwargs);
      tables := first + [t];
    }
  }
}
