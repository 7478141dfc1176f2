/**
 * The Polygon.io provider's decisions: the API-key requirement, the HTTP
 * status classification that feeds the orchestrator's retry rule, the
 * timeframe guard, the wrapping of unclassified exceptions, the paging loop
 * of the aggregates endpoint, and the record loops of the financials and
 * dividends endpoints with their limit truncation.
 *
 * The network is a value: the responses the endpoint gives to the requests
 * a call makes, in order. JSON records are given with their date and text
 * fields as text and their numeric fields as JSON scalars (`None` where the
 * key is absent); `int()` and `float()` on text are the partial functions
 * `parseInt` and `parseFloat`.
 */
module Polygon {
  import opened Common
  import opened Dates
  import opened Models
  import Calendar
  import Manager

  // ------------------------------------------------------------------
  // Construction and capabilities
  // ------------------------------------------------------------------

  /** Python truthiness of an optional text value. */
  predicate Truthy(o: Option<string>)
  {
    o.Some? && o.value != ""
  }

  /**
   * The constructor's key: the argument if truthy, else the
   * `POLYGON_API_KEY` environment value; neither gives AUTH_FAILED.
   */
  function ApiKey(given: Option<string>, env: Option<string>): (r: Outcome<string>)
    ensures r.Raised? <==> !Truthy(given) && !Truthy(env)
    ensures r.Raised? ==> r.exc.MarketDataExc? && r.exc.error.code == AuthFailed && !r.exc.error.retryable
    ensures r.Returned? ==> r.value != "" && ((given.Some? && r.value == given.value) || (env.Some? && r.value == env.value))
    ensures Truthy(given) ==> r == Returned(given.value)
  {
    if Truthy(given) then Returned(given.value)
    else if Truthy(env) then Returned(env.value)
    else Raised(MarketDataExc(MarketDataError(
      "Polygon API key required. Set POLYGON_API_KEY env var or pass api_key.", AuthFailed)))
  }

  function Capabilities(): set<Manager.Capability>
  {
    {Manager.BarsCap, Manager.QuotesCap, Manager.SnapshotsCap, Manager.TickerInfoCap,
     Manager.EarningsCap, Manager.DividendsCap, Manager.CalendarCap}
  }

  /** The provider advertises every capability tag except corporate actions. */
  lemma CapabilitiesMeaning(c: Manager.Capability)
    ensures c in Capabilities() <==> c != Manager.CorporateActionsCap
  {
    match c
    case CorporateActionsCap =>
    case _ =>
  }

  // ------------------------------------------------------------------
  // Response classification
  // ------------------------------------------------------------------

  /**
   * `_check_response`: 429, 403 and 404 become classified errors; any other
   * status from 400 to 599 makes `raise_for_status` raise an `HTTPError`;
   * anything else passes.
   */
  function CheckResponse(status: int): (r: Option<Exception>)
    ensures r.None? <==> !(400 <= status < 600)
    ensures r.Some? && r.value.MarketDataExc? <==> status in {429, 403, 404}
    ensures status == 429 ==> r.value.error.code == RateLimited && r.value.error.retryable
    ensures status == 403 ==> r.value.error.code == AuthFailed && !r.value.error.retryable
    ensures status == 404 ==> r.value.error.code == NotFound && !r.value.error.retryable
  {
    if status == 429 then Some(MarketDataExc(MarketDataError("Polygon rate limited", RateLimited, true)))
    else if status == 403 then Some(MarketDataExc(MarketDataError("Polygon authentication failed", AuthFailed)))
    else if status == 404 then Some(MarketDataExc(MarketDataError("Symbol not found on Polygon", NotFound)))
    else if 400 <= status < 600 then Some(OtherExc("HTTPError"))
    else None
  }

  /** The text an exception contributes to a wrapping message. */
  function Describe(e: Exception): string
  {
    match e
    case MarketDataExc(err) => err.message
    case NotImplementedExc => ""
    case OtherExc(kind) => kind
  }

  /**
   * The `try`/`except` around every public call: a `MarketDataError`
   * passes unchanged; any other exception becomes a retryable provider error
   * naming the operation.
   */
  function Wrap<T>(op: string, o: Outcome<T>): (r: Outcome<T>)
    ensures o.Returned? || o.exc.MarketDataExc? ==> r == o
    ensures o.Raised? && !o.exc.MarketDataExc? ==>
              r.Raised? && r.exc.MarketDataExc? && r.exc.error.code == ProviderError && r.exc.error.retryable
  {
    if o.Returned? || o.exc.MarketDataExc? then o
    else Raised(MarketDataExc(MarketDataError("Polygon " + op + " failed: " + Describe(o.exc), ProviderError, true)))
  }

  /**
   * What the orchestrator sees of a wrapped call: it goes on to the next
   * provider exactly when the call raised a retryable classified error or
   * anything unclassified; a `NotImplementedError` never reaches it as such.
   */
  lemma WrapFeedsChain<T>(op: string, o: Outcome<T>, skipNotImplemented: bool)
    ensures Manager.Continues(Wrap(op, o), skipNotImplemented) <==>
              o.Raised? && (!o.exc.MarketDataExc? || o.exc.error.retryable)
    ensures Wrap(op, o).Raised? ==> Wrap(op, o).exc.MarketDataExc?
  {
  }

  /**
   * A wrapped response check lets the orchestrator try the next provider for
   * 429 and for every other error status except 403 and 404.
   */
  lemma StatusDrivesRetry(op: string, status: int, skipNotImplemented: bool)
    ensures var o: Outcome<()> := if CheckResponse(status).Some? then Raised(CheckResponse(status).value) else Returned(());
            Manager.Continues(Wrap(op, o), skipNotImplemented) <==>
              400 <= status < 600 && status != 403 && status != 404
  {
    var o: Outcome<()> := if CheckResponse(status).Some? then Raised(CheckResponse(status).value) else Returned(());
    WrapFeedsChain(op, o, skipNotImplemented);
  }

  // ------------------------------------------------------------------
  // Bars: the timeframe guard and the paging loop
  // ------------------------------------------------------------------

  /** `_TF_MAP`: the multiplier and span of each supported timeframe. */
  function TfMap(tf: string): (r: Option<(int, string)>)
    ensures r.Some? <==> tf in {"1min", "5min", "15min", "1hour", "1day"}
    ensures r.Some? ==> r.value.0 >= 1 && r.value.1 in {"minute", "hour", "day"}
  {
    if tf == "1min" then Some((1, "minute"))
    else if tf == "5min" then Some((5, "minute"))
    else if tf == "15min" then Some((15, "minute"))
    else if tf == "1hour" then Some((1, "hour"))
    else if tf == "1day" then Some((1, "day"))
    else None
  }

  /** One aggregate record; `t` is in milliseconds since the epoch. */
  datatype Agg = Agg(t: int, o: real, h: real, l: real, c: real, v: real, vw: Option<real>, n: Option<int>)

  /**
   * A bar from an aggregate: the timestamp is the whole second of UTC the
   * Unix milliseconds fall in, and its date counts days from 1970-01-01.
   */
  function BarOf(a: Agg): (b: Bar)
    ensures (b.timestamp - UnixEpoch) * 1000 <= a.t < (b.timestamp - UnixEpoch) * 1000 + 1000
    ensures DateOf(b.timestamp) == UnixEpochDay + a.t / 86_400_000
    ensures b.open == a.o && b.high == a.h && b.low == a.l && b.close == a.c && b.volume == a.v
    ensures b.vwap == a.vw && b.numTrades == a.n
  {
    Bar(FromUnixMillis(a.t), a.o, a.h, a.l, a.c, a.v, a.vw, a.n)
  }

  /**
   * The answer to one request of the aggregates loop: it was lost (the
   * request raised), or it came with a status, records (`None` for a record
   * lacking a required key) and the `next_url` field.
   */
  datatype Page =
    | PageLost
    | Page(status: int, results: seq<Option<Agg>>, nextUrl: Option<string>)

  /** Whether the loop requests another page after this one. */
  predicate HasNext(p: Page)
  {
    p.Page? && Truthy(p.nextUrl)
  }

  /** The answers end the `next_url` chain: the last one has no next page. */
  predicate Terminates(pages: seq<Page>)
  {
    |pages| > 0 && !HasNext(pages[|pages| - 1])
  }

  /** Converting a page's records: the bars, or the exception of the first bad record. */
  function ConvertAll(rs: seq<Option<Agg>>): Outcome<seq<Bar>>
  {
    if rs == [] then Returned([])
    else if rs[0].None? then Raised(OtherExc("KeyError"))
    else Manager.Prepend([BarOf(rs[0].value)], ConvertAll(rs[1..]))
  }

  /** The loop from the `i`-th request on: what it returns or raises. */
  function PagesFrom(pages: seq<Page>, i: nat): Outcome<seq<Bar>>
    requires Terminates(pages) && i < |pages|
    decreases |pages| - i
  {
    var p := pages[i];
    if p.PageLost? then Raised(OtherExc("ConnectionError"))
    else if CheckResponse(p.status).Some? then Raised(CheckResponse(p.status).value)
    else
      var bs := ConvertAll(p.results);
      if bs.Raised? then bs
      else if HasNext(p) then Manager.Prepend(bs.value, PagesFrom(pages, i + 1))
      else bs
  }

  /** `_bars_rest`: request pages while a truthy `next_url` comes back, appending every record's bar. */
  method BarsRest(pages: seq<Page>) returns (r: Outcome<seq<Bar>>)
    requires Terminates(pages)
    ensures r == PagesFrom(pages, 0)
  {
    var bars: seq<Bar> := [];
    var i := 0;
    var more := true;
    Manager.PrependNothing(PagesFrom(pages, 0));
    while more
      invariant i < |pages|
      invariant more ==> PagesFrom(pages, 0) == Manager.Prepend(bars, PagesFrom(pages, i))
      invariant !more ==> PagesFrom(pages, 0) == Returned(bars)
      decreases |pages| - i, more
    {
      var p := pages[i];
      if p.PageLost? {
        return Raised(OtherExc("ConnectionError"));
      }
      var check := CheckResponse(p.status);
      if check.Some? {
        return Raised(check.value);
      }
      var got := ConvertPage(p.results);
      if got.Raised? {
        return got;
      }
      if HasNext(p) {
        Manager.PrependTwice(bars, got.value, PagesFrom(pages, i + 1));
        bars := bars + got.value;
        i := i + 1;
      } else {
        bars := bars + got.value;
        more := false;
      }
    }
    return Returned(bars);
  }

  /** The inner `for` loop of `_bars_rest` over one page's records. */
  method ConvertPage(rs: seq<Option<Agg>>) returns (r: Outcome<seq<Bar>>)
    ensures r == ConvertAll(rs)
  {
    var out: seq<Bar> := [];
    var j := 0;
    Manager.PrependNothing(ConvertAll(rs));
    while j < |rs|
      invariant 0 <= j <= |rs|
      invariant ConvertAll(rs) == Manager.Prepend(out, ConvertAll(rs[j..]))
    {
      assert rs[j..][1..] == rs[j + 1..];
      if rs[j].None? {
        return Raised(OtherExc("KeyError"));
      }
      Manager.PrependTwice(out, [BarOf(rs[j].value)], ConvertAll(rs[j + 1..]));
      out := out + [BarOf(rs[j].value)];
      j := j + 1;
    }
    assert rs[j..] == [] && out + [] == out;
    return Returned(out);
  }

  /** Every record of the page is complete. */
  predicate WellFormed(rs: seq<Option<Agg>>)
  {
    forall k :: 0 <= k < |rs| ==> rs[k].Some?
  }

  /** The bars of a page's complete records, in order. */
  function PageBars(rs: seq<Option<Agg>>): seq<Bar>
  {
    if rs == [] then []
    else (if rs[0].Some? then [BarOf(rs[0].value)] else []) + PageBars(rs[1..])
  }

  /** The bars of several pages, page after page. */
  function AllBars(ps: seq<Page>): seq<Bar>
  {
    if ps == [] then []
    else (if ps[0].Page? then PageBars(ps[0].results) else []) + AllBars(ps[1..])
  }

  /** A page converts without error exactly when its records are complete, to their bars in order. */
  lemma {:induction false} ConvertAllMeaning(rs: seq<Option<Agg>>)
    ensures ConvertAll(rs).Returned? <==> WellFormed(rs)
    ensures ConvertAll(rs).Returned? ==> ConvertAll(rs).value == PageBars(rs)
  {
    if rs != [] {
      ConvertAllMeaning(rs[1..]);
      if rs[0].Some? {
        assert WellFormed(rs) <==> WellFormed(rs[1..]) by {
          forall k | 1 <= k < |rs| ensures rs[k] == rs[1..][k - 1] { }
        }
      }
    }
  }

  /** The index of the first answer at or after `i` with no next page. */
  function StopAt(pages: seq<Page>, i: nat): (k: nat)
    requires Terminates(pages) && i < |pages|
    ensures i <= k < |pages| && !HasNext(pages[k])
    ensures forall j :: i <= j < k ==> HasNext(pages[j])
    decreases |pages| - i
  {
    if !HasNext(pages[i]) then i else StopAt(pages, i + 1)
  }

  /** An answer the loop accepts: it arrived, its status passes and its records are complete. */
  predicate Accepted(p: Page)
  {
    p.Page? && CheckResponse(p.status).None? && WellFormed(p.results)
  }

  /** One request of the loop: it goes on exactly when the answer is accepted, adding that page's bars. */
  lemma PagesFromStep(pages: seq<Page>, i: nat)
    requires Terminates(pages) && i < |pages|
    ensures HasNext(pages[i]) ==> i + 1 < |pages|
    ensures PagesFrom(pages, i).Returned? <==>
              Accepted(pages[i]) && (HasNext(pages[i]) ==> PagesFrom(pages, i + 1).Returned?)
    ensures PagesFrom(pages, i).Returned? ==>
              PagesFrom(pages, i).value
              == PageBars(pages[i].results) + (if HasNext(pages[i]) then PagesFrom(pages, i + 1).value else [])
  {
    var p := pages[i];
    if p.Page? {
      ConvertAllMeaning(p.results);
      if !HasNext(p) && ConvertAll(p.results).Returned? {
        assert ConvertAll(p.results).value + [] == ConvertAll(p.results).value;
      }
    }
  }

  /** From the `i`-th request on, the loop returns exactly when every answer up to the last is accepted. */
  lemma {:induction false} PagesFromAccepted(pages: seq<Page>, i: nat)
    requires Terminates(pages) && i < |pages|
    ensures PagesFrom(pages, i).Returned? <==> forall j :: i <= j <= StopAt(pages, i) ==> Accepted(pages[j])
    decreases |pages| - i
  {
    PagesFromStep(pages, i);
    if HasNext(pages[i]) {
      PagesFromAccepted(pages, i + 1);
      assert StopAt(pages, i) == StopAt(pages, i + 1);
    }
  }

  /** From the `i`-th request on, what the loop returns is the bars of the answers up to the last. */
  lemma {:induction false} PagesFromBars(pages: seq<Page>, i: nat)
    requires Terminates(pages) && i < |pages| && PagesFrom(pages, i).Returned?
    ensures PagesFrom(pages, i).value == AllBars(pages[i..StopAt(pages, i) + 1])
    decreases |pages| - i
  {
    var p := pages[i];
    var k := StopAt(pages, i);
    var ps := pages[i..k + 1];
    assert p.Page? by {
      PagesFromStep(pages, i);
    }
    assert AllBars(ps) == PageBars(p.results) + AllBars(ps[1..]) by {
      assert ps != [] && ps[0] == p;
    }
    if !HasNext(p) {
      assert PagesFrom(pages, i).value == PageBars(p.results) by {
        PagesFromStep(pages, i);
      }
      assert ps[1..] == [];
      assert PageBars(p.results) + [] == PageBars(p.results);
    } else {
      assert i + 1 < |pages| && PagesFrom(pages, i + 1).Returned?
          && PagesFrom(pages, i).value == PageBars(p.results) + PagesFrom(pages, i + 1).value by {
        PagesFromStep(pages, i);
      }
      PagesFromBars(pages, i + 1);
      assert k == StopAt(pages, i + 1);
      assert ps[1..] == pages[i + 1..k + 1];
    }
  }

  /**
   * The loop requests answers `i` through the first without a next page; it
   * returns exactly when every one of them is accepted, and then returns
   * their bars concatenated in page order. Later answers play no part.
   */
  lemma PagesFromMeaning(pages: seq<Page>, i: nat)
    requires Terminates(pages) && i < |pages|
    ensures var k := StopAt(pages, i);
            (PagesFrom(pages, i).Returned? <==> forall j :: i <= j <= k ==> Accepted(pages[j]))
            && (PagesFrom(pages, i).Returned? ==> PagesFrom(pages, i).value == AllBars(pages[i..k + 1]))
  {
    PagesFromAccepted(pages, i);
    if PagesFrom(pages, i).Returned? {
      PagesFromBars(pages, i);
    }
  }

  /** `_bars_rest` in full: see `PagesFromMeaning` at the first request. */
  lemma BarsRestMeaning(pages: seq<Page>)
    requires Terminates(pages)
    ensures var k := StopAt(pages, 0);
            (PagesFrom(pages, 0).Returned? <==> forall j :: 0 <= j <= k ==> Accepted(pages[j]))
            && (PagesFrom(pages, 0).Returned? ==> PagesFrom(pages, 0).value == AllBars(pages[..k + 1]))
  {
    PagesFromMeaning(pages, 0);
    assert pages[0..StopAt(pages, 0) + 1] == pages[..StopAt(pages, 0) + 1];
  }

  /** The message of the timeframe guard. */
  function InvalidTimeframe(tf: string): MarketDataError
  {
    MarketDataError("Invalid timeframe: " + tf + ". Valid: ['1min', '5min', '15min', '1hour', '1day']", ProviderError, false)
  }

  /** `get_bars` over the REST path: the guard, then the wrapped paging loop. */
  function BarsOutcome(tf: string, pages: seq<Page>): Outcome<seq<Bar>>
    requires Terminates(pages)
  {
    if TfMap(tf).None? then Raised(MarketDataExc(InvalidTimeframe(tf)))
    else Wrap("get_bars", PagesFrom(pages, 0))
  }

  method GetBars(tf: string, pages: seq<Page>) returns (r: Outcome<seq<Bar>>)
    requires Terminates(pages)
    ensures r == BarsOutcome(tf, pages)
  {
    if TfMap(tf).None? {
      return Raised(MarketDataExc(InvalidTimeframe(tf)));
    }
    var got := BarsRest(pages);
    r := Wrap("get_bars", got);
  }

  /**
   * An unsupported timeframe is a non-retryable provider error raised before
   * any request (the answers play no part), so the orchestrator stops there;
   * a supported one never raises anything but a classified error.
   */
  lemma InvalidTimeframeStops(tf: string, pages: seq<Page>, other: seq<Page>, skip: bool)
    requires Terminates(pages) && Terminates(other)
    ensures TfMap(tf).None? ==>
              BarsOutcome(tf, pages) == BarsOutcome(tf, other)
              && BarsOutcome(tf, pages).Raised?
              && BarsOutcome(tf, pages).exc.error.code == ProviderError
              && !Manager.Continues(BarsOutcome(tf, pages), skip)
    ensures BarsOutcome(tf, pages).Raised? ==> BarsOutcome(tf, pages).exc.MarketDataExc?
  {
  }

  // ------------------------------------------------------------------
  // Record loops: financials and dividends
  // ------------------------------------------------------------------

  /** The answer to the single request of a record endpoint. */
  datatype Reply<R> = ReplyLost | Reply(status: int, results: seq<R>)

  /**
   * A record loop inside `try`: each record converts to an item, to nothing
   * (it is skipped), or raises; the first exception ends the loop and the
   * items so far are kept.
   */
  function Collected<R, T>(rs: seq<R>, conv: R -> Outcome<Option<T>>): seq<T>
  {
    if rs == [] then []
    else
      var c := conv(rs[0]);
      if c.Raised? then []
      else if c.value.Some? then [c.value.value] + Collected(rs[1..], conv)
      else Collected(rs[1..], conv)
  }

  method CollectRecords<R, T>(rs: seq<R>, conv: R -> Outcome<Option<T>>) returns (out: seq<T>)
    ensures out == Collected(rs, conv)
  {
    out := [];
    var i := 0;
    while i < |rs|
      invariant 0 <= i <= |rs|
      invariant Collected(rs, conv) == out + Collected(rs[i..], conv)
    {
      assert rs[i..][1..] == rs[i + 1..];
      var c := conv(rs[i]);
      if c.Raised? {
        return;
      }
      if c.value.Some? {
        out := out + [c.value.value];
      }
      i := i + 1;
    }
    assert rs[i..] == [];
  }

  /** The position of the first record whose conversion raises, or the length. */
  function FirstFailure<R, T>(rs: seq<R>, conv: R -> Outcome<Option<T>>): (k: nat)
    ensures k <= |rs|
    ensures forall j :: 0 <= j < k ==> conv(rs[j]).Returned?
    ensures k < |rs| ==> conv(rs[k]).Raised?
  {
    if rs == [] then 0
    else if conv(rs[0]).Raised? then 0
    else
      var k := FirstFailure(rs[1..], conv);
      assert forall j :: 1 <= j < k + 1 ==> rs[j] == rs[1..][j - 1];
      1 + k
  }

  /** The items of every record that converts to one, failing or not. */
  function Items<R, T>(rs: seq<R>, conv: R -> Outcome<Option<T>>): seq<T>
  {
    if rs == [] then []
    else
      var c := conv(rs[0]);
      (if c.Returned? && c.value.Some? then [c.value.value] else []) + Items(rs[1..], conv)
  }

  /**
   * The loop keeps exactly the items of the records before the first
   * failing one, in order; with no failure nothing is lost.
   */
  lemma {:induction false} CollectedMeaning<R, T>(rs: seq<R>, conv: R -> Outcome<Option<T>>)
    ensures Collected(rs, conv) == Items(rs[..FirstFailure(rs, conv)], conv)
  {
    if rs != [] && conv(rs[0]).Returned? {
      CollectedMeaning(rs[1..], conv);
      var k := FirstFailure(rs[1..], conv);
      assert rs[..k + 1][1..] == rs[1..][..k];
    } else if rs != [] {
      assert rs[..0] == [];
    }
  }

  /** The digit of a `Q<n>` fiscal period: `None` unless it starts with `Q`; `int(fp[1])` raises otherwise. */
  function FiscalQuarter(fp: string): (r: Outcome<Option<int>>)
    ensures r.Returned? && r.value.Some? ==> 0 <= r.value.value <= 9
  {
    if !StartsWith(fp, "Q") then Returned(None)
    else if |fp| < 2 then Raised(OtherExc("IndexError"))
    else if !IsDigit(fp[1]) then Raised(OtherExc("ValueError"))
    else Returned(Some(fp[1] as int - '0' as int))
  }

  /** Reading the fiscal period of quarter `q` gives `q`, whatever follows; other periods give none or raise. */
  lemma FiscalQuarterMeaning(q: int, rest: string, fp: string)
    requires 0 <= q <= 9
    ensures FiscalQuarter("Q" + [('0' as int + q) as char] + rest) == Returned(Some(q))
    ensures FiscalQuarter(fp).Raised? <==> StartsWith(fp, "Q") && (|fp| < 2 || !IsDigit(fp[1]))
    ensures !StartsWith(fp, "Q") <==> FiscalQuarter(fp) == Returned(None)
  {
    var s := "Q" + [('0' as int + q) as char] + rest;
    assert s[..1] == "Q" && s[1] == ('0' as int + q) as char;
  }

  /** A JSON scalar in a numeric field: a number, a text, or `null`. */
  datatype Scalar = JNumber(num: real) | JText(text: string) | JNull

  /** Python truthiness of an optional JSON scalar: absent, `null`, zero and the empty text are falsy. */
  predicate TruthyScalar(o: Option<Scalar>)
  {
    o.Some? && match o.value
      case JNumber(n) => n != 0.0
      case JText(t) => t != ""
      case JNull => false
  }

  /** Python `int()` of a JSON scalar: a number truncates toward zero, a text is parsed, `null` fails. */
  function IntOf(v: Scalar, parseInt: string -> Option<int>): (r: Option<int>)
    ensures v.JNumber? ==> r.Some? && -1.0 < v.num - r.value as real < 1.0
    ensures v.JNumber? && 0.0 <= v.num ==> 0.0 <= r.value as real <= v.num
    ensures v.JNumber? && v.num <= 0.0 ==> v.num <= r.value as real <= 0.0
    ensures v.JNull? ==> r.None?
  {
    match v
    case JNumber(n) => Some(if n >= 0.0 then n.Floor else -((-n).Floor))
    case JText(t) => parseInt(t)
    case JNull => None
  }

  /** Python `float()` of a JSON scalar: a number is itself, a text is parsed, `null` fails. */
  function FloatOf(v: Scalar, parseFloat: string -> Option<real>): (r: Option<real>)
    ensures v.JNumber? ==> r == Some(v.num)
    ensures v.JNull? ==> r.None?
  {
    match v
    case JNumber(n) => Some(n)
    case JText(t) => parseFloat(t)
    case JNull => None
  }

  /**
   * A financials record: `filing_date` as text, `fiscal_period` and
   * `fiscal_year` as JSON scalars (a `null` period is not text).
   */
  datatype FinRecord = FinRecord(filingDate: Option<string>, fiscalPeriod: Option<Scalar>, fiscalYear: Option<Scalar>)

  /** A date field: `None` when falsy, else `date.fromisoformat`, which raises on bad text. */
  function OptionalDate(o: Option<string>): (r: Outcome<Option<Date>>)
    ensures r.Returned? && r.value.Some? ==> Truthy(o) && ParseIsoDate(o.value) == Some(r.value.value)
    ensures r == Returned(None) <==> !Truthy(o)
  {
    if !Truthy(o) then Returned(None)
    else match ParseIsoDate(o.value)
      case None => Raised(OtherExc("ValueError"))
      case Some(d) => Returned(Some(d))
  }

  /** An optional integer field: `None` when falsy (zero included), else `int()`, which raises on bad text. */
  function OptionalInt(o: Option<Scalar>, parseInt: string -> Option<int>): (r: Outcome<Option<int>>)
    ensures r == Returned(None) <==> !TruthyScalar(o)
    ensures r.Returned? && r.value.Some? ==> TruthyScalar(o) && IntOf(o.value, parseInt) == r.value
  {
    if !TruthyScalar(o) then Returned(None)
    else match IntOf(o.value, parseInt)
      case None => Raised(OtherExc("ValueError"))
      case Some(n) => Returned(Some(n))
  }

  /**
   * `r.get("fiscal_period", "")` read as a quarter: an absent field is `""`;
   * `null` or a number has no `startswith`, which raises.
   */
  function PeriodQuarter(o: Option<Scalar>): Outcome<Option<int>>
  {
    if o.None? then FiscalQuarter("")
    else if o.value.JText? then FiscalQuarter(o.value.text)
    else Raised(OtherExc("AttributeError"))
  }

  /** One financials record: skipped without a filing date; an after-close report otherwise. */
  function EarningsOf(symbol: string, parseInt: string -> Option<int>): FinRecord -> Outcome<Option<EarningsReport>>
  {
    (r: FinRecord) =>
      if !Truthy(r.filingDate) then Returned(None)
      else
        var day := OptionalDate(r.filingDate);
        var quarter := PeriodQuarter(r.fiscalPeriod);
        var year := OptionalInt(r.fiscalYear, parseInt);
        if day.Raised? then Raised(day.exc)
        else if quarter.Raised? then Raised(quarter.exc)
        else if year.Raised? then Raised(year.exc)
        else Returned(Some(EarningsReport(Upper(symbol), day.value.value, quarter.value, year.value, Some("AMC"))))
  }

  /**
   * `_earnings_rest`: a classified status error propagates; a lost request,
   * another error status or a failing record ends in the events so far,
   * truncated to `limit`.
   */
  function EarningsRest(symbol: string, limit: int, reply: Reply<FinRecord>, parseInt: string -> Option<int>): Outcome<seq<EarningsReport>>
  {
    if reply.ReplyLost? then Returned([])
    else if CheckResponse(reply.status).Some? then
      (if CheckResponse(reply.status).value.MarketDataExc? then Raised(CheckResponse(reply.status).value) else Returned([]))
    else Returned(SliceTo(Collected(reply.results, EarningsOf(symbol, parseInt)), limit))
  }

  method GetEarnings(symbol: string, limit: int, reply: Reply<FinRecord>, parseInt: string -> Option<int>)
    returns (r: Outcome<seq<EarningsReport>>)
    ensures r == Wrap("get_earnings", EarningsRest(symbol, limit, reply, parseInt))
  {
    if reply.ReplyLost? {
      return Returned([]);
    }
    var check := CheckResponse(reply.status);
    if check.Some? {
      if check.value.MarketDataExc? {
        return Raised(check.value);
      }
      return Returned([]);
    }
    var events := CollectRecords(reply.results, EarningsOf(symbol, parseInt));
    return Returned(SliceTo(events, limit));
  }

  /**
   * The fiscal period field read as quarter `q`: none when absent or not
   * starting with `Q`, else the digit after the `Q`.
   */
  predicate PeriodGives(o: Option<Scalar>, q: Option<int>)
  {
    if o.None? then q.None?
    else
      o.value.JText?
      && var fp := o.value.text;
         if StartsWith(fp, "Q") then |fp| >= 2 && IsDigit(fp[1]) && q == Some(fp[1] as int - '0' as int)
         else q.None?
  }

  /**
   * A report built from record `x`: for the upper-cased symbol, after the
   * close, on the date the filing date names, with the quarter the fiscal
   * period gives and the fiscal year as `int()` of a truthy field (none for
   * an absent, null or zero one); nothing else is filled in.
   */
  predicate EarningsFrom(symbol: string, parseInt: string -> Option<int>, x: FinRecord, e: EarningsReport)
  {
    e.symbol == Upper(symbol) && e.callTime == Some("AMC")
    && Truthy(x.filingDate) && ParseIsoDate(x.filingDate.value) == Some(e.reportDate)
    && PeriodGives(x.fiscalPeriod, e.fiscalQuarter)
    && (if TruthyScalar(x.fiscalYear) then e.fiscalYear.Some? && IntOf(x.fiscalYear.value, parseInt) == e.fiscalYear
        else e.fiscalYear.None?)
    && e.status.None? && e.epsEstimate.None? && e.epsActual.None?
    && e.revenueEstimate.None? && e.revenueActual.None?
  }

  /**
   * A field of record `x` with a filing date that makes the conversion
   * raise: a filing date that does not parse, a fiscal period that is not
   * text or is `Q` without a digit after it, or a truthy fiscal year that
   * does not convert.
   */
  predicate BadEarningsField(parseInt: string -> Option<int>, x: FinRecord)
  {
    Truthy(x.filingDate)
    && (ParseIsoDate(x.filingDate.value).None?
        || (x.fiscalPeriod.Some?
            && (!x.fiscalPeriod.value.JText?
                || (var fp := x.fiscalPeriod.value.text; StartsWith(fp, "Q") && (|fp| < 2 || !IsDigit(fp[1])))))
        || (TruthyScalar(x.fiscalYear) && IntOf(x.fiscalYear.value, parseInt).None?))
  }

  lemma EarningsOfMeaning(symbol: string, parseInt: string -> Option<int>, x: FinRecord)
    ensures EarningsOf(symbol, parseInt)(x).Raised? <==> BadEarningsField(parseInt, x)
    ensures EarningsOf(symbol, parseInt)(x) == Returned(None) <==> !Truthy(x.filingDate)
    ensures EarningsOf(symbol, parseInt)(x).Returned? && Truthy(x.filingDate) ==>
              var e := EarningsOf(symbol, parseInt)(x).value;
              e.Some? && EarningsFrom(symbol, parseInt, x, e.value)
  {
    if x.fiscalPeriod.Some? && x.fiscalPeriod.value.JText? {
      FiscalQuarterMeaning(0, "", x.fiscalPeriod.value.text);
    }
  }

  /**
   * `get_earnings` raises only the classified status errors 429, 403 and
   * 404; otherwise it returns at most `limit` reports, the first of those
   * the records before the first failing one yield, each built from one of
   * the records as `EarningsFrom` states.
   */
  lemma EarningsMeaning(symbol: string, limit: int, reply: Reply<FinRecord>, parseInt: string -> Option<int>)
    ensures var r := Wrap("get_earnings", EarningsRest(symbol, limit, reply, parseInt));
            (r.Raised? <==> reply.Reply? && reply.status in {429, 403, 404})
            && (r.Returned? ==>
                  (limit >= 0 ==> |r.value| <= limit)
                  && (forall e :: e in r.value ==>
                        exists j :: 0 <= j < |reply.results| && EarningsFrom(symbol, parseInt, reply.results[j], e))
                  && (reply.Reply? && CheckResponse(reply.status).None? ==>
                        var conv := EarningsOf(symbol, parseInt);
                        r.value == SliceTo(Items(reply.results[..FirstFailure(reply.results, conv)], conv), limit)))
  {
    if reply.Reply? && CheckResponse(reply.status).None? {
      CollectedMeaning(reply.results, EarningsOf(symbol, parseInt));
      CollectedEarnings(symbol, parseInt, reply.results);
      var all := Collected(reply.results, EarningsOf(symbol, parseInt));
      assert forall e :: e in SliceTo(all, limit) ==> e in all;
    }
  }

  /** Every report the loop keeps is built from one of the records. */
  lemma CollectedEarnings(symbol: string, parseInt: string -> Option<int>, rs: seq<FinRecord>)
    ensures forall e: EarningsReport :: e in Collected(rs, EarningsOf(symbol, parseInt)) ==>
              exists j :: 0 <= j < |rs| && EarningsFrom(symbol, parseInt, rs[j], e)
  {
    var conv := EarningsOf(symbol, parseInt);
    CollectedItems(rs, conv);
    forall e: EarningsReport | e in Collected(rs, conv)
      ensures exists j :: 0 <= j < |rs| && EarningsFrom(symbol, parseInt, rs[j], e)
    {
      var j :| 0 <= j < |rs| && conv(rs[j]) == Returned(Some(e));
      EarningsOfMeaning(symbol, parseInt, rs[j]);
    }
  }

  /** Every item the loop keeps is the item of some record. */
  lemma {:induction false} CollectedItems<R, T>(rs: seq<R>, conv: R -> Outcome<Option<T>>)
    ensures forall x :: x in Collected(rs, conv) ==> exists j :: 0 <= j < |rs| && conv(rs[j]) == Returned(Some(x))
  {
    if rs != [] {
      CollectedItems(rs[1..], conv);
      forall x | x in Collected(rs, conv)
        ensures exists j :: 0 <= j < |rs| && conv(rs[j]) == Returned(Some(x))
      {
        if conv(rs[0]) != Returned(Some(x)) {
          var j :| 0 <= j < |rs[1..]| && conv(rs[1..][j]) == Returned(Some(x));
          assert rs[j + 1] == rs[1..][j];
        }
      }
    }
  }

  /** A dividends record, field by field as text. */
  datatype DivRecord = DivRecord(
    exDividendDate: Option<string>,
    cashAmount: Option<Scalar>,
    recordDate: Option<string>,
    payDate: Option<string>,
    declarationDate: Option<string>,
    dividendType: Option<string>,
    frequency: Option<Scalar>)

  /**
   * One dividends record: the ex-date falls back to `today` when falsy, an
   * absent amount is 0, a falsy type is `"regular"`; any bad field raises.
   */
  function DividendOf(symbol: string, today: Date, parseFloat: string -> Option<real>, parseInt: string -> Option<int>)
    : DivRecord -> Outcome<Option<DividendEvent>>
  {
    (r: DivRecord) =>
      var ex := OptionalDate(r.exDividendDate);
      var amount := if r.cashAmount.None? then Some(0.0) else FloatOf(r.cashAmount.value, parseFloat);
      var rec := OptionalDate(r.recordDate);
      var pay := OptionalDate(r.payDate);
      var decl := OptionalDate(r.declarationDate);
      var freq := OptionalInt(r.frequency, parseInt);
      if ex.Raised? || amount.None? || rec.Raised? || pay.Raised? || decl.Raised? || freq.Raised? then
        Raised(OtherExc("ValueError"))
      else
        Returned(Some(DividendEvent(Upper(symbol),
          if ex.value.Some? then ex.value.value else today,
          amount.value, rec.value, pay.value, decl.value,
          if Truthy(r.dividendType) then r.dividendType.value else "regular",
          freq.value)))
  }

  /** `_dividends_rest`, with the same error handling as `_earnings_rest`. */
  function DividendsRest(symbol: string, limit: int, reply: Reply<DivRecord>, today: Date,
                         parseFloat: string -> Option<real>, parseInt: string -> Option<int>): Outcome<seq<DividendEvent>>
  {
    if reply.ReplyLost? then Returned([])
    else if CheckResponse(reply.status).Some? then
      (if CheckResponse(reply.status).value.MarketDataExc? then Raised(CheckResponse(reply.status).value) else Returned([]))
    else Returned(SliceTo(Collected(reply.results, DividendOf(symbol, today, parseFloat, parseInt)), limit))
  }

  method GetDividends(symbol: string, limit: int, reply: Reply<DivRecord>, today: Date,
                      parseFloat: string -> Option<real>, parseInt: string -> Option<int>)
    returns (r: Outcome<seq<DividendEvent>>)
    ensures r == Wrap("get_dividends", DividendsRest(symbol, limit, reply, today, parseFloat, parseInt))
  {
    if reply.ReplyLost? {
      return Returned([]);
    }
    var check := CheckResponse(reply.status);
    if check.Some? {
      if check.value.MarketDataExc? {
        return Raised(check.value);
      }
      return Returned([]);
    }
    var events := CollectRecords(reply.results, DividendOf(symbol, today, parseFloat, parseInt));
    return Returned(SliceTo(events, limit));
  }

  /** An optional date field read as `d`: none when the field is falsy, else the date its text names. */
  predicate DateFieldGives(o: Option<string>, d: Option<Date>)
  {
    if Truthy(o) then d.Some? && ParseIsoDate(o.value) == d else d.None?
  }

  /** The `cash_amount` field read as `amount`: 0 when absent, else the number it holds or its text names. */
  predicate AmountFieldGives(o: Option<Scalar>, amount: real, parseFloat: string -> Option<real>)
  {
    if o.None? then amount == 0.0 else FloatOf(o.value, parseFloat) == Some(amount)
  }

  /**
   * An event built from record `x`: for the upper-cased symbol, in USD, the
   * record's ex-date or `today`, its cash amount or 0, its type or
   * `"regular"`, each optional date as the record gives it, and the
   * frequency as `int()` of a truthy field (none for an absent, null or zero one).
   */
  predicate DividendFrom(symbol: string, today: Date, parseFloat: string -> Option<real>, parseInt: string -> Option<int>,
                         x: DivRecord, e: DividendEvent)
  {
    e.symbol == Upper(symbol) && e.currency == "USD"
    && (if Truthy(x.exDividendDate) then ParseIsoDate(x.exDividendDate.value) == Some(e.exDate) else e.exDate == today)
    && AmountFieldGives(x.cashAmount, e.amount, parseFloat)
    && e.dividendType != ""
    && (Truthy(x.dividendType) ==> e.dividendType == x.dividendType.value)
    && (!Truthy(x.dividendType) ==> e.dividendType == "regular")
    && DateFieldGives(x.recordDate, e.recordDate)
    && DateFieldGives(x.payDate, e.payDate)
    && DateFieldGives(x.declarationDate, e.declarationDate)
    && (if TruthyScalar(x.frequency) then e.frequency.Some? && IntOf(x.frequency.value, parseInt) == e.frequency
        else e.frequency.None?)
  }

  /** A field of record `x` that makes the conversion raise: a date that does not parse, or a number that does not convert. */
  predicate BadDividendField(parseFloat: string -> Option<real>, parseInt: string -> Option<int>, x: DivRecord)
  {
    (exists o :: o in [x.exDividendDate, x.recordDate, x.payDate, x.declarationDate] && Truthy(o) && ParseIsoDate(o.value).None?)
    || (x.cashAmount.Some? && FloatOf(x.cashAmount.value, parseFloat).None?)
    || (TruthyScalar(x.frequency) && IntOf(x.frequency.value, parseInt).None?)
  }

  lemma DividendOfMeaning(symbol: string, today: Date, parseFloat: string -> Option<real>, parseInt: string -> Option<int>,
                          x: DivRecord)
    ensures DividendOf(symbol, today, parseFloat, parseInt)(x).Raised? <==> BadDividendField(parseFloat, parseInt, x)
    ensures DividendOf(symbol, today, parseFloat, parseInt)(x).Returned? ==>
              var e := DividendOf(symbol, today, parseFloat, parseInt)(x).value;
              e.Some? && DividendFrom(symbol, today, parseFloat, parseInt, x, e.value)
  {
    var fields := [x.exDividendDate, x.recordDate, x.payDate, x.declarationDate];
    assert fields[0] == x.exDividendDate && fields[1] == x.recordDate && fields[2] == x.payDate && fields[3] == x.declarationDate;
  }

  /**
   * `get_dividends` raises only the classified status errors; otherwise it
   * returns at most `limit` events, each built field by field from one of
   * the records as `DividendFrom` states.
   */
  lemma DividendsMeaning(symbol: string, limit: int, reply: Reply<DivRecord>, today: Date,
                         parseFloat: string -> Option<real>, parseInt: string -> Option<int>)
    ensures var r := Wrap("get_dividends", DividendsRest(symbol, limit, reply, today, parseFloat, parseInt));
            (r.Raised? <==> reply.Reply? && reply.status in {429, 403, 404})
            && (r.Returned? ==>
                  (limit >= 0 ==> |r.value| <= limit)
                  && forall e :: e in r.value ==>
                       exists j :: 0 <= j < |reply.results| && DividendFrom(symbol, today, parseFloat, parseInt, reply.results[j], e))
  {
    if reply.Reply? && CheckResponse(reply.status).None? {
      var conv := DividendOf(symbol, today, parseFloat, parseInt);
      var all := Collected(reply.results, conv);
      CollectedItems(reply.results, conv);
      forall e | e in all
        ensures exists j :: 0 <= j < |reply.results| && DividendFrom(symbol, today, parseFloat, parseInt, reply.results[j], e)
      {
        var j :| 0 <= j < |reply.results| && conv(reply.results[j]) == Returned(Some(e));
        DividendOfMeaning(symbol, today, parseFloat, parseInt, reply.results[j]);
      }
      var r := SliceTo(all, limit);
      assert forall e :: e in r ==> e in all;
    }
  }

  // ------------------------------------------------------------------
  // Calendar
  // ------------------------------------------------------------------

  /**
   * `get_trading_dates`: both request paths answer with the local calendar,
   * and the fallback after an exception asks the local calendar again.
   */
  function TradingDates(start: Date, end: Date): (r: Outcome<seq<Date>>)
    ensures r == Calendar.TradingDates(start, end)
  {
    var first := Calendar.TradingDates(start, end);
    if first.Raised? then Calendar.TradingDates(start, end) else first
  }
}
