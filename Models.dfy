/**
 * The library's value records: bars, quotes, snapshots, reference data,
 * earnings, dividends and corporate actions. Prices, sizes and amounts are
 * reals; timestamps are whole seconds (see module Dates); calendar dates are
 * day numbers.
 */
module Models {
  import opened Common
  import opened Dates

  /** One OHLCV bar; `timestamp` marks the start of the period. */
  datatype Bar = Bar(
    timestamp: int,
    open: real,
    high: real,
    low: real,
    close: real,
    volume: real,
    vwap: Option<real> := None,
    numTrades: Option<int> := None)

  datatype Quote = Quote(
    symbol: string,
    timestamp: int,
    bidPrice: real,
    bidSize: real,
    askPrice: real,
    askSize: real,
    lastPrice: Option<real> := None,
    lastSize: Option<real> := None)
  {
    /** The quoted spread, ask minus bid. */
    function Spread(): real
    {
      askPrice - bidPrice
    }

    /** The midpoint between bid and ask. */
    function Mid(): real
    {
      (bidPrice + askPrice) / 2.0
    }
  }

  datatype Snapshot = Snapshot(
    symbol: string,
    quote: Quote,
    minuteBar: Option<Bar> := None,
    dailyBar: Option<Bar> := None,
    prevDailyBar: Option<Bar> := None,
    change: Option<real> := None,
    changePct: Option<real> := None)

  /** The value held by one optional field of a reference-data record. */
  datatype FieldValue = Text(s: string) | Number(r: real) | Flag(b: bool)

  /** The fields of a reference-data record, in declaration order. */
  datatype TickerField =
    | SymbolField | NameField | TypeField | ExchangeField | CusipField
    | IsinField | CikField | CompositeFigiField | ShareClassFigiField
    | SectorField | IndustryField | SubcategoryField | MarketCapField
    | SharesOutstandingField | TradingHoursField | MinTickField | ShortableField

  const TickerFields: seq<TickerField> := [
    SymbolField, NameField, TypeField, ExchangeField, CusipField,
    IsinField, CikField, CompositeFigiField, ShareClassFigiField,
    SectorField, IndustryField, SubcategoryField, MarketCapField,
    SharesOutstandingField, TradingHoursField, MinTickField, ShortableField]

  lemma TickerFieldsComplete(f: TickerField)
    ensures f in TickerFields
  {
  }

  /** Reference data for a ticker; unnamed security types default to common stock. */
  datatype TickerInfo = TickerInfo(
    symbol: string,
    name: string,
    securityType: string := "CS",
    exchange: Option<string> := None,
    cusip: Option<string> := None,
    isin: Option<string> := None,
    cik: Option<string> := None,
    compositeFigi: Option<string> := None,
    shareClassFigi: Option<string> := None,
    sector: Option<string> := None,
    industry: Option<string> := None,
    subcategory: Option<string> := None,
    marketCap: Option<real> := None,
    sharesOutstanding: Option<real> := None,
    tradingHours: Option<string> := None,
    minTick: Option<real> := None,
    shortable: Option<bool> := None)
  {
    /** `getattr(info, field)`, with `None` for an absent optional field. */
    function Get(f: TickerField): Option<FieldValue>
    {
      match f
      case SymbolField => Some(Text(symbol))
      case NameField => Some(Text(name))
      case TypeField => Some(Text(securityType))
      case ExchangeField => TextOf(exchange)
      case CusipField => TextOf(cusip)
      case IsinField => TextOf(isin)
      case CikField => TextOf(cik)
      case CompositeFigiField => TextOf(compositeFigi)
      case ShareClassFigiField => TextOf(shareClassFigi)
      case SectorField => TextOf(sector)
      case IndustryField => TextOf(industry)
      case SubcategoryField => TextOf(subcategory)
      case MarketCapField => NumberOf(marketCap)
      case SharesOutstandingField => NumberOf(sharesOutstanding)
      case TradingHoursField => TextOf(tradingHours)
      case MinTickField => NumberOf(minTick)
      case ShortableField => if shortable.Some? then Some(Flag(shortable.value)) else None
    }
  }

  function TextOf(o: Option<string>): Option<FieldValue>
  {
    if o.Some? then Some(Text(o.value)) else None
  }

  function NumberOf(o: Option<real>): Option<FieldValue>
  {
    if o.Some? then Some(Number(o.value)) else None
  }

  /** A field value of the kind a reference-data field declares. */
  predicate WellTyped(f: TickerField, v: FieldValue)
  {
    match f
    case MarketCapField | SharesOutstandingField | MinTickField => v.Number?
    case ShortableField => v.Flag?
    case _ => v.Text?
  }

  lemma GetWellTyped(t: TickerInfo, f: TickerField)
    requires t.Get(f).Some?
    ensures WellTyped(f, t.Get(f).value)
  {
  }

  function TextField(info: map<TickerField, FieldValue>, f: TickerField): Option<string>
  {
    if f in info && info[f].Text? then Some(info[f].s) else None
  }

  function NumberField(info: map<TickerField, FieldValue>, f: TickerField): Option<real>
  {
    if f in info && info[f].Number? then Some(info[f].r) else None
  }

  /**
   * `TickerInfo(**info)` for a field dictionary holding the two required
   * fields; a missing security type takes its default.
   */
  function BuildTickerInfo(info: map<TickerField, FieldValue>): (t: TickerInfo)
    requires SymbolField in info && info[SymbolField].Text?
    requires NameField in info && info[NameField].Text?
    requires forall f :: f in info ==> WellTyped(f, info[f])
    ensures t.symbol == info[SymbolField].s && t.name == info[NameField].s
    ensures TypeField !in info ==> t.securityType == "CS"
  {
    TickerInfo(
      info[SymbolField].s,
      info[NameField].s,
      if TypeField in info && info[TypeField].Text? then info[TypeField].s else "CS",
      TextField(info, ExchangeField),
      TextField(info, CusipField),
      TextField(info, IsinField),
      TextField(info, CikField),
      TextField(info, CompositeFigiField),
      TextField(info, ShareClassFigiField),
      TextField(info, SectorField),
      TextField(info, IndustryField),
      TextField(info, SubcategoryField),
      NumberField(info, MarketCapField),
      NumberField(info, SharesOutstandingField),
      TextField(info, TradingHoursField),
      NumberField(info, MinTickField),
      if ShortableField in info && info[ShortableField].Flag? then Some(info[ShortableField].b) else None)
  }

  /**
   * Every field present in the dictionary is the record's field, and every
   * other field except the security type is `None`.
   */
  lemma BuildTickerInfoGet(info: map<TickerField, FieldValue>, f: TickerField)
    requires SymbolField in info && info[SymbolField].Text?
    requires NameField in info && info[NameField].Text?
    requires forall g :: g in info ==> WellTyped(g, info[g])
    ensures f in info ==> BuildTickerInfo(info).Get(f) == Some(info[f])
    ensures f !in info && f != TypeField ==> BuildTickerInfo(info).Get(f) == None
  {
    if f in info {
      assert WellTyped(f, info[f]);
    }
  }

  /** An earnings report, as providers return it. */
  datatype EarningsReport = EarningsReport(
    symbol: string,
    reportDate: Date,
    fiscalQuarter: Option<int> := None,
    fiscalYear: Option<int> := None,
    callTime: Option<string> := None,
    status: Option<string> := None,
    epsEstimate: Option<real> := None,
    epsActual: Option<real> := None,
    revenueEstimate: Option<real> := None,
    revenueActual: Option<real> := None)

  datatype DividendEvent = DividendEvent(
    symbol: string,
    exDate: Date,
    amount: real,
    recordDate: Option<Date> := None,
    payDate: Option<Date> := None,
    declarationDate: Option<Date> := None,
    dividendType: string := "regular",
    frequency: Option<int> := None,
    currency: string := "USD")

  datatype CorporateAction = CorporateAction(
    symbol: string,
    actionType: string,
    exDate: Option<Date> := None,
    effectiveDate: Option<Date> := None,
    details: Option<seq<(string, string)>> := None)
}
