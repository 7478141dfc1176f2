/**
 * The fetch orchestrator: cache lookup, then the provider chain with its
 * retry rule, then the quality gate, then one write-through to the cache;
 * a first-capable dispatcher for the other kinds of data; a first-non-null
 * merge of reference data; and calendar dispatch.
 *
 * A provider is a value: the capabilities it advertises and, for each call
 * it offers, the outcome that call has for given arguments. Which providers
 * a call invokes is returned as the list of their positions.
 */
module Manager {
  import opened Common
  import opened Dates
  import opened Models
  import opened Quality
  import opened Cache
  import Calendar

  // ------------------------------------------------------------------
  // Providers
  // ------------------------------------------------------------------

  datatype Capability =
    | BarsCap | QuotesCap | SnapshotsCap | TickerInfoCap
    | EarningsCap | DividendsCap | CorporateActionsCap | CalendarCap

  /** The capability tags providers advertise. */
  function CapabilityName(c: Capability): string
  {
    match c
    case BarsCap => "bars"
    case QuotesCap => "quotes"
    case SnapshotsCap => "snapshots"
    case TickerInfoCap => "ticker_info"
    case EarningsCap => "earnings"
    case DividendsCap => "dividends"
    case CorporateActionsCap => "corporate_actions"
    case CalendarCap => "calendar"
  }

  /** A market-data provider: its advertised capabilities and the outcome of each of its calls. */
  datatype Provider = Provider(
    caps: set<Capability>,
    bars: (string, Date, Date, string) -> Outcome<seq<Bar>>,
    quote: string -> Outcome<Quote>,
    snapshot: string -> Outcome<Snapshot>,
    tickerInfo: string -> Outcome<TickerInfo>,
    earnings: (string, int) -> Outcome<seq<EarningsReport>>,
    dividends: (string, int) -> Outcome<seq<DividendEvent>>,
    corporateActions: string -> Outcome<seq<CorporateAction>>,
    tradingDates: (Date, Date) -> Outcome<seq<Date>>)

  /**
   * A provider that implements only `get_bars`: the base class advertises
   * `{"bars"}` and every other call raises `NotImplementedError`.
   */
  function BaseProvider(bars: (string, Date, Date, string) -> Outcome<seq<Bar>>): Provider
  {
    Provider({BarsCap}, bars,
      _ => Raised(NotImplementedExc), _ => Raised(NotImplementedExc), _ => Raised(NotImplementedExc),
      (_, _) => Raised(NotImplementedExc), (_, _) => Raised(NotImplementedExc),
      _ => Raised(NotImplementedExc), (_, _) => Raised(NotImplementedExc))
  }

  // ------------------------------------------------------------------
  // The provider chain
  // ------------------------------------------------------------------

  /** An outcome after which the chain goes on to the next capable provider. */
  predicate Continues<T>(o: Outcome<T>, skipNotImplemented: bool)
  {
    o.Raised? && ((o.exc.MarketDataExc? && o.exc.error.retryable) || (o.exc.NotImplementedExc? && skipNotImplemented))
  }

  /** `last_error` after an outcome that lets the chain go on. */
  function Remember<T>(o: Outcome<T>, last: Option<MarketDataError>): Option<MarketDataError>
  {
    if o.Raised? && o.exc.MarketDataExc? then Some(o.exc.error) else last
  }

  /**
   * The provider loop from position `i` on, with `answers[j]` what provider
   * `j` would answer: skip providers without `cap`; stop at the first
   * capable answer that is a value, a non-retryable `MarketDataError` or any
   * other exception (a `NotImplementedError` too unless `skipNotImplemented`);
   * at the end raise the last retryable error, or `exhausted`.
   */
  function Chain<T>(ps: seq<Provider>, cap: Capability, answers: seq<Outcome<T>>, skipNotImplemented: bool,
                    i: nat, last: Option<MarketDataError>, exhausted: MarketDataError): (Outcome<T>, seq<nat>)
    requires |answers| == |ps| && i <= |ps|
    decreases |ps| - i
  {
    if i == |ps| then (Raised(MarketDataExc(if last.Some? then last.value else exhausted)), [])
    else if cap !in ps[i].caps then Chain(ps, cap, answers, skipNotImplemented, i + 1, last, exhausted)
    else if Continues(answers[i], skipNotImplemented) then
      var (r, invoked) := Chain(ps, cap, answers, skipNotImplemented, i + 1, Remember(answers[i], last), exhausted);
      (r, [i] + invoked)
    else (answers[i], [i])
  }

  /** The capable positions in `[lo, hi)`, ascending. */
  function CapableIn(ps: seq<Provider>, cap: Capability, lo: nat, hi: nat): (r: seq<nat>)
    requires lo <= hi <= |ps|
    ensures |r| <= hi - lo
    decreases hi - lo
  {
    if lo == hi then []
    else if cap in ps[lo].caps then [lo] + CapableIn(ps, cap, lo + 1, hi)
    else CapableIn(ps, cap, lo + 1, hi)
  }

  /** Every position in `r` is a capable position of `[lo, hi)`. */
  predicate AllCapable(ps: seq<Provider>, cap: Capability, r: seq<nat>, lo: nat, hi: nat)
    requires hi <= |ps|
  {
    forall k :: 0 <= k < |r| ==> lo <= r[k] < hi && cap in ps[r[k]].caps
  }

  predicate Ascending(r: seq<nat>)
  {
    forall k, l :: 0 <= k < l < |r| ==> r[k] < r[l]
  }

  /** `CapableIn` lists exactly the capable positions of the range, in ascending order. */
  lemma CapableInMeaning(ps: seq<Provider>, cap: Capability, lo: nat, hi: nat)
    requires lo <= hi <= |ps|
    ensures AllCapable(ps, cap, CapableIn(ps, cap, lo, hi), lo, hi)
    ensures forall j :: lo <= j < hi && cap in ps[j].caps ==> j in CapableIn(ps, cap, lo, hi)
    ensures Ascending(CapableIn(ps, cap, lo, hi))
  {
    CapableInSound(ps, cap, lo, hi);
    CapableInComplete(ps, cap, lo, hi);
  }

  lemma {:induction false} CapableInSound(ps: seq<Provider>, cap: Capability, lo: nat, hi: nat)
    requires lo <= hi <= |ps|
    ensures AllCapable(ps, cap, CapableIn(ps, cap, lo, hi), lo, hi) && Ascending(CapableIn(ps, cap, lo, hi))
    decreases hi - lo
  {
    if lo < hi {
      CapableInSound(ps, cap, lo + 1, hi);
      var t := CapableIn(ps, cap, lo + 1, hi);
      if cap in ps[lo].caps {
        var r := [lo] + t;
        assert forall k :: 1 <= k < |r| ==> r[k] == t[k - 1];
      }
    }
  }

  lemma {:induction false} CapableInComplete(ps: seq<Provider>, cap: Capability, lo: nat, hi: nat)
    requires lo <= hi <= |ps|
    ensures forall j :: lo <= j < hi && cap in ps[j].caps ==> j in CapableIn(ps, cap, lo, hi)
    decreases hi - lo
  {
    if lo < hi {
      CapableInComplete(ps, cap, lo + 1, hi);
    }
  }

  /** The first capable position from `lo` on whose answer stops the chain. */
  function FirstStop<T>(ps: seq<Provider>, cap: Capability, answers: seq<Outcome<T>>, skipNotImplemented: bool,
                        lo: nat): (r: Option<nat>)
    requires |answers| == |ps| && lo <= |ps|
    ensures r.Some? ==> lo <= r.value < |ps| && cap in ps[r.value].caps
                        && !Continues(answers[r.value], skipNotImplemented)
    decreases |ps| - lo
  {
    if lo == |ps| then None
    else if cap in ps[lo].caps && !Continues(answers[lo], skipNotImplemented) then Some(lo)
    else FirstStop(ps, cap, answers, skipNotImplemented, lo + 1)
  }

  /** Every capable position before the first stop lets the chain go on. */
  lemma {:induction false} FirstStopFirst<T>(ps: seq<Provider>, cap: Capability, answers: seq<Outcome<T>>,
                                             skip: bool, lo: nat, j: nat)
    requires |answers| == |ps| && lo <= j < |ps| && cap in ps[j].caps
    requires var r := FirstStop(ps, cap, answers, skip, lo); r.None? || j < r.value
    ensures Continues(answers[j], skip)
    decreases |ps| - lo
  {
    if lo < j {
      FirstStopFirst(ps, cap, answers, skip, lo + 1, j);
    }
  }

  /** The error of the last capable position in `[lo, hi)` that answered with a retryable `MarketDataError`. */
  function LastRetryable<T>(ps: seq<Provider>, cap: Capability, answers: seq<Outcome<T>>, lo: nat, hi: nat)
    : (r: Option<MarketDataError>)
    requires |answers| == |ps| && lo <= hi <= |ps|
    ensures r.Some? ==> r.value.retryable
    decreases hi - lo
  {
    if lo == hi then None
    else if cap in ps[hi - 1].caps && answers[hi - 1].Raised? && answers[hi - 1].exc.MarketDataExc?
            && answers[hi - 1].exc.error.retryable then
      Some(answers[hi - 1].exc.error)
    else LastRetryable(ps, cap, answers, lo, hi - 1)
  }

  /** The error `LastRetryable` reports is one a capable provider in the range raised. */
  lemma {:induction false} LastRetryableSound<T>(ps: seq<Provider>, cap: Capability, answers: seq<Outcome<T>>,
                                                 lo: nat, hi: nat)
    requires |answers| == |ps| && lo <= hi <= |ps|
    ensures var r := LastRetryable(ps, cap, answers, lo, hi);
            r.Some? ==> exists j :: lo <= j < hi && cap in ps[j].caps && answers[j] == Raised(MarketDataExc(r.value))
    decreases hi - lo
  {
    if lo < hi {
      LastRetryableSound(ps, cap, answers, lo, hi - 1);
    }
  }

  lemma {:induction false} LastRetryableFront<T>(ps: seq<Provider>, cap: Capability, answers: seq<Outcome<T>>,
                                                 lo: nat, hi: nat)
    requires |answers| == |ps| && lo < hi <= |ps|
    ensures var rest := LastRetryable(ps, cap, answers, lo + 1, hi);
            var here := answers[lo];
            LastRetryable(ps, cap, answers, lo, hi)
              == if rest.Some? then rest
                 else if cap in ps[lo].caps && here.Raised? && here.exc.MarketDataExc? && here.exc.error.retryable
                 then Some(here.exc.error) else None
    decreases hi - lo
  {
    if lo + 1 < hi {
      LastRetryableFront(ps, cap, answers, lo, hi - 1);
    }
  }

  /**
   * What the chain does, stated without the loop: it stops at the first
   * capable provider whose answer is not a retryable failure and passes that
   * answer on, having invoked exactly the capable providers up to it; if
   * there is none, it raises the last retryable error (or the one carried
   * in, or `exhausted`) having invoked every capable provider.
   */
  function ChainSpec<T>(ps: seq<Provider>, cap: Capability, answers: seq<Outcome<T>>, skip: bool, i: nat,
                        last: Option<MarketDataError>, exhausted: MarketDataError): (Outcome<T>, seq<nat>)
    requires |answers| == |ps| && i <= |ps|
  {
    var stop := FirstStop(ps, cap, answers, skip, i);
    var seen := LastRetryable(ps, cap, answers, i, |ps|);
    if stop.Some? then (answers[stop.value], CapableIn(ps, cap, i, stop.value + 1))
    else (Raised(MarketDataExc(if seen.Some? then seen.value else if last.Some? then last.value else exhausted)),
          CapableIn(ps, cap, i, |ps|))
  }

  /** The loop agrees with `ChainSpec`. */
  lemma {:induction false} ChainMeaning<T>(ps: seq<Provider>, cap: Capability, answers: seq<Outcome<T>>,
                                           skip: bool, i: nat, last: Option<MarketDataError>,
                                           exhausted: MarketDataError)
    requires |answers| == |ps| && i <= |ps|
    requires last.Some? ==> last.value.retryable
    ensures Chain(ps, cap, answers, skip, i, last, exhausted) == ChainSpec(ps, cap, answers, skip, i, last, exhausted)
    decreases |ps| - i
  {
    if i < |ps| {
      if cap !in ps[i].caps {
        ChainMeaning(ps, cap, answers, skip, i + 1, last, exhausted);
        ChainSpecSkip(ps, cap, answers, skip, i, last, exhausted);
      } else if Continues(answers[i], skip) {
        ChainMeaning(ps, cap, answers, skip, i + 1, Remember(answers[i], last), exhausted);
        ChainSpecContinue(ps, cap, answers, skip, i, last, exhausted);
      } else {
        ChainSpecStop(ps, cap, answers, skip, i, last, exhausted);
      }
    }
  }

  lemma ChainSpecSkip<T>(ps: seq<Provider>, cap: Capability, answers: seq<Outcome<T>>, skip: bool, i: nat,
                         last: Option<MarketDataError>, exhausted: MarketDataError)
    requires |answers| == |ps| && i < |ps| && cap !in ps[i].caps
    ensures ChainSpec(ps, cap, answers, skip, i, last, exhausted)
         == ChainSpec(ps, cap, answers, skip, i + 1, last, exhausted)
  {
    LastRetryableFront(ps, cap, answers, i, |ps|);
  }

  lemma ChainSpecContinue<T>(ps: seq<Provider>, cap: Capability, answers: seq<Outcome<T>>, skip: bool, i: nat,
                             last: Option<MarketDataError>, exhausted: MarketDataError)
    requires |answers| == |ps| && i < |ps| && cap in ps[i].caps && Continues(answers[i], skip)
    ensures var (r, invoked) := ChainSpec(ps, cap, answers, skip, i + 1, Remember(answers[i], last), exhausted);
            ChainSpec(ps, cap, answers, skip, i, last, exhausted) == (r, [i] + invoked)
  {
    LastRetryableFront(ps, cap, answers, i, |ps|);
  }

  lemma ChainSpecStop<T>(ps: seq<Provider>, cap: Capability, answers: seq<Outcome<T>>, skip: bool, i: nat,
                         last: Option<MarketDataError>, exhausted: MarketDataError)
    requires |answers| == |ps| && i < |ps| && cap in ps[i].caps && !Continues(answers[i], skip)
    ensures ChainSpec(ps, cap, answers, skip, i, last, exhausted) == (answers[i], [i])
  {
    assert CapableIn(ps, cap, i + 1, i + 1) == [];
    assert [i] + [] == [i];
  }

  /** The chain invokes only capable providers, in list order, each at most once. */
  lemma ChainInvocations<T>(ps: seq<Provider>, cap: Capability, answers: seq<Outcome<T>>, skip: bool,
                            exhausted: MarketDataError)
    requires |answers| == |ps|
    ensures var invoked := Chain(ps, cap, answers, skip, 0, None, exhausted).1;
            (forall k :: 0 <= k < |invoked| ==> invoked[k] < |ps| && cap in ps[invoked[k]].caps)
            && (forall k, l :: 0 <= k < l < |invoked| ==> invoked[k] < invoked[l])
  {
    ChainMeaning(ps, cap, answers, skip, 0, None, exhausted);
    var stop := FirstStop(ps, cap, answers, skip, 0);
    CapableInMeaning(ps, cap, 0, if stop.Some? then stop.value + 1 else |ps|);
  }

  /** A non-retryable `MarketDataError` from a provider the chain reaches is re-raised, and nothing after it runs. */
  lemma NonRetryableStops<T>(ps: seq<Provider>, cap: Capability, answers: seq<Outcome<T>>, skip: bool,
                             exhausted: MarketDataError, j: nat, e: MarketDataError)
    requires |answers| == |ps| && j < |ps| && cap in ps[j].caps
    requires answers[j] == Raised(MarketDataExc(e)) && !e.retryable
    requires forall k :: 0 <= k < j && cap in ps[k].caps ==> Continues(answers[k], skip)
    ensures var (r, invoked) := Chain(ps, cap, answers, skip, 0, None, exhausted);
            r == Raised(MarketDataExc(e)) && invoked != [] && invoked[|invoked| - 1] == j
  {
    ChainMeaning(ps, cap, answers, skip, 0, None, exhausted);
    var stop := FirstStop(ps, cap, answers, skip, 0);
    if stop.None? || j < stop.value {
      FirstStopFirst(ps, cap, answers, skip, 0, j);
    }
    assert stop.value == j;
    LastInvokedIsStop(ps, cap, j);
  }

  /** The last capable position up to a capable `j` is `j` itself. */
  lemma LastInvokedIsStop(ps: seq<Provider>, cap: Capability, j: nat)
    requires j < |ps| && cap in ps[j].caps
    ensures var r := CapableIn(ps, cap, 0, j + 1); r != [] && r[|r| - 1] == j
  {
    CapableInMeaning(ps, cap, 0, j + 1);
    var r := CapableIn(ps, cap, 0, j + 1);
    var k :| 0 <= k < |r| && r[k] == j;
  }

  /** With no stopping answer, the last retryable error seen is raised, or else `exhausted`. */
  lemma ExhaustedRaises<T>(ps: seq<Provider>, cap: Capability, answers: seq<Outcome<T>>, skip: bool,
                           exhausted: MarketDataError)
    requires |answers| == |ps|
    requires forall k :: 0 <= k < |ps| && cap in ps[k].caps ==> Continues(answers[k], skip)
    ensures var seen := LastRetryable(ps, cap, answers, 0, |ps|);
            Chain(ps, cap, answers, skip, 0, None, exhausted).0
              == Raised(MarketDataExc(if seen.Some? then seen.value else exhausted))
    ensures LastRetryable(ps, cap, answers, 0, |ps|).None? ==>
              forall k :: 0 <= k < |ps| && cap in ps[k].caps ==> answers[k] == Raised(NotImplementedExc)
  {
    ChainMeaning(ps, cap, answers, skip, 0, None, exhausted);
    if LastRetryable(ps, cap, answers, 0, |ps|).None? {
      forall k | 0 <= k < |ps| && cap in ps[k].caps ensures answers[k] == Raised(NotImplementedExc) {
        LastRetryableNone(ps, cap, answers, 0, |ps|, k);
      }
    }
  }

  lemma {:induction false} LastRetryableNone<T>(ps: seq<Provider>, cap: Capability, answers: seq<Outcome<T>>,
                                                lo: nat, hi: nat, k: nat)
    requires |answers| == |ps| && lo <= k < hi <= |ps| && cap in ps[k].caps
    requires LastRetryable(ps, cap, answers, lo, hi).None?
    ensures !(answers[k].Raised? && answers[k].exc.MarketDataExc? && answers[k].exc.error.retryable)
    decreases hi - lo
  {
    if k < hi - 1 {
      LastRetryableNone(ps, cap, answers, lo, hi - 1, k);
    }
  }

  /** After invoking `invoked`, the loop at position `i` with `last` finishes as the chain from the start does. */
  ghost predicate ChainResumes<T>(ps: seq<Provider>, cap: Capability, answers: seq<Outcome<T>>, skip: bool,
                                  exhausted: MarketDataError, i: nat, last: Option<MarketDataError>,
                                  invoked: seq<nat>)
    requires |answers| == |ps| && i <= |ps|
  {
    var full := Chain(ps, cap, answers, skip, 0, None, exhausted);
    var rest := Chain(ps, cap, answers, skip, i, last, exhausted);
    full.0 == rest.0 && full.1 == invoked + rest.1
  }

  /** A provider without the capability is passed over. */
  lemma ChainSkip<T>(ps: seq<Provider>, cap: Capability, answers: seq<Outcome<T>>, skip: bool,
                     exhausted: MarketDataError, i: nat, last: Option<MarketDataError>, invoked: seq<nat>)
    requires |answers| == |ps| && i < |ps| && cap !in ps[i].caps
    requires ChainResumes(ps, cap, answers, skip, exhausted, i, last, invoked)
    ensures ChainResumes(ps, cap, answers, skip, exhausted, i + 1, last, invoked)
  {
  }

  /** One capable provider's answer either ends the chain or moves it on. */
  lemma ChainAdvance<T>(ps: seq<Provider>, cap: Capability, answers: seq<Outcome<T>>, skip: bool,
                        exhausted: MarketDataError, i: nat, last: Option<MarketDataError>, invoked: seq<nat>)
    requires |answers| == |ps| && i < |ps| && cap in ps[i].caps
    requires ChainResumes(ps, cap, answers, skip, exhausted, i, last, invoked)
    ensures Continues(answers[i], skip)
            ==> ChainResumes(ps, cap, answers, skip, exhausted, i + 1, Remember(answers[i], last), invoked + [i])
    ensures !Continues(answers[i], skip)
            ==> Chain(ps, cap, answers, skip, 0, None, exhausted) == (answers[i], invoked + [i])
  {
    if Continues(answers[i], skip) {
      var rest := Chain(ps, cap, answers, skip, i + 1, Remember(answers[i], last), exhausted);
      AppendAssoc(invoked, [i], rest.1);
    }
  }

  /** `_first_capable`: the chain with `NotImplementedError` skipped. */
  method FirstCapable<T>(ps: seq<Provider>, cap: Capability, answers: seq<Outcome<T>>)
    returns (r: Outcome<T>, invoked: seq<nat>)
    requires |answers| == |ps|
    ensures (r, invoked) == Chain(ps, cap, answers, true, 0, None, NoProviderSupports(cap))
  {
    var last: Option<MarketDataError> := None;
    invoked := [];
    var i := 0;
    assert [] + Chain(ps, cap, answers, true, 0, None, NoProviderSupports(cap)).1
        == Chain(ps, cap, answers, true, 0, None, NoProviderSupports(cap)).1;
    while i < |ps|
      invariant 0 <= i <= |ps|
      invariant ChainResumes(ps, cap, answers, true, NoProviderSupports(cap), i, last, invoked)
    {
      if cap !in ps[i].caps {
        ChainSkip(ps, cap, answers, true, NoProviderSupports(cap), i, last, invoked);
        i := i + 1;
        continue;
      }
      var answer := answers[i];
      ChainAdvance(ps, cap, answers, true, NoProviderSupports(cap), i, last, invoked);
      if answer.Raised? && answer.exc.MarketDataExc? {
        if !answer.exc.error.retryable {
          return answer, invoked + [i];
        }
        last := Some(answer.exc.error);
        invoked := invoked + [i];
      } else if answer.Raised? && answer.exc.NotImplementedExc? {
        invoked := invoked + [i];
      } else {
        return answer, invoked + [i];
      }
      i := i + 1;
    }
    assert invoked + [] == invoked;
    var e := if last.Some? then last.value else NoProviderSupports(cap);
    return Raised(MarketDataExc(e)), invoked;
  }

  function NoProviderSupports(cap: Capability): MarketDataError
  {
    MarketDataError("No provider supports '" + CapabilityName(cap) + "'", NoData)
  }

  const AllProvidersFailed := MarketDataError("All providers failed", NoData)

  /** A chain that finds nothing raises a non-retryable `NO_DATA` error. */
  lemma FallbackErrorsNotRetryable(cap: Capability)
    ensures !NoProviderSupports(cap).retryable && NoProviderSupports(cap).code == NoData
    ensures !AllProvidersFailed.retryable && AllProvidersFailed.code == NoData
  {
  }

  /** Providers that only implement bars never answer another kind of request. */
  lemma BaseProvidersAnswerNothingElse(ps: seq<Provider>, symbol: string)
    requires forall k :: 0 <= k < |ps| ==> ps[k].caps == {BarsCap}
    ensures Chain(ps, QuotesCap, QuoteAnswers(ps, symbol), true, 0, None, NoProviderSupports(QuotesCap))
         == (Raised(MarketDataExc(NoProviderSupports(QuotesCap))), [])
  {
    ChainMeaning(ps, QuotesCap, QuoteAnswers(ps, symbol), true, 0, None, NoProviderSupports(QuotesCap));
    assert FirstStop(ps, QuotesCap, QuoteAnswers(ps, symbol), true, 0).None?;
    assert LastRetryable(ps, QuotesCap, QuoteAnswers(ps, symbol), 0, |ps|).None?;
    assert CapableIn(ps, QuotesCap, 0, |ps|) == [];
  }

  /** A provider that advertises a capability but raises `NotImplementedError` for it is skipped by `_first_capable`. */
  lemma NotImplementedSkipped<T>(ps: seq<Provider>, cap: Capability, answers: seq<Outcome<T>>, j: nat)
    requires |answers| == |ps| && j < |ps| && cap in ps[j].caps && answers[j] == Raised(NotImplementedExc)
    ensures Chain(ps, cap, answers, true, j, None, NoProviderSupports(cap))
         == var (r, invoked) := Chain(ps, cap, answers, true, j + 1, None, NoProviderSupports(cap)); (r, [j] + invoked)
  {
  }

  // ------------------------------------------------------------------
  // Per-kind answers
  // ------------------------------------------------------------------

  function QuoteAnswers(ps: seq<Provider>, symbol: string): (r: seq<Outcome<Quote>>)
    ensures |r| == |ps| && forall i :: 0 <= i < |ps| ==> r[i] == ps[i].quote(symbol)
  {
    seq(|ps|, i requires 0 <= i < |ps| => ps[i].quote(symbol))
  }

  function SnapshotAnswers(ps: seq<Provider>, symbol: string): (r: seq<Outcome<Snapshot>>)
    ensures |r| == |ps| && forall i :: 0 <= i < |ps| ==> r[i] == ps[i].snapshot(symbol)
  {
    seq(|ps|, i requires 0 <= i < |ps| => ps[i].snapshot(symbol))
  }

  function EarningsAnswers(ps: seq<Provider>, symbol: string, limit: int): (r: seq<Outcome<seq<EarningsReport>>>)
    ensures |r| == |ps| && forall i :: 0 <= i < |ps| ==> r[i] == ps[i].earnings(symbol, limit)
  {
    seq(|ps|, i requires 0 <= i < |ps| => ps[i].earnings(symbol, limit))
  }

  function DividendAnswers(ps: seq<Provider>, symbol: string, limit: int): (r: seq<Outcome<seq<DividendEvent>>>)
    ensures |r| == |ps| && forall i :: 0 <= i < |ps| ==> r[i] == ps[i].dividends(symbol, limit)
  {
    seq(|ps|, i requires 0 <= i < |ps| => ps[i].dividends(symbol, limit))
  }

  function CorporateActionAnswers(ps: seq<Provider>, symbol: string): (r: seq<Outcome<seq<CorporateAction>>>)
    ensures |r| == |ps| && forall i :: 0 <= i < |ps| ==> r[i] == ps[i].corporateActions(symbol)
  {
    seq(|ps|, i requires 0 <= i < |ps| => ps[i].corporateActions(symbol))
  }

  /** `get_quote`: the first capable provider's quote. */
  function QuoteOf(ps: seq<Provider>, symbol: string): Outcome<Quote>
  {
    Chain(ps, QuotesCap, QuoteAnswers(ps, symbol), true, 0, None, NoProviderSupports(QuotesCap)).0
  }

  function SnapshotOf(ps: seq<Provider>, symbol: string): Outcome<Snapshot>
  {
    Chain(ps, SnapshotsCap, SnapshotAnswers(ps, symbol), true, 0, None, NoProviderSupports(SnapshotsCap)).0
  }

  /** A list of per-symbol outcomes: every value, or the first exception. */
  function Collect<T>(outs: seq<Outcome<T>>): (r: Outcome<seq<T>>)
    ensures r.Returned? <==> forall i :: 0 <= i < |outs| ==> outs[i].Returned?
    ensures r.Returned? ==> |r.value| == |outs| && forall i :: 0 <= i < |outs| ==> r.value[i] == outs[i].value
    ensures r.Raised? ==> exists j :: 0 <= j < |outs| && outs[j] == Raised(r.exc)
                                      && forall i :: 0 <= i < j ==> outs[i].Returned?
  {
    if outs == [] then Returned([])
    else if outs[0].Raised? then Raised(outs[0].exc)
    else
      var rest := Collect(outs[1..]);
      if rest.Raised? then
        assert forall i :: 1 <= i < |outs| ==> outs[i] == outs[1..][i - 1];
        Raised(rest.exc)
      else
        assert forall i :: 1 <= i < |outs| ==> outs[i] == outs[1..][i - 1];
        Returned([outs[0].value] + rest.value)
  }

  /** `xs` in front of the values of an outcome that returned; an exception passes through. */
  function Prepend<T>(xs: seq<T>, o: Outcome<seq<T>>): Outcome<seq<T>>
  {
    if o.Returned? then Returned(xs + o.value) else o
  }

  lemma PrependNothing<T>(o: Outcome<seq<T>>)
    ensures Prepend([], o) == o
  {
    if o.Returned? {
      assert [] + o.value == o.value;
    }
  }

  lemma PrependTwice<T>(xs: seq<T>, ys: seq<T>, o: Outcome<seq<T>>)
    ensures Prepend(xs, Prepend(ys, o)) == Prepend(xs + ys, o)
  {
    if o.Returned? {
      AppendAssoc(xs, ys, o.value);
    }
  }

  /** `Collect` looks at the first outcome and then at the rest. */
  lemma CollectFront<T>(outs: seq<Outcome<T>>)
    requires outs != []
    ensures Collect(outs) == if outs[0].Raised? then Raised(outs[0].exc) else Prepend([outs[0].value], Collect(outs[1..]))
  {
  }

  function QuotesOf(ps: seq<Provider>, symbols: seq<string>): (r: seq<Outcome<Quote>>)
    ensures |r| == |symbols| && forall i :: 0 <= i < |symbols| ==> r[i] == QuoteOf(ps, symbols[i])
  {
    seq(|symbols|, i requires 0 <= i < |symbols| => QuoteOf(ps, symbols[i]))
  }

  function SnapshotsOf(ps: seq<Provider>, symbols: seq<string>): (r: seq<Outcome<Snapshot>>)
    ensures |r| == |symbols| && forall i :: 0 <= i < |symbols| ==> r[i] == SnapshotOf(ps, symbols[i])
  {
    seq(|symbols|, i requires 0 <= i < |symbols| => SnapshotOf(ps, symbols[i]))
  }

  // ------------------------------------------------------------------
  // Bars: the quality gate and the whole fetch
  // ------------------------------------------------------------------

  function JoinWith(xs: seq<string>, sep: string): string
  {
    if xs == [] then "" else if |xs| == 1 then xs[0] else xs[0] + sep + JoinWith(xs[1..], sep)
  }

  /** The retryable error a series failing the quality gate turns into. */
  function ValidationError(result: ValidationResult): MarketDataError
  {
    MarketDataError("Validation failed: " + JoinWith(CheckNames(ValidationResult(result.FailedChecks())), "; "),
                    ValidationFailed, true)
  }

  /** What a provider's `get_bars` comes to once the quality gate has seen it. */
  function BarsAnswer(p: Provider, q: BarsRequest, validate: bool, nonFinite: real -> bool): Outcome<seq<Bar>>
  {
    match p.bars(q.symbol, q.start, q.end, q.timeframe)
    case Raised(e) => Raised(e)
    case Returned(bars) =>
      if validate && !Validation(bars, nonFinite).Passed() then Raised(MarketDataExc(ValidationError(Validation(bars, nonFinite))))
      else Returned(bars)
  }

  function BarsAnswers(ps: seq<Provider>, q: BarsRequest, validate: bool, nonFinite: real -> bool)
    : (r: seq<Outcome<seq<Bar>>>)
    ensures |r| == |ps| && forall i :: 0 <= i < |ps| ==> r[i] == BarsAnswer(ps[i], q, validate, nonFinite)
  {
    seq(|ps|, i requires 0 <= i < |ps| => BarsAnswer(ps[i], q, validate, nonFinite))
  }

  /** A series that fails the gate becomes a retryable `VALIDATION_FAILED` error, so the chain goes on. */
  lemma ValidationFailureIsRetryable(p: Provider, q: BarsRequest, nonFinite: real -> bool)
    requires p.bars(q.symbol, q.start, q.end, q.timeframe).Returned?
    requires !Validation(p.bars(q.symbol, q.start, q.end, q.timeframe).value, nonFinite).Passed()
    ensures var a := BarsAnswer(p, q, true, nonFinite);
            a.Raised? && a.exc.MarketDataExc? && a.exc.error.code == ValidationFailed && Continues(a, false)
  {
  }

  /** With the gate off, or a series that passes it, the provider's series is the answer. */
  lemma GatePassesSeries(p: Provider, q: BarsRequest, validate: bool, nonFinite: real -> bool)
    requires p.bars(q.symbol, q.start, q.end, q.timeframe).Returned?
    requires !validate || Validation(p.bars(q.symbol, q.start, q.end, q.timeframe).value, nonFinite).Passed()
    ensures BarsAnswer(p, q, validate, nonFinite) == p.bars(q.symbol, q.start, q.end, q.timeframe)
  {
  }

  /** One provider asked for bars, its series put through the quality gate when `validate` is on. */
  method AskForBars(p: Provider, q: BarsRequest, validate: bool, nonFinite: real -> bool)
    returns (answer: Outcome<seq<Bar>>)
    ensures answer == BarsAnswer(p, q, validate, nonFinite)
  {
    answer := p.bars(q.symbol, q.start, q.end, q.timeframe);
    if answer.Returned? && validate {
      var result := ValidateBars(answer.value, nonFinite);
      if !result.Passed() {
        answer := Raised(MarketDataExc(ValidationError(result)));
      }
    }
  }

  /**
   * `get_bars`: the cache, then the chain (which lets `NotImplementedError`
   * and every exception other than `MarketDataError` through), then one store
   * of the series the chain returned. The store can raise `KeyError`.
   */
  function FetchBars(st: CacheState, ps: seq<Provider>, q: BarsRequest, validate: bool, nonFinite: real -> bool,
                     clock: Clock): (CacheState, Outcome<seq<Bar>>, seq<nat>)
  {
    var (st1, hit) := CacheGet(st, q, clock);
    if hit.Some? then (st1, Returned(hit.value), [])
    else
      var (r, invoked) := Chain(ps, BarsCap, BarsAnswers(ps, q, validate, nonFinite), false, 0, None, AllProvidersFailed);
      if r.Returned? then
        var (st2, raised) := CacheStore(st1, q, r.value, clock);
        (st2, if raised then Raised(OtherExc("KeyError")) else r, invoked)
      else (st1, r, invoked)
  }

  /** A cache hit is returned unchanged and no provider is invoked. */
  lemma CacheHitShortCircuits(st: CacheState, ps: seq<Provider>, q: BarsRequest, validate: bool,
                              nonFinite: real -> bool, clock: Clock)
    requires CacheGet(st, q, clock).1.Some?
    ensures var (after, r, invoked) := FetchBars(st, ps, q, validate, nonFinite, clock);
            after == CacheGet(st, q, clock).0 && r == Returned(CacheGet(st, q, clock).1.value) && invoked == []
  {
  }

  /**
   * On a miss, a series some provider returned is stored exactly once, under
   * the request, and returned; on every failure the cache holds only what
   * the lookup left.
   */
  lemma MissStoresOnlySuccess(st: CacheState, ps: seq<Provider>, q: BarsRequest, validate: bool,
                              nonFinite: real -> bool, clock: Clock)
    requires CacheGet(st, q, clock).1.None?
    ensures var (after, r, invoked) := FetchBars(st, ps, q, validate, nonFinite, clock);
            var (r0, invoked0) := Chain(ps, BarsCap, BarsAnswers(ps, q, validate, nonFinite), false, 0, None, AllProvidersFailed);
            var st1 := CacheGet(st, q, clock).0;
            invoked == invoked0
            && (r0.Raised? ==> r == r0 && after == st1)
            && (r0.Returned? ==> after == CacheStore(st1, q, r0.value, clock).0
                                 && (r == r0 || r == Raised(OtherExc("KeyError"))))
  {
  }

  /**
   * A fetch that returns bars returned what the first stopping provider gave,
   * and every capable provider before it failed retryably; with the gate on,
   * those bars pass it.
   */
  lemma FetchedBarsCameFromProvider(st: CacheState, ps: seq<Provider>, q: BarsRequest, validate: bool,
                                    nonFinite: real -> bool, clock: Clock)
    requires CacheGet(st, q, clock).1.None?
    requires FetchBars(st, ps, q, validate, nonFinite, clock).1.Returned?
    ensures var bars := FetchBars(st, ps, q, validate, nonFinite, clock).1.value;
            var invoked := FetchBars(st, ps, q, validate, nonFinite, clock).2;
            invoked != []
            && var j := invoked[|invoked| - 1];
            j < |ps| && ps[j].bars(q.symbol, q.start, q.end, q.timeframe) == Returned(bars)
            && (validate ==> Validation(bars, nonFinite).Passed())
  {
    MissStoresOnlySuccess(st, ps, q, validate, nonFinite, clock);
    ChainReturnedFromProvider(ps, q, validate, nonFinite);
  }

  /** The series a chain of bar answers returns is the answer of the last provider it invoked. */
  lemma ChainReturnedFromProvider(ps: seq<Provider>, q: BarsRequest, validate: bool, nonFinite: real -> bool)
    requires Chain(ps, BarsCap, BarsAnswers(ps, q, validate, nonFinite), false, 0, None, AllProvidersFailed).0.Returned?
    ensures var c := Chain(ps, BarsCap, BarsAnswers(ps, q, validate, nonFinite), false, 0, None, AllProvidersFailed);
            c.1 != []
            && var j := c.1[|c.1| - 1];
            j < |ps| && ps[j].bars(q.symbol, q.start, q.end, q.timeframe) == Returned(c.0.value)
            && (validate ==> Validation(c.0.value, nonFinite).Passed())
  {
    var answers := BarsAnswers(ps, q, validate, nonFinite);
    var c := Chain(ps, BarsCap, answers, false, 0, None, AllProvidersFailed);
    ChainReturnedIsAnswer(ps, BarsCap, answers, false, AllProvidersFailed);
    var j := c.1[|c.1| - 1];
    assert BarsAnswer(ps[j], q, validate, nonFinite) == c.0;
  }

  /** A value the chain returns is the answer of the last provider it invoked. */
  lemma ChainReturnedIsAnswer<T>(ps: seq<Provider>, cap: Capability, answers: seq<Outcome<T>>, skip: bool,
                                 exhausted: MarketDataError)
    requires |answers| == |ps| && Chain(ps, cap, answers, skip, 0, None, exhausted).0.Returned?
    ensures var c := Chain(ps, cap, answers, skip, 0, None, exhausted);
            c.1 != [] && c.1[|c.1| - 1] < |ps| && answers[c.1[|c.1| - 1]] == c.0
  {
    ChainMeaning(ps, cap, answers, skip, 0, None, exhausted);
    var stop := FirstStop(ps, cap, answers, skip, 0);
    assert stop.Some?;
    LastInvokedIsStop(ps, cap, stop.value);
  }

  // ------------------------------------------------------------------
  // Reference data: the first-non-null merge
  // ------------------------------------------------------------------

  /** The two fields `get_ticker_info` fills before asking any provider. */
  function Seed(symbol: string): map<TickerField, FieldValue>
  {
    map[SymbolField := Text(Upper(symbol)), NameField := Text(Upper(symbol))]
  }

  /** One provider's record merged in: a non-null field fills a field not yet set. */
  function MergeFields(info: map<TickerField, FieldValue>, t: TickerInfo, fs: seq<TickerField>)
    : map<TickerField, FieldValue>
  {
    if fs == [] then info
    else
      var m := MergeFields(info, t, fs[..|fs| - 1]);
      var f := fs[|fs| - 1];
      if t.Get(f).Some? && f !in m then m[f := t.Get(f).value] else m
  }

  /** The records of every provider, in order, merged into `info`. */
  function MergeAll(info: map<TickerField, FieldValue>, ts: seq<TickerInfo>): map<TickerField, FieldValue>
  {
    if ts == [] then info else MergeFields(MergeAll(info, ts[..|ts| - 1]), ts[|ts| - 1], TickerFields)
  }

  /** The records the capable providers return, in provider order; a provider that raises contributes none. */
  function TickerRecords(ps: seq<Provider>, symbol: string): seq<TickerInfo>
  {
    if ps == [] then []
    else
      var p := ps[|ps| - 1];
      TickerRecords(ps[..|ps| - 1], symbol)
        + if TickerInfoCap in p.caps && p.tickerInfo(symbol).Returned? then [p.tickerInfo(symbol).value] else []
  }

  /** The first non-null value of a field among records, in order. */
  function FirstValue(ts: seq<TickerInfo>, f: TickerField): Option<FieldValue>
  {
    if ts == [] then None
    else if FirstValue(ts[..|ts| - 1], f).Some? then FirstValue(ts[..|ts| - 1], f)
    else ts[|ts| - 1].Get(f)
  }

  lemma {:induction false} MergeFieldsMeaning(info: map<TickerField, FieldValue>, t: TickerInfo,
                                              fs: seq<TickerField>, f: TickerField)
    ensures var m := MergeFields(info, t, fs);
            (f in m <==> f in info || (f in fs && t.Get(f).Some?))
            && (f in info ==> m[f] == info[f])
            && (f !in info && f in fs && t.Get(f).Some? ==> m[f] == t.Get(f).value)
  {
    if fs != [] {
      MergeFieldsMeaning(info, t, fs[..|fs| - 1], f);
      assert fs == fs[..|fs| - 1] + [fs[|fs| - 1]];
      assert f in fs <==> f in fs[..|fs| - 1] || f == fs[|fs| - 1];
    }
  }

  /** Each field of the merge is the seed's value if seeded, else the first non-null provider value. */
  lemma {:induction false} MergeAllMeaning(info: map<TickerField, FieldValue>, ts: seq<TickerInfo>, f: TickerField)
    ensures var m := MergeAll(info, ts);
            (f in info ==> f in m && m[f] == info[f])
            && (f !in info ==> (f in m <==> FirstValue(ts, f).Some?)
                               && (f in m ==> m[f] == FirstValue(ts, f).value))
  {
    if ts != [] {
      MergeAllMeaning(info, ts[..|ts| - 1], f);
      TickerFieldsComplete(f);
      MergeFieldsMeaning(MergeAll(info, ts[..|ts| - 1]), ts[|ts| - 1], TickerFields, f);
    }
  }

  lemma {:induction false} MergeAllWellTyped(info: map<TickerField, FieldValue>, ts: seq<TickerInfo>, f: TickerField)
    requires forall g :: g in info ==> WellTyped(g, info[g])
    ensures f in MergeAll(info, ts) ==> WellTyped(f, MergeAll(info, ts)[f])
  {
    MergeAllMeaning(info, ts, f);
    if f !in info && f in MergeAll(info, ts) {
      FirstValueWellTyped(ts, f);
    }
  }

  lemma {:induction false} FirstValueWellTyped(ts: seq<TickerInfo>, f: TickerField)
    requires FirstValue(ts, f).Some?
    ensures WellTyped(f, FirstValue(ts, f).value)
  {
    if FirstValue(ts[..|ts| - 1], f).Some? {
      FirstValueWellTyped(ts[..|ts| - 1], f);
    } else {
      GetWellTyped(ts[|ts| - 1], f);
    }
  }

  /** `get_ticker_info`'s result for the records the providers returned. */
  function MergedTickerInfo(symbol: string, ts: seq<TickerInfo>): TickerInfo
  {
    var m := MergeAll(Seed(symbol), ts);
    MergeAllMeaning(Seed(symbol), ts, SymbolField);
    MergeAllMeaning(Seed(symbol), ts, NameField);
    assert forall g :: g in m ==> WellTyped(g, m[g]) by {
      forall g | g in m ensures WellTyped(g, m[g]) {
        MergeAllWellTyped(Seed(symbol), ts, g);
      }
    }
    BuildTickerInfo(m)
  }

  /**
   * The merged record keeps `symbol` and `name` at the upper-cased symbol,
   * takes every other field from the first provider with a non-null value,
   * and defaults the security type to `"CS"` when no provider answered.
   */
  lemma MergedTickerInfoMeaning(symbol: string, ts: seq<TickerInfo>, f: TickerField)
    ensures var t := MergedTickerInfo(symbol, ts);
            t.symbol == Upper(symbol) && t.name == Upper(symbol)
            && (f != SymbolField && f != NameField && f != TypeField ==> t.Get(f) == FirstValue(ts, f))
            && t.Get(TypeField) == (if ts == [] then Some(Text("CS")) else FirstValue(ts, TypeField))
  {
    var m := MergeAll(Seed(symbol), ts);
    MergeAllMeaning(Seed(symbol), ts, SymbolField);
    MergeAllMeaning(Seed(symbol), ts, NameField);
    MergeAllMeaning(Seed(symbol), ts, f);
    MergeAllMeaning(Seed(symbol), ts, TypeField);
    assert forall g :: g in m ==> WellTyped(g, m[g]) by {
      forall g | g in m ensures WellTyped(g, m[g]) {
        MergeAllWellTyped(Seed(symbol), ts, g);
      }
    }
    BuildTickerInfoGet(m, f);
    BuildTickerInfoGet(m, TypeField);
  }

  /** One record merged in place, field by field. */
  method MergeRecord(info: map<TickerField, FieldValue>, t: TickerInfo) returns (merged: map<TickerField, FieldValue>)
    ensures merged == MergeFields(info, t, TickerFields)
  {
    merged := info;
    var j := 0;
    while j < |TickerFields|
      invariant 0 <= j <= |TickerFields|
      invariant merged == MergeFields(info, t, TickerFields[..j])
    {
      var f := TickerFields[j];
      assert TickerFields[..j + 1][..j] == TickerFields[..j];
      var val := t.Get(f);
      if val.Some? && f !in merged {
        merged := merged[f := val.value];
      }
      j := j + 1;
    }
    assert TickerFields[..j] == TickerFields;
  }

  // ------------------------------------------------------------------
  // The manager
  // ------------------------------------------------------------------

  /** The configured cache backend. */
  datatype Backend = MemoryBackend(mem: MemoryCache) | DiskBackend(disk: ParquetCache) | NoBackend(off: NoCache)

  class MarketDataManager {
    const providers: seq<Provider>
    const backend: Backend
    const validate: bool
    /** Which reals count as NaN or infinite for the quality gate. */
    const nonFinite: real -> bool

    function CacheObjects(): set<object>
    {
      match backend
      case MemoryBackend(m) => {m}
      case DiskBackend(d) => {d}
      case NoBackend(n) => {n}
    }

    function Cache(): CacheState
      reads CacheObjects()
    {
      match backend
      case MemoryBackend(m) => MemoryState(m.ttl, m.maxEntries, m.entries)
      case DiskBackend(d) => DiskState(d.State())
      case NoBackend(_) => NoState
    }

    ghost predicate Valid()
      reads CacheObjects()
    {
      CacheValid(Cache())
    }

    /** The backend named `"parquet"` or `"memory"`, else no cache; a disk cache starts from `disk`. */
    constructor (providers: seq<Provider>, cacheBackend: string, ttlSeconds: int, validate: bool,
                 nonFinite: real -> bool, disk: Disk)
      ensures Valid() && fresh(CacheObjects())
      ensures this.providers == providers && this.validate == validate && this.nonFinite == nonFinite
      ensures Cache() == if cacheBackend == "parquet" then DiskState(disk)
                         else if cacheBackend == "memory" then MemoryState(ttlSeconds, 1000, [])
                         else NoState
    {
      this.providers := providers;
      this.validate := validate;
      this.nonFinite := nonFinite;
      if cacheBackend == "parquet" {
        var d := new ParquetCache(disk.files, disk.unreadable);
        backend := DiskBackend(d);
      } else if cacheBackend == "memory" {
        var m := new MemoryCache(ttlSeconds);
        backend := MemoryBackend(m);
      } else {
        var n := new NoCache();
        backend := NoBackend(n);
      }
    }

    method CacheGetBars(q: BarsRequest, clock: Clock) returns (hit: Option<seq<Bar>>)
      requires Valid()
      modifies CacheObjects()
      ensures Valid()
      ensures (Cache(), hit) == CacheGet(old(Cache()), q, clock)
    {
      match backend
      case MemoryBackend(m) =>
        hit := m.GetBars(q.symbol, q.start, q.end, q.timeframe, clock.sweepNow, clock.checkNow);
      case DiskBackend(d) =>
        hit := d.GetBars(q.symbol, q.start, q.end, q.timeframe);
      case NoBackend(n) =>
        hit := n.GetBars(q.symbol, q.start, q.end, q.timeframe);
    }

    method CacheStoreBars(q: BarsRequest, bars: seq<Bar>, clock: Clock) returns (raised: bool)
      requires Valid()
      modifies CacheObjects()
      ensures Valid()
      ensures (Cache(), raised) == CacheStore(old(Cache()), q, bars, clock)
    {
      match backend
      case MemoryBackend(m) =>
        raised := m.StoreBars(q.symbol, bars, q.timeframe, q.start, q.end, clock.storeNow);
      case DiskBackend(d) =>
        d.StoreBars(q.symbol, bars, q.timeframe, q.start, q.end);
        raised := false;
      case NoBackend(n) =>
        n.StoreBars(q.symbol, bars, q.timeframe, q.start, q.end);
        raised := false;
    }

    /** `get_bars`, with the memory cache's clock readings as `clock`. */
    method GetBars(symbol: string, start: Date, end: Date, timeframe: string, clock: Clock)
      returns (r: Outcome<seq<Bar>>, invoked: seq<nat>)
      requires Valid()
      modifies CacheObjects()
      ensures Valid()
      ensures (Cache(), r, invoked)
           == FetchBars(old(Cache()), providers, BarsRequest(symbol, start, end, timeframe), validate, nonFinite, clock)
    {
      var q := BarsRequest(symbol, start, end, timeframe);
      var cached := CacheGetBars(q, clock);
      if cached.Some? {
        return Returned(cached.value), [];
      }
      ghost var answers := BarsAnswers(providers, q, validate, nonFinite);
      ghost var st1 := Cache();
      var last: Option<MarketDataError> := None;
      invoked := [];
      var i := 0;
      assert [] + Chain(providers, BarsCap, answers, false, 0, None, AllProvidersFailed).1
          == Chain(providers, BarsCap, answers, false, 0, None, AllProvidersFailed).1;
      while i < |providers|
        invariant 0 <= i <= |providers|
        invariant Valid() && Cache() == st1
        invariant ChainResumes(providers, BarsCap, answers, false, AllProvidersFailed, i, last, invoked)
      {
        var p := providers[i];
        if BarsCap !in p.caps {
          ChainSkip(providers, BarsCap, answers, false, AllProvidersFailed, i, last, invoked);
          i := i + 1;
          continue;
        }
        var answer := AskForBars(p, q, validate, nonFinite);
        assert answer == answers[i];
        ChainAdvance(providers, BarsCap, answers, false, AllProvidersFailed, i, last, invoked);
        if answer.Returned? {
          var raised := CacheStoreBars(q, answer.value, clock);
          invoked := invoked + [i];
          if raised {
            return Raised(OtherExc("KeyError")), invoked;
          }
          return answer, invoked;
        }
        if answer.exc.MarketDataExc? && answer.exc.error.retryable {
          assert Continues(answer, false) && Remember(answer, last) == Some(answer.exc.error);
          last := Some(answer.exc.error);
          invoked := invoked + [i];
        } else {
          return answer, invoked + [i];
        }
        i := i + 1;
      }
      assert invoked + [] == invoked;
      var e := if last.Some? then last.value else AllProvidersFailed;
      return Raised(MarketDataExc(e)), invoked;
    }

    method GetQuote(symbol: string) returns (r: Outcome<Quote>, invoked: seq<nat>)
      ensures (r, invoked) == Chain(providers, QuotesCap, QuoteAnswers(providers, symbol), true, 0, None,
                                    NoProviderSupports(QuotesCap))
    {
      r, invoked := FirstCapable(providers, QuotesCap, QuoteAnswers(providers, symbol));
    }

    /** `get_quotes`: one `get_quote` per symbol; the first exception ends the list. */
    method GetQuotes(symbols: seq<string>) returns (r: Outcome<seq<Quote>>)
      ensures r == Collect(QuotesOf(providers, symbols))
    {
      ghost var all := QuotesOf(providers, symbols);
      var quotes: seq<Quote> := [];
      var i := 0;
      assert all[0..] == all;
      PrependNothing(Collect(all));
      while i < |symbols|
        invariant 0 <= i <= |symbols|
        invariant Collect(all) == Prepend(quotes, Collect(all[i..]))
      {
        var q, _ := GetQuote(symbols[i]);
        CollectFront(all[i..]);
        assert all[i..][0] == q && all[i..][1..] == all[i + 1..];
        if q.Raised? {
          return Raised(q.exc);
        }
        PrependTwice(quotes, [q.value], Collect(all[i + 1..]));
        quotes := quotes + [q.value];
        i := i + 1;
      }
      assert all[i..] == [];
      assert quotes + [] == quotes;
      return Returned(quotes);
    }

    method GetSnapshot(symbol: string) returns (r: Outcome<Snapshot>, invoked: seq<nat>)
      ensures (r, invoked) == Chain(providers, SnapshotsCap, SnapshotAnswers(providers, symbol), true, 0, None,
                                    NoProviderSupports(SnapshotsCap))
    {
      r, invoked := FirstCapable(providers, SnapshotsCap, SnapshotAnswers(providers, symbol));
    }

    method GetSnapshots(symbols: seq<string>) returns (r: Outcome<seq<Snapshot>>)
      ensures r == Collect(SnapshotsOf(providers, symbols))
    {
      ghost var all := SnapshotsOf(providers, symbols);
      var snaps: seq<Snapshot> := [];
      var i := 0;
      assert all[0..] == all;
      PrependNothing(Collect(all));
      while i < |symbols|
        invariant 0 <= i <= |symbols|
        invariant Collect(all) == Prepend(snaps, Collect(all[i..]))
      {
        var s, _ := GetSnapshot(symbols[i]);
        CollectFront(all[i..]);
        assert all[i..][0] == s && all[i..][1..] == all[i + 1..];
        if s.Raised? {
          return Raised(s.exc);
        }
        PrependTwice(snaps, [s.value], Collect(all[i + 1..]));
        snaps := snaps + [s.value];
        i := i + 1;
      }
      assert all[i..] == [];
      assert snaps + [] == snaps;
      return Returned(snaps);
    }

    /** `get_earnings`; the default limit is 4. */
    method GetEarnings(symbol: string, limit: int := 4) returns (r: Outcome<seq<EarningsReport>>, invoked: seq<nat>)
      ensures (r, invoked) == Chain(providers, EarningsCap, EarningsAnswers(providers, symbol, limit), true, 0, None,
                                    NoProviderSupports(EarningsCap))
    {
      r, invoked := FirstCapable(providers, EarningsCap, EarningsAnswers(providers, symbol, limit));
    }

    /** `get_dividends`; the default limit is 12. */
    method GetDividends(symbol: string, limit: int := 12) returns (r: Outcome<seq<DividendEvent>>, invoked: seq<nat>)
      ensures (r, invoked) == Chain(providers, DividendsCap, DividendAnswers(providers, symbol, limit), true, 0, None,
                                    NoProviderSupports(DividendsCap))
    {
      r, invoked := FirstCapable(providers, DividendsCap, DividendAnswers(providers, symbol, limit));
    }

    method GetCorporateActions(symbol: string) returns (r: Outcome<seq<CorporateAction>>, invoked: seq<nat>)
      ensures (r, invoked) == Chain(providers, CorporateActionsCap, CorporateActionAnswers(providers, symbol), true,
                                    0, None, NoProviderSupports(CorporateActionsCap))
    {
      r, invoked := FirstCapable(providers, CorporateActionsCap, CorporateActionAnswers(providers, symbol));
    }

    /** `get_ticker_info`: merge every capable provider's record; any exception skips the provider. */
    method GetTickerInfo(symbol: string) returns (t: TickerInfo)
      ensures t == MergedTickerInfo(symbol, TickerRecords(providers, symbol))
    {
      var info := Seed(symbol);
      var i := 0;
      while i < |providers|
        invariant 0 <= i <= |providers|
        invariant info == MergeAll(Seed(symbol), TickerRecords(providers[..i], symbol))
      {
        var p := providers[i];
        ghost var before := TickerRecords(providers[..i], symbol);
        assert providers[..i + 1][..i] == providers[..i] && providers[..i + 1][i] == p;
        if TickerInfoCap in p.caps && p.tickerInfo(symbol).Returned? {
          var answer := p.tickerInfo(symbol);
          assert TickerRecords(providers[..i + 1], symbol) == before + [answer.value];
          assert (before + [answer.value])[..|before|] == before;
          info := MergeRecord(info, answer.value);
        } else {
          assert TickerRecords(providers[..i + 1], symbol) == before + [];
          assert before + [] == before;
        }
        i := i + 1;
      }
      assert providers[..i] == providers;
      t := MergedTickerInfo(symbol, TickerRecords(providers, symbol));
    }

    /** `get_trading_dates`: the first calendar-capable provider answers, with no fallback; else the local calendar. */
    method GetTradingDates(start: Date, end: Date) returns (r: Outcome<seq<Date>>)
      ensures r == TradingDatesOf(providers, start, end)
    {
      var i := 0;
      while i < |providers|
        invariant 0 <= i <= |providers|
        invariant TradingDatesOf(providers, start, end) == TradingDatesOf(providers[i..], start, end)
      {
        assert providers[i..][1..] == providers[i + 1..];
        if CalendarCap in providers[i].caps {
          return providers[i].tradingDates(start, end);
        }
        i := i + 1;
      }
      r := Calendar.GetTradingDates(start, end);
    }

    method ClearCache(symbol: string)
      requires Valid()
      modifies CacheObjects()
      ensures Valid() && Cache() == CacheClear(old(Cache()), symbol)
    {
      match backend
      case MemoryBackend(m) => m.Clear(symbol);
      case DiskBackend(d) => d.Clear(symbol);
      case NoBackend(n) => n.Clear(symbol);
    }

    method ClearAllCache()
      requires Valid()
      modifies CacheObjects()
      ensures Valid() && Cache() == CacheClearAll(old(Cache()))
    {
      match backend
      case MemoryBackend(m) => m.ClearAll();
      case DiskBackend(d) => d.ClearAll();
      case NoBackend(n) => n.ClearAll();
    }
  }

  /** The trading dates the manager answers with. */
  function TradingDatesOf(ps: seq<Provider>, start: Date, end: Date): Outcome<seq<Date>>
  {
    if ps == [] then Calendar.TradingDates(start, end)
    else if CalendarCap in ps[0].caps then ps[0].tradingDates(start, end)
    else TradingDatesOf(ps[1..], start, end)
  }

  /** No provider before position `j` is calendar-capable. */
  predicate NoCalendarBefore(ps: seq<Provider>, j: nat)
    requires j <= |ps|
  {
    forall k :: 0 <= k < j ==> CalendarCap !in ps[k].caps
  }

  /**
   * The first calendar-capable provider's answer is final, even when it is an
   * exception; with no such provider the local calendar answers.
   */
  lemma {:induction false} TradingDatesDispatch(ps: seq<Provider>, start: Date, end: Date)
    ensures (exists j :: 0 <= j < |ps| && CalendarCap in ps[j].caps)
        ==> exists j :: 0 <= j < |ps| && CalendarCap in ps[j].caps && NoCalendarBefore(ps, j)
                        && TradingDatesOf(ps, start, end) == ps[j].tradingDates(start, end)
    ensures NoCalendarBefore(ps, |ps|) ==> TradingDatesOf(ps, start, end) == Calendar.TradingDates(start, end)
  {
    if ps != [] {
      TradingDatesDispatch(ps[1..], start, end);
      if CalendarCap in ps[0].caps {
        assert NoCalendarBefore(ps, 0);
      } else {
        if exists j :: 0 <= j < |ps| && CalendarCap in ps[j].caps {
          var j :| 0 <= j < |ps| && CalendarCap in ps[j].caps;
          assert CalendarCap in ps[1..][j - 1].caps;
          var j' :| 0 <= j' < |ps[1..]| && CalendarCap in ps[1..][j'].caps && NoCalendarBefore(ps[1..], j')
                    && TradingDatesOf(ps[1..], start, end) == ps[1..][j'].tradingDates(start, end);
          assert ps[1..][j'] == ps[j' + 1];
          assert NoCalendarBefore(ps, j' + 1) by {
            forall k | 0 <= k < j' + 1 ensures CalendarCap !in ps[k].caps {
              if k > 0 {
                assert ps[k] == ps[1..][k - 1];
              }
            }
          }
        }
        if NoCalendarBefore(ps, |ps|) {
          assert NoCalendarBefore(ps[1..], |ps[1..]|) by {
            forall k | 0 <= k < |ps[1..]| ensures CalendarCap !in ps[1..][k].caps {
              assert ps[1..][k] == ps[k + 1];
            }
          }
        }
      }
    }
  }
}
