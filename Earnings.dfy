/**
 * The earnings calendar: per-symbol lists of earnings events kept sorted by
 * date, the reaction-day rule, the context of a trading day relative to the
 * surrounding events, and the dictionary form the calendar is saved in.
 *
 * Dates are day numbers (module Dates). A reaction day is a plain integer:
 * the day after `date.max` is not a date, where the source raises
 * `OverflowError` instead.
 */
module Earnings {
  import opened Common
  import opened Dates

  datatype CallTime = BMO | AMC | DMH | UnknownTime

  /** The enumeration's string value. */
  function CallTimeValue(c: CallTime): string
  {
    match c
    case BMO => "BMO"
    case AMC => "AMC"
    case DMH => "DMH"
    case UnknownTime => "UNKNOWN"
  }

  /** `EarningsCallTime(s)`; `None` where Python raises `ValueError`. */
  function ParseCallTime(s: string): (r: Option<CallTime>)
    ensures r.Some? ==> CallTimeValue(r.value) == s
  {
    if s == "BMO" then Some(BMO)
    else if s == "AMC" then Some(AMC)
    else if s == "DMH" then Some(DMH)
    else if s == "UNKNOWN" then Some(UnknownTime)
    else None
  }

  lemma ParseCallTimeValue(c: CallTime)
    ensures ParseCallTime(CallTimeValue(c)) == Some(c)
  {
  }

  datatype EarningsEvent = EarningsEvent(
    symbol: string,
    earningsDate: Date,
    callTime: CallTime,
    fiscalQuarter: Option<string> := None,
    fiscalYear: Option<int> := None)

  /** The sort key of `add_event`. */
  function EventDate(e: EarningsEvent): int
  {
    e.earningsDate
  }

  /**
   * `get_reaction_day`: the market reacts the next day to a report after the
   * close, and the same day to every other call time.
   */
  function ReactionDay(e: EarningsEvent): (r: int)
    ensures e.earningsDate <= r <= e.earningsDate + 1
    ensures r == e.earningsDate + 1 <==> e.callTime == AMC
  {
    if e.callTime == AMC then e.earningsDate + 1 else e.earningsDate
  }

  datatype EarningsContext = EarningsContext(
    isReactionDay: bool := false,
    callTime: Option<CallTime> := None,
    daysSinceEarnings: Option<int> := None,
    earningsDate: Option<Date> := None)

  /** `EarningsContext.no_earnings()`. */
  function NoEarnings(): (c: EarningsContext)
    ensures !c.isReactionDay && c.callTime.None? && c.daysSinceEarnings.None? && c.earningsDate.None?
  {
    EarningsContext(false, None, None, None)
  }

  /** Events reacting on `t`, before `t`, after `t`; events reported on day `d`. */
  function OnDay(t: int): EarningsEvent -> bool
  {
    e => ReactionDay(e) == t
  }

  function ReactedBefore(t: int): EarningsEvent -> bool
  {
    e => ReactionDay(e) < t
  }

  function ReactsAfter(t: int): EarningsEvent -> bool
  {
    e => ReactionDay(e) > t
  }

  function ReportedOn(d: int): EarningsEvent -> bool
  {
    KeyIs(EventDate, d)
  }

  // ------------------------------------------------------------------
  // First and last positions satisfying a predicate
  // ------------------------------------------------------------------

  /** The first position of `s` whose element satisfies `p`. */
  function FirstWhere<T>(s: seq<T>, p: T -> bool): (r: Option<nat>)
    ensures r.Some? ==> r.value < |s| && p(s[r.value]) && forall k :: 0 <= k < r.value ==> !p(s[k])
    ensures r.None? ==> forall k :: 0 <= k < |s| ==> !p(s[k])
  {
    if s == [] then None
    else if p(s[0]) then Some(0)
    else
      var rest := FirstWhere(s[1..], p);
      assert forall k :: 1 <= k < |s| ==> s[k] == s[1..][k - 1];
      if rest.Some? then Some(rest.value + 1) else None
  }

  /** The last position of `s` whose element satisfies `p`. */
  function LastWhere<T>(s: seq<T>, p: T -> bool): (r: Option<nat>)
    ensures r.Some? ==> r.value < |s| && p(s[r.value]) && forall k :: r.value < k < |s| ==> !p(s[k])
    ensures r.None? ==> forall k :: 0 <= k < |s| ==> !p(s[k])
  {
    if s == [] then None
    else if p(s[|s| - 1]) then Some(|s| - 1)
    else LastWhere(s[..|s| - 1], p)
  }

  /** The last element `Filter` keeps is the element at `LastWhere`. */
  lemma {:induction false} FilterLast<T>(s: seq<T>, p: T -> bool)
    ensures Filter(s, p) == [] <==> LastWhere(s, p).None?
    ensures Filter(s, p) != [] ==> Filter(s, p)[|Filter(s, p)| - 1] == s[LastWhere(s, p).value]
  {
    if s != [] {
      var init, last := s[..|s| - 1], s[|s| - 1];
      FilterLast(init, p);
      assert s == init + [last];
      FilterConcat(init, [last], p);
      assert Filter([last], p) == if p(last) then [last] else [];
    }
  }

  // ------------------------------------------------------------------
  // One symbol's event list
  // ------------------------------------------------------------------

  /** The list `add_event` leaves: the old list with `e` appended, stably sorted by date. */
  function Insert(es: seq<EarningsEvent>, e: EarningsEvent): seq<EarningsEvent>
  {
    SortBy(es + [e], EventDate)
  }

  /** After `add_event` the list is sorted by date. */
  lemma InsertSorted(es: seq<EarningsEvent>, e: EarningsEvent)
    ensures SortedBy(Insert(es, e), EventDate)
  {
    SortBySorted(es + [e], EventDate);
  }

  /** `add_event` loses nothing and adds exactly `e`. */
  lemma InsertPermutes(es: seq<EarningsEvent>, e: EarningsEvent)
    ensures multiset(Insert(es, e)) == multiset(es) + multiset{e}
  {
    SortByPermutes(es + [e], EventDate);
  }

  /** Events on the same date keep their insertion order, the new one last among them. */
  lemma InsertKeepsSameDayOrder(es: seq<EarningsEvent>, e: EarningsEvent, d: int)
    ensures Filter(Insert(es, e), ReportedOn(d)) == Filter(es, ReportedOn(d)) + Filter([e], ReportedOn(d))
  {
    SortByStable(es + [e], EventDate, d);
    FilterConcat(es, [e], ReportedOn(d));
  }

  /** Adding an event no earlier than every listed one to a sorted list appends it. */
  lemma InsertLatest(es: seq<EarningsEvent>, e: EarningsEvent)
    requires SortedBy(es, EventDate)
    requires forall i :: 0 <= i < |es| ==> es[i].earningsDate <= e.earningsDate
    ensures Insert(es, e) == es + [e]
  {
    var s := es + [e];
    assert SortedBy(s, EventDate) by {
      forall i, j | 0 <= i < j < |s| ensures EventDate(s[i]) <= EventDate(s[j]) {
        if j < |es| {
          assert s[i] == es[i] && s[j] == es[j];
        } else {
          assert s[i] == es[i] && s[j] == e;
        }
      }
    }
    SortBySortedIdentity(s, EventDate);
  }

  /** Events added one after another, in order, to `acc`. */
  function AddAll(acc: seq<EarningsEvent>, es: seq<EarningsEvent>): seq<EarningsEvent>
    decreases |es|
  {
    if es == [] then acc else AddAll(Insert(acc, es[0]), es[1..])
  }

  /** Adding a sorted continuation of a sorted list one event at a time rebuilds the concatenation. */
  lemma {:induction false} AddAllSorted(acc: seq<EarningsEvent>, es: seq<EarningsEvent>)
    requires SortedBy(acc + es, EventDate)
    ensures AddAll(acc, es) == acc + es
    decreases |es|
  {
    if es != [] {
      var s := acc + es;
      assert SortedBy(acc, EventDate) by {
        forall i, j | 0 <= i < j < |acc| ensures EventDate(acc[i]) <= EventDate(acc[j]) {
          assert acc[i] == s[i] && acc[j] == s[j];
        }
      }
      assert forall i :: 0 <= i < |acc| ==> acc[i] == s[i];
      assert es[0] == s[|acc|];
      InsertLatest(acc, es[0]);
      assert (acc + [es[0]]) + es[1..] == s;
      AddAllSorted(acc + [es[0]], es[1..]);
    }
  }

  /** The events of `symbol`, or none when the symbol is unknown. */
  function EventsOf(events: map<string, seq<EarningsEvent>>, symbol: string): seq<EarningsEvent>
  {
    if symbol in events then events[symbol] else []
  }

  /**
   * A well-formed calendar: each listed symbol has at least one event, every
   * event is filed under its own symbol, and each list is sorted by date.
   */
  predicate WellFormed(events: map<string, seq<EarningsEvent>>)
  {
    forall s :: s in events ==>
      events[s] != [] && SortedBy(events[s], EventDate)
      && forall i :: 0 <= i < |events[s]| ==> events[s][i].symbol == s
  }

  /** `add_event` keeps a calendar well formed. */
  lemma AddKeepsWellFormed(events: map<string, seq<EarningsEvent>>, e: EarningsEvent)
    requires WellFormed(events)
    ensures WellFormed(events[e.symbol := Insert(EventsOf(events, e.symbol), e)])
  {
    var es := EventsOf(events, e.symbol);
    var r := Insert(es, e);
    InsertSorted(es, e);
    InsertPermutes(es, e);
    forall i | 0 <= i < |r| ensures r[i].symbol == e.symbol {
      assert r[i] in multiset(r);
      if r[i] != e {
        assert r[i] in es;
      }
    }
    assert |r| == |es| + 1;
  }

  // ------------------------------------------------------------------
  // The context of a trading day
  // ------------------------------------------------------------------

  /**
   * `get_context` for one symbol's list: the first event reacting on the day
   * makes it a reaction day; otherwise the last event (in list order) that
   * reacted before the day gives the days since; otherwise nothing.
   */
  function ContextIn(es: seq<EarningsEvent>, tradingDate: int): EarningsContext
  {
    var hit := FirstWhere(es, OnDay(tradingDate));
    if hit.Some? then
      var e := es[hit.value];
      EarningsContext(true, Some(e.callTime), Some(0), Some(e.earningsDate))
    else
      var past := Filter(es, ReactedBefore(tradingDate));
      if past != [] then
        var recent := past[|past| - 1];
        EarningsContext(false, Some(recent.callTime), Some(tradingDate - ReactionDay(recent)), Some(recent.earningsDate))
      else NoEarnings()
  }

  function Context(events: map<string, seq<EarningsEvent>>, symbol: string, tradingDate: int): EarningsContext
  {
    if symbol !in events then NoEarnings() else ContextIn(events[symbol], tradingDate)
  }

  /** A symbol the calendar does not list has no earnings context. */
  lemma UnknownSymbolContext(events: map<string, seq<EarningsEvent>>, symbol: string, tradingDate: int)
    requires symbol !in events
    ensures Context(events, symbol, tradingDate) == NoEarnings()
  {
  }

  /** The day is a reaction day exactly when some listed event reacts on it. */
  lemma ContextReactionDay(es: seq<EarningsEvent>, tradingDate: int)
    ensures ContextIn(es, tradingDate).isReactionDay <==> exists i :: 0 <= i < |es| && ReactionDay(es[i]) == tradingDate
  {
    if i :| 0 <= i < |es| && ReactionDay(es[i]) == tradingDate {
      assert OnDay(tradingDate)(es[i]);
    }
  }

  /** On a reaction day the context reports the first event reacting that day. */
  lemma ContextFirstHit(es: seq<EarningsEvent>, tradingDate: int, j: nat)
    requires j < |es| && ReactionDay(es[j]) == tradingDate
    requires forall k :: 0 <= k < j ==> ReactionDay(es[k]) != tradingDate
    ensures ContextIn(es, tradingDate) == EarningsContext(true, Some(es[j].callTime), Some(0), Some(es[j].earningsDate))
  {
    assert OnDay(tradingDate)(es[j]);
    assert FirstWhere(es, OnDay(tradingDate)) == Some(j);
  }

  /**
   * Otherwise the context reports the last listed event that reacted before
   * the day, a positive number of days ago.
   */
  lemma ContextMostRecent(es: seq<EarningsEvent>, tradingDate: int, j: nat)
    requires forall i :: 0 <= i < |es| ==> ReactionDay(es[i]) != tradingDate
    requires j < |es| && ReactionDay(es[j]) < tradingDate
    requires forall k :: j < k < |es| ==> ReactionDay(es[k]) >= tradingDate
    ensures ContextIn(es, tradingDate) == EarningsContext(false, Some(es[j].callTime),
              Some(tradingDate - ReactionDay(es[j])), Some(es[j].earningsDate))
    ensures ContextIn(es, tradingDate).daysSinceEarnings.value > 0
  {
    var before := ReactedBefore(tradingDate);
    FilterLast(es, before);
    assert before(es[j]);
    assert LastWhere(es, before) == Some(j);
    assert FirstWhere(es, OnDay(tradingDate)).None?;
  }

  /** With every event reacting later, there is no earnings context. */
  lemma ContextNoneYet(es: seq<EarningsEvent>, tradingDate: int)
    requires forall i :: 0 <= i < |es| ==> ReactionDay(es[i]) > tradingDate
    ensures ContextIn(es, tradingDate) == NoEarnings()
  {
    FilterLast(es, ReactedBefore(tradingDate));
    assert FirstWhere(es, OnDay(tradingDate)).None?;
  }

  // ------------------------------------------------------------------
  // Reaction days in a window, and days until the next one
  // ------------------------------------------------------------------

  /** `get_reaction_days` for one symbol's list: the reaction days in `[lo, hi]`, in list order. */
  function ReactionDaysIn(es: seq<EarningsEvent>, lo: int, hi: int): (r: seq<int>)
    ensures |r| <= |es|
  {
    if es == [] then []
    else
      var rd := ReactionDay(es[0]);
      (if lo <= rd <= hi then [rd] else []) + ReactionDaysIn(es[1..], lo, hi)
  }

  /** A day is listed exactly when some event reacts on it and it lies in the window. */
  lemma {:induction false} ReactionDaysInMeaning(es: seq<EarningsEvent>, lo: int, hi: int, x: int)
    ensures x in ReactionDaysIn(es, lo, hi) <==> lo <= x <= hi && exists i :: 0 <= i < |es| && ReactionDay(es[i]) == x
  {
    if es != [] {
      ReactionDaysInMeaning(es[1..], lo, hi, x);
      if exists i :: 1 <= i < |es| && ReactionDay(es[i]) == x {
        var i :| 1 <= i < |es| && ReactionDay(es[i]) == x;
        assert ReactionDay(es[1..][i - 1]) == x;
      }
      if exists i :: 0 <= i < |es[1..]| && ReactionDay(es[1..][i]) == x {
        var i :| 0 <= i < |es[1..]| && ReactionDay(es[1..][i]) == x;
        assert ReactionDay(es[i + 1]) == x;
      }
    }
  }

  /**
   * `get_days_until_earnings` for one symbol's list: only the first event
   * reacting after the day counts; its distance if within the window, else
   * nothing.
   */
  function DaysUntilIn(es: seq<EarningsEvent>, tradingDate: int, window: int): Option<int>
  {
    var next := FirstWhere(es, ReactsAfter(tradingDate));
    if next.None? then None
    else
      var days := ReactionDay(es[next.value]) - tradingDate;
      if days <= window then Some(days) else None
  }

  /** Only the first event reacting after the day decides the answer. */
  lemma DaysUntilFirstAfter(es: seq<EarningsEvent>, tradingDate: int, window: int, j: nat)
    requires j < |es| && ReactionDay(es[j]) > tradingDate
    requires forall k :: 0 <= k < j ==> ReactionDay(es[k]) <= tradingDate
    ensures DaysUntilIn(es, tradingDate, window)
         == if ReactionDay(es[j]) - tradingDate <= window then Some(ReactionDay(es[j]) - tradingDate) else None
  {
    assert ReactsAfter(tradingDate)(es[j]);
    assert FirstWhere(es, ReactsAfter(tradingDate)) == Some(j);
  }

  /** With no event reacting after the day there is nothing to count down to. */
  lemma DaysUntilNoneAfter(es: seq<EarningsEvent>, tradingDate: int, window: int)
    requires forall i :: 0 <= i < |es| ==> ReactionDay(es[i]) <= tradingDate
    ensures DaysUntilIn(es, tradingDate, window).None?
  {
    assert FirstWhere(es, ReactsAfter(tradingDate)).None?;
  }

  /** A countdown is always positive and within the window. */
  lemma DaysUntilBounds(es: seq<EarningsEvent>, tradingDate: int, window: int)
    ensures var r := DaysUntilIn(es, tradingDate, window);
            r.Some? ==> 0 < r.value <= window
  {
    var next := FirstWhere(es, ReactsAfter(tradingDate));
    if next.Some? {
      assert ReactsAfter(tradingDate)(es[next.value]);
    }
  }

  // ------------------------------------------------------------------
  // The dictionary form
  // ------------------------------------------------------------------

  /** One event as `to_dict` writes it; the symbol is the enclosing key. */
  datatype EventRecord = EventRecord(
    earningsDate: string,
    callTime: string,
    fiscalQuarter: Option<string>,
    fiscalYear: Option<int>)

  function Record(e: EarningsEvent): EventRecord
  {
    EventRecord(IsoFormat(e.earningsDate), CallTimeValue(e.callTime), e.fiscalQuarter, e.fiscalYear)
  }

  function Records(es: seq<EarningsEvent>): seq<EventRecord>
  {
    seq(|es|, i requires 0 <= i < |es| => Record(es[i]))
  }

  /** `to_dict`. */
  function ToDict(events: map<string, seq<EarningsEvent>>): map<string, seq<EventRecord>>
  {
    map s | s in events :: Records(events[s])
  }

  /** One record read back under `symbol`; `None` where Python raises `ValueError`. */
  function ParseRecord(symbol: string, r: EventRecord): Option<EarningsEvent>
  {
    var d := ParseIsoDate(r.earningsDate);
    var c := ParseCallTime(r.callTime);
    if d.Some? && c.Some? then Some(EarningsEvent(symbol, d.value, c.value, r.fiscalQuarter, r.fiscalYear))
    else None
  }

  function RecordParser(symbol: string): EventRecord -> Option<EarningsEvent>
  {
    r => ParseRecord(symbol, r)
  }

  /** Every element parsed in turn; `None` at the first one that fails. */
  function ParseAll<A, B>(xs: seq<A>, f: A -> Option<B>): (r: Option<seq<B>>)
    ensures r.Some? ==> |r.value| == |xs|
  {
    if xs == [] then Some([])
    else
      var h := f(xs[0]);
      var rest := ParseAll(xs[1..], f);
      if h.Some? && rest.Some? then Some([h.value] + rest.value) else None
  }

  lemma {:induction false} ParseAllSnoc<A, B>(xs: seq<A>, x: A, f: A -> Option<B>)
    ensures ParseAll(xs + [x], f)
         == if ParseAll(xs, f).Some? && f(x).Some? then Some(ParseAll(xs, f).value + [f(x).value]) else None
  {
    if xs == [] {
      assert [] + [x] == [x];
      assert [x][1..] == [];
      assert ParseAll([x][1..], f) == Some([]);
      if f(x).Some? {
        assert [f(x).value] + [] == [] + [f(x).value];
      }
    } else {
      var ys := xs + [x];
      assert ys[0] == xs[0];
      assert ys[1..] == xs[1..] + [x];
      ParseAllSnoc(xs[1..], x, f);
      var h, rest := f(xs[0]), ParseAll(xs[1..], f);
      assert ParseAll(xs, f) == if h.Some? && rest.Some? then Some([h.value] + rest.value) else None;
      if h.Some? && rest.Some? && f(x).Some? {
        AppendAssoc([h.value], rest.value, [f(x).value]);
      }
    }
  }

  /** A sequence parses only if each of its prefixes does. */
  lemma {:induction false} ParseAllPrefix<A, B>(xs: seq<A>, ys: seq<A>, f: A -> Option<B>)
    requires ParseAll(xs + ys, f).Some?
    ensures ParseAll(xs, f).Some?
  {
    if xs != [] {
      assert (xs + ys)[1..] == xs[1..] + ys;
      ParseAllPrefix(xs[1..], ys, f);
    }
  }

  /** Parsing one more element of `xs`: the parsed prefix grows by one, or the whole of `xs` fails. */
  lemma ParseStep<A, B>(xs: seq<A>, j: nat, f: A -> Option<B>)
    requires j < |xs| && ParseAll(xs[..j], f).Some?
    ensures f(xs[j]).Some? ==> ParseAll(xs[..j + 1], f) == Some(ParseAll(xs[..j], f).value + [f(xs[j]).value])
    ensures f(xs[j]).None? ==> ParseAll(xs, f).None?
  {
    assert xs[..j + 1] == xs[..j] + [xs[j]];
    ParseAllSnoc(xs[..j], xs[j], f);
    if f(xs[j]).None? && ParseAll(xs, f).Some? {
      assert xs == xs[..j + 1] + xs[j + 1..];
      ParseAllPrefix(xs[..j + 1], xs[j + 1..], f);
    }
  }

  lemma {:induction false} AddAllSnoc(acc: seq<EarningsEvent>, es: seq<EarningsEvent>, e: EarningsEvent)
    ensures AddAll(acc, es + [e]) == Insert(AddAll(acc, es), e)
    decreases |es|
  {
    if es == [] {
      assert [] + [e] == [e];
      assert [e][1..] == [];
    } else {
      assert (es + [e])[1..] == es[1..] + [e];
      AddAllSnoc(Insert(acc, es[0]), es[1..], e);
    }
  }

  /** `from_dict`: `None` when some record's date or call time does not parse. */
  function FromDict(data: map<string, seq<EventRecord>>): Option<map<string, seq<EarningsEvent>>>
  {
    if forall s :: s in data ==> ParseAll(data[s], RecordParser(s)).Some? then Some(Loaded(data, data.Keys))
    else None
  }

  /** The calendar built from the symbols in `done`; a symbol without records gets no entry. */
  function Loaded(data: map<string, seq<EventRecord>>, done: set<string>): map<string, seq<EarningsEvent>>
  {
    map s | s in data && s in done && data[s] != [] && ParseAll(data[s], RecordParser(s)).Some?
      :: AddAll([], ParseAll(data[s], RecordParser(s)).value)
  }

  /** Loading one more symbol adds its entry and leaves the others alone. */
  lemma LoadedStep(data: map<string, seq<EventRecord>>, done: set<string>, s: string)
    requires s in data && s !in done && ParseAll(data[s], RecordParser(s)).Some?
    ensures s !in Loaded(data, done)
    ensures Loaded(data, done + {s})
         == if data[s] == [] then Loaded(data, done)
            else Loaded(data, done)[s := AddAll(EventsOf(Loaded(data, done), s), ParseAll(data[s], RecordParser(s)).value)]
  {
  }

  /** Parsing elements that each parse back to a known value gives those values. */
  lemma {:induction false} ParseAllInverse<A, B>(xs: seq<A>, ys: seq<B>, f: A -> Option<B>)
    requires |xs| == |ys| && forall i :: 0 <= i < |xs| ==> f(xs[i]) == Some(ys[i])
    ensures ParseAll(xs, f) == Some(ys)
  {
    if xs != [] {
      ParseAllInverse(xs[1..], ys[1..], f);
      assert ys == [ys[0]] + ys[1..];
    }
  }

  /** A record written by `to_dict` reads back as the event it was written from. */
  lemma RecordRoundTrip(symbol: string, e: EarningsEvent)
    requires e.symbol == symbol
    ensures RecordParser(symbol)(Record(e)) == Some(e)
  {
    ParseIsoFormat(e.earningsDate);
    ParseCallTimeValue(e.callTime);
  }

  /** One symbol's records, as `to_dict` writes them, read back and added in turn. */
  lemma ReadBackSymbol(symbol: string, es: seq<EarningsEvent>)
    requires SortedBy(es, EventDate)
    requires forall i :: 0 <= i < |es| ==> es[i].symbol == symbol
    ensures ParseAll(Records(es), RecordParser(symbol)) == Some(es)
    ensures AddAll([], es) == es
  {
    var rs := Records(es);
    forall i | 0 <= i < |rs| ensures RecordParser(symbol)(rs[i]) == Some(es[i]) {
      RecordRoundTrip(symbol, es[i]);
    }
    ParseAllInverse(rs, es, RecordParser(symbol));
    assert [] + es == es;
    AddAllSorted([], es);
  }

  /** `from_dict` succeeds with `events` when every symbol's records read back as its sorted, non-empty list. */
  lemma FromDictOf(data: map<string, seq<EventRecord>>, events: map<string, seq<EarningsEvent>>)
    requires data.Keys == events.Keys
    requires forall s :: s in data ==> ParseAll(data[s], RecordParser(s)) == Some(events[s])
    requires forall s :: s in events ==> events[s] != [] && AddAll([], events[s]) == events[s]
    ensures FromDict(data) == Some(events)
  {
    assert forall s :: s in data ==> ParseAll(data[s], RecordParser(s)).Some?;
    var m := Loaded(data, data.Keys);
    forall s | s in events ensures s in m && m[s] == events[s] {
      assert |data[s]| == |events[s]|;
    }
    assert m == events;
  }

  /** Reading back what `to_dict` wrote gives every symbol the same events in the same order. */
  lemma FromDictToDict(events: map<string, seq<EarningsEvent>>)
    requires WellFormed(events)
    ensures FromDict(ToDict(events)) == Some(events)
  {
    var data := ToDict(events);
    forall s | s in data
      ensures ParseAll(data[s], RecordParser(s)) == Some(events[s])
      ensures AddAll([], events[s]) == events[s]
    {
      ReadBackSymbol(s, events[s]);
    }
    FromDictOf(data, events);
  }

  // ------------------------------------------------------------------
  // The calendar object
  // ------------------------------------------------------------------

  class EarningsCalendar {
    var events: map<string, seq<EarningsEvent>>

    constructor ()
      ensures events == map[]
    {
      events := map[];
    }

    /** `add_event`: append to the symbol's list, then sort it by date. */
    method AddEvent(e: EarningsEvent)
      modifies this
      ensures events == old(events)[e.symbol := Insert(EventsOf(old(events), e.symbol), e)]
    {
      var es := if e.symbol in events then events[e.symbol] else [];
      es := es + [e];
      events := events[e.symbol := SortBy(es, EventDate)];
    }

    method GetContext(symbol: string, tradingDate: int) returns (c: EarningsContext)
      ensures c == Context(events, symbol, tradingDate)
    {
      if symbol !in events {
        return NoEarnings();
      }
      var es := events[symbol];
      var i := 0;
      while i < |es|
        invariant 0 <= i <= |es|
        invariant forall k :: 0 <= k < i ==> ReactionDay(es[k]) != tradingDate
      {
        if ReactionDay(es[i]) == tradingDate {
          ghost var hit := FirstWhere(es, OnDay(tradingDate));
          assert OnDay(tradingDate)(es[i]);
          assert hit == Some(i);
          return EarningsContext(true, Some(es[i].callTime), Some(0), Some(es[i].earningsDate));
        }
        i := i + 1;
      }
      var past := Filter(es, ReactedBefore(tradingDate));
      if past != [] {
        var recent := past[|past| - 1];
        return EarningsContext(false, Some(recent.callTime), Some(tradingDate - ReactionDay(recent)),
                               Some(recent.earningsDate));
      }
      return NoEarnings();
    }

    method GetReactionDays(symbol: string, start: int, end: int) returns (r: seq<int>)
      ensures r == ReactionDaysIn(EventsOf(events, symbol), start, end)
    {
      if symbol !in events {
        return [];
      }
      var es := events[symbol];
      r := [];
      var i := 0;
      while i < |es|
        invariant 0 <= i <= |es|
        invariant ReactionDaysIn(es, start, end) == r + ReactionDaysIn(es[i..], start, end)
      {
        assert es[i..][1..] == es[i + 1..];
        var rd := ReactionDay(es[i]);
        if start <= rd <= end {
          r := r + [rd];
        }
        i := i + 1;
      }
      assert r + [] == r;
    }

    /** `get_days_until_earnings`; the default window is 30 days. */
    method GetDaysUntilEarnings(symbol: string, tradingDate: int, window: int := 30) returns (r: Option<int>)
      ensures r == if symbol in events then DaysUntilIn(events[symbol], tradingDate, window) else None
    {
      if symbol !in events {
        return None;
      }
      var es := events[symbol];
      var i := 0;
      while i < |es|
        invariant 0 <= i <= |es|
        invariant forall k :: 0 <= k < i ==> ReactionDay(es[k]) <= tradingDate
      {
        var rd := ReactionDay(es[i]);
        if rd > tradingDate {
          ghost var next := FirstWhere(es, ReactsAfter(tradingDate));
          assert ReactsAfter(tradingDate)(es[i]);
          assert next == Some(i);
          if rd - tradingDate <= window {
            return Some(rd - tradingDate);
          }
          return None;
        }
        i := i + 1;
      }
      return None;
    }
  }

  /** One more `add_event` while loading a symbol's records. */
  lemma LoadStep(events: map<string, seq<EarningsEvent>>, before: map<string, seq<EarningsEvent>>,
                 symbol: string, done: seq<EarningsEvent>, e: EarningsEvent)
    requires e.symbol == symbol
    requires events == if done == [] then before else before[symbol := AddAll(EventsOf(before, symbol), done)]
    ensures events[symbol := Insert(EventsOf(events, symbol), e)]
         == before[symbol := AddAll(EventsOf(before, symbol), done + [e])]
  {
    var acc := EventsOf(before, symbol);
    AddAllSnoc(acc, done, e);
    assert EventsOf(events, symbol) == AddAll(acc, done);
  }

  /** A record that does not parse fails the whole symbol. */
  lemma FailStep(symbol: string, rs: seq<EventRecord>, j: nat)
    requires j < |rs| && ParseAll(rs[..j], RecordParser(symbol)).Some?
    requires ParseRecord(symbol, rs[j]).None?
    ensures ParseAll(rs, RecordParser(symbol)).None?
  {
    assert RecordParser(symbol)(rs[j]).None?;
    ParseStep(rs, j, RecordParser(symbol));
  }

  /** A record that parses extends the parsed prefix and is added to the symbol's events. */
  lemma AddStep(symbol: string, rs: seq<EventRecord>, j: nat, done: seq<EarningsEvent>,
                before: map<string, seq<EarningsEvent>>, events: map<string, seq<EarningsEvent>>)
    requires j < |rs| && ParseAll(rs[..j], RecordParser(symbol)) == Some(done)
    requires ParseRecord(symbol, rs[j]).Some?
    requires events == if done == [] then before else before[symbol := AddAll(EventsOf(before, symbol), done)]
    ensures var e := ParseRecord(symbol, rs[j]).value;
            e.symbol == symbol
            && ParseAll(rs[..j + 1], RecordParser(symbol)) == Some(done + [e])
            && events[e.symbol := Insert(EventsOf(events, e.symbol), e)]
               == before[symbol := AddAll(EventsOf(before, symbol), done + [e])]
  {
    var e := ParseRecord(symbol, rs[j]).value;
    assert RecordParser(symbol)(rs[j]) == Some(e);
    ParseStep(rs, j, RecordParser(symbol));
    LoadStep(events, before, symbol, done, e);
  }

  /**
   * The inner loop of `from_dict`: one symbol's records parsed and added in
   * turn; `ok` is false where Python raises `ValueError`.
   */
  method AddRecords(cal: EarningsCalendar, symbol: string, rs: seq<EventRecord>) returns (ok: bool)
    modifies cal
    ensures ok == ParseAll(rs, RecordParser(symbol)).Some?
    ensures ok ==> cal.events == if rs == [] then old(cal.events)
                                 else old(cal.events)[symbol := AddAll(EventsOf(old(cal.events), symbol),
                                                                       ParseAll(rs, RecordParser(symbol)).value)]
  {
    ghost var before := cal.events;
    ghost var acc := EventsOf(before, symbol);
    ghost var done: seq<EarningsEvent> := [];
    var j := 0;
    while j < |rs|
      invariant 0 <= j <= |rs|
      invariant ParseAll(rs[..j], RecordParser(symbol)) == Some(done)
      invariant cal.events == if done == [] then before else before[symbol := AddAll(acc, done)]
    {
      var parsed := ParseRecord(symbol, rs[j]);
      if parsed.None? {
        FailStep(symbol, rs, j);
        return false;
      }
      AddStep(symbol, rs, j, done, before, cal.events);
      cal.AddEvent(parsed.value);
      done := done + [parsed.value];
      j := j + 1;
    }
    assert rs[..|rs|] == rs;
    return true;
  }

  /**
   * `EarningsCalendar.from_dict`: every record of every symbol added in turn;
   * `ok` is false where Python raises `ValueError`.
   */
  method LoadDict(data: map<string, seq<EventRecord>>) returns (cal: EarningsCalendar, ok: bool)
    ensures fresh(cal)
    ensures ok == FromDict(data).Some?
    ensures ok ==> cal.events == FromDict(data).value
  {
    cal := new EarningsCalendar();
    var remaining := data.Keys;
    while remaining != {}
      invariant remaining <= data.Keys
      invariant forall s :: s in data && s !in remaining ==> ParseAll(data[s], RecordParser(s)).Some?
      invariant cal.events == Loaded(data, data.Keys - remaining)
      decreases |remaining|
    {
      var s :| s in remaining;
      var fine := AddRecords(cal, s, data[s]);
      if !fine {
        return cal, false;
      }
      LoadedStep(data, data.Keys - remaining, s);
      assert (data.Keys - remaining) + {s} == data.Keys - (remaining - {s});
      remaining := remaining - {s};
    }
    assert data.Keys - {} == data.Keys;
    ok := true;
  }
}
