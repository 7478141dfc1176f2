/**
 * Cache backends for bar series.
 *
 * `MemoryCache` is an insertion-ordered dictionary from a key string to a
 * (store time, bars) entry: reads and existence checks first sweep out
 * expired entries, a hit moves its entry to the most-recently-used end, and
 * a store evicts from the least-recently-used front while the dictionary is
 * over capacity. `time.monotonic()` readings are explicit arguments.
 *
 * `NoCache` never holds anything. `ParquetCache` is modelled as a map from
 * (upper-cased symbol, timeframe, start, end) to the stored series, with a
 * set of entries whose file cannot be read back; its file format is not
 * modelled.
 */
module Cache {
  import opened Common
  import opened Dates
  import opened Models

  // ------------------------------------------------------------------
  // The memory cache's key
  // ------------------------------------------------------------------

  /** `f"{symbol.upper()}|{timeframe}|{start}|{end}"`. */
  function Key(symbol: string, timeframe: string, start: Date, end: Date): string
  {
    Join([Upper(symbol), timeframe, IsoFormat(start), IsoFormat(end)], '|')
  }

  lemma IsoFormatHasNoBar(d: Date)
    ensures !HasChar(IsoFormat(d), '|')
  {
    var s := IsoFormat(d);
    forall i | 0 <= i < |s| ensures s[i] != '|' {
      if i != 4 && i != 7 {
        assert IsDigit(s[i]);
      }
    }
  }

  /**
   * Two requests share a memory-cache entry exactly when their upper-cased
   * symbols, timeframes, starts and ends agree, provided neither symbol nor
   * timeframe holds the separator `|` (see `KeySeparatorCollision`).
   */
  lemma KeyInjective(s1: string, tf1: string, a1: Date, b1: Date,
                     s2: string, tf2: string, a2: Date, b2: Date)
    requires !HasChar(s1, '|') && !HasChar(s2, '|') && !HasChar(tf1, '|') && !HasChar(tf2, '|')
    ensures Key(s1, tf1, a1, b1) == Key(s2, tf2, a2, b2)
        <==> Upper(s1) == Upper(s2) && tf1 == tf2 && a1 == a2 && b1 == b2
  {
    if Key(s1, tf1, a1, b1) == Key(s2, tf2, a2, b2) {
      var p1 := [Upper(s1), tf1, IsoFormat(a1), IsoFormat(b1)];
      var p2 := [Upper(s2), tf2, IsoFormat(a2), IsoFormat(b2)];
      UpperKeepsBar(s1);
      UpperKeepsBar(s2);
      IsoFormatHasNoBar(a1);
      IsoFormatHasNoBar(b1);
      IsoFormatHasNoBar(a2);
      IsoFormatHasNoBar(b2);
      SplitJoin(p1, '|');
      SplitJoin(p2, '|');
      assert p1 == p2;
      IsoFormatInjective(a1, a2);
      IsoFormatInjective(b1, b2);
    }
  }

  lemma UpperKeepsBar(s: string)
    requires !HasChar(s, '|')
    ensures !HasChar(Upper(s), '|')
  {
    var u := Upper(s);
    forall i | 0 <= i < |u| ensures u[i] != '|' {
      assert u[i] == UpperChar(s[i]);
    }
  }

  /** A symbol containing `|` can share an entry with a different request. */
  lemma KeySeparatorCollision(d: Date)
    ensures Key("A|x", "y", d, d) == Key("A", "X|y", d, d)
    ensures Upper("A|x") != Upper("A")
  {
    assert Upper("A|x") == "A|X" by {
      assert Upper("A|x")[0] == UpperChar('A');
      assert Upper("A|x")[1] == UpperChar('|');
      assert Upper("A|x")[2] == UpperChar('x');
    }
    assert Upper("A") == "A" by {
      assert Upper("A")[0] == UpperChar('A');
    }
    JoinCollision(IsoFormat(d), IsoFormat(d));
  }

  /** The parts `A|X, y` and `A, X|y` join to the same text whatever the dates' parts. */
  lemma JoinCollision(a: string, b: string)
    ensures Join(["A|X", "y", a, b], '|') == Join(["A", "X|y", a, b], '|')
  {
    var tail := Join([a, b], '|');
    assert [a, b][1..] == [b];
    assert ["y", a, b][1..] == [a, b];
    assert ["X|y", a, b][1..] == [a, b];
    assert ["A|X", "y", a, b][1..] == ["y", a, b];
    assert ["A", "X|y", a, b][1..] == ["X|y", a, b];
    assert Join(["y", a, b], '|') == "y" + "|" + tail;
    assert Join(["X|y", a, b], '|') == "X|y" + "|" + tail;
    assert Join(["A|X", "y", a, b], '|') == "A|X" + "|" + ("y" + "|" + tail);
    assert Join(["A", "X|y", a, b], '|') == "A" + "|" + ("X|y" + "|" + tail);
  }

  // ------------------------------------------------------------------
  // The ordered dictionary of the memory cache
  // ------------------------------------------------------------------

  /** One dictionary item: key, store time, bars. */
  datatype Entry = Entry(key: string, stamp: int, bars: seq<Bar>)

  predicate DistinctKeys(es: seq<Entry>)
  {
    forall i, j :: 0 <= i < j < |es| ==> es[i].key != es[j].key
  }

  predicate HasKey(es: seq<Entry>, k: string)
  {
    exists i :: 0 <= i < |es| && es[i].key == k
  }

  /** The facts about a dictionary's tail the inductive proofs below share. */
  lemma TailFacts(es: seq<Entry>, k: string)
    requires es != []
    ensures HasKey(es[1..], k) ==> HasKey(es, k)
    ensures DistinctKeys(es) ==> DistinctKeys(es[1..]) && !HasKey(es[1..], es[0].key)
  {
    var rest := es[1..];
    if HasKey(rest, k) {
      var i :| 0 <= i < |rest| && rest[i].key == k;
      assert es[i + 1].key == k;
    }
    if DistinctKeys(es) {
      forall i, j | 0 <= i < j < |rest| ensures rest[i].key != rest[j].key {
        assert rest[i] == es[i + 1] && rest[j] == es[j + 1];
      }
      forall i | 0 <= i < |rest| ensures rest[i].key != es[0].key {
        assert rest[i] == es[i + 1];
      }
    }
  }

  /** `store.get(k)`. */
  function Lookup(es: seq<Entry>, k: string): (r: Option<Entry>)
    ensures r.None? <==> !HasKey(es, k)
    ensures r.Some? ==> r.value in es && r.value.key == k
    ensures r.Some? && DistinctKeys(es) ==> forall e :: e in es && e.key == k ==> e == r.value
  {
    if es == [] then None
    else if es[0].key == k then Some(es[0])
    else
      assert forall i :: 1 <= i < |es| ==> es[i] == es[1..][i - 1];
      Lookup(es[1..], k)
  }

  /** Which entries a bulk deletion removes. */
  datatype Doomed =
    | ExpiredAt(now: int, ttl: int)   // stored more than `ttl` before `now`
    | KeyPrefix(prefix: string)       // key starts with `prefix`
    | KeyIs(k: string)                // exactly this key

  predicate IsDoomed(d: Doomed, e: Entry)
  {
    match d
    case ExpiredAt(now, ttl) => now - e.stamp > ttl
    case KeyPrefix(p) => StartsWith(e.key, p)
    case KeyIs(k) => e.key == k
  }

  /** The entries `d` spares, in their order. */
  function Keep(es: seq<Entry>, d: Doomed): (r: seq<Entry>)
    ensures |r| <= |es|
    ensures forall e :: e in r <==> e in es && !IsDoomed(d, e)
  {
    if es == [] then [] else (if IsDoomed(d, es[0]) then [] else [es[0]]) + Keep(es[1..], d)
  }

  /** `a` is `b` with some elements left out, the rest in order. */
  predicate Sublist<T(==)>(a: seq<T>, b: seq<T>)
    decreases |b|
  {
    if a == [] then true
    else if b == [] then false
    else (a[0] == b[0] && Sublist(a[1..], b[1..])) || Sublist(a, b[1..])
  }

  lemma {:induction false} KeepIsSublist(es: seq<Entry>, d: Doomed)
    ensures Sublist(Keep(es, d), es)
  {
    if es != [] {
      KeepIsSublist(es[1..], d);
      var r := Keep(es, d);
      if IsDoomed(d, es[0]) {
        assert r == Keep(es[1..], d);
        SublistDropFront(r, es);
      } else {
        assert r[0] == es[0] && r[1..] == Keep(es[1..], d);
      }
    }
  }

  lemma SublistDropFront<T>(a: seq<T>, b: seq<T>)
    requires b != [] && Sublist(a, b[1..])
    ensures Sublist(a, b)
  {
  }

  lemma {:induction false} KeepDistinct(es: seq<Entry>, d: Doomed)
    requires DistinctKeys(es)
    ensures DistinctKeys(Keep(es, d))
  {
    if es != [] {
      KeepDistinct(es[1..], d);
      var r := Keep(es, d);
      if !IsDoomed(d, es[0]) {
        forall j | 1 <= j < |r| ensures r[0].key != r[j].key {
          assert r[j] in Keep(es[1..], d);
        }
      }
    }
  }

  /** `del store[k]` (for a present key) and any removal of one key. */
  function Delete(es: seq<Entry>, k: string): seq<Entry>
  {
    Keep(es, KeyIs(k))
  }

  /** The keys of the entries `d` dooms, in order (the list comprehension before the deletion loop). */
  function DoomedKeys(es: seq<Entry>, d: Doomed): seq<string>
  {
    if es == [] then [] else (if IsDoomed(d, es[0]) then [es[0].key] else []) + DoomedKeys(es[1..], d)
  }

  /** The entries whose key is none of `ks`. */
  function WithoutKeys(es: seq<Entry>, ks: seq<string>): seq<Entry>
  {
    if es == [] then [] else (if es[0].key in ks then [] else [es[0]]) + WithoutKeys(es[1..], ks)
  }

  lemma {:induction false} WithoutNoKeys(es: seq<Entry>)
    ensures WithoutKeys(es, []) == es
  {
    if es != [] {
      WithoutNoKeys(es[1..]);
    }
  }

  /** Deleting the next doomed key extends the keys deleted so far by one. */
  lemma DeleteStep(es: seq<Entry>, doomed: seq<string>, j: nat)
    requires j < |doomed|
    ensures Delete(WithoutKeys(es, doomed[..j]), doomed[j]) == WithoutKeys(es, doomed[..j + 1])
  {
    DeleteWithoutKeys(es, doomed[..j], doomed[j]);
    assert doomed[..j + 1] == doomed[..j] + [doomed[j]];
  }

  lemma {:induction false} DeleteWithoutKeys(es: seq<Entry>, ks: seq<string>, k: string)
    ensures Delete(WithoutKeys(es, ks), k) == WithoutKeys(es, ks + [k])
  {
    if es != [] {
      DeleteWithoutKeys(es[1..], ks, k);
      var e := es[0];
      var w := WithoutKeys(es, ks);
      var w' := WithoutKeys(es[1..], ks);
      assert e.key in ks + [k] <==> e.key in ks || e.key == k;
      if e.key in ks {
        assert w == w';
      } else {
        assert w == [e] + w';
        assert w[1..] == w';
        assert Delete(w, k) == (if e.key == k then [] else [e]) + Delete(w', k);
      }
    }
  }

  lemma {:induction false} WithoutAbsentKey(es: seq<Entry>, k: string, ks: seq<string>)
    requires !HasKey(es, k)
    ensures WithoutKeys(es, [k] + ks) == WithoutKeys(es, ks)
  {
    if es != [] {
      TailFacts(es, k);
      WithoutAbsentKey(es[1..], k, ks);
      assert es[0].key != k;
      assert es[0].key in [k] + ks <==> es[0].key in ks;
    }
  }

  /** With distinct keys, deleting the doomed entries' keys one by one is `Keep`. */
  lemma {:induction false} WithoutDoomedKeys(es: seq<Entry>, d: Doomed)
    requires DistinctKeys(es)
    ensures WithoutKeys(es, DoomedKeys(es, d)) == Keep(es, d)
  {
    if es != [] {
      var e := es[0];
      var rest := es[1..];
      TailFacts(es, e.key);
      WithoutDoomedKeys(rest, d);
      DoomedKeysAreKeys(rest, d, e.key);
      var ks := DoomedKeys(rest, d);
      if IsDoomed(d, e) {
        assert DoomedKeys(es, d) == [e.key] + ks;
        WithoutAbsentKey(rest, e.key, ks);
        assert WithoutKeys(es, [e.key] + ks) == WithoutKeys(rest, [e.key] + ks);
      } else {
        assert DoomedKeys(es, d) == ks;
        assert WithoutKeys(es, ks) == [e] + WithoutKeys(rest, ks);
      }
    }
  }

  lemma {:induction false} DoomedKeysAreKeys(es: seq<Entry>, d: Doomed, k: string)
    requires !HasKey(es, k)
    ensures k !in DoomedKeys(es, d)
  {
    if es != [] {
      TailFacts(es, k);
      DoomedKeysAreKeys(es[1..], d, k);
      assert es[0].key != k;
    }
  }

  /** `store.move_to_end(k)` for a present key `k`. */
  function MoveToEnd(es: seq<Entry>, k: string): seq<Entry>
  {
    match Lookup(es, k)
    case None => es
    case Some(e) => Delete(es, k) + [e]
  }

  /** `store[k] = (stamp, bars)`: an existing key keeps its position, a new one goes last. */
  function Assign(es: seq<Entry>, k: string, stamp: int, bars: seq<Bar>): seq<Entry>
  {
    if es == [] then [Entry(k, stamp, bars)]
    else if es[0].key == k then [Entry(k, stamp, bars)] + es[1..]
    else [es[0]] + Assign(es[1..], k, stamp, bars)
  }

  /**
   * `_evict_lru`: pop from the front while over capacity. With a negative
   * capacity the dictionary empties and the next pop raises `KeyError`.
   */
  function EvictOldest(es: seq<Entry>, maxEntries: int): (r: (seq<Entry>, bool))
  {
    if maxEntries < 0 then ([], true)
    else if |es| <= maxEntries then (es, false)
    else (es[|es| - maxEntries..], false)
  }

  // ------------------------------------------------------------------
  // The memory cache's operations as transitions on the dictionary
  // ------------------------------------------------------------------

  /** `_evict_expired` at time `now`. */
  function Sweep(es: seq<Entry>, now: int, ttl: int): seq<Entry>
  {
    Keep(es, ExpiredAt(now, ttl))
  }

  /**
   * `get_bars` of the memory cache: sweep at `sweepNow`; on a hit, re-check
   * the entry's age at `checkNow`, dropping it if it has expired meanwhile,
   * else moving it to the most-recent end.
   */
  function MemGet(es: seq<Entry>, ttl: int, k: string, sweepNow: int, checkNow: int)
    : (seq<Entry>, Option<seq<Bar>>)
  {
    var swept := Sweep(es, sweepNow, ttl);
    match Lookup(swept, k)
    case None => (swept, None)
    case Some(e) =>
      if checkNow - e.stamp > ttl then (Delete(swept, k), None)
      else (MoveToEnd(swept, k), Some(e.bars))
  }

  /** `store_bars` of the memory cache: assign, move to the end, evict; the flag is a raised `KeyError`. */
  function MemStore(es: seq<Entry>, maxEntries: int, k: string, bars: seq<Bar>, now: int)
    : (seq<Entry>, bool)
  {
    EvictOldest(MoveToEnd(Assign(es, k, now, bars), k), maxEntries)
  }

  // ------------------------------------------------------------------
  // Properties of the transitions
  // ------------------------------------------------------------------

  /**
   * After a sweep every surviving entry is fresh, exactly the expired ones
   * are gone, and the survivors keep their order.
   */
  lemma SweepMeaning(es: seq<Entry>, now: int, ttl: int)
    ensures forall e :: e in Sweep(es, now, ttl) <==> e in es && now - e.stamp <= ttl
    ensures Sublist(Sweep(es, now, ttl), es)
  {
    KeepIsSublist(es, ExpiredAt(now, ttl));
  }

  lemma {:induction false} KeepLookup(es: seq<Entry>, d: Doomed, k: string)
    requires DistinctKeys(es)
    ensures Lookup(Keep(es, d), k)
         == (match Lookup(es, k) case None => None
             case Some(e) => if IsDoomed(d, e) then None else Some(e))
  {
    if es != [] {
      TailFacts(es, k);
      KeepLookup(es[1..], d, k);
      var r := Keep(es, d);
      if !IsDoomed(d, es[0]) {
        assert r[0] == es[0] && r[1..] == Keep(es[1..], d);
      }
    }
  }

  lemma MoveToEndLast(es: seq<Entry>, k: string, e: Entry)
    requires Lookup(es, k) == Some(e)
    ensures MoveToEnd(es, k) == Delete(es, k) + [e]
  {
  }

  /**
   * A hit returns the stored bars and moves that key to the most-recent end,
   * the other keys keeping their order; a key absent after the sweep is a
   * miss that leaves the swept dictionary unchanged.
   */
  lemma MemGetHitOrMiss(es: seq<Entry>, ttl: int, k: string, sweepNow: int, checkNow: int)
    requires DistinctKeys(es)
    ensures var swept := Sweep(es, sweepNow, ttl);
            var (after, r) := MemGet(es, ttl, k, sweepNow, checkNow);
            match Lookup(es, k)
            case None => r.None? && after == swept
            case Some(e) =>
              if sweepNow - e.stamp > ttl then r.None? && after == swept
              else if checkNow - e.stamp > ttl then r.None? && after == Delete(swept, k)
              else r == Some(e.bars) && after == Delete(swept, k) + [e]
  {
    KeepLookup(es, ExpiredAt(sweepNow, ttl), k);
  }

  lemma {:induction false} AssignLookup(es: seq<Entry>, k: string, stamp: int, bars: seq<Bar>)
    ensures Lookup(Assign(es, k, stamp, bars), k) == Some(Entry(k, stamp, bars))
  {
    if es != [] && es[0].key != k {
      AssignLookup(es[1..], k, stamp, bars);
    }
  }

  lemma {:induction false} AssignDelete(es: seq<Entry>, k: string, stamp: int, bars: seq<Bar>)
    ensures Delete(Assign(es, k, stamp, bars), k) == Delete(es, k)
  {
    if es != [] && es[0].key != k {
      AssignDelete(es[1..], k, stamp, bars);
    }
  }

  /** Assigning then moving to the end: the other entries in order, then the new one. */
  lemma StoreOrder(es: seq<Entry>, k: string, now: int, bars: seq<Bar>)
    ensures MoveToEnd(Assign(es, k, now, bars), k) == Delete(es, k) + [Entry(k, now, bars)]
  {
    AssignLookup(es, k, now, bars);
    AssignDelete(es, k, now, bars);
  }

  /**
   * `store_bars` leaves at most `maxEntries` entries, evicting only from the
   * oldest end: the result is a suffix of the other entries followed by the
   * new one, and with capacity at least one the new entry is last.
   */
  lemma MemStoreMeaning(es: seq<Entry>, maxEntries: int, k: string, bars: seq<Bar>, now: int)
    requires maxEntries >= 0
    ensures var full := Delete(es, k) + [Entry(k, now, bars)];
            var (after, raised) := MemStore(es, maxEntries, k, bars, now);
            !raised && |after| <= maxEntries && |after| <= |full|
            && after == full[|full| - |after|..]
            && (|full| <= maxEntries ==> after == full)
            && (maxEntries >= 1 ==> after != [] && after[|after| - 1] == Entry(k, now, bars))
  {
    StoreOrder(es, k, now, bars);
    EvictOldestMeaning(Delete(es, k) + [Entry(k, now, bars)], maxEntries);
  }

  /** With a capacity of zero or more, eviction keeps the newest entries, up to the capacity. */
  lemma EvictOldestMeaning(full: seq<Entry>, maxEntries: int)
    requires maxEntries >= 0
    ensures var (after, raised) := EvictOldest(full, maxEntries);
            !raised && |after| <= maxEntries && |after| <= |full|
            && after == full[|full| - |after|..]
            && (|full| <= maxEntries ==> after == full)
            && (maxEntries >= 1 && full != [] ==> after != [] && after[|after| - 1] == full[|full| - 1])
  {
    assert full[0..] == full;
  }

  /** With a negative capacity, a store empties the dictionary and raises. */
  lemma MemStoreNegativeCapacity(es: seq<Entry>, maxEntries: int, k: string, bars: seq<Bar>, now: int)
    requires maxEntries < 0
    ensures MemStore(es, maxEntries, k, bars, now) == ([], true)
  {
  }

  lemma {:induction false} DeleteOthers(es: seq<Entry>, k: string)
    ensures !HasKey(Delete(es, k), k)
    ensures forall e :: e in Delete(es, k) <==> e in es && e.key != k
  {
    var r := Delete(es, k);
    forall i | 0 <= i < |r| ensures r[i].key != k {
      assert r[i] in r;
    }
  }

  /** A series stored at `now` is read back, wholly, by a read no later than `ttl` after it. */
  lemma StoreThenGet(es: seq<Entry>, ttl: int, maxEntries: int, k: string, bars: seq<Bar>,
                     now: int, sweepNow: int, checkNow: int)
    requires DistinctKeys(es) && maxEntries >= 1
    requires sweepNow - now <= ttl && checkNow - now <= ttl
    ensures var (stored, _) := MemStore(es, maxEntries, k, bars, now);
            MemGet(stored, ttl, k, sweepNow, checkNow).1 == Some(bars)
  {
    var stored := MemStore(es, maxEntries, k, bars, now).0;
    MemStoreMeaning(es, maxEntries, k, bars, now);
    StoredDistinct(es, maxEntries, k, bars, now);
    var e := Entry(k, now, bars);
    assert stored[|stored| - 1] == e;
    assert Lookup(stored, k) == Some(e) by {
      assert e in stored;
    }
    MemGetHitOrMiss(stored, ttl, k, sweepNow, checkNow);
  }

  /** With a zero TTL, an entry stored at `now` is a miss for any later read. */
  lemma ZeroTtlMiss(es: seq<Entry>, maxEntries: int, k: string, bars: seq<Bar>,
                    now: int, sweepNow: int, checkNow: int)
    requires DistinctKeys(es) && maxEntries >= 1
    requires now < sweepNow
    ensures var (stored, _) := MemStore(es, maxEntries, k, bars, now);
            MemGet(stored, 0, k, sweepNow, checkNow).1 == None
  {
    var stored := MemStore(es, maxEntries, k, bars, now).0;
    MemStoreMeaning(es, maxEntries, k, bars, now);
    StoredDistinct(es, maxEntries, k, bars, now);
    var e := Entry(k, now, bars);
    assert Lookup(stored, k) == Some(e) by {
      assert e in stored;
    }
    MemGetHitOrMiss(stored, 0, k, sweepNow, checkNow);
  }

  /** Dropping the first entry of a suffix gives the next suffix. */
  lemma DropOne(es: seq<Entry>, n: nat)
    requires n < |es|
    ensures es[n..][1..] == es[n + 1..]
  {
  }

  lemma SuffixDistinct(es: seq<Entry>, n: int)
    requires DistinctKeys(es) && 0 <= n <= |es|
    ensures DistinctKeys(es[n..])
  {
    forall i, j | 0 <= i < j < |es[n..]| ensures es[n..][i].key != es[n..][j].key {
      assert es[n..][i] == es[n + i] && es[n..][j] == es[n + j];
    }
  }

  lemma StoredDistinct(es: seq<Entry>, maxEntries: int, k: string, bars: seq<Bar>, now: int)
    requires DistinctKeys(es)
    ensures DistinctKeys(MemStore(es, maxEntries, k, bars, now).0)
  {
    StoreOrder(es, k, now, bars);
    var full := Delete(es, k) + [Entry(k, now, bars)];
    KeepDistinct(es, KeyIs(k));
    DeleteOthers(es, k);
    assert DistinctKeys(full) by {
      forall i, j | 0 <= i < j < |full| ensures full[i].key != full[j].key {
        if j == |full| - 1 {
          assert full[i] in Delete(es, k);
        }
      }
    }
    if maxEntries >= 0 && |full| > maxEntries {
      SuffixDistinct(full, |full| - maxEntries);
    }
  }

  lemma GetDistinct(es: seq<Entry>, ttl: int, k: string, sweepNow: int, checkNow: int)
    requires DistinctKeys(es)
    ensures DistinctKeys(MemGet(es, ttl, k, sweepNow, checkNow).0)
  {
    var swept := Sweep(es, sweepNow, ttl);
    KeepDistinct(es, ExpiredAt(sweepNow, ttl));
    KeepDistinct(swept, KeyIs(k));
    match Lookup(swept, k)
    case None =>
    case Some(e) =>
      DeleteOthers(swept, k);
      var moved := Delete(swept, k) + [e];
      assert DistinctKeys(moved) by {
        forall i, j | 0 <= i < j < |moved| ensures moved[i].key != moved[j].key {
          if j == |moved| - 1 {
            assert moved[i] in Delete(swept, k);
          }
        }
      }
  }

  /** `clear(symbol)` removes exactly the keys starting with `SYMBOL|`, keeping the rest in order. */
  lemma ClearMeaning(es: seq<Entry>, symbol: string)
    ensures var p := Upper(symbol) + "|";
            (forall e :: e in Keep(es, KeyPrefix(p)) <==> e in es && !StartsWith(e.key, p))
            && Sublist(Keep(es, KeyPrefix(p)), es)
  {
    KeepIsSublist(es, KeyPrefix(Upper(symbol) + "|"));
  }

  /** A store into a cache of capacity two holding two other keys evicts the older one. */
  lemma CapacityTwoEvictsOldest(a: Entry, b: Entry, k: string, bars: seq<Bar>, now: int)
    requires a.key != b.key && a.key != k && b.key != k
    ensures MemStore([a, b], 2, k, bars, now) == ([b, Entry(k, now, bars)], false)
  {
    StoreOrder([a, b], k, now, bars);
    assert [a, b][1..] == [b] && [b][1..] == [];
    assert Delete([b], k) == [b];
    assert Delete([a, b], k) == [a, b];
    var full := [a, b, Entry(k, now, bars)];
    assert [a, b] + [Entry(k, now, bars)] == full;
    assert MemStore([a, b], 2, k, bars, now) == EvictOldest(full, 2);
    assert full[1..] == [b, Entry(k, now, bars)];
  }

  // ------------------------------------------------------------------
  // The memory cache
  // ------------------------------------------------------------------

  /** The keys of the doomed entries, gathered before any is deleted. */
  method CollectDoomed(es: seq<Entry>, d: Doomed) returns (doomed: seq<string>)
    ensures doomed == DoomedKeys(es, d)
  {
    doomed := [];
    var i := 0;
    while i < |es|
      invariant 0 <= i <= |es|
      invariant doomed + DoomedKeys(es[i..], d) == DoomedKeys(es, d)
    {
      DoomedStep(es, i, d);
      var found := if IsDoomed(d, es[i]) then [es[i].key] else [];
      AppendAssoc(doomed, found, DoomedKeys(es[i + 1..], d));
      doomed := doomed + found;
      i := i + 1;
    }
    assert es[i..] == [];
  }

  lemma DoomedStep(es: seq<Entry>, i: nat, d: Doomed)
    requires i < |es|
    ensures DoomedKeys(es[i..], d) == (if IsDoomed(d, es[i]) then [es[i].key] else []) + DoomedKeys(es[i + 1..], d)
  {
    assert es[i..][0] == es[i] && es[i..][1..] == es[i + 1..];
  }

  class MemoryCache {
    const ttl: int
    const maxEntries: int
    var entries: seq<Entry>

    ghost predicate Valid()
      reads this
    {
      DistinctKeys(entries)
    }

    constructor (ttlSeconds: int := 60, maxEntries: int := 1000)
      ensures Valid() && entries == [] && ttl == ttlSeconds && this.maxEntries == maxEntries
    {
      ttl := ttlSeconds;
      this.maxEntries := maxEntries;
      entries := [];
    }

    /** Collect the keys `d` dooms, then delete them one by one. */
    method DeleteDoomed(d: Doomed)
      requires Valid()
      modifies this
      ensures Valid() && entries == Keep(old(entries), d)
    {
      var doomed := CollectDoomed(entries, d);
      ghost var original := entries;
      WithoutNoKeys(original);
      var j := 0;
      while j < |doomed|
        invariant 0 <= j <= |doomed|
        invariant entries == WithoutKeys(original, doomed[..j])
      {
        DeleteStep(original, doomed, j);
        entries := Delete(entries, doomed[j]);
        j := j + 1;
      }
      TakeAll(doomed);
      WithoutDoomedKeys(original, d);
      KeepDistinct(original, d);
    }

    /** `_evict_expired` at time `now`. */
    method EvictExpired(now: int)
      requires Valid()
      modifies this
      ensures Valid() && entries == Sweep(old(entries), now, ttl)
    {
      DeleteDoomed(ExpiredAt(now, ttl));
    }

    /** `_evict_lru`: returns true where the pop from an empty dictionary raises. */
    method EvictLru() returns (raised: bool)
      requires Valid()
      modifies this
      ensures Valid() && (entries, raised) == EvictOldest(old(entries), maxEntries)
    {
      ghost var original := entries;
      raised := false;
      while |entries| > maxEntries
        invariant DistinctKeys(entries)
        invariant |entries| <= |original| && entries == original[|original| - |entries|..]
        invariant maxEntries >= 0 ==> |entries| >= maxEntries || entries == original
        decreases |entries|
      {
        if entries == [] {
          raised := true;
          return;
        }
        SuffixDistinct(entries, 1);
        DropOne(original, |original| - |entries|);
        entries := entries[1..];
      }
      assert original[0..] == original;
    }

    method GetBars(symbol: string, start: Date, end: Date, timeframe: string,
                   sweepNow: int, checkNow: int) returns (r: Option<seq<Bar>>)
      requires Valid()
      modifies this
      ensures Valid()
      ensures (entries, r) == MemGet(old(entries), ttl, Key(symbol, timeframe, start, end), sweepNow, checkNow)
    {
      EvictExpired(sweepNow);
      var key := Key(symbol, timeframe, start, end);
      var entry := Lookup(entries, key);
      if entry.None? {
        return None;
      }
      if checkNow - entry.value.stamp > ttl {
        KeepDistinct(entries, KeyIs(key));
        entries := Delete(entries, key);
        return None;
      }
      GetDistinct(old(entries), ttl, key, sweepNow, checkNow);
      entries := MoveToEnd(entries, key);
      return Some(entry.value.bars);
    }

    /** `store_bars` at time `now`; returns true where eviction raises `KeyError`. */
    method StoreBars(symbol: string, bars: seq<Bar>, timeframe: string, start: Date, end: Date,
                     now: int) returns (raised: bool)
      requires Valid()
      modifies this
      ensures Valid()
      ensures (entries, raised) == MemStore(old(entries), maxEntries, Key(symbol, timeframe, start, end), bars, now)
    {
      var key := Key(symbol, timeframe, start, end);
      StoreOrder(entries, key, now, bars);
      StoredDistinct(entries, -1, key, bars, now);
      ghost var before := entries;
      entries := MoveToEnd(Assign(entries, key, now, bars), key);
      assert MemStore(before, maxEntries, key, bars, now) == EvictOldest(entries, maxEntries);
      assert DistinctKeys(entries) by {
        StoredDistinct(before, |entries|, key, bars, now);
      }
      raised := EvictLru();
    }

    method HasData(symbol: string, timeframe: string, start: Date, end: Date, now: int)
      returns (b: bool)
      requires Valid()
      modifies this
      ensures Valid() && entries == Sweep(old(entries), now, ttl)
      ensures b <==> HasKey(entries, Key(symbol, timeframe, start, end))
    {
      EvictExpired(now);
      b := Lookup(entries, Key(symbol, timeframe, start, end)).Some?;
    }

    method Clear(symbol: string)
      requires Valid()
      modifies this
      ensures Valid() && entries == Keep(old(entries), KeyPrefix(Upper(symbol) + "|"))
    {
      DeleteDoomed(KeyPrefix(Upper(symbol) + "|"));
    }

    method ClearAll()
      modifies this
      ensures Valid() && entries == []
    {
      entries := [];
    }
  }

  // ------------------------------------------------------------------
  // The no-op cache
  // ------------------------------------------------------------------

  class NoCache {
    constructor ()
    {
    }

    method GetBars(symbol: string, start: Date, end: Date, timeframe: string) returns (r: Option<seq<Bar>>)
      ensures r.None?
    {
      r := None;
    }

    method StoreBars(symbol: string, bars: seq<Bar>, timeframe: string, start: Date, end: Date)
    {
    }

    method HasData(symbol: string, timeframe: string, start: Date, end: Date) returns (b: bool)
      ensures !b
    {
      b := false;
    }

    method Clear(symbol: string)
    {
    }

    method ClearAll()
    {
    }
  }

  // ------------------------------------------------------------------
  // The disk cache, as a map
  // ------------------------------------------------------------------

  /** The disk cache's file for a request: symbol directory and file name. */
  datatype DiskKey = DiskKey(symbol: string, timeframe: string, start: Date, end: Date)

  function DiskKeyOf(symbol: string, timeframe: string, start: Date, end: Date): DiskKey
  {
    DiskKey(Upper(symbol), timeframe, start, end)
  }

  /** `get_bars` of the disk cache: a missing file or one that fails to read is a miss. */
  function DiskGet(files: map<DiskKey, seq<Bar>>, unreadable: set<DiskKey>, k: DiskKey): Option<seq<Bar>>
  {
    if k !in files || k in unreadable then None else Some(files[k])
  }

  /** The disk cache's files: their series, and which of them cannot be read back. */
  datatype Disk = Disk(files: map<DiskKey, seq<Bar>>, unreadable: set<DiskKey>)

  /** `store_bars` of the disk cache: an empty series writes nothing; otherwise the file is (re)written. */
  function DiskStore(disk: Disk, k: DiskKey, bars: seq<Bar>): Disk
  {
    if bars == [] then disk else Disk(disk.files[k := bars], disk.unreadable - {k})
  }

  /** `clear(symbol)` of the disk cache: the symbol's directory goes. */
  function DiskClear(disk: Disk, symbol: string): Disk
  {
    Disk(map k | k in disk.files && k.symbol != Upper(symbol) :: disk.files[k],
         set k | k in disk.unreadable && k.symbol != Upper(symbol))
  }

  /** A series stored in the disk cache is read back, unless it is empty. */
  lemma DiskStoreThenGet(disk: Disk, k: DiskKey, bars: seq<Bar>)
    ensures var after := DiskStore(disk, k, bars);
            DiskGet(after.files, after.unreadable, k)
              == if bars == [] then DiskGet(disk.files, disk.unreadable, k) else Some(bars)
  {
  }

  class ParquetCache {
    var files: map<DiskKey, seq<Bar>>
    /** Files present whose content cannot be read back. */
    var unreadable: set<DiskKey>

    function State(): Disk
      reads this
    {
      Disk(files, unreadable)
    }

    constructor (files: map<DiskKey, seq<Bar>>, unreadable: set<DiskKey>)
      ensures State() == Disk(files, unreadable)
    {
      this.files := files;
      this.unreadable := unreadable;
    }

    method GetBars(symbol: string, start: Date, end: Date, timeframe: string) returns (r: Option<seq<Bar>>)
      ensures r == DiskGet(files, unreadable, DiskKeyOf(symbol, timeframe, start, end))
    {
      var k := DiskKeyOf(symbol, timeframe, start, end);
      if k !in files {
        return None;
      }
      if k in unreadable {
        return None;
      }
      return Some(files[k]);
    }

    method StoreBars(symbol: string, bars: seq<Bar>, timeframe: string, start: Date, end: Date)
      modifies this
      ensures State() == DiskStore(old(State()), DiskKeyOf(symbol, timeframe, start, end), bars)
    {
      if bars == [] {
        return;
      }
      var k := DiskKeyOf(symbol, timeframe, start, end);
      files := files[k := bars];
      unreadable := unreadable - {k};
    }

    method HasData(symbol: string, timeframe: string, start: Date, end: Date) returns (b: bool)
      ensures b <==> DiskKeyOf(symbol, timeframe, start, end) in files
    {
      b := DiskKeyOf(symbol, timeframe, start, end) in files;
    }

    method Clear(symbol: string)
      modifies this
      ensures State() == DiskClear(old(State()), symbol)
    {
      files := map k | k in files && k.symbol != Upper(symbol) :: files[k];
      unreadable := set k | k in unreadable && k.symbol != Upper(symbol);
    }

    method ClearAll()
      modifies this
      ensures State() == Disk(map[], {})
    {
      files := map[];
      unreadable := {};
    }
  }

  /** An empty series stored in the disk cache leaves the request absent. */
  lemma DiskSkipsEmptyStore(disk: Disk, k: DiskKey)
    requires k !in disk.files
    ensures k !in DiskStore(disk, k, []).files
  {
  }

  /** An empty series stored in the memory cache is a hit right after. */
  lemma MemoryStoresEmptySeries(es: seq<Entry>, ttl: int, maxEntries: int, k: string, now: int)
    requires DistinctKeys(es) && maxEntries >= 1 && ttl >= 0
    ensures var (stored, _) := MemStore(es, maxEntries, k, [], now);
            MemGet(stored, ttl, k, now, now).1 == Some([])
  {
    StoreThenGet(es, ttl, maxEntries, k, [], now, now, now);
  }

  // ------------------------------------------------------------------
  // Any backend, as a value
  // ------------------------------------------------------------------

  /** The state of whichever backend is configured. */
  datatype CacheState =
    | MemoryState(ttl: int, maxEntries: int, entries: seq<Entry>)
    | DiskState(disk: Disk)
    | NoState

  /** A bars request; the cache key is built from it. */
  datatype BarsRequest = BarsRequest(symbol: string, start: Date, end: Date, timeframe: string)

  /** The times the memory cache reads its clock during one fetch. */
  datatype Clock = Clock(sweepNow: int, checkNow: int, storeNow: int)

  function KeyOf(q: BarsRequest): string
  {
    Key(q.symbol, q.timeframe, q.start, q.end)
  }

  function DiskKeyOfRequest(q: BarsRequest): DiskKey
  {
    DiskKeyOf(q.symbol, q.timeframe, q.start, q.end)
  }

  ghost predicate CacheValid(st: CacheState)
  {
    st.MemoryState? ==> DistinctKeys(st.entries)
  }

  /** `cache.get_bars(...)` on any backend. */
  function CacheGet(st: CacheState, q: BarsRequest, clock: Clock): (CacheState, Option<seq<Bar>>)
  {
    match st
    case MemoryState(ttl, maxEntries, es) =>
      var (after, r) := MemGet(es, ttl, KeyOf(q), clock.sweepNow, clock.checkNow);
      (MemoryState(ttl, maxEntries, after), r)
    case DiskState(disk) => (st, DiskGet(disk.files, disk.unreadable, DiskKeyOfRequest(q)))
    case NoState => (st, None)
  }

  /** `cache.store_bars(...)` on any backend; the flag is a raised `KeyError`. */
  function CacheStore(st: CacheState, q: BarsRequest, bars: seq<Bar>, clock: Clock): (CacheState, bool)
  {
    match st
    case MemoryState(ttl, maxEntries, es) =>
      var (after, raised) := MemStore(es, maxEntries, KeyOf(q), bars, clock.storeNow);
      (MemoryState(ttl, maxEntries, after), raised)
    case DiskState(disk) => (DiskState(DiskStore(disk, DiskKeyOfRequest(q), bars)), false)
    case NoState => (st, false)
  }

  function CacheClear(st: CacheState, symbol: string): CacheState
  {
    match st
    case MemoryState(ttl, maxEntries, es) => MemoryState(ttl, maxEntries, Keep(es, KeyPrefix(Upper(symbol) + "|")))
    case DiskState(disk) => DiskState(DiskClear(disk, symbol))
    case NoState => st
  }

  function CacheClearAll(st: CacheState): CacheState
  {
    match st
    case MemoryState(ttl, maxEntries, _) => MemoryState(ttl, maxEntries, [])
    case DiskState(_) => DiskState(Disk(map[], {}))
    case NoState => st
  }

  /** Every transition keeps the memory cache's keys distinct. */
  lemma CacheTransitionsValid(st: CacheState, q: BarsRequest, bars: seq<Bar>, clock: Clock, symbol: string)
    requires CacheValid(st)
    ensures CacheValid(CacheGet(st, q, clock).0)
    ensures CacheValid(CacheStore(st, q, bars, clock).0)
    ensures CacheValid(CacheClear(st, symbol))
    ensures CacheValid(CacheClearAll(st))
  {
    if st.MemoryState? {
      GetDistinct(st.entries, st.ttl, KeyOf(q), clock.sweepNow, clock.checkNow);
      StoredDistinct(st.entries, st.maxEntries, KeyOf(q), bars, clock.storeNow);
      KeepDistinct(st.entries, KeyPrefix(Upper(symbol) + "|"));
    }
  }
}
