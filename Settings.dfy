/**
 * Provider settings: the provider table, secret masking, the provider order
 * kept in `MARKET_DATA_PROVIDERS`, the `.env` line reader and line-preserving
 * writer, and the validation of an update payload.
 *
 * The environment is a map and a `.env` file is its sequence of lines.
 */
module Settings {
  import opened Common
  import EnvFile

  datatype FieldSpec = FieldSpec(name: string, envVar: string, secret: bool)

  /** The provider names in the table's order. */
  const ProviderNames: seq<string> := ["polygon", "alpaca", "finnhub", "ib", "mock"]

  /** The order used when none is configured. */
  const DefaultOrder: seq<string> := ["polygon"]

  /** The environment variable holding the provider order. */
  const ProvidersVar: string := "MARKET_DATA_PROVIDERS"

  /** The settings fields of each provider. */
  function Fields(provider: string): seq<FieldSpec>
  {
    if provider == "polygon" then [FieldSpec("api_key", "POLYGON_API_KEY", true)]
    else if provider == "alpaca" then
      [FieldSpec("api_key", "ALPACA_API_KEY", true), FieldSpec("api_secret", "ALPACA_SECRET_KEY", true)]
    else if provider == "finnhub" then [FieldSpec("api_key", "FINNHUB_API_KEY", true)]
    else if provider == "ib" then
      [FieldSpec("host", "IB_HOST", false), FieldSpec("port", "IB_PORT", false), FieldSpec("client_id", "IB_CLIENT_ID", false)]
    else []
  }

  // ------------------------------------------------------------------
  // Masking
  // ------------------------------------------------------------------

  function Stars(n: nat): (r: string)
    ensures |r| == n && forall i :: 0 <= i < n ==> r[i] == '*'
  {
    if n == 0 then [] else Stars(n - 1) + ['*']
  }

  /**
   * `_mask_value`: the length is kept; a short value is all stars, a longer
   * one shows only its first two and last two characters.
   */
  function MaskValue(v: string): (r: string)
    ensures |r| == |v|
    ensures |v| <= 4 ==> forall i :: 0 <= i < |r| ==> r[i] == '*'
    ensures |v| > 4 ==> r[..2] == v[..2] && r[|v| - 2..] == v[|v| - 2..]
                        && forall i :: 2 <= i < |v| - 2 ==> r[i] == '*'
  {
    if v == "" then ""
    else if |v| <= 4 then Stars(|v|)
    else v[..2] + Stars(|v| - 4) + v[|v| - 2..]
  }

  /** The mask reveals the length and the characters at the ends, nothing else. */
  lemma MaskRevealsOnlyEnds(a: string, b: string)
    requires |a| == |b|
    requires |a| > 4 ==> a[..2] == b[..2] && a[|a| - 2..] == b[|b| - 2..]
    ensures MaskValue(a) == MaskValue(b)
  {
    var ma, mb := MaskValue(a), MaskValue(b);
    forall i | 0 <= i < |ma| ensures ma[i] == mb[i] {
      if |a| > 4 {
        if i < 2 {
          assert ma[i] == ma[..2][i] && mb[i] == mb[..2][i];
        } else if i >= |a| - 2 {
          assert ma[i] == ma[|a| - 2..][i - (|a| - 2)] && mb[i] == mb[|a| - 2..][i - (|a| - 2)];
        }
      }
    }
  }

  // ------------------------------------------------------------------
  // Provider names and the provider order
  // ------------------------------------------------------------------

  /** The ways an update request is refused. */
  datatype Rejection =
    | UnsupportedProvider(provider: string)
    | EnabledNotBool
    | PriorityInvalid
    | ValuesNotObject
    | ClearNotList
    | UnsupportedField(field: string)

  datatype Checked<T> = Accepted(value: T) | Rejected(why: Rejection)

  /** `_normalize_provider`: strip, lower-case, and look up. */
  function NormalizeProvider(provider: string): (r: Checked<string>)
    ensures r.Accepted? <==> Lower(Strip(provider)) in ProviderNames
    ensures r.Accepted? ==> r.value == Lower(Strip(provider)) && r.value in ProviderNames
    ensures r.Rejected? ==> r.why == UnsupportedProvider(provider)
  {
    var key := Lower(Strip(provider));
    if key in ProviderNames then Accepted(key) else Rejected(UnsupportedProvider(provider))
  }

  /** The value of `MARKET_DATA_PROVIDERS`, empty when unset. */
  function RawOrder(env: map<string, string>): string
  {
    if ProvidersVar in env then env[ProvidersVar] else ""
  }

  /** The comma-separated names, each stripped and lower-cased. */
  function OrderKeys(raw: string): seq<string>
  {
    var parts := Split(raw, ',');
    seq(|parts|, i requires 0 <= i < |parts| => Lower(Strip(parts[i])))
  }

  /** Each key is a comma-separated part, stripped and lower-cased. */
  lemma OrderKeysParts(raw: string)
    ensures |OrderKeys(raw)| == |Split(raw, ',')|
    ensures forall i :: 0 <= i < |OrderKeys(raw)| ==> OrderKeys(raw)[i] == Lower(Strip(Split(raw, ',')[i]))
  {
  }

  /** The position of the first occurrence of `x` in `s`. */
  function FirstPos<T(==)>(s: seq<T>, x: T): (r: nat)
    requires x in s
    ensures r < |s| && s[r] == x && forall j :: 0 <= j < r ==> s[j] != x
  {
    if s[0] == x then 0 else FirstPos(s[1..], x) + 1
  }

  /** Some key is one of `names`. */
  predicate MentionsAny(keys: seq<string>, names: seq<string>)
  {
    exists k :: k in keys && k in names
  }

  /** `order` holds the keys found in `names`, ordered by first occurrence in `keys`. */
  ghost predicate InFirstOccurrenceOrder(order: seq<string>, keys: seq<string>, names: seq<string>)
  {
    (forall x :: x in order <==> x in keys && x in names)
    && forall i, j :: 0 <= i < j < |order| ==> FirstPos(keys, order[i]) < FirstPos(keys, order[j])
  }

  /** The keys found in `names`, each once, in the order of their first appearance. */
  function FirstKnown(keys: seq<string>, names: seq<string>): seq<string>
  {
    if keys == [] then []
    else
      var seen := FirstKnown(keys[..|keys| - 1], names);
      var key := keys[|keys| - 1];
      if key in names && key !in seen then seen + [key] else seen
  }

  /** What `FirstKnown` keeps of the first `n` keys, written as the loop invariant it is. */
  lemma {:induction false} FirstKnownUpTo(keys: seq<string>, names: seq<string>, n: nat)
    requires n <= |keys|
    ensures var seen := FirstKnown(keys[..n], names);
            && Distinct(seen)
            && (forall x :: x in seen <==> x in keys[..n] && x in names)
            && (forall x :: x in seen ==> x in keys)
            && (forall a :: 0 <= a < |seen| ==> FirstPos(keys, seen[a]) < n)
            && forall a, b :: 0 <= a < b < |seen| ==> FirstPos(keys, seen[a]) < FirstPos(keys, seen[b])
  {
    if n > 0 {
      FirstKnownUpTo(keys, names, n - 1);
      var prefix := keys[..n];
      assert prefix[..n - 1] == keys[..n - 1];
      assert prefix == keys[..n - 1] + [keys[n - 1]];
      var seen := FirstKnown(keys[..n - 1], names);
      var key := keys[n - 1];
      if key in names && key !in seen {
        assert FirstPos(keys, key) == n - 1 by {
          assert key !in keys[..n - 1];
          assert forall j :: 0 <= j < n - 1 ==> keys[j] == keys[..n - 1][j];
        }
      }
    }
  }

  /** `FirstKnown` is duplicate-free and in first-occurrence order. */
  lemma FirstKnownMeaning(keys: seq<string>, names: seq<string>)
    ensures Distinct(FirstKnown(keys, names))
    ensures InFirstOccurrenceOrder(FirstKnown(keys, names), keys, names)
    ensures FirstKnown(keys, names) == [] <==> !MentionsAny(keys, names)
  {
    FirstKnownUpTo(keys, names, |keys|);
    assert keys[..|keys|] == keys;
    var seen := FirstKnown(keys, names);
    if seen != [] {
      assert seen[0] in keys && seen[0] in names;
    }
  }

  /**
   * The loop of `_provider_order_from_env`: the stripped, lower-cased names
   * that are known and not yet picked, appended in turn.
   */
  method PickKnown(keys: seq<string>, names: seq<string>) returns (picked: seq<string>)
    ensures picked == FirstKnown(keys, names)
  {
    picked := [];
    var i := 0;
    while i < |keys|
      invariant 0 <= i <= |keys|
      invariant picked == FirstKnown(keys[..i], names)
    {
      assert keys[..i + 1][..i] == keys[..i];
      picked := if keys[i] in names && keys[i] !in picked then picked + [keys[i]] else picked;
      i := i + 1;
    }
    assert keys[..|keys|] == keys;
  }

  /** The order `_provider_order_from_env` picks. */
  function OrderFromEnv(env: map<string, string>): seq<string>
  {
    var raw := RawOrder(env);
    var picked := if Strip(raw) != "" then FirstKnown(OrderKeys(raw), ProviderNames) else [];
    if picked != [] then picked else DefaultOrder
  }

  /** The default order is a duplicate-free list of known providers. */
  lemma DefaultOrderKnown()
    ensures Distinct(DefaultOrder) && forall x :: x in DefaultOrder ==> x in ProviderNames
  {
  }

  /**
   * The order read from `MARKET_DATA_PROVIDERS` is never empty, has no
   * duplicate and names only known providers: those the variable names, in
   * the order they first appear, or the default order when it is blank or
   * names no known provider.
   */
  lemma OrderFromEnvMeaning(env: map<string, string>)
    ensures var order := OrderFromEnv(env);
            order != [] && Distinct(order) && forall x :: x in order ==> x in ProviderNames
    ensures var raw := RawOrder(env);
            var keys := OrderKeys(raw);
            if Strip(raw) != "" && MentionsAny(keys, ProviderNames) then
              InFirstOccurrenceOrder(OrderFromEnv(env), keys, ProviderNames)
            else OrderFromEnv(env) == DefaultOrder
  {
    DefaultOrderKnown();
    var raw := RawOrder(env);
    FirstKnownMeaning(OrderKeys(raw), ProviderNames);
  }

  /** `_provider_order_from_env`. */
  method ProviderOrderFromEnv(env: map<string, string>) returns (order: seq<string>)
    ensures order == OrderFromEnv(env)
  {
    var raw := if ProvidersVar in env then env[ProvidersVar] else "";
    if Strip(raw) != "" {
      var picked := PickKnown(OrderKeys(raw), ProviderNames);
      if picked != [] {
        return picked;
      }
    }
    return DefaultOrder;
  }

  /** `list.remove(x)`: the first occurrence of `x` removed. */
  function RemoveFirst<T(==)>(s: seq<T>, x: T): (r: seq<T>)
    ensures x in s ==> |r| == |s| - 1
    ensures x !in s ==> r == s
    ensures forall y :: y in r ==> y in s
  {
    if s == [] then []
    else if s[0] == x then s[1..]
    else [s[0]] + RemoveFirst(s[1..], x)
  }

  /** `list.insert(i, x)` at a position already clamped to the list. */
  function InsertAt<T>(s: seq<T>, i: nat, x: T): (r: seq<T>)
    requires i <= |s|
    ensures |r| == |s| + 1 && r[i] == x
    ensures r[..i] == s[..i] && r[i + 1..] == s[i..]
  {
    s[..i] + [x] + s[i..]
  }

  /** `min(max(p, 0), n)`. */
  function Clamp(p: int, n: nat): (r: nat)
    ensures r <= n
    ensures 0 <= p <= n ==> r == p
    ensures p < 0 ==> r == 0
    ensures p > n ==> r == n
  {
    if p < 0 then 0 else if p > n then n else p
  }

  /** Every element other than `x`. */
  function Other<T(==)>(x: T): T -> bool
  {
    y => y != x
  }

  /** `_apply_order_update`: enable, disable and reposition one provider. */
  function ApplyOrderUpdate(order: seq<string>, provider: string, enabled: Option<bool>, priority: Option<int>): (r: seq<string>)
    ensures r != []
  {
    var added := if enabled == Some(true) && provider !in order then order + [provider] else order;
    var kept := if enabled == Some(false) && provider in added then RemoveFirst(added, provider) else added;
    var placed :=
      if priority.Some? && provider in kept then
        var rest := RemoveFirst(kept, provider);
        InsertAt(rest, Clamp(priority.value - 1, |rest|), provider)
      else kept;
    if placed == [] then DefaultOrder else placed
  }

  /** In a duplicate-free list, removing one element keeps the others. */
  lemma {:induction false} RemoveFirstDistinct<T>(s: seq<T>, x: T)
    requires Distinct(s)
    ensures Distinct(RemoveFirst(s, x)) && x !in RemoveFirst(s, x)
    ensures forall y :: y != x ==> (y in RemoveFirst(s, x) <==> y in s)
  {
    if s != [] {
      assert Distinct(s[1..]) by {
        forall i, j | 0 <= i < j < |s[1..]| ensures s[1..][i] != s[1..][j] {
          assert s[1..][i] == s[i + 1] && s[1..][j] == s[j + 1];
        }
      }
      if s[0] != x {
        RemoveFirstDistinct(s[1..], x);
        var r := RemoveFirst(s[1..], x);
        assert s[0] !in r by {
          assert s[0] !in s[1..];
        }
        assert RemoveFirst(s, x) == [s[0]] + r;
      } else {
        assert x !in s[1..];
      }
    }
  }

  /** Removing the first occurrence of `x` leaves the other elements in their order. */
  lemma {:induction false} RemoveFirstOthers<T>(s: seq<T>, x: T)
    ensures Filter(RemoveFirst(s, x), Other(x)) == Filter(s, Other(x))
  {
    if s != [] && s[0] != x {
      RemoveFirstOthers(s[1..], x);
      assert RemoveFirst(s, x) == [s[0]] + RemoveFirst(s[1..], x);
      assert ([s[0]] + RemoveFirst(s[1..], x))[1..] == RemoveFirst(s[1..], x);
    }
  }

  /** Appending a new element keeps a list duplicate-free. */
  lemma AppendDistinct<T>(s: seq<T>, x: T)
    requires Distinct(s) && x !in s
    ensures Distinct(s + [x])
  {
    forall i, j | 0 <= i < j < |s + [x]| ensures (s + [x])[i] != (s + [x])[j] {
      assert (s + [x])[i] == s[i];
      if j < |s| {
        assert (s + [x])[j] == s[j];
      }
    }
  }

  /** Inserting a new element keeps a list duplicate-free. */
  lemma InsertAtDistinct<T>(s: seq<T>, i: nat, x: T)
    requires i <= |s| && Distinct(s) && x !in s
    ensures Distinct(InsertAt(s, i, x))
  {
    var r := InsertAt(s, i, x);
    forall a, b | 0 <= a < b < |r| ensures r[a] != r[b] {
      assert r[a] == (if a < i then s[a] else if a == i then x else s[a - 1]);
      assert r[b] == (if b < i then s[b] else if b == i then x else s[b - 1]);
    }
  }

  /** Inserting `x` brings in no element other than `x`. */
  lemma InsertAtMembers<T>(s: seq<T>, i: nat, x: T)
    requires i <= |s|
    ensures forall y :: y in InsertAt(s, i, x) ==> y in s || y == x
  {
    var r := InsertAt(s, i, x);
    forall y | y in r ensures y in s || y == x {
      var k :| 0 <= k < |r| && r[k] == y;
      assert r[k] == (if k < i then s[k] else if k == i then x else s[k - 1]);
    }
  }

  /** Inserting `x` leaves the other elements and their order as they were. */
  lemma InsertAtOthers<T>(s: seq<T>, i: nat, x: T)
    requires i <= |s|
    ensures Filter(InsertAt(s, i, x), Other(x)) == Filter(s, Other(x))
  {
    var a, b := s[..i], s[i..];
    assert InsertAt(s, i, x) == a + ([x] + b);
    FilterConcat(a, [x] + b, Other(x));
    FilterSkip(x, b, Other(x));
    FilterConcat(a, b, Other(x));
    TakeDrop(s, i);
  }

  /** A first element the predicate rejects is dropped. */
  lemma FilterSkip<T>(x: T, b: seq<T>, p: T -> bool)
    requires !p(x)
    ensures Filter([x] + b, p) == Filter(b, p)
  {
    assert ([x] + b)[1..] == b;
  }

  /** The order update never introduces a duplicate. */
  lemma OrderUpdateDistinct(order: seq<string>, provider: string, enabled: Option<bool>, priority: Option<int>)
    requires Distinct(order)
    ensures Distinct(ApplyOrderUpdate(order, provider, enabled, priority))
  {
    var added := if enabled == Some(true) && provider !in order then order + [provider] else order;
    if enabled == Some(true) && provider !in order {
      AppendDistinct(order, provider);
    }
    var kept := if enabled == Some(false) && provider in added then RemoveFirst(added, provider) else added;
    if enabled == Some(false) && provider in added {
      RemoveFirstDistinct(added, provider);
    }
    if priority.Some? && provider in kept {
      var rest := RemoveFirst(kept, provider);
      RemoveFirstDistinct(kept, provider);
      InsertAtDistinct(rest, Clamp(priority.value - 1, |rest|), provider);
    }
  }

  /** Enabling puts the provider in the order. */
  lemma OrderUpdateEnables(order: seq<string>, provider: string, priority: Option<int>)
    ensures provider in ApplyOrderUpdate(order, provider, Some(true), priority)
  {
    var added := if provider !in order then order + [provider] else order;
    assert provider in added;
    if priority.Some? {
      var rest := RemoveFirst(added, provider);
      var idx := Clamp(priority.value - 1, |rest|);
      assert InsertAt(rest, idx, provider)[idx] == provider;
    }
  }

  /**
   * Disabling removes the provider from a duplicate-free order, falling back
   * to the default order when nothing is left; a priority has no effect then.
   */
  lemma OrderUpdateDisables(order: seq<string>, provider: string, priority: Option<int>)
    requires Distinct(order)
    ensures var rest := RemoveFirst(order, provider);
            ApplyOrderUpdate(order, provider, Some(false), priority) == if rest == [] then DefaultOrder else rest
    ensures provider !in RemoveFirst(order, provider)
  {
    RemoveFirstDistinct(order, provider);
  }

  /**
   * With a priority, a provider in the order (or being enabled) ends up at
   * the clamped 1-based position, and the other providers keep their order.
   */
  lemma OrderUpdatePlaces(order: seq<string>, provider: string, enabled: Option<bool>, p: int)
    requires enabled != Some(false)
    requires provider in order || enabled == Some(true)
    ensures var r := ApplyOrderUpdate(order, provider, enabled, Some(p));
            r[Clamp(p - 1, |r| - 1)] == provider
    ensures Filter(ApplyOrderUpdate(order, provider, enabled, Some(p)), Other(provider))
         == Filter(order, Other(provider))
  {
    var added := if enabled == Some(true) && provider !in order then order + [provider] else order;
    assert provider in added;
    var rest := RemoveFirst(added, provider);
    var idx := Clamp(p - 1, |rest|);
    assert |rest| == |added| - 1;
    InsertAtOthers(rest, idx, provider);
    RemoveFirstOthers(added, provider);
    if added != order {
      FilterConcat(order, [provider], Other(provider));
    }
  }

  // ------------------------------------------------------------------
  // update_provider
  // ------------------------------------------------------------------

  /** A value of the decoded request payload. */
  datatype Json =
    | JNull
    | JBool(b: bool)
    | JInt(i: int)
    | JFloat(f: real)
    | JStr(s: string)
    | JList(items: seq<Json>)
    | JObject(entries: seq<(string, Json)>)

  /** Python truthiness of a payload value. */
  predicate Truthy(v: Json)
  {
    match v
    case JNull => false
    case JBool(b) => b
    case JInt(i) => i != 0
    case JFloat(f) => f != 0.0
    case JStr(t) => t != ""
    case JList(items) => items != []
    case JObject(entries) => entries != []
  }

  /** `payload.get(key)`: absent and `null` are both `None`. */
  function Get(payload: map<string, Json>, key: string): (r: Option<Json>)
    ensures r.Some? <==> key in payload && payload[key] != JNull
    ensures r.Some? ==> r.value == payload[key]
  {
    if key in payload && payload[key] != JNull then Some(payload[key]) else None
  }

  /** `payload.get(key, empty) or empty`: an absent or falsy value is replaced by `empty`. */
  function OrEmpty(payload: map<string, Json>, key: string, empty: Json): (r: Json)
    ensures r == empty || (key in payload && r == payload[key] && Truthy(r))
  {
    if key in payload && Truthy(payload[key]) then payload[key] else empty
  }

  /** `isinstance(v, int)`, under which a bool is the integer 0 or 1. */
  function AsInt(v: Json): (r: Option<int>)
    ensures r.Some? <==> v.JBool? || v.JInt?
  {
    match v
    case JBool(b) => Some(if b then 1 else 0)
    case JInt(i) => Some(i)
    case _ => None
  }

  /** Every element is a string. */
  predicate AllStrings(items: seq<Json>)
  {
    forall x :: x in items ==> x.JStr?
  }

  /** The environment variable of the first field spec with that name. */
  function EnvVarOf(fields: seq<FieldSpec>, name: string): (r: Option<string>)
    ensures r.Some? <==> exists f :: f in fields && f.name == name
    ensures r.Some? ==> exists f :: f in fields && f.name == name && f.envVar == r.value
  {
    if fields == [] then None
    else if fields[0].name == name then Some(fields[0].envVar)
    else EnvVarOf(fields[1..], name)
  }

  /** `env_updates[key] = value`: a new key goes last, an existing key keeps its place. */
  function Put(u: EnvFile.Updates, k: string, v: Option<string>): EnvFile.Updates
  {
    if u == [] then [(k, v)]
    else if u[0].0 == k then [(k, v)] + u[1..]
    else [u[0]] + Put(u[1..], k, v)
  }

  /** A dict assignment keeps keys distinct, sets the key and leaves the other keys, in place. */
  lemma {:induction false} PutMeaning(u: EnvFile.Updates, k: string, v: Option<string>)
    requires Distinct(EnvFile.UpdateKeys(u))
    ensures Distinct(EnvFile.UpdateKeys(Put(u, k, v)))
    ensures k in EnvFile.UpdateKeys(u) ==> EnvFile.UpdateKeys(Put(u, k, v)) == EnvFile.UpdateKeys(u)
    ensures k !in EnvFile.UpdateKeys(u) ==> EnvFile.UpdateKeys(Put(u, k, v)) == EnvFile.UpdateKeys(u) + [k]
    ensures k in EnvFile.UpdateKeys(Put(u, k, v)) && EnvFile.Lookup(Put(u, k, v), k) == v
    ensures forall x :: x in EnvFile.UpdateKeys(u) && x != k ==> EnvFile.Lookup(Put(u, k, v), x) == EnvFile.Lookup(u, x)
  {
    if u != [] {
      var keys := EnvFile.UpdateKeys(u);
      DistinctTail(keys);
      assert keys[1..] == EnvFile.UpdateKeys(u[1..]);
      if u[0].0 == k {
        assert EnvFile.UpdateKeys([(k, v)] + u[1..]) == [k] + EnvFile.UpdateKeys(u[1..]) by {
          assert ([(k, v)] + u[1..])[1..] == u[1..];
        }
        assert keys == [k] + keys[1..];
      } else {
        PutMeaning(u[1..], k, v);
        var r := Put(u[1..], k, v);
        assert EnvFile.UpdateKeys([u[0]] + r) == [u[0].0] + EnvFile.UpdateKeys(r) by {
          assert ([u[0]] + r)[1..] == r;
        }
        DistinctCons(u[0].0, EnvFile.UpdateKeys(r));
        assert keys == [u[0].0] + keys[1..];
      }
    }
  }

  /** A requested change: a field name and its new value, or `None` to clear it. */
  type Request = (string, Option<string>)

  /** The requests of `values` (in their order), as `str(value)`. */
  function ValueRequests(entries: seq<(string, Json)>, str: Json -> string): (r: seq<Request>)
    ensures |r| == |entries|
    ensures forall i :: 0 <= i < |r| ==> r[i] == (entries[i].0, Some(str(entries[i].1)))
  {
    seq(|entries|, i requires 0 <= i < |entries| => (entries[i].0, Some(str(entries[i].1))))
  }

  /** The requests of `clear` (in their order). */
  function ClearRequests(items: seq<Json>): (r: seq<Request>)
    requires AllStrings(items)
    ensures |r| == |items|
    ensures forall i :: 0 <= i < |r| ==> r[i] == (items[i].s, None)
  {
    seq(|items|, i requires 0 <= i < |items| => (items[i].s, None))
  }

  /**
   * The environment updates of the requests, taken in turn: the first field
   * name the provider does not have refuses the whole update.
   */
  function Staged(fields: seq<FieldSpec>, reqs: seq<Request>): Checked<EnvFile.Updates>
  {
    if reqs == [] then Accepted([])
    else match Staged(fields, reqs[..|reqs| - 1])
      case Rejected(why) => Rejected(why)
      case Accepted(u) =>
        var req := reqs[|reqs| - 1];
        match EnvVarOf(fields, req.0)
        case None => Rejected(UnsupportedField(req.0))
        case Some(envVar) => Accepted(Put(u, envVar, req.1))
  }

  /** The index of the first request naming an unknown field, if any. */
  function FirstUnknown(fields: seq<FieldSpec>, reqs: seq<Request>): (r: Option<nat>)
    ensures r.Some? ==> r.value < |reqs| && EnvVarOf(fields, reqs[r.value].0).None?
                        && forall j :: 0 <= j < r.value ==> EnvVarOf(fields, reqs[j].0).Some?
    ensures r.None? ==> forall j :: 0 <= j < |reqs| ==> EnvVarOf(fields, reqs[j].0).Some?
  {
    if reqs == [] then None
    else if EnvVarOf(fields, reqs[0].0).None? then Some(0)
    else match FirstUnknown(fields, reqs[1..])
      case None => None
      case Some(k) => Some(k + 1)
  }

  /** The value of the last request for environment variable `k`, if any request maps to it. */
  function LastFor(fields: seq<FieldSpec>, reqs: seq<Request>, k: string): Option<Option<string>>
  {
    if reqs == [] then None
    else
      var req := reqs[|reqs| - 1];
      if EnvVarOf(fields, req.0) == Some(k) then Some(req.1) else LastFor(fields, reqs[..|reqs| - 1], k)
  }

  /** `u` updates each variable some request maps to once, to the last such request's value, and nothing else. */
  ghost predicate Realizes(fields: seq<FieldSpec>, reqs: seq<Request>, u: EnvFile.Updates)
  {
    Distinct(EnvFile.UpdateKeys(u))
    && forall k :: (k in EnvFile.UpdateKeys(u) <==> LastFor(fields, reqs, k).Some?)
                   && (k in EnvFile.UpdateKeys(u) ==> EnvFile.Lookup(u, k) == LastFor(fields, reqs, k).value)
  }

  /**
   * The updates are refused exactly when some field name is unknown, naming
   * the first such field; otherwise each environment variable some request
   * maps to is updated once, to the value of the last such request, and no
   * other variable is touched.
   */
  lemma StagedMeaning(fields: seq<FieldSpec>, reqs: seq<Request>)
    ensures Staged(fields, reqs).Rejected? <==> FirstUnknown(fields, reqs).Some?
    ensures Staged(fields, reqs).Rejected? ==>
              Staged(fields, reqs).why == UnsupportedField(reqs[FirstUnknown(fields, reqs).value].0)
    ensures Staged(fields, reqs).Accepted? ==> Realizes(fields, reqs, Staged(fields, reqs).value)
  {
    StagedRefusal(fields, reqs);
    StagedAccepted(fields, reqs);
  }

  lemma {:induction false} StagedRefusal(fields: seq<FieldSpec>, reqs: seq<Request>)
    ensures Staged(fields, reqs).Rejected? <==> FirstUnknown(fields, reqs).Some?
    ensures Staged(fields, reqs).Rejected? ==>
              Staged(fields, reqs).why == UnsupportedField(reqs[FirstUnknown(fields, reqs).value].0)
  {
    if reqs != [] {
      var front := reqs[..|reqs| - 1];
      var req := reqs[|reqs| - 1];
      StagedRefusal(fields, front);
      FirstUnknownSnoc(fields, front, req);
      assert reqs == front + [req];
    }
  }

  lemma {:induction false} StagedAccepted(fields: seq<FieldSpec>, reqs: seq<Request>)
    ensures Staged(fields, reqs).Accepted? ==> Realizes(fields, reqs, Staged(fields, reqs).value)
  {
    if reqs != [] {
      var front := reqs[..|reqs| - 1];
      StagedAccepted(fields, front);
      var req := reqs[|reqs| - 1];
      if Staged(fields, front).Accepted? && EnvVarOf(fields, req.0).Some? {
        StagedStep(fields, reqs, Staged(fields, front).value, EnvVarOf(fields, req.0).value);
      }
    }
  }

  /** One more known field: its variable is put, and the put updates realize the longer requests. */
  lemma StagedStep(fields: seq<FieldSpec>, reqs: seq<Request>, u: EnvFile.Updates, envVar: string)
    requires reqs != []
    requires Staged(fields, reqs[..|reqs| - 1]) == Accepted(u)
    requires EnvVarOf(fields, reqs[|reqs| - 1].0) == Some(envVar)
    requires Realizes(fields, reqs[..|reqs| - 1], u)
    ensures Staged(fields, reqs) == Accepted(Put(u, envVar, reqs[|reqs| - 1].1))
    ensures Realizes(fields, reqs, Put(u, envVar, reqs[|reqs| - 1].1))
  {
    var front, v := reqs[..|reqs| - 1], reqs[|reqs| - 1].1;
    PutMeaning(u, envVar, v);
    var w := Put(u, envVar, v);
    forall k
      ensures (k in EnvFile.UpdateKeys(w) <==> LastFor(fields, reqs, k).Some?)
              && (k in EnvFile.UpdateKeys(w) ==> EnvFile.Lookup(w, k) == LastFor(fields, reqs, k).value)
    {
      if k != envVar {
        assert LastFor(fields, reqs, k) == LastFor(fields, front, k);
      }
    }
  }

  lemma {:induction false} FirstUnknownSnoc(fields: seq<FieldSpec>, reqs: seq<Request>, req: Request)
    ensures FirstUnknown(fields, reqs + [req]) ==
              if FirstUnknown(fields, reqs).Some? then FirstUnknown(fields, reqs)
              else if EnvVarOf(fields, req.0).None? then Some(|reqs|)
              else None
  {
    if reqs != [] {
      assert (reqs + [req])[1..] == reqs[1..] + [req];
      FirstUnknownSnoc(fields, reqs[1..], req);
    }
  }

  /** What an accepted update asks for. */
  datatype Plan = Plan(provider: string, updates: EnvFile.Updates, enabled: Option<bool>, priority: Option<int>)

  /**
   * The checks of `update_provider`, in their order, and the environment
   * updates it builds from `values` then `clear`; `str` is Python's `str()`
   * on a payload value.
   */
  function ValidateUpdate(provider: string, payload: map<string, Json>, str: Json -> string): Checked<Plan>
  {
    match NormalizeProvider(provider)
    case Rejected(why) => Rejected(why)
    case Accepted(key) =>
      var enabled := Get(payload, "enabled");
      var priority := Get(payload, "priority");
      var values := OrEmpty(payload, "values", JObject([]));
      var clear := OrEmpty(payload, "clear", JList([]));
      if enabled.Some? && !enabled.value.JBool? then Rejected(EnabledNotBool)
      else if priority.Some? && (AsInt(priority.value).None? || AsInt(priority.value).value < 1) then Rejected(PriorityInvalid)
      else if !values.JObject? then Rejected(ValuesNotObject)
      else if !clear.JList? || !AllStrings(clear.items) then Rejected(ClearNotList)
      else match Staged(Fields(key), ValueRequests(values.entries, str) + ClearRequests(clear.items))
        case Rejected(why) => Rejected(why)
        case Accepted(u) =>
          Accepted(Plan(key, u, if enabled.Some? then Some(enabled.value.b) else None,
                        if priority.Some? then AsInt(priority.value) else None))
  }

  /**
   * The refusals of `update_provider`, each in force when the earlier checks
   * pass: an unknown provider, a non-boolean `enabled`, a `priority` that is
   * not an integer at least 1 (`true` counts as 1, `false` as 0), `values`
   * that is not an object, `clear` that is not a list of strings, and a field
   * name the provider does not have.
   */
  lemma ValidateUpdateRejects(provider: string, payload: map<string, Json>, str: Json -> string)
    ensures NormalizeProvider(provider).Rejected? ==>
              ValidateUpdate(provider, payload, str) == Rejected(UnsupportedProvider(provider))
    ensures NormalizeProvider(provider).Accepted? && "enabled" in payload
            && !(payload["enabled"].JNull? || payload["enabled"].JBool?) ==>
              ValidateUpdate(provider, payload, str) == Rejected(EnabledNotBool)
    ensures NormalizeProvider(provider).Accepted? && Get(payload, "enabled") in {None, Some(JBool(true)), Some(JBool(false))}
            && "priority" in payload && (payload["priority"] == JBool(false)
                                        || (payload["priority"].JInt? && payload["priority"].i < 1)
                                        || payload["priority"].JStr? || payload["priority"].JFloat?
                                        || payload["priority"].JList? || payload["priority"].JObject?) ==>
              ValidateUpdate(provider, payload, str) == Rejected(PriorityInvalid)
  {
  }

  /** What an accepted update has passed: a known provider, a boolean or absent `enabled`, a priority of at least 1. */
  lemma ValidateUpdateAccepts(provider: string, payload: map<string, Json>, str: Json -> string)
    ensures ValidateUpdate(provider, payload, str).Accepted? ==>
              var plan := ValidateUpdate(provider, payload, str).value;
              plan.provider == Lower(Strip(provider)) && plan.provider in ProviderNames
              && (plan.priority.Some? ==> plan.priority.value >= 1)
              && (plan.enabled.Some? <==> "enabled" in payload && payload["enabled"] != JNull)
              && (plan.priority.Some? <==> "priority" in payload && payload["priority"] != JNull)
              && OrEmpty(payload, "values", JObject([])).JObject?
              && OrEmpty(payload, "clear", JList([])).JList? && AllStrings(OrEmpty(payload, "clear", JList([])).items)
  {
  }

  /**
   * An accepted update sets each field named in `values` to `str` of its
   * value and clears each field named in `clear`, a later request for the
   * same variable winning (so `clear` wins over `values`); it touches only
   * the provider's own variables. A field name the provider does not have
   * refuses the update, naming the first such field.
   */
  lemma ValidateUpdateFields(provider: string, payload: map<string, Json>, str: Json -> string)
    requires NormalizeProvider(provider).Accepted?
    requires Get(payload, "enabled").None? || Get(payload, "enabled").value.JBool?
    requires Get(payload, "priority").None? || (AsInt(Get(payload, "priority").value).Some? && AsInt(Get(payload, "priority").value).value >= 1)
    requires OrEmpty(payload, "values", JObject([])).JObject?
    requires OrEmpty(payload, "clear", JList([])).JList? && AllStrings(OrEmpty(payload, "clear", JList([])).items)
    ensures var key := Lower(Strip(provider));
            var reqs := ValueRequests(OrEmpty(payload, "values", JObject([])).entries, str)
                        + ClearRequests(OrEmpty(payload, "clear", JList([])).items);
            var r := ValidateUpdate(provider, payload, str);
            (r.Rejected? <==> FirstUnknown(Fields(key), reqs).Some?)
            && (r.Rejected? ==> r.why == UnsupportedField(reqs[FirstUnknown(Fields(key), reqs).value].0))
            && (r.Accepted? ==>
                  Distinct(EnvFile.UpdateKeys(r.value.updates))
                  && forall k :: (k in EnvFile.UpdateKeys(r.value.updates) <==> LastFor(Fields(key), reqs, k).Some?)
                                 && (k in EnvFile.UpdateKeys(r.value.updates) ==>
                                       EnvFile.Lookup(r.value.updates, k) == LastFor(Fields(key), reqs, k).value))
  {
    var key := Lower(Strip(provider));
    var reqs := ValueRequests(OrEmpty(payload, "values", JObject([])).entries, str)
                + ClearRequests(OrEmpty(payload, "clear", JList([])).items);
    StagedMeaning(Fields(key), reqs);
  }

  /** A request maps only to a variable of one of the provider's fields. */
  lemma {:induction false} LastForOwnVars(fields: seq<FieldSpec>, reqs: seq<Request>, k: string)
    ensures LastFor(fields, reqs, k).Some? ==> exists f :: f in fields && f.envVar == k
  {
    if reqs != [] {
      LastForOwnVars(fields, reqs[..|reqs| - 1], k);
    }
  }

  /** The provider order `update_provider` writes: read from the environment after the field updates, then updated. */
  function NewOrder(envAfter: map<string, string>, plan: Plan): (r: seq<string>)
    requires plan.provider in ProviderNames
    ensures r != [] && forall x :: x in r ==> x in ProviderNames
  {
    var order := OrderFromEnv(envAfter);
    OrderFromEnvMeaning(envAfter);
    ApplyOrderUpdateKnown(order, plan.provider, plan.enabled, plan.priority);
    ApplyOrderUpdate(order, plan.provider, plan.enabled, plan.priority)
  }

  /** `_set_provider_order`: the order joined with commas. */
  function OrderUpdates(order: seq<string>): (r: EnvFile.Updates)
    ensures EnvFile.UpdateKeys(r) == [ProvidersVar]
  {
    assert [(ProvidersVar, Some(Join(order, ',')))][1..] == [];
    [(ProvidersVar, Some(Join(order, ',')))]
  }

  /** The order update only ever adds the provider itself. */
  lemma ApplyOrderUpdateKnown(order: seq<string>, provider: string, enabled: Option<bool>, priority: Option<int>)
    requires provider in ProviderNames && forall x :: x in order ==> x in ProviderNames
    ensures forall x :: x in ApplyOrderUpdate(order, provider, enabled, priority) ==> x in ProviderNames
  {
    var added := if enabled == Some(true) && provider !in order then order + [provider] else order;
    var kept := if enabled == Some(false) && provider in added then RemoveFirst(added, provider) else added;
    if priority.Some? && provider in kept {
      var rest := RemoveFirst(kept, provider);
      InsertAtMembers(rest, Clamp(priority.value - 1, |rest|), provider);
    }
  }

  /** Lower-case ASCII letters only. */
  predicate LowerLetters(x: string)
  {
    forall i :: 0 <= i < |x| ==> 'a' <= x[i] <= 'z'
  }

  lemma LowerLettersCanonical(x: string)
    requires x != [] && LowerLetters(x)
    ensures Lower(Strip(x)) == x && !HasChar(x, ',') && !IsSpace(x[0])
  {
    assert NoSpaceAtEnds(x);
    StripNoSpaceAtEnds(x);
    assert Lower(x) == x;
  }

  /** The provider names are already stripped and lower-case and hold no comma. */
  lemma NamesCanonical(x: string)
    requires x in ProviderNames
    ensures Lower(Strip(x)) == x && !HasChar(x, ',') && x != [] && !IsSpace(x[0])
  {
    assert x != [] && LowerLetters(x);
    LowerLettersCanonical(x);
  }

  lemma {:induction false} FirstKnownOfKnown(keys: seq<string>, names: seq<string>)
    requires Distinct(keys) && forall x :: x in keys ==> x in names
    ensures FirstKnown(keys, names) == keys
  {
    if keys != [] {
      var front := keys[..|keys| - 1];
      assert Distinct(front) by {
        forall i, j | 0 <= i < j < |front| ensures front[i] != front[j] {
          assert front[i] == keys[i] && front[j] == keys[j];
        }
      }
      FirstKnownOfKnown(front, names);
      assert keys[|keys| - 1] !in front by {
        forall i | 0 <= i < |front| ensures front[i] != keys[|keys| - 1] {
          assert front[i] == keys[i];
        }
      }
      assert keys == front + [keys[|keys| - 1]];
    }
  }

  lemma StripOfNonSpaceHead(s: string)
    requires s != [] && !IsSpace(s[0])
    ensures Strip(s) != ""
  {
    assert StripLeft(s) == s;
  }

  /**
   * The order written by `_set_provider_order` reads back unchanged through
   * `_provider_order_from_env`: a non-empty, duplicate-free list of known
   * providers survives the comma join.
   */
  lemma OrderRoundTrip(env: map<string, string>, order: seq<string>)
    requires order != [] && Distinct(order) && forall x :: x in order ==> x in ProviderNames
    ensures OrderFromEnv(EnvFile.ApplyUpdates(env, OrderUpdates(order))) == order
  {
    var raw := Join(order, ',');
    var env2 := env[ProvidersVar := raw];
    assert EnvFile.ApplyUpdates(env, OrderUpdates(order)) == EnvFile.ApplyUpdates(env2, []) by {
      assert OrderUpdates(order)[1..] == [];
    }
    assert RawOrder(env2) == raw;
    forall i | 0 <= i < |order| ensures !HasChar(order[i], ',') && Lower(Strip(order[i])) == order[i] {
      NamesCanonical(order[i]);
    }
    SplitJoin(order, ',');
    assert OrderKeys(raw) == order;
    NamesCanonical(order[0]);
    assert raw[0] == order[0][0] by {
      if |order| > 1 {
        assert raw == order[0] + [','] + Join(order[1..], ',');
      }
    }
    StripOfNonSpaceHead(raw);
    FirstKnownOfKnown(order, ProviderNames);
  }

  /**
   * After an accepted update, the order `update_provider` writes is the one
   * read back from the environment: non-empty, duplicate-free and made of
   * known providers; enabling puts the provider in it.
   */
  lemma UpdateWritesOrder(envAfter: map<string, string>, plan: Plan)
    requires plan.provider in ProviderNames
    ensures var order := NewOrder(envAfter, plan);
            Distinct(order)
            && OrderFromEnv(EnvFile.ApplyUpdates(envAfter, OrderUpdates(order))) == order
            && (plan.enabled == Some(true) ==> plan.provider in order)
  {
    var order := OrderFromEnv(envAfter);
    OrderFromEnvMeaning(envAfter);
    OrderUpdateDistinct(order, plan.provider, plan.enabled, plan.priority);
    if plan.enabled == Some(true) {
      OrderUpdateEnables(order, plan.provider, plan.priority);
    }
    OrderRoundTrip(envAfter, NewOrder(envAfter, plan));
  }

  /**
   * `_apply_env_updates(updates, persist=True)` on the `.env` lines, written
   * with the corrected writer `EnvFile.WriteEnvFixed`: for updates of variable
   * names to plain values, the file read back is the old file's environment
   * with the updates applied.
   */
  function PersistUpdates(lines: seq<string>, u: EnvFile.Updates): (r: seq<string>)
    ensures Distinct(EnvFile.UpdateKeys(u)) && EnvFile.Writable(u) ==>
              EnvFile.ReadEnv(r) == EnvFile.ApplyUpdates(EnvFile.ReadEnv(lines), u)
  {
    if Distinct(EnvFile.UpdateKeys(u)) && EnvFile.Writable(u) then
      EnvFile.WriteEnvFixedReadsBack(lines, u);
      EnvFile.WriteEnvFixed(lines, u)
    else
      EnvFile.WriteEnvFixed(lines, u)
  }

  /**
   * The loops of `update_provider` that build `env_updates`: first over
   * `values`, then over `clear`, stopping at the first unknown field.
   */
  method StageUpdates(fields: seq<FieldSpec>, entries: seq<(string, Json)>, clear: seq<Json>, str: Json -> string)
    returns (r: Checked<EnvFile.Updates>)
    requires AllStrings(clear)
    ensures r == Staged(fields, ValueRequests(entries, str) + ClearRequests(clear))
  {
    var u: EnvFile.Updates := [];
    var reqs := ValueRequests(entries, str) + ClearRequests(clear);
    var i := 0;
    while i < |reqs|
      invariant 0 <= i <= |reqs|
      invariant Staged(fields, reqs[..i]) == Accepted(u)
    {
      TakeShorter(reqs, i);
      var envVar := EnvVarOf(fields, reqs[i].0);
      if envVar.None? {
        StagedStops(fields, reqs, i + 1);
        return Rejected(UnsupportedField(reqs[i].0));
      }
      u := Put(u, envVar.value, reqs[i].1);
      i := i + 1;
    }
    TakeAll(reqs);
    r := Accepted(u);
  }

  /** Once a prefix is refused, every longer prefix is refused the same way. */
  lemma {:induction false} StagedStops(fields: seq<FieldSpec>, reqs: seq<Request>, n: nat)
    requires n <= |reqs| && Staged(fields, reqs[..n]).Rejected?
    ensures Staged(fields, reqs) == Staged(fields, reqs[..n])
    decreases |reqs| - n
  {
    if n < |reqs| {
      TakeShorter(reqs, n);
      StagedStops(fields, reqs, n + 1);
    } else {
      TakeAll(reqs);
    }
  }
}
