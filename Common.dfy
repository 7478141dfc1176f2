/**
 * Shared vocabulary of the market-data model: optional values, the classified
 * error of the library, the exceptions a Python call can end with, and the
 * few string and sequence operations the library borrows from Python
 * (ASCII case mapping, whitespace stripping, single-character split and join,
 * prefix slicing with Python's negative-bound rule, and a stable sort).
 */
module Common {

  datatype Option<T> = None | Some(value: T)

  /** The classification codes of a market-data error. */
  datatype ErrorCode =
    | RateLimited
    | AuthFailed
    | NotFound
    | Timeout
    | ProviderError
    | ValidationFailed
    | NoData

  /**
   * A classified error. As in the library, an error constructed without a
   * code is a provider error, and one constructed without a flag is not
   * retryable.
   */
  datatype MarketDataError = MarketDataError(
    message: string,
    code: ErrorCode := ProviderError,
    retryable: bool := false)

  /** How a Python call can end abnormally. */
  datatype Exception =
    | MarketDataExc(error: MarketDataError)
    | NotImplementedExc
    | OtherExc(kind: string)

  /** The outcome of a call: a returned value or a raised exception. */
  datatype Outcome<T> = Returned(value: T) | Raised(exc: Exception)

  // ------------------------------------------------------------------
  // Characters and strings (ASCII case mapping, Python whitespace)
  // ------------------------------------------------------------------

  function UpperChar(c: char): char
  {
    if 'a' <= c <= 'z' then (c as int - 32) as char else c
  }

  function LowerChar(c: char): char
  {
    if 'A' <= c <= 'Z' then (c as int + 32) as char else c
  }

  /** `s.upper()` on the ASCII letters. */
  function Upper(s: string): (r: string)
    ensures |r| == |s|
    ensures forall i :: 0 <= i < |s| ==> r[i] == UpperChar(s[i])
  {
    if s == [] then [] else [UpperChar(s[0])] + Upper(s[1..])
  }

  /** `s.lower()` on the ASCII letters. */
  function Lower(s: string): (r: string)
    ensures |r| == |s|
    ensures forall i :: 0 <= i < |s| ==> r[i] == LowerChar(s[i])
  {
    if s == [] then [] else [LowerChar(s[0])] + Lower(s[1..])
  }

  lemma UpperIdempotent(s: string)
    ensures Upper(Upper(s)) == Upper(s)
  {
  }

  lemma LowerIdempotent(s: string)
    ensures Lower(Lower(s)) == Lower(s)
  {
  }

  /** The characters Python's `str.isspace` accepts. */
  predicate IsSpace(c: char)
  {
    c == ' ' || ('\t' <= c <= '\r') || ('\U{1C}' <= c <= '\U{1F}')
    || c == '\U{85}' || c == '\U{A0}' || c == '\U{1680}'
    || ('\U{2000}' <= c <= '\U{200A}') || c == '\U{2028}' || c == '\U{2029}'
    || c == '\U{202F}' || c == '\U{205F}' || c == '\U{3000}'
  }

  function StripLeft(s: string): (r: string)
    ensures |r| <= |s| && r == s[|s| - |r|..]
    ensures r != [] ==> !IsSpace(r[0])
    ensures forall i :: 0 <= i < |s| - |r| ==> IsSpace(s[i])
  {
    if s != [] && IsSpace(s[0]) then StripLeft(s[1..]) else s
  }

  function StripRight(s: string): (r: string)
    ensures |r| <= |s| && r == s[..|r|]
    ensures r != [] ==> !IsSpace(r[|r| - 1])
    ensures forall i :: |r| <= i < |s| ==> IsSpace(s[i])
  {
    if s != [] && IsSpace(s[|s| - 1]) then StripRight(s[..|s| - 1]) else s
  }

  /** `s.strip()`: leading whitespace removed one character at a time, then trailing whitespace. */
  function Strip(s: string): (r: string)
    ensures |r| <= |s|
    ensures NoSpaceAtEnds(r)
  {
    if s != [] && IsSpace(s[0]) then Strip(s[1..]) else StripRight(s)
  }

  /** Stripping is stripping the left end, then the right end. */
  lemma {:induction false} StripBothEnds(s: string)
    ensures Strip(s) == StripRight(StripLeft(s))
  {
    if s != [] && IsSpace(s[0]) {
      StripBothEnds(s[1..]);
    }
  }

  /** `[p.strip() for p in xs]`. */
  function StripEach(xs: seq<string>): (r: seq<string>)
    ensures |r| == |xs|
    ensures forall i :: 0 <= i < |xs| ==> r[i] == Strip(xs[i])
  {
    if xs == [] then [] else [Strip(xs[0])] + StripEach(xs[1..])
  }

  /** Stripping parts that are already stripped changes nothing. */
  lemma StripEachStripped(xs: seq<string>)
    requires forall i :: 0 <= i < |xs| ==> NoSpaceAtEnds(xs[i])
    ensures StripEach(xs) == xs
  {
    forall i | 0 <= i < |xs| ensures StripEach(xs)[i] == xs[i] {
      StripNoSpaceAtEnds(xs[i]);
    }
  }

  predicate NoSpaceAtEnds(s: string)
  {
    s == [] || (!IsSpace(s[0]) && !IsSpace(s[|s| - 1]))
  }

  /** A string without whitespace at its ends is its own strip. */
  lemma StripNoSpaceAtEnds(s: string)
    requires NoSpaceAtEnds(s)
    ensures Strip(s) == s
  {
  }

  lemma StripIdempotent(s: string)
    ensures Strip(Strip(s)) == Strip(s)
  {
    StripNoSpaceAtEnds(Strip(s));
  }

  predicate StartsWith(s: string, p: string)
  {
    |p| <= |s| && s[..|p|] == p
  }

  /** `c in s` for a single character. */
  predicate HasChar(s: string, c: char)
  {
    exists i :: 0 <= i < |s| && s[i] == c
  }

  /** Index of the first occurrence of `c` in `s`, if any. */
  function FirstIndexOf(s: string, c: char): (r: Option<nat>)
    ensures r.None? ==> forall j :: 0 <= j < |s| ==> s[j] != c
    ensures r.Some? ==> r.value < |s| && s[r.value] == c
                        && forall j :: 0 <= j < r.value ==> s[j] != c
  {
    if s == [] then None
    else if s[0] == c then Some(0)
    else
      match FirstIndexOf(s[1..], c)
      case None => None
      case Some(k) => Some(k + 1)
  }

  /** Index of the last occurrence of `c` in `s`, if any. */
  function LastIndexOf(s: string, c: char): (r: Option<nat>)
    ensures r.None? ==> forall j :: 0 <= j < |s| ==> s[j] != c
    ensures r.Some? ==> r.value < |s| && s[r.value] == c
                        && forall j :: r.value < j < |s| ==> s[j] != c
  {
    if s == [] then None
    else if s[|s| - 1] == c then Some(|s| - 1)
    else LastIndexOf(s[..|s| - 1], c)
  }

  /** `s.split(sep)` for a one-character separator. */
  function Split(s: string, sep: char): (r: seq<string>)
    ensures |r| >= 1
    ensures forall i :: 0 <= i < |r| ==> !HasChar(r[i], sep)
    decreases |s|
  {
    match FirstIndexOf(s, sep)
    case None => [s]
    case Some(k) => [s[..k]] + Split(s[k + 1..], sep)
  }

  /** `sep.join(xs)`. */
  function Join(xs: seq<string>, sep: char): string
  {
    if xs == [] then []
    else if |xs| == 1 then xs[0]
    else xs[0] + [sep] + Join(xs[1..], sep)
  }

  lemma {:induction false} JoinSplit(s: string, sep: char)
    ensures Join(Split(s, sep), sep) == s
    decreases |s|
  {
    match FirstIndexOf(s, sep)
    case None =>
    case Some(k) =>
      var rest := Split(s[k + 1..], sep);
      var xs := Split(s, sep);
      assert xs == [s[..k]] + rest;
      assert xs[1..] == rest;
      JoinSplit(s[k + 1..], sep);
      assert Join(xs, sep) == s[..k] + [sep] + Join(rest, sep);
      assert s == s[..k] + [sep] + s[k + 1..];
  }

  /** Splitting a join gives back the parts, when no part holds the separator. */
  lemma {:induction false} SplitJoin(xs: seq<string>, sep: char)
    requires |xs| >= 1
    requires forall i :: 0 <= i < |xs| ==> !HasChar(xs[i], sep)
    ensures Split(Join(xs, sep), sep) == xs
  {
    if |xs| > 1 {
      var tail := Join(xs[1..], sep);
      var s := Join(xs, sep);
      assert s == xs[0] + [sep] + tail;
      FirstIndexInConcat(xs[0], tail, sep);
      assert s[|xs[0]| + 1..] == tail;
      assert s[..|xs[0]|] == xs[0];
      SplitJoin(xs[1..], sep);
      assert Split(s, sep) == [xs[0]] + xs[1..];
    }
  }

  lemma FirstIndexInConcat(a: string, b: string, sep: char)
    requires !HasChar(a, sep)
    ensures FirstIndexOf(a + [sep] + b, sep) == Some(|a|)
  {
    var s := a + [sep] + b;
    assert s[|a|] == sep;
  }

  // ------------------------------------------------------------------
  // Sequences
  // ------------------------------------------------------------------

  /** A prefix one longer is the prefix and the next element. */
  lemma TakeSnoc<T>(s: seq<T>, j: nat)
    requires j < |s|
    ensures s[..j + 1] == s[..j] + [s[j]]
  {
  }

  /** Dropping the last element of a prefix one longer gives the prefix. */
  lemma TakeShorter<T>(s: seq<T>, j: nat)
    requires j < |s|
    ensures s[..j + 1][..j] == s[..j]
  {
  }

  lemma AppendAssoc<T>(a: seq<T>, b: seq<T>, c: seq<T>)
    ensures a + (b + c) == (a + b) + c
  {
  }

  lemma TakeDrop<T>(s: seq<T>, i: nat)
    requires i <= |s|
    ensures s[..i] + s[i..] == s
  {
  }

  lemma TakeAll<T>(s: seq<T>)
    ensures s[..|s|] == s
  {
  }

  /** Python's `s[:n]`: a negative `n` counts from the end. */
  function SliceTo<T>(s: seq<T>, n: int): (r: seq<T>)
    ensures n >= 0 ==> r == s[..if n <= |s| then n else |s|]
    ensures n < 0 ==> r == s[..if |s| + n >= 0 then |s| + n else 0]
    ensures |r| <= |s|
  {
    if n >= 0 then (if n <= |s| then s[..n] else s)
    else if |s| + n >= 0 then s[..|s| + n] else []
  }

  /** Elements of `s` satisfying `p`, in order (a list comprehension with a filter). */
  function Filter<T>(s: seq<T>, p: T -> bool): (r: seq<T>)
    ensures |r| <= |s|
  {
    if s == [] then []
    else if p(s[0]) then [s[0]] + Filter(s[1..], p)
    else Filter(s[1..], p)
  }

  /** `Filter` keeps exactly the elements of `s` that satisfy `p`. */
  lemma {:induction false} FilterMembers<T>(s: seq<T>, p: T -> bool)
    ensures forall x :: x in Filter(s, p) <==> x in s && p(x)
  {
    if s != [] {
      FilterMembers(s[1..], p);
      assert s == [s[0]] + s[1..];
    }
  }

  lemma {:induction false} FilterConcat<T>(a: seq<T>, b: seq<T>, p: T -> bool)
    ensures Filter(a + b, p) == Filter(a, p) + Filter(b, p)
  {
    if a == [] {
      assert a + b == b;
    } else {
      assert (a + b)[1..] == a[1..] + b;
      FilterConcat(a[1..], b, p);
    }
  }

  /** `Filter` keeps every satisfying element as often as `s` holds it, and no other. */
  lemma {:induction false} FilterMultiset<T>(s: seq<T>, p: T -> bool)
    ensures forall x :: multiset(Filter(s, p))[x] == if p(x) then multiset(s)[x] else 0
  {
    if s != [] {
      FilterMultiset(s[1..], p);
      assert s == [s[0]] + s[1..];
    }
  }

  /** Filtering by two predicates that agree everywhere gives the same result. */
  lemma {:induction false} FilterExt<T>(s: seq<T>, p: T -> bool, q: T -> bool)
    requires forall y :: p(y) == q(y)
    ensures Filter(s, p) == Filter(s, q)
  {
    if s != [] {
      FilterExt(s[1..], p, q);
    }
  }

  // ------------------------------------------------------------------
  // Stable sort by an integer key (Python's list.sort(key=...))
  // ------------------------------------------------------------------

  predicate SortedBy<T>(s: seq<T>, key: T -> int)
  {
    forall i, j :: 0 <= i < j < |s| ==> key(s[i]) <= key(s[j])
  }

  /** Insert `x` in front of the first element whose key exceeds `key(x)`. */
  function InsertBy<T>(s: seq<T>, x: T, key: T -> int): (r: seq<T>)
    ensures |r| == |s| + 1
  {
    if s == [] then [x]
    else if key(x) < key(s[0]) then [x] + s
    else [s[0]] + InsertBy(s[1..], x, key)
  }

  lemma {:induction false} InsertByPermutes<T>(s: seq<T>, x: T, key: T -> int)
    ensures multiset(InsertBy(s, x, key)) == multiset(s) + multiset{x}
  {
    if s != [] && key(x) >= key(s[0]) {
      InsertByPermutes(s[1..], x, key);
      assert s == [s[0]] + s[1..];
    }
  }

  /** Python's stable `sort(key=key)`, written as an insertion sort. */
  function SortBy<T>(s: seq<T>, key: T -> int): (r: seq<T>)
    ensures |r| == |s|
  {
    if s == [] then []
    else InsertBy(SortBy(s[..|s| - 1], key), s[|s| - 1], key)
  }

  /** The sort is a permutation of its input. */
  lemma {:induction false} SortByPermutes<T>(s: seq<T>, key: T -> int)
    ensures multiset(SortBy(s, key)) == multiset(s)
  {
    if s != [] {
      SortByPermutes(s[..|s| - 1], key);
      InsertByPermutes(SortBy(s[..|s| - 1], key), s[|s| - 1], key);
      assert s == s[..|s| - 1] + [s[|s| - 1]];
    }
  }

  /** Every key in `s` is at least `m`. */
  predicate KeysAtLeast<T>(s: seq<T>, key: T -> int, m: int)
  {
    forall i :: 0 <= i < |s| ==> m <= key(s[i])
  }

  lemma {:induction false} InsertByKeysAtLeast<T>(s: seq<T>, x: T, key: T -> int, m: int)
    requires KeysAtLeast(s, key, m) && m <= key(x)
    ensures KeysAtLeast(InsertBy(s, x, key), key, m)
  {
    if s != [] && key(x) >= key(s[0]) {
      InsertByKeysAtLeast(s[1..], x, key, m);
    }
  }

  lemma {:induction false} InsertBySorted<T>(s: seq<T>, x: T, key: T -> int)
    requires SortedBy(s, key)
    ensures SortedBy(InsertBy(s, x, key), key)
  {
    if s != [] && key(x) >= key(s[0]) {
      InsertBySorted(s[1..], x, key);
      InsertByKeysAtLeast(s[1..], x, key, key(s[0]));
    }
  }

  lemma {:induction false} SortBySorted<T>(s: seq<T>, key: T -> int)
    ensures SortedBy(SortBy(s, key), key)
  {
    if s != [] {
      SortBySorted(s[..|s| - 1], key);
      InsertBySorted(SortBy(s[..|s| - 1], key), s[|s| - 1], key);
    }
  }

  /** The tail of a sorted sequence is sorted. */
  lemma SortedTail<T>(s: seq<T>, key: T -> int)
    requires s != [] && SortedBy(s, key)
    ensures SortedBy(s[1..], key)
  {
    forall i, j | 0 <= i < j < |s| - 1
      ensures key(s[1..][i]) <= key(s[1..][j])
    {
      assert s[1..][i] == s[i + 1] && s[1..][j] == s[j + 1];
    }
  }

  /** The elements whose key is `k`. */
  function KeyIs<T>(key: T -> int, k: int): T -> bool
  {
    y => key(y) == k
  }

  /** Inserting in front of a sorted sequence whose keys are all larger. */
  lemma InsertFrontStable<T>(s: seq<T>, x: T, key: T -> int, k: int)
    requires SortedBy(s, key) && s != [] && key(x) < key(s[0])
    ensures Filter(InsertBy(s, x, key), KeyIs(key, k))
         == Filter(s, KeyIs(key, k)) + Filter([x], KeyIs(key, k))
  {
    var p := KeyIs(key, k);
    assert InsertBy(s, x, key) == [x] + s;
    if key(x) == k {
      assert KeysAtLeast(s, key, k + 1);
      NoneWithKey(s, key, k);
    }
    FilterConcat([x], s, p);
  }

  /** One step of the insertion past the head `s[0]`, for any predicate `p`. */
  lemma InsertStepFilter<T>(s: seq<T>, x: T, key: T -> int, p: T -> bool)
    requires s != [] && key(x) >= key(s[0])
    requires Filter(InsertBy(s[1..], x, key), p) == Filter(s[1..], p) + Filter([x], p)
    ensures Filter(InsertBy(s, x, key), p) == Filter(s, p) + Filter([x], p)
  {
    var u := InsertBy(s, x, key);
    var b, c := Filter(s[1..], p), Filter([x], p);
    assert u[0] == s[0] && u[1..] == InsertBy(s[1..], x, key);
    if p(s[0]) {
      assert Filter(u, p) == [s[0]] + (b + c);
      assert Filter(s, p) == [s[0]] + b;
      AppendAssoc([s[0]], b, c);
    } else {
      assert Filter(u, p) == b + c;
    }
  }

  /** Inserting into a sorted sequence places `x` after every element with its key. */
  lemma {:induction false} InsertByStable<T>(s: seq<T>, x: T, key: T -> int, k: int)
    requires SortedBy(s, key)
    ensures Filter(InsertBy(s, x, key), KeyIs(key, k))
         == Filter(s, KeyIs(key, k)) + Filter([x], KeyIs(key, k))
  {
    if s == [] {
    } else if key(x) < key(s[0]) {
      InsertFrontStable(s, x, key, k);
    } else {
      SortedTail(s, key);
      InsertByStable(s[1..], x, key, k);
      InsertStepFilter(s, x, key, KeyIs(key, k));
    }
  }

  lemma {:induction false} NoneWithKey<T>(s: seq<T>, key: T -> int, k: int)
    requires KeysAtLeast(s, key, k + 1)
    ensures Filter(s, KeyIs(key, k)) == []
  {
    if s != [] {
      NoneWithKey(s[1..], key, k);
    }
  }

  /**
   * The sort is stable: for every key value, the elements with that key
   * appear in the result in the same order as in the input.
   */
  lemma {:induction false} SortByStable<T>(s: seq<T>, key: T -> int, k: int)
    ensures Filter(SortBy(s, key), KeyIs(key, k)) == Filter(s, KeyIs(key, k))
  {
    if s != [] {
      var init, last := s[..|s| - 1], s[|s| - 1];
      SortByStable(init, key, k);
      SortBySorted(init, key);
      InsertByStable(SortBy(init, key), last, key, k);
      FilterConcat(init, [last], KeyIs(key, k));
      assert s == init + [last];
    }
  }

  /** Inserting at the end of a sorted sequence with a key no smaller than the rest. */
  lemma {:induction false} InsertByLast<T>(s: seq<T>, x: T, key: T -> int)
    requires SortedBy(s, key)
    requires s != [] ==> key(s[|s| - 1]) <= key(x)
    ensures InsertBy(s, x, key) == s + [x]
  {
    if s != [] {
      SortedTail(s, key);
      InsertByLast(s[1..], x, key);
      assert s == [s[0]] + s[1..];
    }
  }

  /** Sorting a sequence that is already sorted leaves it unchanged. */
  lemma {:induction false} SortBySortedIdentity<T>(s: seq<T>, key: T -> int)
    requires SortedBy(s, key)
    ensures SortBy(s, key) == s
  {
    if s != [] {
      var init := s[..|s| - 1];
      SortBySortedIdentity(init, key);
      InsertByLast(init, s[|s| - 1], key);
    }
  }

  /** Appending to a sorted sequence and sorting is an insertion. */
  lemma {:induction false} AppendThenSort<T>(s: seq<T>, x: T, key: T -> int)
    requires SortedBy(s, key)
    ensures SortBy(s + [x], key) == InsertBy(s, x, key)
  {
    assert (s + [x])[..|s|] == s;
    SortBySortedIdentity(s, key);
  }

  /** No element occurs twice. */
  predicate Distinct<T(==)>(s: seq<T>)
  {
    forall i, j :: 0 <= i < j < |s| ==> s[i] != s[j]
  }

  lemma DistinctTail<T>(s: seq<T>)
    requires s != [] && Distinct(s)
    ensures Distinct(s[1..]) && s[0] !in s[1..]
  {
    forall i, j | 0 <= i < j < |s[1..]| ensures s[1..][i] != s[1..][j] {
      assert s[1..][i] == s[i + 1] && s[1..][j] == s[j + 1];
    }
  }

  lemma DistinctCons<T>(x: T, s: seq<T>)
    requires Distinct(s) && x !in s
    ensures Distinct([x] + s)
  {
    forall i, j | 0 <= i < j < |[x] + s| ensures ([x] + s)[i] != ([x] + s)[j] {
      assert ([x] + s)[j] == s[j - 1];
      if i > 0 {
        assert ([x] + s)[i] == s[i - 1];
      }
    }
  }
}
