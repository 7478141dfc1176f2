/**
 * The `.env` file of the provider settings, seen as its sequence of lines:
 * the reader that turns the lines into variables, and the writer that merges
 * a set of updates into the lines while keeping everything else in place.
 */
module EnvFile {
  import opened Common

  // ------------------------------------------------------------------
  // Reading
  // ------------------------------------------------------------------

  /** The prefix the reader drops before `KEY=value`. */
  const ExportPrefix: string := "export "

  predicate IsQuote(c: char)
  {
    c == '\'' || c == '"'
  }

  /** A value that starts and ends with a quote character loses both. */
  function Unquote(v: string): (r: string)
    ensures |v| >= 2 && IsQuote(v[0]) && IsQuote(v[|v| - 1]) ==> r == v[1..|v| - 1]
    ensures !(|v| >= 1 && IsQuote(v[0]) && IsQuote(v[|v| - 1])) ==> r == v
  {
    if |v| >= 1 && IsQuote(v[0]) && IsQuote(v[|v| - 1]) then
      (if |v| >= 2 then v[1..|v| - 1] else "")
    else v
  }

  /** `KEY=value` split at the first `=`, both sides stripped, the value unquoted. */
  function SplitAssignment(body: string): Option<(string, string)>
  {
    match FirstIndexOf(body, '=')
    case None => None
    case Some(i) => Some((Strip(body[..i]), Unquote(Strip(body[i + 1..]))))
  }

  /** A stripped line without its `export ` prefix. */
  function DropExport(line: string): string
  {
    if StartsWith(line, ExportPrefix) then Strip(line[|ExportPrefix|..]) else line
  }

  /**
   * One line of `_read_env_file`: blank lines, comments and lines without
   * `=` define nothing; otherwise the key and value around the first `=`.
   */
  function ParseEnvLine(raw: string): Option<(string, string)>
  {
    var line := Strip(raw);
    if line == "" || line[0] == '#' then None else SplitAssignment(DropExport(line))
  }

  /** The variables some lines define under a line parser, a later line winning. */
  function ReadLines(lines: seq<string>, parse: string -> Option<(string, string)>): map<string, string>
  {
    if lines == [] then map[]
    else
      var earlier := ReadLines(lines[..|lines| - 1], parse);
      match parse(lines[|lines| - 1])
      case None => earlier
      case Some(kv) => earlier[kv.0 := kv.1]
  }

  /** `_read_env_file`: the variables the lines define, a later line winning. */
  function ReadEnv(lines: seq<string>): map<string, string>
  {
    ReadLines(lines, ParseEnvLine)
  }

  /** The loop of `_read_env_file`. */
  method ReadEnvFile(lines: seq<string>) returns (values: map<string, string>)
    ensures values == ReadEnv(lines)
  {
    values := map[];
    var i := 0;
    while i < |lines|
      invariant 0 <= i <= |lines|
      invariant values == ReadLines(lines[..i], ParseEnvLine)
    {
      assert lines[..i + 1][..i] == lines[..i];
      var parsed := ParseEnvLine(lines[i]);
      if parsed.Some? {
        values := values[parsed.value.0 := parsed.value.1];
      }
      i := i + 1;
    }
    assert lines[..|lines|] == lines;
  }

  /** The value the last line defining `k` gives it under a line parser. */
  function LastDefinition(lines: seq<string>, k: string, parse: string -> Option<(string, string)>): Option<string>
  {
    if lines == [] then None
    else
      var later := LastDefinition(lines[1..], k, parse);
      if later.Some? then later
      else match parse(lines[0])
        case Some(kv) => if kv.0 == k then Some(kv.1) else None
        case None => None
  }

  /** The value the last line defining `k` gives it, if any line does. */
  function LastValue(lines: seq<string>, k: string): Option<string>
  {
    LastDefinition(lines, k, ParseEnvLine)
  }

  lemma {:induction false} LastDefinitionSnoc(lines: seq<string>, x: string, k: string, parse: string -> Option<(string, string)>)
    ensures LastDefinition(lines + [x], k, parse)
         == match parse(x)
            case Some(kv) => if kv.0 == k then Some(kv.1) else LastDefinition(lines, k, parse)
            case None => LastDefinition(lines, k, parse)
  {
    if lines == [] {
      assert [] + [x] == [x];
      assert [x][1..] == [];
    } else {
      assert (lines + [x])[1..] == lines[1..] + [x];
      LastDefinitionSnoc(lines[1..], x, k, parse);
    }
  }

  /** `LastValue` of two blocks of lines: the later block decides when it can. */
  lemma {:induction false} LastValueConcat(a: seq<string>, b: seq<string>, k: string)
    ensures LastValue(a + b, k) == if LastValue(b, k).Some? then LastValue(b, k) else LastValue(a, k)
  {
    if a == [] {
      assert a + b == b;
    } else {
      assert (a + b)[1..] == a[1..] + b;
      LastValueConcat(a[1..], b, k);
    }
  }

  lemma {:induction false} ReadLinesLastWins(lines: seq<string>, k: string, parse: string -> Option<(string, string)>)
    ensures k in ReadLines(lines, parse) <==> LastDefinition(lines, k, parse).Some?
    ensures k in ReadLines(lines, parse) ==> ReadLines(lines, parse)[k] == LastDefinition(lines, k, parse).value
  {
    if lines != [] {
      var init, x := lines[..|lines| - 1], lines[|lines| - 1];
      ReadLinesLastWins(init, k, parse);
      assert init + [x] == lines;
      LastDefinitionSnoc(init, x, k, parse);
    }
  }

  /**
   * The reader's value of each variable is the one on the last line that
   * defines it, and a variable no line defines is absent.
   */
  lemma ReadEnvLastWins(lines: seq<string>, k: string)
    ensures k in ReadEnv(lines) <==> LastValue(lines, k).Some?
    ensures k in ReadEnv(lines) ==> ReadEnv(lines)[k] == LastValue(lines, k).value
  {
    ReadLinesLastWins(lines, k, ParseEnvLine);
  }

  // ------------------------------------------------------------------
  // The line format `KEY=value`
  // ------------------------------------------------------------------

  predicate IsNameChar(c: char)
  {
    'A' <= c <= 'Z' || 'a' <= c <= 'z' || '0' <= c <= '9' || c == '_'
  }

  /** An environment variable name: letters, digits and underscores. */
  predicate IsName(k: string)
  {
    k != [] && forall i :: 0 <= i < |k| ==> IsNameChar(k[i])
  }

  /** The line the writer emits for `key` and `value`. */
  function Entry(key: string, value: string): string
  {
    key + "=" + value
  }

  /** Stripping a line whose first part has no whitespace at its ends keeps that part. */
  lemma StripKeepsHead(p: string, t: string)
    requires p != [] && !IsSpace(p[0]) && !IsSpace(p[|p| - 1])
    ensures |Strip(p + t)| >= |p| && Strip(p + t)[..|p|] == p
  {
    var s := p + t;
    assert s[0] == p[0];
    assert StripLeft(s) == s;
    var r := StripRight(s);
    assert Strip(s) == r;
    assert s[|p| - 1] == p[|p| - 1];
    assert |r| >= |p| by {
      assert !IsSpace(s[|p| - 1]);
    }
    assert r[..|p|] == s[..|r|][..|p|] == s[..|p|] == p;
  }

  /** The facts about a name that the line format relies on. */
  lemma NameFacts(k: string)
    requires IsName(k)
    ensures !IsSpace(k[0]) && !IsSpace(k[|k| - 1]) && k[0] != '#'
    ensures !HasChar(k, '=')
    ensures NoSpaceAtEnds(k)
  {
    assert IsNameChar(k[0]) && IsNameChar(k[|k| - 1]);
  }

  /** The stripped entry line starts with the key and its `=`. */
  lemma EntryPrefix(k: string, v: string)
    requires IsName(k)
    ensures var s := Strip(Entry(k, v));
            |s| > |k| && s[..|k|] == k && s[|k|] == '='
  {
    NameFacts(k);
    var p := k + "=";
    assert Entry(k, v) == p + v;
    StripKeepsHead(p, v);
    var s := Strip(Entry(k, v));
    assert s[..|k|] == p[..|k|] == k;
    assert s[|k|] == p[|k|] == '=';
  }

  /** A character at `n` that occurs nowhere before `n` is found at `n`. */
  lemma FirstIndexAt(s: string, c: char, n: nat)
    requires n < |s| && s[n] == c
    requires forall j :: 0 <= j < n ==> s[j] != c
    ensures FirstIndexOf(s, c) == Some(n)
  {
  }

  /** A line that starts with a name and `=` has no `export ` prefix. */
  lemma NameLineNotExport(k: string, s: string)
    requires IsName(k) && |s| > |k| && s[..|k|] == k && s[|k|] == '='
    ensures !StartsWith(s, ExportPrefix)
  {
    if |s| >= |ExportPrefix| {
      var j := if |k| < |ExportPrefix| then |k| else 6;
      assert s[j] != ExportPrefix[j] by {
        if |k| >= |ExportPrefix| {
          assert s[6] == s[..|k|][6] == k[6];
          assert IsNameChar(k[6]);
        }
      }
      assert s[..|ExportPrefix|][j] == s[j];
    }
  }

  /** The head of an entry line, up to and including its `=`. */
  lemma EntryHead(k: string, v: string)
    requires IsName(k)
    ensures var s := Strip(Entry(k, v));
            |s| > |k| && s[..|k|] == k && s[|k|] == '='
            && s[0] != '#' && FirstIndexOf(s, '=') == Some(|k|)
            && !StartsWith(s, ExportPrefix)
  {
    NameFacts(k);
    EntryPrefix(k, v);
    var s := Strip(Entry(k, v));
    assert s[0] == s[..|k|][0] == k[0];
    forall j | 0 <= j < |k| ensures s[j] != '=' {
      assert s[j] == s[..|k|][j] == k[j];
    }
    FirstIndexAt(s, '=', |k|);
    NameLineNotExport(k, s);
  }

  /** An entry line is already stripped. */
  lemma EntryStripped(k: string, v: string)
    requires IsName(k) && NoSpaceAtEnds(v)
    ensures Strip(Entry(k, v)) == Entry(k, v)
  {
    NameFacts(k);
    var line := Entry(k, v);
    assert line[0] == k[0];
    if v == [] {
      assert line[|line| - 1] == '=';
    } else {
      assert line[|line| - 1] == v[|v| - 1];
    }
    StripNoSpaceAtEnds(line);
  }

  /** An entry line splits back into its key and its unquoted value. */
  lemma EntrySplits(k: string, v: string)
    requires IsName(k) && NoSpaceAtEnds(v)
    ensures SplitAssignment(Entry(k, v)) == Some((k, Unquote(v)))
  {
    NameFacts(k);
    var line := Entry(k, v);
    FirstIndexInConcat(k, v, '=');
    assert line[..|k|] == k;
    assert line[|k| + 1..] == v;
    StripNoSpaceAtEnds(k);
    StripNoSpaceAtEnds(v);
  }

  /** An entry line is read back as its key and its unquoted value. */
  lemma EntryParses(k: string, v: string)
    requires IsName(k) && NoSpaceAtEnds(v)
    ensures ParseEnvLine(Entry(k, v)) == Some((k, Unquote(v)))
  {
    EntryStripped(k, v);
    EntryHead(k, v);
    EntrySplits(k, v);
    assert DropExport(Entry(k, v)) == Entry(k, v);
  }

  /** A value written in quotes is read back exactly, whatever it holds. */
  lemma QuotedEntryParses(k: string, v: string)
    requires IsName(k)
    ensures ParseEnvLine(Entry(k, "\"" + v + "\"")) == Some((k, v))
  {
    var q := "\"" + v + "\"";
    EntryParses(k, q);
    assert q[1..|q| - 1] == v;
  }

  /** After an `export ` prefix the reader sees the entry itself. */
  lemma ExportDropped(k: string, v: string)
    requires IsName(k) && NoSpaceAtEnds(v)
    ensures ParseEnvLine(ExportPrefix + Entry(k, v)) == SplitAssignment(Entry(k, v))
  {
    var line := Entry(k, v);
    var full := ExportPrefix + line;
    EntryStripped(k, v);
    assert NoSpaceAtEnds(full) by {
      assert full[0] == 'e';
      assert full[|full| - 1] == line[|line| - 1];
    }
    StripNoSpaceAtEnds(full);
    assert full[..|ExportPrefix|] == ExportPrefix;
    assert full[|ExportPrefix|..] == line;
    var st := Strip(full);
    assert st == full && st != "" && st[0] != '#';
    assert DropExport(st) == line;
  }

  /** An entry behind an `export ` prefix reads as the entry alone. */
  lemma ExportIgnored(k: string, v: string)
    requires IsName(k) && NoSpaceAtEnds(v)
    ensures ParseEnvLine(ExportPrefix + Entry(k, v)) == Some((k, Unquote(v)))
  {
    ExportDropped(k, v);
    EntrySplits(k, v);
  }

  // ------------------------------------------------------------------
  // Updates
  // ------------------------------------------------------------------

  /** A dict of updates in insertion order: a value to set, or `None` to clear. */
  type Updates = seq<(string, Option<string>)>

  function UpdateKeys(u: Updates): (r: seq<string>)
    ensures |r| == |u|
  {
    if u == [] then [] else [u[0].0] + UpdateKeys(u[1..])
  }

  /** `updates[key]`. */
  function Lookup(u: Updates, k: string): Option<string>
    requires k in UpdateKeys(u)
  {
    if u[0].0 == k then u[0].1 else Lookup(u[1..], k)
  }

  /** `updates.pop(key)`: the entry of `key` removed, the rest in order. */
  function Pop(u: Updates, k: string): (r: Updates)
    ensures forall x :: x in UpdateKeys(r) ==> x in UpdateKeys(u)
    ensures forall e :: e in r ==> e in u
  {
    if u == [] then []
    else if u[0].0 == k then u[1..]
    else [u[0]] + Pop(u[1..], k)
  }

  /** Popping from a dict removes exactly the popped key and keeps the other values. */
  lemma {:induction false} PopOthers(u: Updates, k: string)
    requires Distinct(UpdateKeys(u))
    decreases |u|
    ensures Distinct(UpdateKeys(Pop(u, k)))
    ensures forall x :: x in UpdateKeys(Pop(u, k)) <==> x in UpdateKeys(u) && x != k
    ensures forall x :: x in UpdateKeys(u) && x != k ==> Lookup(Pop(u, k), x) == Lookup(u, x)
  {
    if u != [] {
      DistinctTail(UpdateKeys(u));
      assert UpdateKeys(u)[1..] == UpdateKeys(u[1..]);
      if u[0].0 != k {
        PopOthers(u[1..], k);
        var r := Pop(u[1..], k);
        assert UpdateKeys([u[0]] + r) == [u[0].0] + UpdateKeys(r) by {
          assert ([u[0]] + r)[1..] == r;
        }
        assert u[0].0 !in UpdateKeys(r);
        DistinctCons(u[0].0, UpdateKeys(r));
      }
    }
  }

  /** The line written for a consumed update: `key=value`, or nothing for a clear. */
  function Emit(key: string, value: Option<string>): seq<string>
  {
    if value.Some? then [Entry(key, value.value)] else []
  }

  /** The lines appended for the updates no line consumed: one per value to set. */
  function Appended(u: Updates): seq<string>
  {
    if u == [] then [] else Emit(u[0].0, u[0].1) + Appended(u[1..])
  }

  /** The environment after `_apply_env_updates`: each key set or removed in turn. */
  function ApplyUpdates(env: map<string, string>, u: Updates): map<string, string>
    decreases |u|
  {
    if u == [] then env
    else
      var next := if u[0].1.Some? then env[u[0].0 := u[0].1.value] else env - {u[0].0};
      ApplyUpdates(next, u[1..])
  }

  /** After the updates, an updated key has its new value or is gone; others are untouched. */
  lemma {:induction false} ApplyUpdatesAt(env: map<string, string>, u: Updates, k: string)
    requires Distinct(UpdateKeys(u))
    decreases |u|
    ensures k in UpdateKeys(u) ==>
              (k in ApplyUpdates(env, u) <==> Lookup(u, k).Some?)
              && (k in ApplyUpdates(env, u) ==> ApplyUpdates(env, u)[k] == Lookup(u, k).value)
    ensures k !in UpdateKeys(u) ==>
              (k in ApplyUpdates(env, u) <==> k in env)
              && (k in env ==> ApplyUpdates(env, u)[k] == env[k])
  {
    if u != [] {
      DistinctTail(UpdateKeys(u));
      assert UpdateKeys(u)[1..] == UpdateKeys(u[1..]);
      var next := if u[0].1.Some? then env[u[0].0 := u[0].1.value] else env - {u[0].0};
      ApplyUpdatesAt(next, u[1..], k);
      if k == u[0].0 {
        assert k !in UpdateKeys(u[1..]);
      }
    }
  }

  // ------------------------------------------------------------------
  // Writing
  // ------------------------------------------------------------------

  /**
   * The key `_write_env_file` sees on a line: none for blank lines, comments
   * and lines without `=`; otherwise the stripped text before the first `=`
   * (an `export ` prefix stays part of it).
   */
  function WriteKey(line: string): Option<string>
  {
    var stripped := Strip(line);
    if stripped == "" || stripped[0] == '#' then None
    else
      match FirstIndexOf(stripped, '=')
      case None => None
      case Some(i) => Some(Strip(stripped[..i]))
  }

  /**
   * The merge of `_write_env_file` with `remaining` updates still to place,
   * for a given way of reading a line's key: the first line of each updated
   * key is replaced or dropped and the update consumed; every other line is
   * kept; the updates left over are appended.
   */
  function MergeLines(lines: seq<string>, remaining: Updates, keyOf: string -> Option<string>): seq<string>
  {
    if lines == [] then Appended(remaining)
    else
      var step := Consume(lines[0], remaining, keyOf);
      step.0 + MergeLines(lines[1..], step.1, keyOf)
  }

  /** What one line turns into, and the updates still to place after it. */
  function Consume(line: string, remaining: Updates, keyOf: string -> Option<string>): (seq<string>, Updates)
  {
    var key := keyOf(line);
    if key.Some? && key.value in UpdateKeys(remaining) then
      (Emit(key.value, Lookup(remaining, key.value)), Pop(remaining, key.value))
    else ([line], remaining)
  }

  /** `_write_env_file` on the lines of the file. */
  function WriteEnv(lines: seq<string>, updates: Updates): seq<string>
  {
    MergeLines(lines, updates, WriteKey)
  }

  /** The last loop of `_write_env_file`: the leftover updates appended in order. */
  method AppendRemaining(output: seq<string>, remaining: Updates) returns (r: seq<string>)
    ensures r == output + Appended(remaining)
  {
    r := output;
    var j := 0;
    while j < |remaining|
      invariant 0 <= j <= |remaining|
      invariant r + Appended(remaining[j..]) == output + Appended(remaining)
    {
      assert remaining[j..][0] == remaining[j] && remaining[j..][1..] == remaining[j + 1..];
      var written := Emit(remaining[j].0, remaining[j].1);
      AppendAssoc(r, written, Appended(remaining[j + 1..]));
      r := r + written;
      j := j + 1;
    }
    assert remaining[|remaining|..] == [];
  }

  /** The merge of lines from `i` on: line `i` consumed, then the rest. */
  lemma MergeStep(lines: seq<string>, i: nat, rem: Updates, keyOf: string -> Option<string>)
    requires i < |lines|
    ensures MergeLines(lines[i..], rem, keyOf)
         == Consume(lines[i], rem, keyOf).0 + MergeLines(lines[i + 1..], Consume(lines[i], rem, keyOf).1, keyOf)
  {
    assert lines[i..][0] == lines[i] && lines[i..][1..] == lines[i + 1..];
  }

  /** The body of the line loop of `_write_env_file`: a line of a pending key is replaced or dropped. */
  method ConsumeLine(line: string, remaining: Updates) returns (written: seq<string>, rest: Updates)
    ensures (written, rest) == Consume(line, remaining, WriteKey)
  {
    var key := WriteKey(line);
    if key.None? || key.value !in UpdateKeys(remaining) {
      written, rest := [line], remaining;
    } else {
      written := Emit(key.value, Lookup(remaining, key.value));
      rest := Pop(remaining, key.value);
    }
  }

  /** The loops of `_write_env_file`. */
  method WriteEnvFile(lines: seq<string>, updates: Updates) returns (output: seq<string>)
    ensures output == WriteEnv(lines, updates)
  {
    var remaining := updates;
    output := [];
    var i := 0;
    assert lines[0..] == lines;
    while i < |lines|
      invariant 0 <= i <= |lines|
      invariant output + MergeLines(lines[i..], remaining, WriteKey) == WriteEnv(lines, updates)
    {
      MergeStep(lines, i, remaining, WriteKey);
      var written;
      written, remaining := ConsumeLine(lines[i], remaining);
      AppendAssoc(output, written, MergeLines(lines[i + 1..], remaining, WriteKey));
      output := output + written;
      i := i + 1;
    }
    assert lines[|lines|..] == [];
    output := AppendRemaining(output, remaining);
  }

  /** A line for `key` and `value` is seen by the writer as a line of `key`. */
  lemma WriteKeyOfEntry(k: string, v: string)
    requires IsName(k)
    ensures WriteKey(Entry(k, v)) == Some(k)
  {
    EntryHead(k, v);
    NameFacts(k);
    StripNoSpaceAtEnds(k);
  }

  /** The updates name variables only. */
  predicate NamesOnly(u: Updates)
  {
    forall e :: e in u ==> IsName(e.0)
  }

  lemma {:induction false} UpdateKeysMembers(u: Updates, k: string)
    ensures k in UpdateKeys(u) <==> exists e :: e in u && e.0 == k
    decreases |u|
  {
    if u != [] {
      UpdateKeysMembers(u[1..], k);
      assert UpdateKeys(u) == [u[0].0] + UpdateKeys(u[1..]);
      if k in UpdateKeys(u[1..]) {
        var e :| e in u[1..] && e.0 == k;
        assert e in u;
      }
    }
  }

  /** A line the updates leave alone: no key, or a key nobody updates. */
  function NotUpdated(u: Updates): string -> bool
  {
    line => WriteKey(line).None? || WriteKey(line).value !in UpdateKeys(u)
  }

  /** Nothing the writer adds for the updates is a line the updates leave alone. */
  lemma {:induction false} AppendedAllUpdated(rem: Updates, u: Updates)
    requires NamesOnly(rem)
    requires forall x :: x in UpdateKeys(rem) ==> x in UpdateKeys(u)
    ensures Filter(Appended(rem), NotUpdated(u)) == []
    decreases |rem|
  {
    if rem != [] {
      assert UpdateKeys(rem) == [rem[0].0] + UpdateKeys(rem[1..]);
      AppendedAllUpdated(rem[1..], u);
      EmitAllUpdated(rem[0].0, rem[0].1, u);
      FilterConcat(Emit(rem[0].0, rem[0].1), Appended(rem[1..]), NotUpdated(u));
    }
  }

  lemma EmitAllUpdated(k: string, v: Option<string>, u: Updates)
    requires IsName(k) && k in UpdateKeys(u)
    ensures Filter(Emit(k, v), NotUpdated(u)) == []
  {
    if v.Some? {
      WriteKeyOfEntry(k, v.value);
      assert !NotUpdated(u)(Entry(k, v.value));
      assert [Entry(k, v.value)][1..] == [];
    }
  }

  /** The merge keeps the lines the updates leave alone, in their order. */
  lemma {:induction false} MergeKeepsOthers(lines: seq<string>, rem: Updates, u: Updates)
    requires NamesOnly(rem)
    requires forall x :: x in UpdateKeys(rem) ==> x in UpdateKeys(u)
    ensures Filter(MergeLines(lines, rem, WriteKey), NotUpdated(u)) == Filter(lines, NotUpdated(u))
  {
    if lines == [] {
      AppendedAllUpdated(rem, u);
    } else {
      var step := Consume(lines[0], rem, WriteKey);
      ConsumeLeavesNames(lines[0], rem, u);
      MergeKeepsOthers(lines[1..], step.1, u);
      FilterConcat(step.0, MergeLines(lines[1..], step.1, WriteKey), NotUpdated(u));
      assert lines == [lines[0]] + lines[1..];
      FilterConcat([lines[0]], lines[1..], NotUpdated(u));
      ConsumeFilter(lines[0], rem, u);
    }
  }

  /** The updates left after a line still name variables, all of them among `u`'s. */
  lemma ConsumeLeavesNames(line: string, rem: Updates, u: Updates)
    requires NamesOnly(rem)
    requires forall x :: x in UpdateKeys(rem) ==> x in UpdateKeys(u)
    ensures NamesOnly(Consume(line, rem, WriteKey).1)
    ensures forall x :: x in UpdateKeys(Consume(line, rem, WriteKey).1) ==> x in UpdateKeys(u)
  {
  }

  /** What one line turns into keeps exactly what the line itself keeps. */
  lemma ConsumeFilter(line: string, rem: Updates, u: Updates)
    requires NamesOnly(rem)
    requires forall x :: x in UpdateKeys(rem) ==> x in UpdateKeys(u)
    ensures Filter(Consume(line, rem, WriteKey).0, NotUpdated(u)) == Filter([line], NotUpdated(u))
  {
    var key := WriteKey(line);
    if key.Some? && key.value in UpdateKeys(rem) {
      assert exists e :: e in rem && e.0 == key.value by {
        UpdateKeysMembers(rem, key.value);
      }
      EmitAllUpdated(key.value, Lookup(rem, key.value), u);
      assert !NotUpdated(u)(line);
      assert Filter([line], NotUpdated(u)) == [] by {
        assert [line][1..] == [];
      }
    }
  }

  /**
   * `_write_env_file` keeps every line that is not a line of an updated key,
   * in its order: blank lines, comments, other variables.
   */
  lemma WriteKeepsOtherLines(lines: seq<string>, u: Updates)
    requires NamesOnly(u)
    ensures Filter(WriteEnv(lines, u), NotUpdated(u)) == Filter(lines, NotUpdated(u))
  {
    MergeKeepsOthers(lines, u, u);
  }

  /** A line the remaining updates do not touch. */
  predicate Untouched(line: string, rem: Updates, keyOf: string -> Option<string>)
  {
    keyOf(line).None? || keyOf(line).value !in UpdateKeys(rem)
  }

  /** Lines no remaining update touches pass through the merge unchanged. */
  lemma {:induction false} MergeSkipsUntouched(pre: seq<string>, rest: seq<string>, rem: Updates, keyOf: string -> Option<string>)
    requires forall x :: x in pre ==> Untouched(x, rem, keyOf)
    ensures MergeLines(pre + rest, rem, keyOf) == pre + MergeLines(rest, rem, keyOf)
  {
    if pre == [] {
      assert pre + rest == rest;
    } else {
      assert (pre + rest)[0] == pre[0] && (pre + rest)[1..] == pre[1..] + rest;
      assert Untouched(pre[0], rem, keyOf);
      assert Consume(pre[0], rem, keyOf) == ([pre[0]], rem);
      MergeSkipsUntouched(pre[1..], rest, rem, keyOf);
      assert pre == [pre[0]] + pre[1..];
      assert [pre[0]] + (pre[1..] + MergeLines(rest, rem, keyOf)) == pre + MergeLines(rest, rem, keyOf);
    }
  }

  /**
   * The first line of an updated key becomes `key=value`, or goes when the
   * update clears the key, and that update is used up.
   */
  lemma WriteReplacesFirst(pre: seq<string>, line: string, post: seq<string>, u: Updates, k: string)
    requires forall x :: x in pre ==> Untouched(x, u, WriteKey)
    requires WriteKey(line) == Some(k) && k in UpdateKeys(u)
    ensures WriteEnv(pre + [line] + post, u)
         == pre + Emit(k, Lookup(u, k)) + MergeLines(post, Pop(u, k), WriteKey)
  {
    assert pre + [line] + post == pre + ([line] + post);
    MergeSkipsUntouched(pre, [line] + post, u, WriteKey);
    assert ([line] + post)[0] == line && ([line] + post)[1..] == post;
    var e := Emit(k, Lookup(u, k));
    assert Consume(line, u, WriteKey) == (e, Pop(u, k));
    assert MergeLines([line] + post, u, WriteKey) == e + MergeLines(post, Pop(u, k), WriteKey);
    assert pre + (e + MergeLines(post, Pop(u, k), WriteKey)) == pre + e + MergeLines(post, Pop(u, k), WriteKey);
  }

  /** When no line belongs to an updated key, every update to set is appended, in order. */
  lemma WriteAppendsAbsent(lines: seq<string>, u: Updates)
    requires forall x :: x in lines ==> Untouched(x, u, WriteKey)
    ensures WriteEnv(lines, u) == lines + Appended(u)
  {
    MergeSkipsUntouched(lines, [], u, WriteKey);
    assert lines + [] == lines;
  }

  // ------------------------------------------------------------------
  // Writing and reading back
  // ------------------------------------------------------------------

  lemma ReadLinesTwo(a: string, b: string, parse: string -> Option<(string, string)>)
    requires parse(a).Some? && parse(b).Some?
    ensures ReadLines([a, b], parse) == map[parse(a).value.0 := parse(a).value.1][parse(b).value.0 := parse(b).value.1]
  {
    var (ka, va) := parse(a).value;
    var (kb, vb) := parse(b).value;
    assert [a][..0] == [] && [a][0] == a;
    assert ReadLines([a], parse) == map[][ka := va];
    assert [a, b][..1] == [a] && [a, b][1] == b;
    assert ReadLines([a, b], parse) == ReadLines([a], parse)[kb := vb];
  }

  /** Two lines that both define variables, read in order. */
  lemma ReadTwo(a: string, b: string)
    requires ParseEnvLine(a).Some? && ParseEnvLine(b).Some?
    ensures ReadEnv([a, b]) == map[ParseEnvLine(a).value.0 := ParseEnvLine(a).value.1][ParseEnvLine(b).value.0 := ParseEnvLine(b).value.1]
  {
    ReadLinesTwo(a, b, ParseEnvLine);
  }

  lemma ReadTwoDefs(a: string, b: string, ka: string, va: string, kb: string, vb: string)
    requires ParseEnvLine(a) == Some((ka, va)) && ParseEnvLine(b) == Some((kb, vb))
    ensures ReadEnv([a, b]) == map[ka := va][kb := vb]
  {
    ReadTwo(a, b);
  }

  lemma MapOverwrite(m: map<string, string>, k: string, a: string, b: string)
    ensures m[k := a][k := b] == m[k := b]
  {
  }

  /** A line for a name and a plain value reads back as exactly that pair. */
  lemma PlainParses(k: string, v: string)
    requires IsName(k) && PlainValue(v)
    ensures ParseEnvLine(Entry(k, v)) == Some((k, v))
  {
    EntryParses(k, v);
  }

  lemma ApplyOne(env: map<string, string>, k: string, v: string)
    ensures ApplyUpdates(env, [(k, Some(v))]) == env[k := v]
  {
    assert [(k, Some(v))][1..] == [];
  }

  /** The writer replaces the first of two lines of one key and keeps the second. */
  lemma WriteFirstOfTwo(k: string, v1: string, v2: string, v3: string)
    requires IsName(k)
    ensures WriteEnv([Entry(k, v1), Entry(k, v2)], [(k, Some(v3))]) == [Entry(k, v3), Entry(k, v2)]
  {
    var lines := [Entry(k, v1), Entry(k, v2)];
    var u: Updates := [(k, Some(v3))];
    WriteKeyOfEntry(k, v1);
    WriteKeyOfEntry(k, v2);
    assert UpdateKeys(u) == [k];
    assert Consume(Entry(k, v1), u, WriteKey) == ([Entry(k, v3)], []);
    assert Consume(Entry(k, v2), [], WriteKey) == ([Entry(k, v2)], []);
    assert lines[1..] == [Entry(k, v2)] && lines[1..][1..] == [];
    assert MergeLines(lines[1..], [], WriteKey) == [Entry(k, v2)];
  }

  /**
   * `_write_env_file` as written rewrites only the first line of a key,
   * while the reader takes the last: with the key on two lines, the file
   * reads back with the old second value instead of the update.
   */
  lemma WriteEnvLosesUpdate(k: string, v1: string, v2: string, v3: string)
    requires IsName(k) && PlainValue(v1) && PlainValue(v2) && PlainValue(v3)
    ensures var lines := [Entry(k, v1), Entry(k, v2)];
            var u: Updates := [(k, Some(v3))];
            && WriteEnv(lines, u) == [Entry(k, v3), Entry(k, v2)]
            && ReadEnv(WriteEnv(lines, u)) == map[k := v2]
            && ApplyUpdates(ReadEnv(lines), u) == map[k := v3]
  {
    WriteFirstOfTwo(k, v1, v2, v3);
    PlainParses(k, v1);
    PlainParses(k, v2);
    PlainParses(k, v3);
    ReadTwoDefs(Entry(k, v3), Entry(k, v2), k, v3, k, v2);
    MapOverwrite(map[], k, v3, v2);
    ReadTwoDefs(Entry(k, v1), Entry(k, v2), k, v1, k, v2);
    ApplyOne(map[k := v1][k := v2], k, v3);
    MapOverwrite(map[k := v1], k, v2, v3);
    MapOverwrite(map[], k, v1, v3);
  }

  lemma ExportPrefixFacts()
    ensures |ExportPrefix| == 7 && ExportPrefix[0] == 'e' && !HasChar(ExportPrefix, '=')
  {
    assert ExportPrefix == ['e', 'x', 'p', 'o', 'r', 't', ' '];
  }

  lemma {:induction false} HasCharConcat(a: string, b: string, c: char)
    ensures HasChar(a + b, c) <==> HasChar(a, c) || HasChar(b, c)
  {
    if HasChar(a + b, c) {
      var i :| 0 <= i < |a + b| && (a + b)[i] == c;
      if i >= |a| {
        assert b[i - |a|] == c;
      }
    }
    if HasChar(a, c) {
      var i :| 0 <= i < |a| && a[i] == c;
      assert (a + b)[i] == c;
    }
    if HasChar(b, c) {
      var i :| 0 <= i < |b| && b[i] == c;
      assert (a + b)[|a| + i] == c;
    }
  }

  /** The writer's key of a stripped line whose first `=` is at `h`. */
  lemma WriteKeyOfStripped(line: string, h: nat)
    requires Strip(line) == line && line != [] && line[0] != '#'
    requires FirstIndexOf(line, '=') == Some(h)
    ensures WriteKey(line) == Some(Strip(line[..h]))
  {
  }

  /** The writer's key of a stripped assignment line is the text before its first `=`, stripped. */
  lemma WriteKeyBeforeEquals(head: string, v: string)
    requires NoSpaceAtEnds(head + "=" + v) && head != [] && head[0] != '#'
    requires !HasChar(head, '=')
    ensures WriteKey(head + "=" + v) == Some(Strip((head + "=" + v)[..|head|]))
  {
    var line := head + "=" + v;
    StripNoSpaceAtEnds(line);
    FirstIndexInConcat(head, v, '=');
    WriteKeyOfStripped(line, |head|);
  }

  lemma WriteKeyOfAssignment(head: string, v: string)
    requires NoSpaceAtEnds(head + "=" + v) && head != [] && head[0] != '#'
    requires !HasChar(head, '=')
    ensures WriteKey(head + "=" + v) == Some(Strip(head))
  {
    WriteKeyBeforeEquals(head, v);
    var prefix := (head + "=" + v)[..|head|];
    assert prefix == head;
  }

  /** `export ` followed by a name is a stripped head without `=`. */
  lemma ExportHead(k: string)
    requires IsName(k)
    ensures var head := ExportPrefix + k;
            head != [] && head[0] == 'e' && !HasChar(head, '=') && Strip(head) == head
  {
    NameFacts(k);
    ExportPrefixFacts();
    var head := ExportPrefix + k;
    HasCharConcat(ExportPrefix, k, '=');
    assert head[0] == 'e' && head[|head| - 1] == k[|k| - 1];
    StripNoSpaceAtEnds(head);
  }

  lemma ExportLineEnds(k: string, v: string)
    requires NoSpaceAtEnds(v)
    ensures NoSpaceAtEnds((ExportPrefix + k) + "=" + v)
  {
    var line := (ExportPrefix + k) + "=" + v;
    ExportPrefixFacts();
    assert line[0] == 'e';
    assert line[|line| - 1] == if v == [] then '=' else v[|v| - 1];
  }

  /** Behind `export `, the writer sees a different key from the reader. */
  lemma WriteKeyOfExport(k: string, v: string)
    requires IsName(k) && NoSpaceAtEnds(v)
    ensures WriteKey(ExportPrefix + Entry(k, v)) == Some(ExportPrefix + k)
  {
    ExportHead(k);
    ExportLineEnds(k, v);
    assert ExportPrefix + Entry(k, v) == (ExportPrefix + k) + "=" + v;
    WriteKeyOfAssignment(ExportPrefix + k, v);
  }

  lemma ReadLinesOne(a: string, parse: string -> Option<(string, string)>)
    requires parse(a).Some?
    ensures ReadLines([a], parse) == map[parse(a).value.0 := parse(a).value.1]
  {
    assert [a][..0] == [] && [a][0] == a;
  }

  lemma ReadOneDef(a: string, ka: string, va: string)
    requires ParseEnvLine(a) == Some((ka, va))
    ensures ReadEnv([a]) == map[ka := va]
  {
    ReadLinesOne(a, ParseEnvLine);
  }

  lemma ApplyClear(env: map<string, string>, k: string)
    ensures k !in ApplyUpdates(env, [(k, None)])
  {
    var u: Updates := [(k, None)];
    assert u[1..] == [];
  }

  /** A clear whose key the writer does not see leaves the single line alone. */
  lemma WriteKeepsExportLine(k: string, v: string)
    requires IsName(k) && NoSpaceAtEnds(v)
    ensures WriteEnv([ExportPrefix + Entry(k, v)], [(k, None)]) == [ExportPrefix + Entry(k, v)]
  {
    var line := ExportPrefix + Entry(k, v);
    var u: Updates := [(k, None)];
    WriteKeyOfExport(k, v);
    assert UpdateKeys(u) == [k];
    assert |ExportPrefix + k| != |k|;
    assert Untouched(line, u, WriteKey);
    WriteAppendsAbsent([line], u);
    assert Appended(u) == [] by {
      assert u[1..] == [];
    }
  }

  /**
   * Clearing a key the file sets behind `export ` leaves that line in place,
   * so the cleared variable reads back with its old value.
   */
  lemma WriteEnvMissesExport(k: string, v: string)
    requires IsName(k) && PlainValue(v)
    ensures var lines := [ExportPrefix + Entry(k, v)];
            var u: Updates := [(k, None)];
            && WriteEnv(lines, u) == lines
            && ReadEnv(WriteEnv(lines, u)) == map[k := v]
            && k !in ApplyUpdates(ReadEnv(lines), u)
  {
    var line := ExportPrefix + Entry(k, v);
    WriteKeepsExportLine(k, v);
    ExportIgnored(k, v);
    ReadOneDef(line, k, v);
    ApplyClear(ReadEnv([line]), k);
  }

  /** The key the reader sees on a line. */
  function ReadKey(line: string): Option<string>
  {
    match ParseEnvLine(line)
    case Some(kv) => Some(kv.0)
    case None => None
  }

  /**
   * One line of the corrected writer: the first line of an updated key is
   * replaced or dropped, any later line of that key is dropped.
   */
  function FixedConsume(line: string, u: Updates, remaining: Updates): (seq<string>, Updates)
  {
    var key := ReadKey(line);
    if key.Some? && key.value in UpdateKeys(remaining) then
      (Emit(key.value, Lookup(remaining, key.value)), Pop(remaining, key.value))
    else if key.Some? && key.value in UpdateKeys(u) then ([], remaining)
    else ([line], remaining)
  }

  function FixedMerge(lines: seq<string>, u: Updates, remaining: Updates): seq<string>
  {
    if lines == [] then Appended(remaining)
    else
      var step := FixedConsume(lines[0], u, remaining);
      step.0 + FixedMerge(lines[1..], u, step.1)
  }

  /** `_write_env_file` keyed as the reader keys lines, with duplicates of an updated key dropped. */
  function WriteEnvFixed(lines: seq<string>, u: Updates): seq<string>
  {
    FixedMerge(lines, u, u)
  }

  /** The characters Python's `str.splitlines` breaks a text at. */
  predicate IsLineBreak(c: char)
  {
    c in {'\n', '\r', '\U{B}', '\U{C}', '\U{1C}', '\U{1D}', '\U{1E}', '\U{85}', '\U{2028}', '\U{2029}'}
  }

  /**
   * A value the line format carries unchanged: no whitespace at its ends, no
   * enclosing quotes, and no line break, which would split its line in two
   * when the written text is read back line by line.
   */
  predicate PlainValue(v: string)
  {
    NoSpaceAtEnds(v) && Unquote(v) == v && forall i :: 0 <= i < |v| ==> !IsLineBreak(v[i])
  }

  /** Updates of variable names to plain values. */
  predicate Writable(u: Updates)
  {
    forall e :: e in u ==> IsName(e.0) && (e.1.Some? ==> PlainValue(e.1.value))
  }

  lemma LastValueSingle(x: string, k: string)
    ensures LastValue([x], k) == if ReadKey(x) == Some(k) then Some(ParseEnvLine(x).value.1) else None
  {
    assert [x][1..] == [];
    assert LastDefinition([x][1..], k, ParseEnvLine) == None;
    assert [x][0] == x;
  }

  /** The reader sees what an emitted line sets. */
  lemma EmitLast(key: string, v: Option<string>, k: string)
    requires IsName(key) && (v.Some? ==> PlainValue(v.value))
    ensures LastValue(Emit(key, v), k) == if key == k then v else None
  {
    if v.Some? {
      EntryParses(key, v.value);
      LastValueSingle(Entry(key, v.value), k);
    }
  }

  lemma {:induction false} UpdateKeysHead(u: Updates)
    requires u != []
    ensures UpdateKeys(u) == [u[0].0] + UpdateKeys(u[1..])
  {
  }

  /** The appended lines set each leftover variable to its update. */
  lemma {:induction false} AppendedLast(rem: Updates, k: string)
    requires Distinct(UpdateKeys(rem)) && Writable(rem)
    ensures LastValue(Appended(rem), k) == if k in UpdateKeys(rem) then Lookup(rem, k) else None
    decreases |rem|
  {
    if rem != [] {
      UpdateKeysHead(rem);
      DistinctTail(UpdateKeys(rem));
      assert UpdateKeys(rem)[1..] == UpdateKeys(rem[1..]);
      AppendedLast(rem[1..], k);
      EmitLast(rem[0].0, rem[0].1, k);
      LastValueConcat(Emit(rem[0].0, rem[0].1), Appended(rem[1..]), k);
    }
  }

  /** What one corrected step leaves of the updates. */
  lemma FixedConsumeFacts(x: string, u: Updates, rem: Updates, k: string)
    requires Distinct(UpdateKeys(rem)) && Writable(rem)
    requires forall y :: y in UpdateKeys(rem) ==> y in UpdateKeys(u)
    ensures var step := FixedConsume(x, u, rem);
            && Distinct(UpdateKeys(step.1)) && Writable(step.1)
            && (forall y :: y in UpdateKeys(step.1) ==> y in UpdateKeys(u))
  {
    var key := ReadKey(x);
    if key.Some? && key.value in UpdateKeys(rem) {
      PopOthers(rem, key.value);
    }
  }

  /**
   * The reader's value for `k` after the corrected merge of `lines` with
   * `rem` pending: the pending update, nothing when its update is already
   * placed, and the old value when nothing updates it.
   */
  function Expected(lines: seq<string>, u: Updates, rem: Updates, k: string): Option<string>
  {
    if k in UpdateKeys(rem) then Lookup(rem, k)
    else if k in UpdateKeys(u) then None
    else LastValue(lines, k)
  }

  /** The value `updates[key]` is one of the entries of the dict. */
  lemma {:induction false} LookupMember(u: Updates, k: string)
    requires k in UpdateKeys(u)
    ensures (k, Lookup(u, k)) in u
  {
    if u[0].0 != k {
      UpdateKeysHead(u);
      LookupMember(u[1..], k);
    }
  }

  /** The line that consumes `k`'s pending update sets `k`; later ones cannot. */
  lemma FixedStepConsumes(x: string, rest: seq<string>, u: Updates, rem: Updates, k: string)
    requires Distinct(UpdateKeys(rem)) && Writable(rem)
    requires forall y :: y in UpdateKeys(rem) ==> y in UpdateKeys(u)
    requires ReadKey(x).Some? && ReadKey(x).value in UpdateKeys(rem)
    ensures var step := FixedConsume(x, u, rem);
            var later := Expected(rest, u, step.1, k);
            (if later.Some? then later else LastValue(step.0, k)) == Expected([x] + rest, u, rem, k)
  {
    var key := ReadKey(x).value;
    var emitted, left := Emit(key, Lookup(rem, key)), Pop(rem, key);
    assert FixedConsume(x, u, rem) == (emitted, left);
    PopOthers(rem, key);
    LookupMember(rem, key);
    EmitLast(key, Lookup(rem, key), k);
    if k != key {
      assert LastValue(emitted, k) == None;
      LastValueConcat([x], rest, k);
      LastValueSingle(x, k);
    }
  }

  /** A line that neither consumes an update nor is dropped passes its value on. */
  lemma FixedStepOther(x: string, rest: seq<string>, u: Updates, rem: Updates, k: string)
    requires !(ReadKey(x).Some? && ReadKey(x).value in UpdateKeys(rem))
    requires forall y :: y in UpdateKeys(rem) ==> y in UpdateKeys(u)
    ensures var step := FixedConsume(x, u, rem);
            var later := Expected(rest, u, step.1, k);
            (if later.Some? then later else LastValue(step.0, k)) == Expected([x] + rest, u, rem, k)
  {
    LastValueConcat([x], rest, k);
    LastValueSingle(x, k);
    assert ([x] + rest)[1..] == rest;
  }

  lemma {:induction false} FixedMergeLast(lines: seq<string>, u: Updates, rem: Updates, k: string)
    requires Distinct(UpdateKeys(rem)) && Writable(rem)
    requires forall y :: y in UpdateKeys(rem) ==> y in UpdateKeys(u)
    ensures LastValue(FixedMerge(lines, u, rem), k) == Expected(lines, u, rem, k)
  {
    if lines == [] {
      AppendedLast(rem, k);
    } else {
      var x := lines[0];
      var step := FixedConsume(x, u, rem);
      FixedConsumeFacts(x, u, rem, k);
      FixedMergeLast(lines[1..], u, step.1, k);
      LastValueConcat(step.0, FixedMerge(lines[1..], u, step.1), k);
      assert lines == [x] + lines[1..];
      if ReadKey(x).Some? && ReadKey(x).value in UpdateKeys(rem) {
        FixedStepConsumes(x, lines[1..], u, rem, k);
      } else {
        FixedStepOther(x, lines[1..], u, rem, k);
      }
    }
  }

  /**
   * With the corrected writer, reading the file back gives the environment
   * the same updates give: `_read_env_file` after `_write_env_file` agrees
   * with `_apply_env_updates`.
   */
  lemma WriteEnvFixedReadsBack(lines: seq<string>, u: Updates)
    requires Distinct(UpdateKeys(u)) && Writable(u)
    ensures ReadEnv(WriteEnvFixed(lines, u)) == ApplyUpdates(ReadEnv(lines), u)
  {
    var after, expected := ReadEnv(WriteEnvFixed(lines, u)), ApplyUpdates(ReadEnv(lines), u);
    forall k ensures (k in after <==> k in expected) && (k in after ==> after[k] == expected[k]) {
      FixedMergeLast(lines, u, u, k);
      ReadEnvLastWins(WriteEnvFixed(lines, u), k);
      ReadEnvLastWins(lines, k);
      ApplyUpdatesAt(ReadEnv(lines), u, k);
    }
    assert after.Keys == expected.Keys;
  }
}
