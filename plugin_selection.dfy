/**
 * bin/valor-run/src/main.rs, the selection block of `run` (lines 21-50):
 * unless every plugin starts active, read a comma separated list of
 * indices, sort and deduplicate it, and switch on the plugins it names.
 */
module PluginSelection {
  import opened Wrappers
  import opened Text

  /** `plugin::Plugin` without its file content. */
  datatype Plugin = Plugin(name: string, active: bool)

  /** `Plugin::new_vec`: one plugin per path, in order, each `active` as given. */
  function NewVec(paths: seq<string>, allActive: bool): (r: seq<Plugin>)
    ensures |r| == |paths| && forall i :: 0 <= i < |r| ==> r[i] == Plugin(paths[i], allActive)
  {
    seq(|paths|, i requires 0 <= i < |paths| => Plugin(paths[i], allActive))
  }

  /** The characters `str::trim` removes (Unicode White_Space). */
  const WhiteSpace: set<char> :=
    {'\t', '\n', '\U{000B}', '\U{000C}', '\r', ' ', '\U{0085}', '\U{00A0}', '\U{1680}',
     '\U{2000}', '\U{2001}', '\U{2002}', '\U{2003}', '\U{2004}', '\U{2005}', '\U{2006}',
     '\U{2007}', '\U{2008}', '\U{2009}', '\U{200A}', '\U{2028}', '\U{2029}', '\U{202F}',
     '\U{205F}', '\U{3000}'}

  /** `s.split(',')`: the pieces between commas, so `n` commas give `n + 1` pieces. */
  function SplitCommas(s: string): (r: seq<string>)
    ensures |r| >= 1
    ensures forall i :: 0 <= i < |r| ==> ',' !in r[i]
  {
    if ',' !in s then [s]
    else
      var i := FirstComma(s, 0);
      [s[..i]] + SplitCommas(s[i + 1..])
  }

  function FirstComma(s: string, from: nat): (i: nat)
    requires from <= |s| && ',' in s[from..]
    ensures from <= i < |s| && s[i] == ',' && ',' !in s[..i][from..]
    decreases |s| - from
  {
    if s[from] == ',' then from
    else
      assert s[from..] == [s[from]] + s[from + 1..];
      var i := FirstComma(s, from + 1);
      assert s[..i][from..] == [s[from]] + s[..i][from + 1..];
      i
  }

  /** Splitting and joining again with commas gives the string back. */
  lemma {:induction false} SplitJoin(s: string)
    ensures Join(SplitCommas(s), ",") == s
    decreases |s|
  {
    if ',' in s {
      var i := FirstComma(s, 0);
      assert s[..i][0..] == s[..i];
      SplitJoin(s[i + 1..]);
      var rest := SplitCommas(s[i + 1..]);
      var parts := [s[..i]] + rest;
      assert SplitCommas(s) == parts;
      assert parts[1..] == rest;
      assert Join(parts, ",") == s[..i] + "," + Join(rest, ",");
      assert s == s[..i] + "," + s[i + 1..];
    }
  }

  const UsizeMax := 0x1_0000_0000_0000_0000 - 1

  predicate IsDigit(c: char) {
    '0' <= c <= '9'
  }

  predicate AllDigits(s: string) {
    forall i :: 0 <= i < |s| ==> IsDigit(s[i])
  }

  /** The value of a run of decimal digits. */
  function DigitsValue(s: string): nat
    requires AllDigits(s)
  {
    if s == [] then 0
    else
      assert IsDigit(s[|s| - 1]);
      DigitsValue(s[..|s| - 1]) * 10 + (s[|s| - 1] as int - '0' as int)
  }

  /**
   * `s.parse::<usize>()` on a 64-bit target: an optional `+`, at least one
   * digit, nothing else, and a value that fits; `None` otherwise.
   */
  function ParseUsize(s: string): (r: Option<nat>)
    ensures r.Some? ==> r.value <= UsizeMax
  {
    var digits := if |s| > 0 && s[0] == '+' then s[1..] else s;
    if |digits| > 0 && AllDigits(digits) && DigitsValue(digits) <= UsizeMax
    then Some(DigitsValue(digits))
    else None
  }

  lemma {:induction false} DigitsOfValue(n: nat)
    ensures var s := Digits(n); |s| > 0 && AllDigits(s) && DigitsValue(s) == n
  {
    var s := Digits(n);
    if n >= 10 {
      DigitsOfValue(n / 10);
      assert s[..|s| - 1] == Digits(n / 10);
    }
  }

  /** The decimal form `{}` prints. */
  function Digits(n: nat): string {
    (if n < 10 then "" else Digits(n / 10)) + [('0' as int + n % 10) as char]
  }

  /** Every index that fits in a `usize` parses from its decimal form. */
  lemma ParseDecimal(n: nat)
    requires n <= UsizeMax
    ensures ParseUsize(Digits(n)) == Some(n)
  {
    DigitsOfValue(n);
  }

  /** Text that is not a number, such as an empty line, is refused. */
  lemma ParseRefuses(word: string)
    requires |word| > 0 && !IsDigit(word[0]) && word[0] != '+'
    ensures ParseUsize("") == None && ParseUsize("+") == None && ParseUsize(word) == None
  {
    assert "+"[1..] == "";
    assert !IsDigit(word[0]);
    assert !AllDigits(word);
  }

  /** Each piece parsed, or `None` when one does not parse (the `unwrap` panics). */
  function ParseAll(pieces: seq<string>): (r: Option<seq<nat>>)
    ensures r.Some? <==> forall i :: 0 <= i < |pieces| ==> ParseUsize(pieces[i]).Some?
    ensures r.Some? ==> |r.value| == |pieces| && forall i :: 0 <= i < |pieces| ==> r.value[i] == ParseUsize(pieces[i]).value
  {
    if pieces == [] then Some([])
    else
      match ParseUsize(pieces[0])
      case None => None
      case Some(k) =>
        match ParseAll(pieces[1..])
        case None => None
        case Some(ks) => Some([k] + ks)
  }

  /** Lines 33-37: trim, split on commas, parse each piece. */
  function ParseSelection(input: string): (r: Option<seq<nat>>)
    ensures r.Some? ==> 1 <= |r.value| == |SplitCommas(Trim(input, WhiteSpace))|
    ensures r.Some? ==> forall i :: 0 <= i < |r.value| ==> Some(r.value[i]) == ParseUsize(SplitCommas(Trim(input, WhiteSpace))[i])
  {
    ParseAll(SplitCommas(Trim(input, WhiteSpace)))
  }

  lemma TrimAll(s: string, cs: set<char>)
    requires forall i :: 0 <= i < |s| ==> s[i] in cs
    ensures Trim(s, cs) == []
  {
  }

  /** Whitespace alone is not a selection: it leaves one empty piece, which does not parse. */
  lemma BlankLinePanics(input: string)
    requires forall i :: 0 <= i < |input| ==> input[i] in WhiteSpace
    ensures ParseSelection(input) == None
  {
    TrimAll(input, WhiteSpace);
    assert SplitCommas("") == [""];
  }

  predicate Increasing(s: seq<nat>) {
    forall i, j :: 0 <= i < j < |s| ==> s[i] < s[j]
  }

  /** Inserts `k` into an increasing sequence, keeping it increasing and without duplicates. */
  function InsertSorted(s: seq<nat>, k: nat): (r: seq<nat>)
    requires Increasing(s)
    ensures Increasing(r)
    ensures forall x :: x in r <==> x in s || x == k
  {
    if s == [] then [k]
    else if k < s[0] then [k] + s
    else if k == s[0] then s
    else
      var rest := InsertSorted(s[1..], k);
      assert forall x :: x in s[1..] ==> s[0] < x by {
        forall x | x in s[1..] ensures s[0] < x {
          HeadIsLeast(s, x);
        }
      }
      ConsIncreasing(s[0], rest);
      assert s == [s[0]] + s[1..];
      [s[0]] + rest
  }

  /** Lines 39-40, `sort` then `dedup`: the keys in increasing order, each once. */
  method SortDedup(keys: seq<nat>) returns (r: seq<nat>)
    ensures Increasing(r)
    ensures forall x :: x in r <==> x in keys
  {
    r := [];
    for i := 0 to |keys|
      invariant Increasing(r)
      invariant forall x :: x in r <==> x in keys[..i]
    {
      r := InsertSorted(r, keys[i]);
      assert keys[..i + 1] == keys[..i] + [keys[i]];
    }
    assert keys[..|keys|] == keys;
  }

  lemma EmptyIff(s: seq<nat>)
    ensures s == [] <==> forall x :: x !in s
  {
    if s != [] {
      assert s[0] in s;
    }
  }

  lemma HeadIsLeast(s: seq<nat>, x: nat)
    requires Increasing(s) && x in s
    ensures s[0] <= x
    ensures x in s[1..] <==> x != s[0]
  {
    var j :| 0 <= j < |s| && s[j] == x;
    if j > 0 {
      assert s[1..][j - 1] == x;
    }
    if x in s[1..] {
      var m :| 0 <= m < |s| - 1 && s[1..][m] == x;
      assert s[m + 1] == x;
    }
  }

  /**
   * An increasing sequence is determined by its elements, so any way of
   * sorting and deduplicating gives the same result as `SortDedup`.
   */
  lemma {:induction false} IncreasingUnique(a: seq<nat>, b: seq<nat>)
    requires Increasing(a) && Increasing(b)
    requires forall x :: x in a <==> x in b
    ensures a == b
    decreases |a|
  {
    EmptyIff(a);
    EmptyIff(b);
    if a != [] {
      SameHeadAndTail(a, b);
      IncreasingTail(a);
      IncreasingTail(b);
      IncreasingUnique(a[1..], b[1..]);
      assert a == [a[0]] + a[1..] && b == [b[0]] + b[1..];
    }
  }

  /** Two increasing sequences with the same elements start alike and continue with the same elements. */
  lemma SameHeadAndTail(a: seq<nat>, b: seq<nat>)
    requires Increasing(a) && Increasing(b) && a != [] && b != []
    requires forall x :: x in a <==> x in b
    ensures a[0] == b[0]
    ensures forall x :: x in a[1..] <==> x in b[1..]
  {
    assert a[0] in a && b[0] in b;
    HeadIsLeast(a, b[0]);
    HeadIsLeast(b, a[0]);
    forall x
      ensures x in a[1..] <==> x in b[1..]
    {
      if x in a {
        HeadIsLeast(a, x);
        HeadIsLeast(b, x);
      }
      if x in a[1..] {
        assert x in a;
      }
      if x in b[1..] {
        assert x in b;
      }
    }
  }

  lemma IncreasingTail(s: seq<nat>)
    requires Increasing(s) && s != []
    ensures Increasing(s[1..])
  {
    forall i, j | 0 <= i < j < |s| - 1
      ensures s[1..][i] < s[1..][j]
    {
      assert s[1..][i] == s[i + 1] && s[1..][j] == s[j + 1];
    }
  }

  lemma ConsIncreasing(x: nat, s: seq<nat>)
    requires Increasing(s) && forall y :: y in s ==> x < y
    ensures Increasing([x] + s)
  {
    forall i, j | 0 <= i < j < |[x] + s|
      ensures ([x] + s)[i] < ([x] + s)[j]
    {
      assert ([x] + s)[j] == s[j - 1];
      if i > 0 {
        assert ([x] + s)[i] == s[i - 1];
      } else {
        assert s[j - 1] in s;
      }
    }
  }

  /** The keys that name no plugin, in order. */
  function OutOfRange(keys: seq<nat>, count: nat): (r: seq<nat>)
    ensures forall x :: x in r <==> x in keys && x >= count
  {
    if keys == [] then []
    else (if keys[0] >= count then [keys[0]] else []) + OutOfRange(keys[1..], count)
  }

  lemma OutOfRangeStep(keys: seq<nat>, count: nat)
    requires keys != []
    ensures OutOfRange(keys, count) == (if keys[0] >= count then [keys[0]] else []) + OutOfRange(keys[1..], count)
  {
  }

  /** The keys seen after one more turn are those seen before and the next one. */
  lemma PrefixMembers(keys: seq<nat>, n: nat)
    requires n < |keys|
    ensures forall x :: x in keys[..n + 1] <==> x in keys[..n] || x == keys[n]
  {
    assert keys[..n + 1] == keys[..n] + [keys[n]];
  }

  /**
   * Lines 43-49: switch on each plugin a key names; keys past the end are
   * returned (the source warns about them). Nothing is switched off.
   */
  method Activate(plugins: array<Plugin>, keys: seq<nat>) returns (skipped: seq<nat>)
    modifies plugins
    ensures forall i :: 0 <= i < plugins.Length ==>
      plugins[i] == old(plugins[i]).(active := old(plugins[i]).active || i in keys)
    ensures skipped == OutOfRange(keys, plugins.Length)
  {
    skipped := [];
    var n := 0;
    while n < |keys|
      invariant 0 <= n <= |keys|
      invariant forall i :: 0 <= i < plugins.Length ==>
        plugins[i] == old(plugins[i]).(active := old(plugins[i]).active || i in keys[..n])
      invariant skipped + OutOfRange(keys[n..], plugins.Length) == OutOfRange(keys, plugins.Length)
    {
      var key := keys[n];
      OutOfRangeStep(keys[n..], plugins.Length);
      assert keys[n..][1..] == keys[n + 1..];
      if key < plugins.Length {
        plugins[key] := plugins[key].(active := true);
      } else {
        skipped := skipped + [key];
      }
      PrefixMembers(keys, n);
      n := n + 1;
    }
    assert keys[..n] == keys;
    assert keys[n..] == [];
  }

  /**
   * Lines 21-50: the plugins after selection and the skipped keys, or
   * `None` where the source panics on an entry that is not a number.
   */
  method Select(paths: seq<string>, allActive: bool, input: string) returns (r: Option<(seq<Plugin>, seq<nat>)>)
    ensures allActive ==> r == Some((NewVec(paths, true), []))
    ensures !allActive ==> (r.None? <==> ParseSelection(input).None?)
    ensures !allActive && r.Some? ==>
      var keys := ParseSelection(input).value;
      var (plugins, skipped) := r.value;
      && |plugins| == |paths|
      && (forall i :: 0 <= i < |paths| ==> plugins[i] == Plugin(paths[i], i in keys))
      && Increasing(skipped) && (forall x :: x in skipped <==> x in keys && x >= |paths|)
  {
    var plugins := new Plugin[|paths|](i requires 0 <= i < |paths| => Plugin(paths[i], allActive));
    assert plugins[..] == NewVec(paths, allActive);
    if allActive {
      return Some((plugins[..], []));
    }
    var keys := ParseSelection(input);
    if keys.None? {
      return None;
    }
    var sorted := SortDedup(keys.value);
    var skipped := Activate(plugins, sorted);
    OutOfRangeIncreasing(sorted, plugins.Length);
    return Some((plugins[..], skipped));
  }

  lemma {:induction false} OutOfRangeIncreasing(keys: seq<nat>, count: nat)
    requires Increasing(keys)
    ensures Increasing(OutOfRange(keys, count))
    decreases |keys|
  {
    if keys != [] {
      OutOfRangeIncreasing(keys[1..], count);
      var rest := OutOfRange(keys[1..], count);
      forall x | x in rest ensures keys[0] < x {
        HeadIsLeast(keys, x);
      }
      if keys[0] >= count {
        ConsIncreasing(keys[0], rest);
      } else {
        assert OutOfRange(keys, count) == rest;
      }
    }
  }
}
