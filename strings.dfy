/**
 * The few Python string operations the search controller relies on:
 * `str.strip`, `str.lower`, `str.split(sep)`, `str.split()`, `" ".join`,
 * slicing `s[:n]`, the substring test `sub in s`, and the regular expressions
 * `\s+` (collapsed to one space), `["'\[\]]` (removed) and `\d+` (found).
 *
 * The character classes `\s` and `\d` are modelled by ASCII whitespace and
 * ASCII digits, and `lower` by ASCII case folding.
 */
module Strings {

  /** Python's `\s` on the ASCII range: space, tab, newline, vertical tab, form feed, carriage
      return, and the file, group, record and unit separators (0x1C to 0x1F). */
  predicate IsSpace(c: char) {
    c == ' ' || '\t' <= c <= '\r' || '\U{1C}' <= c <= '\U{1F}'
  }

  /** Python's `\d` on the ASCII range. */
  predicate IsDigit(c: char) {
    '0' <= c <= '9'
  }

  /** A string that `str.strip()` turns into "" (and `str.split()` into []). */
  predicate IsBlank(s: string) {
    forall i :: 0 <= i < |s| ==> IsSpace(s[i])
  }

  lemma BlankConcat(a: string, b: string)
    ensures IsBlank(a + b) <==> IsBlank(a) && IsBlank(b)
  {
    if IsBlank(a) && IsBlank(b) {
      forall i | 0 <= i < |a + b| ensures IsSpace((a + b)[i]) {
        if i >= |a| { assert (a + b)[i] == b[i - |a|]; }
      }
    }
    if IsBlank(a + b) {
      forall i | 0 <= i < |a| ensures IsSpace(a[i]) {
        assert (a + b)[i] == a[i];
      }
      forall i | 0 <= i < |b| ensures IsSpace(b[i]) {
        assert (a + b)[|a| + i] == b[i];
      }
    }
  }

  /** No two adjacent characters are both whitespace. */
  predicate NoDoubleSpace(s: string) {
    forall i :: 0 <= i < |s| - 1 ==> !(IsSpace(s[i]) && IsSpace(s[i + 1]))
  }

  /** A token of `str.split()`: non-empty and free of whitespace. */
  predicate IsWord(w: string) {
    w != [] && forall i :: 0 <= i < |w| ==> !IsSpace(w[i])
  }

  /** Python slicing `s[:n]`. */
  function Take<T>(s: seq<T>, n: nat): (r: seq<T>)
    ensures |r| == if |s| <= n then |s| else n
    ensures r == s[..|r|]
  {
    if |s| <= n then s else s[..n]
  }

  predicate StartsWith(s: string, prefix: string) {
    |prefix| <= |s| && s[..|prefix|] == prefix
  }

  /** Python's `sub in s` on strings. */
  predicate Contains(s: string, sub: string)
    decreases |s|
  {
    StartsWith(s, sub) || (s != [] && Contains(s[1..], sub))
  }

  // ---------------------------------------------------------------- strip

  /** Number of whitespace characters at the front of `s`. */
  function LeadingSpaces(s: string): (n: nat)
    ensures n <= |s|
    ensures n == |s| || !IsSpace(s[n])
  {
    if s == [] || !IsSpace(s[0]) then 0 else 1 + LeadingSpaces(s[1..])
  }

  /** The leading run is all whitespace. */
  lemma {:induction false} LeadingSpacesAreSpaces(s: string)
    ensures forall i :: 0 <= i < LeadingSpaces(s) ==> IsSpace(s[i])
    decreases |s|
  {
    if s != [] && IsSpace(s[0]) {
      LeadingSpacesAreSpaces(s[1..]);
      assert forall i :: 1 <= i < LeadingSpaces(s) ==> s[i] == s[1..][i - 1];
    }
  }

  /** Number of whitespace characters at the end of `s`. */
  function TrailingSpaces(s: string): (n: nat)
    ensures n <= |s|
    ensures n == |s| || !IsSpace(s[|s| - 1 - n])
  {
    if s == [] || !IsSpace(s[|s| - 1]) then 0 else 1 + TrailingSpaces(s[..|s| - 1])
  }

  /** The trailing run is all whitespace. */
  lemma {:induction false} TrailingSpacesAreSpaces(s: string)
    ensures forall i :: |s| - TrailingSpaces(s) <= i < |s| ==> IsSpace(s[i])
    decreases |s|
  {
    if s != [] && IsSpace(s[|s| - 1]) {
      TrailingSpacesAreSpaces(s[..|s| - 1]);
    }
  }

  function TrimStart(s: string): string {
    s[LeadingSpaces(s)..]
  }

  /** Python's `s.strip()`: `s` without its leading and trailing whitespace. */
  function Strip(s: string): (r: string)
    ensures LeadingSpaces(s) + |r| <= |s|
    ensures r == s[LeadingSpaces(s)..LeadingSpaces(s) + |r|]
    ensures r == [] || (!IsSpace(r[0]) && !IsSpace(r[|r| - 1]))
    ensures r == [] <==> IsBlank(s)
    ensures IsBlank(s[LeadingSpaces(s) + |r|..])
  {
    var t := TrimStart(s);
    LeadingSpacesAreSpaces(s);
    TrailingSpacesAreSpaces(t);
    t[..|t| - TrailingSpaces(t)]
  }

  /** Stripping keeps a run of `s`'s characters, so it keeps any property they all have. */
  lemma StripAvoids(s: string, drop: set<char>)
    requires forall i :: 0 <= i < |s| ==> s[i] !in drop
    ensures forall i :: 0 <= i < |Strip(s)| ==> Strip(s)[i] !in drop
  {
    var r, lead := Strip(s), LeadingSpaces(s);
    forall i | 0 <= i < |r| ensures r[i] !in drop {
      assert r[i] == s[lead + i];
    }
  }

  lemma StripNoDoubleSpace(s: string)
    requires NoDoubleSpace(s)
    ensures NoDoubleSpace(Strip(s))
  {
    var r, lead := Strip(s), LeadingSpaces(s);
    forall i | 0 <= i < |r| - 1 ensures !(IsSpace(r[i]) && IsSpace(r[i + 1])) {
      assert r[i] == s[lead + i] && r[i + 1] == s[lead + i + 1];
    }
  }

  // ---------------------------------------------------------------- lower

  function LowerChar(c: char): char {
    if 'A' <= c <= 'Z' then (c as int + 32) as char else c
  }

  /** Python's `s.lower()` on the ASCII letters. */
  function Lower(s: string): (r: string)
    ensures |r| == |s|
    ensures forall i :: 0 <= i < |s| ==> r[i] == LowerChar(s[i])
  {
    seq(|s|, i requires 0 <= i < |s| => LowerChar(s[i]))
  }

  lemma LowerIdempotent(s: string)
    ensures Lower(Lower(s)) == Lower(s)
  {
  }

  // ---------------------------------------------------------------- split

  /** Position of the first `c` in `s`. */
  function IndexOf(s: string, c: char): (i: nat)
    requires c in s
    ensures i < |s| && s[i] == c && c !in s[..i]
  {
    if s[0] == c then 0 else 1 + IndexOf(s[1..], c)
  }

  /** Python's `s.split(sep)` for a one-character separator. */
  function Split(s: string, sep: char): (parts: seq<string>)
    ensures |parts| >= 1
    ensures forall k :: 0 <= k < |parts| ==> sep !in parts[k]
    decreases |s|
  {
    if sep !in s then [s]
    else
      var i := IndexOf(s, sep);
      [s[..i]] + Split(s[i + 1..], sep)
  }

  /** Python's `sep.join(parts)`. */
  function JoinWith(parts: seq<string>, sep: string): string
    decreases |parts|
  {
    if |parts| == 0 then ""
    else if |parts| == 1 then parts[0]
    else parts[0] + sep + JoinWith(parts[1..], sep)
  }

  lemma JoinWithCons(x: string, rest: seq<string>, sep: string)
    requires rest != []
    ensures JoinWith([x] + rest, sep) == x + sep + JoinWith(rest, sep)
  {
    assert ([x] + rest)[1..] == rest;
  }

  /** Splitting on a separator and joining the pieces with it gives the string back. */
  lemma {:induction false} SplitJoin(s: string, sep: char)
    ensures JoinWith(Split(s, sep), [sep]) == s
    decreases |s|
  {
    if sep in s {
      var i := IndexOf(s, sep);
      var rest := Split(s[i + 1..], sep);
      SplitJoin(s[i + 1..], sep);
      JoinWithCons(s[..i], rest, [sep]);
      assert s == s[..i] + [sep] + s[i + 1..];
    }
  }

  /** The lines of a model response, after stripping it. */
  function Lines(response: string): (lines: seq<string>)
    ensures |lines| >= 1
  {
    Split(Strip(response), '\n')
  }

  /** For a line that holds a colon: everything after the first colon. */
  function AfterColon(line: string): string
    requires ':' in line
  {
    line[IndexOf(line, ':') + 1..]
  }

  /** For a line that holds a colon: everything before the first colon. */
  function BeforeColon(line: string): string
    requires ':' in line
  {
    line[..IndexOf(line, ':')]
  }

  // ---------------------------------------------------------------- words

  /** Length of the run of non-whitespace characters at the front of `s`. */
  function WordLength(s: string): (n: nat)
    ensures n <= |s|
    ensures forall i :: 0 <= i < n ==> !IsSpace(s[i])
    ensures n == |s| || IsSpace(s[n])
  {
    if s == [] || IsSpace(s[0]) then 0 else 1 + WordLength(s[1..])
  }

  /** Python's `s.split()`: the maximal runs of non-whitespace characters, in order. */
  function Words(s: string): (ws: seq<string>)
    ensures forall k :: 0 <= k < |ws| ==> IsWord(ws[k])
    ensures ws == [] <==> IsBlank(s)
    decreases |s|
  {
    var t := TrimStart(s);
    LeadingSpacesAreSpaces(s);
    if t == [] then []
    else
      var n := WordLength(t);
      assert n >= 1;
      [t[..n]] + Words(t[n..])
  }

  lemma WordsSkipsSpace(x: string)
    ensures Words([' '] + x) == Words(x)
  {
    var s := [' '] + x;
    assert s[1..] == x;
    assert TrimStart(s) == TrimStart(x);
  }

  /** A word followed by whitespace (or nothing) is the first word. */
  lemma WordsOfWordThen(w: string, rest: string)
    requires IsWord(w)
    requires rest == [] || IsSpace(rest[0])
    ensures Words(w + rest) == [w] + Words(rest)
  {
    var s := w + rest;
    assert LeadingSpaces(s) == 0 by { assert s[0] == w[0]; }
    assert TrimStart(s) == s;
    WordLengthOfWord(w, rest);
    assert s[..|w|] == w;
    assert s[|w|..] == rest;
  }

  /** Joining words with single spaces and splitting again gives the same words. */
  lemma {:induction false} WordsOfJoin(ws: seq<string>)
    requires forall k :: 0 <= k < |ws| ==> IsWord(ws[k])
    ensures Words(JoinWith(ws, " ")) == ws
    decreases |ws|
  {
    if |ws| == 1 {
      WordsOfWordThen(ws[0], "");
      assert ws[0] + "" == ws[0];
    } else if |ws| > 1 {
      var rest := JoinWith(ws[1..], " ");
      calc {
        Words(JoinWith(ws, " "));
        { assert ws == [ws[0]] + ws[1..];
          JoinWithCons(ws[0], ws[1..], " ");
          assert ws[0] + " " + rest == ws[0] + ([' '] + rest); }
        Words(ws[0] + ([' '] + rest));
        { WordsOfWordThen(ws[0], [' '] + rest); }
        [ws[0]] + Words([' '] + rest);
        { WordsSkipsSpace(rest); }
        [ws[0]] + Words(rest);
        { WordsOfJoin(ws[1..]); }
        [ws[0]] + ws[1..];
      }
    }
  }

  lemma {:induction false} WordLengthOfWord(w: string, rest: string)
    requires forall i :: 0 <= i < |w| ==> !IsSpace(w[i])
    requires rest == [] || IsSpace(rest[0])
    ensures WordLength(w + rest) == |w|
    decreases |w|
  {
    if w != [] {
      assert (w + rest)[1..] == w[1..] + rest;
      WordLengthOfWord(w[1..], rest);
    } else {
      assert w + rest == rest;
    }
  }

  // ---------------------------------------------------------------- re.sub

  /** `re.sub(pattern, '', s)` for a character-class pattern: `s` without the characters in `drop`. */
  function RemoveAll(s: string, drop: set<char>): (r: string)
    ensures |r| <= |s|
    ensures forall i :: 0 <= i < |r| ==> r[i] !in drop && r[i] in s
    decreases |s|
  {
    if s == [] then []
    else (if s[0] in drop then [] else [s[0]]) + RemoveAll(s[1..], drop)
  }

  /** What is left after the removal is blank exactly when every character was whitespace or removed. */
  lemma {:induction false} RemoveAllBlank(s: string, drop: set<char>)
    ensures IsBlank(RemoveAll(s, drop)) <==> forall i :: 0 <= i < |s| ==> IsSpace(s[i]) || s[i] in drop
    decreases |s|
  {
    if s != [] {
      RemoveAllBlank(s[1..], drop);
      var head := if s[0] in drop then [] else [s[0]];
      var tail := RemoveAll(s[1..], drop);
      assert RemoveAll(s, drop) == head + tail;
      BlankConcat(head, tail);
      assert (forall i :: 0 <= i < |s| ==> IsSpace(s[i]) || s[i] in drop) <==>
             (IsSpace(s[0]) || s[0] in drop) && (forall i :: 0 <= i < |s| - 1 ==> IsSpace(s[1..][i]) || s[1..][i] in drop) by {
        assert forall i :: 1 <= i < |s| ==> s[i] == s[1..][i - 1];
      }
    }
  }

  /** Stripping a string that has no whitespace at either end leaves it as it is. */
  lemma StripTrimmed(s: string)
    requires s != [] && !IsSpace(s[0]) && !IsSpace(s[|s| - 1])
    ensures Strip(s) == s
  {
  }

  lemma StripAfterSpace(s: string)
    requires s != [] && !IsSpace(s[0]) && !IsSpace(s[|s| - 1])
    ensures Strip([' '] + s) == s
  {
    var t := [' '] + s;
    assert t[1..] == s;
    assert LeadingSpaces(t) == 1 + LeadingSpaces(s) == 1;
    assert TrimStart(t) == s;
    assert TrailingSpaces(s) == 0;
  }

  lemma {:induction false} ContainsAfter(prefix: string, s: string, sub: string)
    requires StartsWith(s, sub)
    ensures Contains(prefix + s, sub)
    decreases |prefix|
  {
    if prefix != [] {
      assert (prefix + s)[1..] == prefix[1..] + s;
      ContainsAfter(prefix[1..], s, sub);
    } else {
      assert prefix + s == s;
    }
  }

  /** A string contains every string it has as an infix. */
  lemma ContainsInfix(before: string, sub: string, after: string)
    ensures Contains(before + sub + after, sub)
  {
    var s := sub + after;
    assert s[..|sub|] == sub;
    assert before + sub + after == before + s;
    ContainsAfter(before, s, sub);
  }

  /** `re.sub(r'\s+', ' ', s)`: every maximal run of whitespace becomes one space. */
  function CollapseSpaces(s: string): (r: string)
    ensures NoDoubleSpace(r)
    ensures forall i :: 0 <= i < |r| ==> (IsSpace(r[i]) ==> r[i] == ' ') && (r[i] == ' ' || r[i] in s)
    ensures r == [] <==> s == []
    ensures r != [] ==> (IsSpace(r[0]) <==> IsSpace(s[0]))
    ensures IsBlank(r) <==> IsBlank(s)
    decreases |s|
  {
    if s == [] then []
    else if IsSpace(s[0]) then
      var rest := s[LeadingSpaces(s)..];
      var c := CollapseSpaces(rest);
      LeadingSpacesAreSpaces(s);
      assert s == s[..LeadingSpaces(s)] + rest;
      BlankConcat(s[..LeadingSpaces(s)], rest);
      BlankConcat([' '], c);
      assert c != [] ==> !IsSpace(c[0]);
      assert forall i :: 1 <= i < |[' '] + c| ==> ([' '] + c)[i] == c[i - 1];
      [' '] + c
    else
      var c := CollapseSpaces(s[1..]);
      assert forall x :: x in s[1..] ==> x in s;
      assert forall i :: 1 <= i < |[s[0]] + c| ==> ([s[0]] + c)[i] == c[i - 1];
      [s[0]] + c
  }

  // ---------------------------------------------------------------- digits

  /** Length of the run of digits at the front of `s`. */
  function DigitRunLength(s: string): (n: nat)
    ensures n <= |s|
    ensures forall i :: 0 <= i < n ==> IsDigit(s[i])
    ensures n == |s| || !IsDigit(s[n])
  {
    if s == [] || !IsDigit(s[0]) then 0 else 1 + DigitRunLength(s[1..])
  }

  /** Python's `int(d)` for a string of ASCII digits. */
  function DigitsValue(d: string): nat
    requires forall i :: 0 <= i < |d| ==> IsDigit(d[i])
    decreases |d|
  {
    if d == [] then 0
    else
      assert IsDigit(d[|d| - 1]);
      DigitsValue(d[..|d| - 1]) * 10 + (d[|d| - 1] as int - '0' as int)
  }

  /** The maximal digit runs of `s`, in order, as numbers (Python's `re.findall` with `\d+`, each run converted by `int`). */
  function DigitRuns(s: string): seq<nat>
    decreases |s|
  {
    if s == [] then []
    else if !IsDigit(s[0]) then DigitRuns(s[1..])
    else
      var n := DigitRunLength(s);
      [DigitsValue(s[..n])] + DigitRuns(s[n..])
  }

  function DigitChar(d: nat): (c: char)
    requires d < 10
    ensures IsDigit(c) && c as int - '0' as int == d
  {
    ('0' as int + d) as char
  }

  /** Python's `str(n)` for a natural number. */
  function NatToString(n: nat): (s: string)
    ensures s != []
    ensures forall i :: 0 <= i < |s| ==> IsDigit(s[i])
    decreases n
  {
    if n < 10 then [DigitChar(n)] else NatToString(n / 10) + [DigitChar(n % 10)]
  }

  /** `int(str(n)) == n`. */
  lemma {:induction false} NatToStringValue(n: nat)
    ensures DigitsValue(NatToString(n)) == n
    decreases n
  {
    if n >= 10 {
      var s := NatToString(n);
      assert s[..|s| - 1] == NatToString(n / 10);
      NatToStringValue(n / 10);
    }
  }

  lemma {:induction false} DigitRunLengthOfDigits(d: string, rest: string)
    requires forall i :: 0 <= i < |d| ==> IsDigit(d[i])
    requires rest == [] || !IsDigit(rest[0])
    ensures DigitRunLength(d + rest) == |d|
    decreases |d|
  {
    if d != [] {
      assert (d + rest)[1..] == d[1..] + rest;
      DigitRunLengthOfDigits(d[1..], rest);
    } else {
      assert d + rest == rest;
    }
  }

  /** A number printed with `str` and followed by a non-digit is found again by `\d+`. */
  lemma NumberIsFoundAgain(n: nat, rest: string)
    requires rest == [] || !IsDigit(rest[0])
    ensures DigitRuns(NatToString(n) + rest) == [n] + DigitRuns(rest)
  {
    var d := NatToString(n);
    var s := d + rest;
    DigitRunLengthOfDigits(d, rest);
    assert s[..|d|] == d;
    assert s[|d|..] == rest;
    NatToStringValue(n);
  }

  /** Characters that are not digits are skipped by `\d+`. */
  lemma {:induction false} DigitRunsSkip(skipped: string, rest: string)
    requires forall i :: 0 <= i < |skipped| ==> !IsDigit(skipped[i])
    ensures DigitRuns(skipped + rest) == DigitRuns(rest)
    decreases |skipped|
  {
    if skipped != [] {
      assert (skipped + rest)[1..] == skipped[1..] + rest;
      DigitRunsSkip(skipped[1..], rest);
    } else {
      assert skipped + rest == rest;
    }
  }
}
