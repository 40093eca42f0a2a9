/**
 * Python's str operations that the core relies on, over `string` (a sequence of
 * characters): strip, split, splitlines, join, replace, startswith, endswith, `in`,
 * lower, title, int() on digit strings and str() on integers.
 */
module Text {

  /** Python's str.isspace() for one character. */
  predicate IsSpace(c: char) {
    || c == ' ' || c == '\t' || c == '\n' || c == '\r' || c == '\U{B}' || c == '\U{C}'
    || c == '\U{1C}' || c == '\U{1D}' || c == '\U{1E}' || c == '\U{1F}' || c == '\U{85}'
    || c == '\U{A0}' || c == '\U{1680}' || ('\U{2000}' <= c <= '\U{200A}') || c == '\U{2028}'
    || c == '\U{2029}' || c == '\U{202F}' || c == '\U{205F}' || c == '\U{3000}'
  }

  /** The line boundaries of Python's str.splitlines() ("\r\n" counts as one). */
  predicate IsLineBreak(c: char) {
    || c == '\n' || c == '\r' || c == '\U{B}' || c == '\U{C}' || c == '\U{1C}' || c == '\U{1D}'
    || c == '\U{1E}' || c == '\U{85}' || c == '\U{2028}' || c == '\U{2029}'
  }

  predicate IsDigit(c: char) {
    '0' <= c <= '9'
  }

  predicate IsUpper(c: char) {
    'A' <= c <= 'Z'
  }

  predicate IsLower(c: char) {
    'a' <= c <= 'z'
  }

  /** The characters str.title() treats as cased. */
  predicate IsCased(c: char) {
    IsUpper(c) || IsLower(c)
  }

  function LowerChar(c: char): (r: char)
    ensures !IsUpper(r)
    ensures !IsUpper(c) ==> r == c
  {
    if IsUpper(c) then (c as int + 32) as char else c
  }

  function UpperChar(c: char): (r: char)
    ensures !IsLower(r)
    ensures !IsLower(c) ==> r == c
  {
    if IsLower(c) then (c as int - 32) as char else c
  }

  predicate StartsWith(s: string, prefix: string) {
    |prefix| <= |s| && s[..|prefix|] == prefix
  }

  predicate EndsWith(s: string, suffix: string) {
    |suffix| <= |s| && s[|s| - |suffix|..] == suffix
  }

  /** Python's `p in s` for strings. */
  predicate Contains(s: string, p: string)
    decreases |s|
  {
    StartsWith(s, p) || (s != [] && Contains(s[1..], p))
  }

  /** Python's `s[:n]` for n >= 0. */
  function Prefix(s: string, n: nat): (r: string)
    ensures |r| <= n && |r| <= |s| && r == s[..|r|]
    ensures |s| <= n ==> r == s
    ensures n <= |s| ==> |r| == n
  {
    if n <= |s| then s[..n] else s
  }

  /** Python's `s[:n]` on a list, for any integer n (a negative n counts from the end). */
  function SliceTo<T>(s: seq<T>, n: int): (r: seq<T>)
    ensures |r| <= |s| && r == s[..|r|]
    ensures forall i :: 0 <= i < |r| ==> r[i] == s[i]
    ensures n >= 0 ==> |r| == if n <= |s| then n else |s|
  {
    if n >= 0 then (if n <= |s| then s[..n] else s)
    else if -n <= |s| then s[..|s| + n] else []
  }

  /** The number of leading characters satisfying `drop`. */
  function LeadingBy(s: string, drop: char -> bool): (n: nat)
    ensures n <= |s|
    ensures forall i :: 0 <= i < n ==> drop(s[i])
    ensures n < |s| ==> !drop(s[n])
  {
    if s != [] && drop(s[0]) then 1 + LeadingBy(s[1..], drop) else 0
  }

  /** The number of trailing characters satisfying `drop`. */
  function TrailingBy(s: string, drop: char -> bool): (n: nat)
    ensures n <= |s|
    ensures forall i :: |s| - n <= i < |s| ==> drop(s[i])
    ensures n < |s| ==> !drop(s[|s| - 1 - n])
  {
    if s != [] && drop(s[|s| - 1]) then 1 + TrailingBy(s[..|s| - 1], drop) else 0
  }

  /** Removes the characters satisfying `drop` from both ends. */
  function TrimBy(s: string, drop: char -> bool): (r: string)
    ensures r == [] <==> forall i :: 0 <= i < |s| ==> drop(s[i])
    ensures r != [] ==> !drop(r[0]) && !drop(r[|r| - 1])
  {
    var a := LeadingBy(s, drop);
    if a == |s| then []
    else
      var t := TrailingBy(s, drop);
      assert !drop(s[a]);
      s[a..|s| - t]
  }

  /** Python's str.strip(). */
  function Strip(s: string): (r: string)
    ensures r == [] <==> forall i :: 0 <= i < |s| ==> IsSpace(s[i])
    ensures r != [] ==> !IsSpace(r[0]) && !IsSpace(r[|r| - 1])
  {
    TrimBy(s, IsSpace)
  }

  /** Python's str.strip(chars). */
  function StripChars(s: string, chars: set<char>): (r: string)
    ensures r == [] <==> forall i :: 0 <= i < |s| ==> s[i] in chars
    ensures r != [] ==> r[0] !in chars && r[|r| - 1] !in chars
  {
    TrimBy(s, c => c in chars)
  }

  /** Python's str.lstrip(chars). */
  function LStripChars(s: string, chars: set<char>): (r: string)
    ensures |r| <= |s| && r == s[|s| - |r|..]
    ensures r != [] ==> r[0] !in chars
  {
    s[LeadingBy(s, c => c in chars)..]
  }

  /** Python's str.lower(), on the ASCII letters. */
  function Lower(s: string): (r: string)
    ensures |r| == |s|
    ensures forall i :: 0 <= i < |r| ==> r[i] == LowerChar(s[i])
  {
    seq(|s|, i requires 0 <= i < |s| => LowerChar(s[i]))
  }

  /** Python's str.title(), on the ASCII letters: a cased character is upper-cased when
    * the character before it is not cased, and lower-cased otherwise. */
  function Title(s: string): string {
    TitleAfter(s, false)
  }

  function TitleAfter(s: string, prevCased: bool): (r: string)
    ensures |r| == |s|
    decreases |s|
  {
    if s == [] then []
    else
      var c := s[0];
      var t := if !IsCased(c) then c else if prevCased then LowerChar(c) else UpperChar(c);
      [t] + TitleAfter(s[1..], IsCased(c))
  }

  /** The index of the first `c` in `s`, or |s| when there is none. */
  function Find(s: string, c: char): (i: nat)
    ensures i <= |s|
    ensures i < |s| ==> s[i] == c
    ensures forall j :: 0 <= j < i ==> s[j] != c
  {
    if s == [] then 0 else if s[0] == c then 0 else 1 + Find(s[1..], c)
  }

  /** The number of occurrences of `c` in `s`. */
  function Count(s: string, c: char): nat {
    if s == [] then 0 else (if s[0] == c then 1 else 0) + Count(s[1..], c)
  }

  /** Python's s.split(c) for a one-character separator. */
  function Split(s: string, c: char): (parts: seq<string>)
    ensures |parts| >= 1
    decreases |s|
  {
    var i := Find(s, c);
    if i == |s| then [s] else [s[..i]] + Split(s[i + 1..], c)
  }

  /** Python's s.split(c, n): at most n splits, the rest of `s` stays in the last part. */
  function SplitMax(s: string, c: char, n: nat): (parts: seq<string>)
    decreases n
  {
    var i := Find(s, c);
    if n == 0 || i == |s| then [s] else [s[..i]] + SplitMax(s[i + 1..], c, n - 1)
  }

  /** Python's sep.join(parts). */
  function Join(parts: seq<string>, sep: string): string {
    if |parts| == 0 then ""
    else if |parts| == 1 then parts[0]
    else parts[0] + sep + Join(parts[1..], sep)
  }

  /** Python's str.splitlines(): no trailing empty line for a final line break, [] for "". */
  function SplitLines(s: string): (lines: seq<string>)
    decreases |s|
  {
    if s == [] then []
    else
      var i := FindLineBreak(s);
      if i == |s| then [s]
      else
        var j := if s[i] == '\r' && i + 1 < |s| && s[i + 1] == '\n' then i + 2 else i + 1;
        [s[..i]] + SplitLines(s[j..])
  }

  function FindLineBreak(s: string): (i: nat)
    ensures i <= |s|
    ensures i < |s| ==> IsLineBreak(s[i])
    ensures forall j :: 0 <= j < i ==> !IsLineBreak(s[j])
  {
    if s == [] then 0 else if IsLineBreak(s[0]) then 0 else 1 + FindLineBreak(s[1..])
  }

  /** Python's s.replace(pat, rep): left to right, non-overlapping. */
  function ReplaceAll(s: string, pat: string, rep: string): string
    requires pat != []
    decreases |s|
  {
    if |s| < |pat| then s
    else if s[..|pat|] == pat then rep + ReplaceAll(s[|pat|..], pat, rep)
    else [s[0]] + ReplaceAll(s[1..], pat, rep)
  }

  /** The number of leading decimal digits of `s`. */
  function DigitRun(s: string): (n: nat)
    ensures n <= |s|
    ensures forall i :: 0 <= i < n ==> IsDigit(s[i])
    ensures n < |s| ==> !IsDigit(s[n])
  {
    if s != [] && IsDigit(s[0]) then 1 + DigitRun(s[1..]) else 0
  }

  /** Python's int() on a string of ASCII digits. */
  function ParseNat(s: string): nat
    requires forall i :: 0 <= i < |s| ==> IsDigit(s[i])
  {
    if s == [] then 0
    else
      var last := s[|s| - 1];
      assert IsDigit(last);
      10 * ParseNat(s[..|s| - 1]) + (last as int - '0' as int)
  }

  /** Python's str() on a natural number. */
  function NatToString(n: nat): (s: string)
    ensures s != []
    ensures forall i :: 0 <= i < |s| ==> IsDigit(s[i])
  {
    if n < 10 then [('0' as int + n) as char]
    else NatToString(n / 10) + [('0' as int + n % 10) as char]
  }

  /** Python's str() on an integer. */
  function IntToString(n: int): string {
    if n < 0 then "-" + NatToString(-n) else NatToString(n)
  }

  // ---- lemmas ----

  /** Joining a first part and a non-empty rest puts one separator between them. */
  lemma JoinCons(first: string, rest: seq<string>, sep: string)
    requires rest != []
    ensures Join([first] + rest, sep) == first + (sep + Join(rest, sep))
  {
    assert ([first] + rest)[1..] == rest;
  }

  /** Joining the parts of a split with the separator gives back the string. */
  lemma {:induction false} JoinSplit(s: string, c: char)
    ensures Join(Split(s, c), [c]) == s
    decreases |s|
  {
    var i := Find(s, c);
    if i < |s| {
      var rest := s[i + 1..];
      JoinSplit(rest, c);
      JoinSplitStep(s, c, rest);
    }
  }

  /** One step of JoinSplit: the first split point. */
  lemma JoinSplitStep(s: string, c: char, rest: string)
    requires Find(s, c) < |s| && rest == s[Find(s, c) + 1..]
    requires Join(Split(rest, c), [c]) == rest
    ensures Join(Split(s, c), [c]) == s
  {
    var i := Find(s, c);
    var head := s[..i];
    var tail := Split(rest, c);
    assert Split(s, c) == [head] + tail;
    JoinCons(head, tail, [c]);
    assert s == head + ([c] + rest) by {
      assert s == s[..i] + s[i..];
      assert s[i..] == [c] + rest;
    }
  }

  /** Splitting a join of parts that lack the separator gives the parts back. */
  lemma {:induction false} SplitJoin(parts: seq<string>, c: char)
    requires parts != []
    requires forall k :: 0 <= k < |parts| ==> c !in parts[k]
    ensures Split(Join(parts, [c]), c) == parts
    decreases |parts|
  {
    var head := parts[0];
    assert forall j :: 0 <= j < |head| ==> head[j] != c;
    if |parts| == 1 {
      SplitWithoutSeparator(head, c);
    } else {
      var rest := parts[1..];
      SplitJoin(rest, c);
      var s := Join(parts, [c]);
      assert s == head + [c] + Join(rest, [c]);
      assert s[|head|] == c;
      assert Find(s, c) == |head| by {
        FindFirst(s, c, |head|);
      }
      assert s[..|head|] == head;
      assert s[|head| + 1..] == Join(rest, [c]);
    }
  }

  /** The first occurrence: `c` at `i` and nowhere before it. */
  lemma {:induction false} FindFirst(s: string, c: char, i: nat)
    requires i < |s| && s[i] == c && forall j :: 0 <= j < i ==> s[j] != c
    ensures Find(s, c) == i
    decreases i
  {
    if i > 0 {
      FindFirst(s[1..], c, i - 1);
    }
  }

  /** No part of a split contains the separator. */
  lemma {:induction false} SplitPartsLackSeparator(s: string, c: char)
    ensures forall k :: 0 <= k < |Split(s, c)| ==> c !in Split(s, c)[k]
    decreases |s|
  {
    var i := Find(s, c);
    if i < |s| {
      SplitPartsLackSeparator(s[i + 1..], c);
      assert Split(s, c) == [s[..i]] + Split(s[i + 1..], c);
    }
  }

  /** A string without the separator splits into itself alone. */
  lemma SplitWithoutSeparator(s: string, c: char)
    requires c !in s
    ensures Split(s, c) == [s]
  {
    assert forall j :: 0 <= j < |s| ==> s[j] != c;
  }

  /** Past the first `c`, one occurrence fewer remains. */
  lemma {:induction false} CountAfterFind(s: string, c: char)
    requires Find(s, c) < |s|
    ensures Count(s, c) == 1 + Count(s[Find(s, c) + 1..], c)
    decreases |s|
  {
    if s[0] != c {
      CountAfterFind(s[1..], c);
      assert s[1..][Find(s[1..], c) + 1..] == s[Find(s, c) + 1..];
    }
  }

  lemma {:induction false} CountWithoutFind(s: string, c: char)
    requires Find(s, c) == |s|
    ensures Count(s, c) == 0
    decreases |s|
  {
    if s != [] {
      CountWithoutFind(s[1..], c);
    }
  }

  /** s.split(c, n): joining the parts with c gives `s` back. */
  lemma {:induction false} SplitMaxJoin(s: string, c: char, n: nat)
    ensures Join(SplitMax(s, c, n), [c]) == s
    decreases n
  {
    var i := Find(s, c);
    if n > 0 && i < |s| {
      var rest := s[i + 1..];
      SplitMaxJoin(rest, c, n - 1);
      SplitMaxJoinStep(s, c, n, rest);
    } else {
      SplitMaxWhole(s, c, n);
      assert Join([s], [c]) == s;
    }
  }

  /** One step of SplitMaxJoin: the first split point. */
  lemma SplitMaxJoinStep(s: string, c: char, n: nat, rest: string)
    requires n > 0 && Find(s, c) < |s| && rest == s[Find(s, c) + 1..]
    requires Join(SplitMax(rest, c, n - 1), [c]) == rest
    ensures Join(SplitMax(s, c, n), [c]) == s
  {
    var i := Find(s, c);
    var head := s[..i];
    var tail := SplitMax(rest, c, n - 1);
    assert SplitMax(s, c, n) == [head] + tail;
    JoinCons(head, tail, [c]);
    assert s == head + ([c] + rest) by {
      assert s == s[..i] + s[i..];
      assert s[i..] == [c] + rest;
    }
  }

  /** s.split(c, n): every part but the last is free of c. */
  lemma {:induction false} SplitMaxPartsLackSeparator(s: string, c: char, n: nat)
    ensures forall k :: 0 <= k < |SplitMax(s, c, n)| - 1 ==> c !in SplitMax(s, c, n)[k]
    decreases n
  {
    var i := Find(s, c);
    if n > 0 && i < |s| {
      SplitMaxPartsLackSeparator(s[i + 1..], c, n - 1);
      assert SplitMax(s, c, n) == [s[..i]] + SplitMax(s[i + 1..], c, n - 1);
    }
  }

  /** s.split(c, n) makes exactly min(n, Count(s, c)) + 1 parts. */
  lemma {:induction false} SplitMaxCount(s: string, c: char, n: nat)
    ensures Count(s, c) < n ==> |SplitMax(s, c, n)| == Count(s, c) + 1
    ensures Count(s, c) >= n ==> |SplitMax(s, c, n)| == n + 1
    decreases n
  {
    var i := Find(s, c);
    if i == |s| {
      CountWithoutFind(s, c);
      SplitMaxWhole(s, c, n);
    } else if n > 0 {
      SplitMaxCount(s[i + 1..], c, n - 1);
      SplitMaxCountStep(s, c, n);
    } else {
      SplitMaxWhole(s, c, n);
    }
  }

  /** With no separator left, or no split allowed, the string stays whole. */
  lemma SplitMaxWhole(s: string, c: char, n: nat)
    requires Find(s, c) == |s| || n == 0
    ensures SplitMax(s, c, n) == [s]
  {
  }

  /** One more separator found adds one part and one occurrence. */
  lemma SplitMaxCountStep(s: string, c: char, n: nat)
    requires Find(s, c) < |s| && n > 0
    ensures |SplitMax(s, c, n)| == 1 + |SplitMax(s[Find(s, c) + 1..], c, n - 1)|
    ensures Count(s, c) == 1 + Count(s[Find(s, c) + 1..], c)
  {
    CountAfterFind(s, c);
  }

  /** A line produced by splitlines() holds no line break. */
  lemma {:induction false} SplitLinesHaveNoBreaks(s: string)
    ensures forall k, j :: 0 <= k < |SplitLines(s)| && 0 <= j < |SplitLines(s)[k]| ==> !IsLineBreak(SplitLines(s)[k][j])
    decreases |s|
  {
    if s != [] {
      var i := FindLineBreak(s);
      if i == |s| {
        assert SplitLines(s) == [s];
      } else {
        var j := if s[i] == '\r' && i + 1 < |s| && s[i + 1] == '\n' then i + 2 else i + 1;
        var tail := SplitLines(s[j..]);
        SplitLinesHaveNoBreaks(s[j..]);
        var lines := [s[..i]] + tail;
        assert SplitLines(s) == lines;
        forall k, m | 0 <= k < |lines| && 0 <= m < |lines[k]| ensures !IsLineBreak(lines[k][m]) {
          if k == 0 {
            assert lines[0][m] == s[m];
          } else {
            assert lines[k] == tail[k - 1];
          }
        }
      }
    }
  }


  /** str() and int() are inverse on the natural numbers. */
  lemma {:induction false} ParseNatToString(n: nat)
    ensures ParseNat(NatToString(n)) == n
  {
    if n >= 10 {
      ParseNatToString(n / 10);
      var s := NatToString(n);
      assert s[..|s| - 1] == NatToString(n / 10);
    }
  }

  /** When the pattern does not occur, replace() leaves the string alone. */
  lemma {:induction false} ReplaceAbsent(s: string, pat: string, rep: string)
    requires pat != [] && !Contains(s, pat)
    ensures ReplaceAll(s, pat, rep) == s
    decreases |s|
  {
    if |s| >= |pat| {
      assert !StartsWith(s, pat);
      ReplaceAbsent(s[1..], pat, rep);
    }
  }
}
