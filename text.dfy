/**
 * Python `str` operations used by the bot, on strings as sequences of characters:
 * whitespace and line-break classes, `lower`, `startswith`, `in`, `find`, `split(sep)`,
 * `join`, `replace`, `strip`, `lstrip(c)`, `split()` and `splitlines()`.
 */
module TextUtil {
  import opened Wrappers

  /** The characters `str.isspace()` accepts, which `strip()` and `split()` remove. */
  predicate IsSpace(c: char) {
    c == ' ' || ('\t' <= c <= '\r') || ('\U{1c}' <= c <= '\U{1f}') || c == '\U{85}' || c == '\U{a0}'
    || c == '\U{1680}' || ('\U{2000}' <= c <= '\U{200a}') || c == '\U{2028}' || c == '\U{2029}'
    || c == '\U{202f}' || c == '\U{205f}' || c == '\U{3000}'
  }

  /** The line boundaries of `str.splitlines()`. */
  predicate IsLineBreak(c: char) {
    ('\n' <= c <= '\r') || ('\U{1c}' <= c <= '\U{1e}') || c == '\U{85}' || c == '\U{2028}' || c == '\U{2029}'
  }

  predicate IsDigit(c: char) {
    '0' <= c <= '9'
  }

  /** The regex class `\w`, restricted to ASCII. */
  predicate IsWordChar(c: char) {
    ('a' <= c <= 'z') || ('A' <= c <= 'Z') || IsDigit(c) || c == '_'
  }

  predicate NoSpace(s: string) {
    forall i :: 0 <= i < |s| ==> !IsSpace(s[i])
  }

  predicate NoLineBreak(s: string) {
    forall i :: 0 <= i < |s| ==> !IsLineBreak(s[i])
  }

  /** Neither end of `s` is whitespace (what `strip()` guarantees). */
  predicate Stripped(s: string) {
    |s| == 0 || (!IsSpace(s[0]) && !IsSpace(s[|s| - 1]))
  }

  /** Every whitespace character of `s` is a single ' ' between two non-whitespace characters. */
  predicate SingleSpaced(s: string) {
    forall i :: 0 <= i < |s| && IsSpace(s[i]) ==>
      s[i] == ' ' && 0 < i < |s| - 1 && !IsSpace(s[i - 1]) && !IsSpace(s[i + 1])
  }

  /** No two adjacent ' ' characters. */
  predicate NoDoubleSpace(s: string) {
    forall i :: 0 <= i < |s| - 1 ==> !(s[i] == ' ' && s[i + 1] == ' ')
  }

  function LowerChar(c: char): char {
    if 'A' <= c <= 'Z' then (c as int + 32) as char else c
  }

  /** `s.lower()` on ASCII letters; every other character is kept. */
  function Lower(s: string): (r: string)
    ensures |r| == |s|
    ensures forall i :: 0 <= i < |s| ==> r[i] == LowerChar(s[i])
  {
    seq(|s|, i requires 0 <= i < |s| => LowerChar(s[i]))
  }

  predicate StartsWith(s: string, p: string) {
    |p| <= |s| && s[..|p|] == p
  }

  predicate EndsWith(s: string, p: string) {
    |p| <= |s| && s[|s| - |p|..] == p
  }

  predicate OccursAt(s: string, p: string, i: nat) {
    i + |p| <= |s| && s[i..i + |p|] == p
  }

  /** `p in s`. */
  predicate Contains(s: string, p: string) {
    exists i: nat | i <= |s| :: OccursAt(s, p, i)
  }

  lemma SliceOfSlice(s: string, a: nat, b: nat, j: nat, k: nat)
    requires a <= b <= |s| && j <= k <= b - a
    ensures s[a..b][j..k] == s[a + j..a + k]
  {
    assert forall t :: 0 <= t < k - j ==> s[a..b][j..k][t] == s[a + j + t];
  }

  /** An occurrence inside a slice is an occurrence in the whole string. */
  lemma OccursInSlice(s: string, a: nat, b: nat, p: string, j: nat)
    requires a <= b <= |s|
    requires OccursAt(s[a..b], p, j)
    ensures OccursAt(s, p, a + j)
  {
    SliceOfSlice(s, a, b, j, j + |p|);
  }

  /** A slice of a string that does not contain `p` does not contain it either. */
  lemma NotContainsSlice(s: string, a: nat, b: nat, p: string)
    requires a <= b <= |s|
    requires !Contains(s, p)
    ensures !Contains(s[a..b], p)
  {
    if Contains(s[a..b], p) {
      var j: nat :| j <= |s[a..b]| && OccursAt(s[a..b], p, j);
      OccursInSlice(s, a, b, p, j);
    }
  }

  /** Occurrences in `s[1..]` are the occurrences in `s` after its first position, shifted by one. */
  lemma OccursShift(s: string, p: string)
    requires |s| > 0
    ensures forall j: nat :: OccursAt(s, p, j + 1) <==> OccursAt(s[1..], p, j)
  {
    forall j: nat ensures OccursAt(s, p, j + 1) <==> OccursAt(s[1..], p, j) {
      if OccursAt(s, p, j + 1) {
        SliceOfSlice(s, 1, |s|, j, j + |p|);
      }
      if OccursAt(s[1..], p, j) {
        assert s[1..] == s[1..|s|];
        OccursInSlice(s, 1, |s|, p, j);
      }
    }
  }

  /** `s.find(p)` as an option: the leftmost occurrence of `p` in `s`. */
  function Find(s: string, p: string): (r: Option<nat>)
    ensures r.Some? ==> OccursAt(s, p, r.value) && forall j: nat :: j < r.value ==> !OccursAt(s, p, j)
    ensures r.None? <==> !Contains(s, p)
    decreases |s|
  {
    if |s| < |p| then None
    else if s[..|p|] == p then (assert OccursAt(s, p, 0); Some(0))
    else
      var rest := Find(s[1..], p);
      OccursShift(s, p);
      match rest
      case None =>
        assert forall j: nat :: !OccursAt(s, p, j) by {
          forall j: nat ensures !OccursAt(s, p, j) {
            if j > 0 { assert !OccursAt(s[1..], p, j - 1); }
          }
        }
        None
      case Some(k) =>
        assert forall j: nat :: j < k + 1 ==> !OccursAt(s, p, j) by {
          forall j: nat | j < k + 1 ensures !OccursAt(s, p, j) {
            if j > 0 { assert !OccursAt(s[1..], p, j - 1); }
          }
        }
        Some(k + 1)
  }

  /** `s.split(sep)` for a non-empty separator: the pieces between the leftmost occurrences. */
  function Split(s: string, sep: string): (r: seq<string>)
    requires |sep| > 0
    ensures |r| >= 1
    ensures forall k :: 0 <= k < |r| ==> !Contains(r[k], sep)
    decreases |s|
  {
    match Find(s, sep)
    case None => [s]
    case Some(i) =>
      assert !Contains(s[..i], sep) by {
        if Contains(s[..i], sep) {
          var j: nat :| j <= i && OccursAt(s[..i], sep, j);
          OccursInSlice(s, 0, i, sep, j);
        }
      }
      [s[..i]] + Split(s[i + |sep|..], sep)
  }

  /** `sep.join(parts)`. */
  function Join(parts: seq<string>, sep: string): string
    decreases |parts|
  {
    if |parts| == 0 then ""
    else if |parts| == 1 then parts[0]
    else parts[0] + sep + Join(parts[1..], sep)
  }

  /** Splitting and joining again with the same separator gives back the string. */
  lemma {:induction false} JoinSplit(s: string, sep: string)
    requires |sep| > 0
    ensures Join(Split(s, sep), sep) == s
    decreases |s|
  {
    var f := Find(s, sep);
    if f.Some? {
      var i := f.value;
      var rest := s[i + |sep|..];
      var tail := Split(rest, sep);
      JoinSplit(rest, sep);
      assert Split(s, sep) == [s[..i]] + tail;
      assert Join([s[..i]] + tail, sep) == s[..i] + sep + Join(tail, sep);
      assert s[i..i + |sep|] == sep;
      assert s == s[..i] + s[i..i + |sep|] + rest;
    }
  }

  /** Splitting at a one-character separator that the head does not contain. */
  lemma SplitAtChar(a: string, c: char, rest: string)
    requires c !in a
    ensures Split(a + [c] + rest, [c]) == [a] + Split(rest, [c])
  {
    var s := a + [c] + rest;
    assert OccursAt(s, [c], |a|);
    var f := Find(s, [c]);
    assert forall j :: 0 <= j < |a| ==> !OccursAt(s, [c], j) by {
      forall j | 0 <= j < |a| ensures !OccursAt(s, [c], j) {
        assert s[j] == a[j];
      }
    }
    assert f == Some(|a|);
    assert s[..|a|] == a;
    assert s[|a| + 1..] == rest;
  }

  /** `s.replace(target, with)` for a non-empty `target`, which Python defines by split and join. */
  function Replace(s: string, target: string, with: string): string
    requires |target| > 0
  {
    Join(Split(s, target), with)
  }

  /** Replacing a substring that does not occur leaves the string as it is. */
  lemma ReplaceAbsent(s: string, target: string, with: string)
    requires |target| > 0 && !Contains(s, target)
    ensures Replace(s, target, with) == s
  {
  }

  function LeadingSpaces(s: string): (n: nat)
    ensures n <= |s|
    ensures forall i :: 0 <= i < n ==> IsSpace(s[i])
    ensures n == |s| || !IsSpace(s[n])
    decreases |s|
  {
    if |s| > 0 && IsSpace(s[0]) then 1 + LeadingSpaces(s[1..]) else 0
  }

  function TrailingSpaces(s: string): (n: nat)
    ensures n <= |s|
    ensures forall i :: |s| - n <= i < |s| ==> IsSpace(s[i])
    ensures n == |s| || !IsSpace(s[|s| - 1 - n])
    decreases |s|
  {
    if |s| > 0 && IsSpace(s[|s| - 1]) then 1 + TrailingSpaces(s[..|s| - 1]) else 0
  }

  /** `s.strip()`: the slice left after removing whitespace from both ends. */
  function Strip(s: string): (r: string)
    ensures Stripped(r)
  {
    var a := LeadingSpaces(s);
    var t := s[a..];
    t[..|t| - TrailingSpaces(t)]
  }

  /** `strip()` leaves a string without surrounding whitespace as it is. */
  lemma StripStripped(s: string)
    requires Stripped(s)
    ensures Strip(s) == s
  {
    assert LeadingSpaces(s) == 0;
    assert s[0..] == s;
    assert TrailingSpaces(s) == 0;
  }

  /** What `strip()` keeps is a contiguous slice of the input. */
  lemma StripIsSlice(s: string) returns (a: nat, b: nat)
    ensures a <= b <= |s| && Strip(s) == s[a..b]
  {
    a := LeadingSpaces(s);
    var t := s[a..];
    b := a + |t| - TrailingSpaces(t);
    assert t[..|t| - TrailingSpaces(t)] == s[a..b];
  }

  /** A stripped slice of a string without `p` has no `p` either. */
  lemma StripNotContains(s: string, p: string)
    requires !Contains(s, p)
    ensures !Contains(Strip(s), p)
  {
    var a, b := StripIsSlice(s);
    NotContainsSlice(s, a, b, p);
  }

  /** `s.lstrip(c)` for one character. */
  function LStripChar(s: string, c: char): (r: string)
    ensures |r| <= |s| && r == s[|s| - |r|..]
    ensures forall i :: 0 <= i < |s| - |r| ==> s[i] == c
    ensures |r| == 0 || r[0] != c
    decreases |s|
  {
    if |s| > 0 && s[0] == c then LStripChar(s[1..], c) else s
  }

  function TokenLength(s: string): (k: nat)
    requires |s| > 0 && !IsSpace(s[0])
    ensures 1 <= k <= |s|
    ensures forall i :: 0 <= i < k ==> !IsSpace(s[i])
    ensures k == |s| || IsSpace(s[k])
    decreases |s|
  {
    if |s| == 1 || IsSpace(s[1]) then 1 else 1 + TokenLength(s[1..])
  }

  /** `s.split()` with no argument: the maximal runs of non-whitespace characters. */
  function Words(s: string): (r: seq<string>)
    ensures forall k :: 0 <= k < |r| ==> |r[k]| > 0 && NoSpace(r[k])
    decreases |s|
  {
    if |s| == 0 then []
    else if IsSpace(s[0]) then Words(s[1..])
    else
      var k := TokenLength(s);
      [s[..k]] + Words(s[k..])
  }

  lemma OccursInSuffix(s: string, d: nat, p: string, i: nat)
    requires d <= i && OccursAt(s, p, i)
    ensures OccursAt(s[d..], p, i - d)
  {
    SliceOfSlice(s, d, |s|, i - d, i - d + |p|);
    assert s[d..] == s[d..|s|];
  }

  /**
   * A non-empty text without whitespace that occurs in `s` lies inside one word of `s`,
   * so `s.split()` has a word containing it; `k` is that word's index.
   */
  lemma {:induction false} ContainedInSomeWord(s: string, p: string, i: nat) returns (k: nat)
    requires |p| > 0 && NoSpace(p) && OccursAt(s, p, i)
    ensures k < |Words(s)| && Contains(Words(s)[k], p)
    decreases |s|
  {
    assert s[i..i + |p|][0] == p[0];
    if IsSpace(s[0]) {
      OccursInSuffix(s, 1, p, i);
      k := ContainedInSomeWord(s[1..], p, i - 1);
    } else {
      var n := TokenLength(s);
      if i + |p| <= n {
        SliceOfSlice(s, 0, n, i, i + |p|);
        assert s[..n] == s[0..n];
        assert OccursAt(s[..n], p, i);
        k := 0;
      } else {
        OccursInSuffix(s, n, p, i);
        var k' := ContainedInSomeWord(s[n..], p, i - n);
        k := k' + 1;
        assert Words(s)[k] == Words(s[n..])[k'];
      }
    }
  }

  lemma JoinHead(ws: seq<string>, sep: string)
    requires |ws| > 0 && |ws[0]| > 0
    ensures |Join(ws, sep)| > 0 && Join(ws, sep)[0] == ws[0][0]
  {
  }

  /** Joining non-empty words without whitespace by single spaces gives a single-spaced text. */
  lemma {:induction false} JoinWordsSingleSpaced(ws: seq<string>)
    requires forall k :: 0 <= k < |ws| ==> |ws[k]| > 0 && NoSpace(ws[k])
    ensures SingleSpaced(Join(ws, " "))
    decreases |ws|
  {
    if |ws| == 1 {
      assert Join(ws, " ") == ws[0];
    } else if |ws| > 1 {
      var w := ws[0];
      var rest := Join(ws[1..], " ");
      JoinWordsSingleSpaced(ws[1..]);
      JoinHead(ws[1..], " ");
      var r := w + " " + rest;
      assert Join(ws, " ") == r;
      forall i | 0 <= i < |r| && IsSpace(r[i])
        ensures r[i] == ' ' && 0 < i < |r| - 1 && !IsSpace(r[i - 1]) && !IsSpace(r[i + 1])
      {
        if i == |w| {
          assert r[i - 1] == w[|w| - 1];
          assert r[i + 1] == rest[0];
        } else {
          var t := i - |w| - 1;
          assert r[i] == rest[t];
          assert 0 < t < |rest| - 1;
          assert r[i - 1] == rest[t - 1];
          assert r[i + 1] == rest[t + 1];
        }
      }
    }
  }

  /** `" ".join(s.split())`: whitespace runs collapsed to one space, both ends trimmed. */
  function NormalizeSpaces(s: string): (r: string)
    ensures SingleSpaced(r) && Stripped(r)
  {
    JoinWordsSingleSpaced(Words(s));
    Join(Words(s), " ")
  }

  /** Index of the first line break in `s`, or `|s|`. */
  function BreakIndex(s: string): (n: nat)
    ensures n <= |s| && (n == |s| || IsLineBreak(s[n]))
    ensures forall i :: 0 <= i < n ==> !IsLineBreak(s[i])
    decreases |s|
  {
    if |s| == 0 || IsLineBreak(s[0]) then 0 else 1 + BreakIndex(s[1..])
  }

  /**
   * The pieces of `s` between line-break characters. `str.splitlines()` treats "\r\n" as one
   * break and drops a last empty line; the only caller strips and drops empty pieces, for
   * which the two agree.
   */
  function Lines(s: string): (r: seq<string>)
    ensures forall k :: 0 <= k < |r| ==> NoLineBreak(r[k])
    decreases |s|
  {
    var n := BreakIndex(s);
    if n == |s| then [s] else [s[..n]] + Lines(s[n + 1..])
  }

  /** Every character of `s` satisfies `p`. */
  predicate AllChars(s: string, p: char -> bool) {
    forall i :: 0 <= i < |s| ==> p(s[i])
  }

  /** The pieces of a split keep a property every character of the input has. */
  lemma {:induction false} SplitKeepsChars(s: string, sep: string, p: char -> bool)
    requires |sep| > 0 && AllChars(s, p)
    ensures forall k :: 0 <= k < |Split(s, sep)| ==> AllChars(Split(s, sep)[k], p)
    decreases |s|
  {
    match Find(s, sep)
    case None =>
    case Some(i) =>
      var rest := s[i + |sep|..];
      assert AllChars(s[..i], p) by {
        forall j | 0 <= j < i ensures p(s[..i][j]) {
          assert s[..i][j] == s[j];
        }
      }
      assert AllChars(rest, p) by {
        forall j | 0 <= j < |rest| ensures p(rest[j]) {
          assert rest[j] == s[i + |sep| + j];
        }
      }
      SplitKeepsChars(rest, sep, p);
      var tail := Split(rest, sep);
      assert Split(s, sep) == [s[..i]] + tail;
      forall k | 0 <= k < |Split(s, sep)| ensures AllChars(Split(s, sep)[k], p) {
        if k > 0 {
          assert Split(s, sep)[k] == tail[k - 1];
        }
      }
  }

  lemma StripKeepsChars(s: string, p: char -> bool)
    requires AllChars(s, p)
    ensures AllChars(Strip(s), p)
  {
    var a, b := StripIsSlice(s);
    assert forall i :: 0 <= i < b - a ==> Strip(s)[i] == s[a + i];
  }

  lemma {:induction false} JoinKeepsChars(parts: seq<string>, sep: string, p: char -> bool)
    requires AllChars(sep, p)
    requires forall k :: 0 <= k < |parts| ==> AllChars(parts[k], p)
    ensures AllChars(Join(parts, sep), p)
    decreases |parts|
  {
    if |parts| > 1 {
      JoinKeepsChars(parts[1..], sep, p);
      var r := Join(parts, sep);
      var h := parts[0] + sep;
      assert r == h + Join(parts[1..], sep);
      forall i | 0 <= i < |r| ensures p(r[i]) {
        if i < |parts[0]| {
          assert r[i] == parts[0][i];
        } else if i < |h| {
          assert r[i] == sep[i - |parts[0]|];
        } else {
          assert r[i] == Join(parts[1..], sep)[i - |h|];
        }
      }
    }
  }

  /** A string without the substring "  " has no two adjacent spaces. */
  lemma NoDoubleSpaceOf(s: string)
    requires !Contains(s, "  ")
    ensures NoDoubleSpace(s)
  {
    forall i | 0 <= i < |s| - 1
      ensures !(s[i] == ' ' && s[i + 1] == ' ')
    {
      assert !OccursAt(s, "  ", i);
      assert s[i..i + 2] == [s[i], s[i + 1]];
    }
  }

  /** Non-empty stripped pieces without double spaces, joined by one space, have no double space either. */
  lemma {:induction false} JoinNoDoubleSpace(parts: seq<string>)
    requires forall k :: 0 <= k < |parts| ==> |parts[k]| > 0 && Stripped(parts[k]) && NoDoubleSpace(parts[k])
    ensures NoDoubleSpace(Join(parts, " "))
    ensures Stripped(Join(parts, " "))
    decreases |parts|
  {
    if |parts| > 1 {
      var rest := Join(parts[1..], " ");
      JoinNoDoubleSpace(parts[1..]);
      JoinHead(parts[1..], " ");
      var w := parts[0];
      var r := Join(parts, " ");
      assert r == w + " " + rest;
      forall i | 0 <= i < |r| - 1
        ensures !(r[i] == ' ' && r[i + 1] == ' ')
      {
        if i < |w| - 1 {
          assert r[i] == w[i] && r[i + 1] == w[i + 1];
        } else if i == |w| - 1 {
          assert r[i] == w[|w| - 1];
        } else if i == |w| {
          assert r[i + 1] == rest[0];
        } else {
          assert r[i] == rest[i - |w| - 1] && r[i + 1] == rest[i - |w|];
        }
      }
      assert r[0] == w[0];
      assert r[|r| - 1] == rest[|rest| - 1];
    }
  }

  /** A join starts with whatever its first part starts with. */
  lemma JoinStartsWithFirst(parts: seq<string>, sep: string, p: string)
    requires |parts| > 0 && StartsWith(parts[0], p)
    ensures StartsWith(Join(parts, sep), p)
  {
    if |parts| > 1 {
      var r := Join(parts, sep);
      assert r == parts[0] + (sep + Join(parts[1..], sep));
      assert r[..|p|] == parts[0][..|p|];
    }
  }

  /** With a non-empty separator, a join is empty only when it joins nothing or one empty part. */
  lemma JoinEmpty(parts: seq<string>, sep: string)
    requires |sep| > 0
    ensures Join(parts, sep) == "" <==> |parts| == 0 || (|parts| == 1 && parts[0] == "")
  {
    if |parts| > 1 {
      assert |Join(parts, sep)| >= |sep|;
    }
  }

  /** Length of the run of characters satisfying `p` that starts at index `i`. */
  function RunLength(s: string, i: nat, p: char -> bool): (n: nat)
    requires i <= |s|
    ensures i + n <= |s|
    ensures forall j :: i <= j < i + n ==> p(s[j])
    ensures i + n == |s| || !p(s[i + n])
    decreases |s| - i
  {
    if i < |s| && p(s[i]) then 1 + RunLength(s, i + 1, p) else 0
  }

  /** The least index in `from..last` (inclusive) that satisfies `p`, as a leftmost regex search scans. */
  function FirstWhere(from: nat, last: nat, p: nat -> bool): (r: Option<nat>)
    ensures r.Some? ==> from <= r.value <= last && p(r.value)
    ensures r.Some? ==> forall j :: from <= j < r.value ==> !p(j)
    ensures r.None? ==> forall j :: from <= j <= last ==> !p(j)
    decreases last - from + 1
  {
    if from > last then None
    else if p(from) then Some(from)
    else FirstWhere(from + 1, last, p)
  }
}
