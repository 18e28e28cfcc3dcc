/**
 * The handful of Python `str` operations the client code relies on:
 * `strip`/`lstrip`/`rstrip`, `startswith`, `in`, `split(sep)`, `splitlines`,
 * `lower`, `"".join` and `str(int)`. Only `"\n"` is a line boundary and only the
 * ASCII characters Python's `isspace` accepts count as white space.
 */
module Text {

  import opened Wrappers

  /** The ASCII characters for which Python's `str.isspace` holds. */
  predicate IsSpace(c: char)
  {
    c == ' ' || c == '\t' || c == '\n' || c == '\r' || c == '\U{0B}' || c == '\U{0C}'
    || c == '\U{1C}' || c == '\U{1D}' || c == '\U{1E}' || c == '\U{1F}'
  }

  /** `s.lstrip()`: drops the leading white space and nothing else. */
  function Lstrip(s: string): (r: string)
    ensures |r| <= |s| && r == s[|s| - |r|..]
    ensures r == [] || !IsSpace(r[0])
    ensures forall i :: 0 <= i < |s| - |r| ==> IsSpace(s[i])
  {
    if |s| > 0 && IsSpace(s[0]) then Lstrip(s[1..]) else s
  }

  /** `s.rstrip()`: drops the trailing white space and nothing else. */
  function Rstrip(s: string): (r: string)
    ensures |r| <= |s| && r == s[..|r|]
    ensures r == [] || !IsSpace(r[|r| - 1])
    ensures forall i :: |r| <= i < |s| ==> IsSpace(s[i])
  {
    if |s| > 0 && IsSpace(s[|s| - 1]) then Rstrip(s[..|s| - 1]) else s
  }

  /** `s.strip()`: white space at neither end. */
  function Strip(s: string): (r: string)
    ensures r == [] || (!IsSpace(r[0]) && !IsSpace(r[|r| - 1]))
  {
    Lstrip(Rstrip(s))
  }

  /** `len(s) - len(s.lstrip())`: the number of leading white-space characters. */
  function Indent(s: string): (n: nat)
    ensures n <= |s|
    ensures forall i :: 0 <= i < n ==> IsSpace(s[i])
    ensures n < |s| ==> !IsSpace(s[n])
  {
    |s| - |Lstrip(s)|
  }

  /** `s.startswith(p)`. */
  predicate StartsWith(s: string, p: string)
  {
    |p| <= |s| && s[..|p|] == p
  }

  /** True when `p` occurs in `s` at position `i`. */
  predicate OccursAt(s: string, p: string, i: nat)
  {
    i + |p| <= |s| && s[i..i + |p|] == p
  }

  /** The first position at or after `from` where `p` occurs in `s` (`s.find(p, from)`). */
  function IndexFrom(s: string, p: string, from: nat): (r: Option<nat>)
    requires from <= |s|
    ensures r.Some? ==> from <= r.value && OccursAt(s, p, r.value)
    ensures forall i :: from <= i && (r.None? || i < r.value) ==> !OccursAt(s, p, i)
    decreases |s| - from
  {
    if OccursAt(s, p, from) then Some(from)
    else if from == |s| then None
    else IndexFrom(s, p, from + 1)
  }

  /** The first occurrence of `p` in `s`, if any (`s.find(p)`). */
  function IndexOf(s: string, p: string): (r: Option<nat>)
    ensures r.Some? ==> OccursAt(s, p, r.value)
    ensures forall i: nat :: (r.None? || i < r.value) ==> !OccursAt(s, p, i)
  {
    IndexFrom(s, p, 0)
  }

  /** `p in s`. */
  predicate Contains(s: string, p: string)
  {
    IndexOf(s, p).Some?
  }

  /** `s.split(sep)` for a non-empty separator. */
  function Split(s: string, sep: string): (r: seq<string>)
    requires sep != []
    ensures |r| >= 1
    ensures IndexOf(s, sep).None? ==> r == [s]
    ensures IndexOf(s, sep).Some? ==> |r| >= 2 && r[0] == s[..IndexOf(s, sep).value]
    decreases |s|
  {
    match IndexOf(s, sep)
    case None => [s]
    case Some(i) => [s[..i]] + Split(s[i + |sep|..], sep)
  }

  /** `sep.join(parts)`. */
  function JoinWith(parts: seq<string>, sep: string): string
  {
    if parts == [] then [] else if |parts| == 1 then parts[0] else parts[0] + sep + JoinWith(parts[1..], sep)
  }

  /** Joining the pieces of a split with the separator gives back the text. */
  lemma {:induction false} SplitJoin(s: string, sep: string)
    requires sep != []
    ensures JoinWith(Split(s, sep), sep) == s
    decreases |s|
  {
    match IndexOf(s, sep)
    case None =>
    case Some(i) =>
      var rest := s[i + |sep|..];
      SplitJoin(rest, sep);
      JoinCons(s[..i], Split(rest, sep), sep);
      AroundOccurrence(s, sep, i);
  }

  /** No piece of a split holds the separator. */
  lemma {:induction false} SplitNoSep(s: string, sep: string)
    requires sep != []
    ensures forall k :: 0 <= k < |Split(s, sep)| ==> !Contains(Split(s, sep)[k], sep)
    decreases |s|
  {
    match IndexOf(s, sep)
    case None =>
    case Some(i) =>
      var parts, later := Split(s, sep), Split(s[i + |sep|..], sep);
      assert parts == [s[..i]] + later;
      SplitNoSep(s[i + |sep|..], sep);
      forall k | 0 <= k < |parts|
        ensures !Contains(parts[k], sep)
      {
        if k == 0 {
          BeforeFirst(s, sep, i);
        } else {
          assert parts[k] == later[k - 1];
        }
      }
  }

  /** What comes before the first occurrence of `p` holds no occurrence of `p`. */
  lemma BeforeFirst(s: string, p: string, i: nat)
    requires p != [] && IndexOf(s, p) == Some(i)
    ensures !Contains(s[..i], p)
  {
    if Contains(s[..i], p) {
      var j := IndexOf(s[..i], p).value;
      assert s[..i][j..j + |p|] == s[j..j + |p|];
      assert OccursAt(s, p, j) && j < i;
      assert false;
    }
  }

  /** Holding the one-character text `[c]` is holding the character `c`. */
  lemma ContainsChar(s: string, c: char)
    ensures Contains(s, [c]) <==> c in s
  {
    if c in s {
      var i :| 0 <= i < |s| && s[i] == c;
      assert s[i..i + 1] == [c];
      assert OccursAt(s, [c], i);
    }
    if Contains(s, [c]) {
      var i := IndexOf(s, [c]).value;
      assert s[i] == s[i..i + 1][0];
    }
  }

  /** No piece of a split at a single character holds that character. */
  lemma SplitNoChar(s: string, c: char)
    ensures forall k :: 0 <= k < |Split(s, [c])| ==> c !in Split(s, [c])[k]
  {
    SplitNoSep(s, [c]);
    forall k | 0 <= k < |Split(s, [c])|
      ensures c !in Split(s, [c])[k]
    {
      ContainsChar(Split(s, [c])[k], c);
    }
  }

  /** Joining a part in front of other parts puts the separator between them. */
  lemma JoinCons(a: string, parts: seq<string>, sep: string)
    requires parts != []
    ensures JoinWith([a] + parts, sep) == a + sep + JoinWith(parts, sep)
  {
    assert ([a] + parts)[1..] == parts;
  }

  /** A text is what comes before an occurrence of `p`, then `p`, then what follows. */
  lemma AroundOccurrence(s: string, p: string, i: nat)
    requires OccursAt(s, p, i)
    ensures s == s[..i] + p + s[i + |p|..]
  {
    assert s == s[..i] + s[i..i + |p|] + s[i + |p|..];
  }

  /** The length of the first line of `s`, its `"\n"` included. */
  function LineLen(s: string): (n: nat)
    requires s != []
    ensures 0 < n <= |s|
    ensures forall i :: 0 <= i < n - 1 ==> s[i] != '\n'
    ensures n < |s| ==> s[n - 1] == '\n'
  {
    if s[0] == '\n' || |s| == 1 then 1 else 1 + LineLen(s[1..])
  }

  /** A line as `splitlines(keepends=True)` yields it: non-empty, with `"\n"` at most at its end. */
  predicate IsLine(l: string)
  {
    l != [] && forall i :: 0 <= i < |l| - 1 ==> l[i] != '\n'
  }

  /** `s.splitlines(keepends=True)`. */
  function SplitLinesKeep(s: string): (r: seq<string>)
    ensures forall k :: 0 <= k < |r| ==> IsLine(r[k])
    ensures forall k :: 0 <= k < |r| - 1 ==> r[k] != [] && r[k][|r[k]| - 1] == '\n'
    decreases |s|
  {
    if s == [] then [] else [s[..LineLen(s)]] + SplitLinesKeep(s[LineLen(s)..])
  }

  /** The lines `splitlines(keepends=True)` cuts, put back together, are the text. */
  lemma {:induction false} SplitLinesKeepJoin(s: string)
    ensures Join(SplitLinesKeep(s)) == s
    decreases |s|
  {
    if s != [] {
      var n := LineLen(s);
      var rest := SplitLinesKeep(s[n..]);
      SplitLinesKeepJoin(s[n..]);
      assert ([s[..n]] + rest)[1..] == rest;
      assert s == s[..n] + s[n..];
    }
  }

  /** A line without its trailing `"\n"`. */
  function StripEnd(l: string): (r: string)
    ensures r == (if l != [] && l[|l| - 1] == '\n' then l[..|l| - 1] else l)
  {
    if l != [] && l[|l| - 1] == '\n' then l[..|l| - 1] else l
  }

  /** `s.splitlines()`. */
  function SplitLines(s: string): (r: seq<string>)
    ensures |r| == |SplitLinesKeep(s)|
    ensures forall k :: 0 <= k < |r| ==> r[k] == StripEnd(SplitLinesKeep(s)[k])
  {
    var ls := SplitLinesKeep(s);
    seq(|ls|, k requires 0 <= k < |ls| => StripEnd(ls[k]))
  }

  /** `s.splitlines()` is the first line without its end, then the lines after it. */
  lemma SplitLinesCons(s: string)
    requires s != []
    ensures SplitLines(s) == [StripEnd(s[..LineLen(s)])] + SplitLines(s[LineLen(s)..])
  {
    var n := LineLen(s);
    var keep := SplitLinesKeep(s);
    var later := SplitLinesKeep(s[n..]);
    assert keep == [s[..n]] + later;
    var lhs := SplitLines(s);
    var rhs := [StripEnd(s[..n])] + SplitLines(s[n..]);
    assert |lhs| == |rhs|;
    forall k | 0 <= k < |lhs|
      ensures lhs[k] == rhs[k]
    {
      if k > 0 {
        assert keep[k] == later[k - 1];
      }
    }
  }

  /**
   * `"\n".join(s.splitlines())` gives back `s` when `s` does not end in a line
   * break (the last line break is the only thing `splitlines` loses).
   */
  lemma {:induction false} SplitLinesJoin(s: string)
    requires s == [] || s[|s| - 1] != '\n'
    ensures JoinWith(SplitLines(s), "\n") == s
    decreases |s|
  {
    if s != [] {
      var n := LineLen(s);
      SplitLinesCons(s);
      if n == |s| {
        assert s[n..] == [] && s[..n] == s;
        assert SplitLines(s) == [s];
      } else {
        assert s[n..][|s[n..]| - 1] == s[|s| - 1];
        SplitLinesJoin(s[n..]);
        JoinAfterBreak(s[..n], s[n..], SplitLines(s[n..]));
        assert s[..n] + s[n..] == s;
      }
    }
  }

  /** A line ending in a line break, joined with `"\n"` in front of lines that join into `rest`. */
  lemma JoinAfterBreak(line: string, rest: string, parts: seq<string>)
    requires line != [] && line[|line| - 1] == '\n'
    requires parts != [] && JoinWith(parts, "\n") == rest
    ensures JoinWith([StripEnd(line)] + parts, "\n") == line + rest
  {
    JoinCons(StripEnd(line), parts, "\n");
    assert line == line[..|line| - 1] + "\n";
  }

  /** The total length of a list of strings. */
  function LenSum(ls: seq<string>): nat
  {
    if ls == [] then 0 else LenSum(ls[..|ls| - 1]) + |ls[|ls| - 1]|
  }

  /** `"".join(ls)`. */
  function Join(ls: seq<string>): string
  {
    if ls == [] then [] else ls[0] + Join(ls[1..])
  }

  /** Splitting keeps every character: the lines weigh as much as the text. */
  lemma {:induction false} LenSumSplitLinesKeep(s: string)
    ensures LenSum(SplitLinesKeep(s)) == |s|
    decreases |s|
  {
    if s != [] {
      var n := LineLen(s);
      LenSumSplitLinesKeep(s[n..]);
      LenSumTail(SplitLinesKeep(s));
      assert SplitLinesKeep(s)[1..] == SplitLinesKeep(s[n..]);
    }
  }

  /** A line that ends in `"\n"` splits off on its own in front of whatever follows it. */
  lemma SplitLinesKeepCons(l: string, rest: string)
    requires IsLine(l) && l[|l| - 1] == '\n'
    ensures SplitLinesKeep(l + rest) == [l] + SplitLinesKeep(rest)
  {
    var s := l + rest;
    assert s[..|l|] == l && s[|l|..] == rest;
    LineLenOfLine(l, rest);
  }

  lemma {:induction false} LineLenOfLine(l: string, rest: string)
    requires IsLine(l) && l[|l| - 1] == '\n'
    ensures LineLen(l + rest) == |l|
    decreases |l|
  {
    var s := l + rest;
    if |l| > 1 {
      assert s[0] == l[0] != '\n';
      assert s[1..] == l[1..] + rest;
      LineLenOfLine(l[1..], rest);
    }
  }

  /** `lenSum` grows by one line at a time. */
  lemma LenSumPrefix(ls: seq<string>, i: nat)
    requires i < |ls|
    ensures LenSum(ls[..i + 1]) == LenSum(ls[..i]) + |ls[i]|
  {
    assert ls[..i + 1][..i] == ls[..i];
  }

  /** Prefixes never weigh more than the whole list. */
  lemma {:induction false} LenSumPrefixBound(ls: seq<string>, i: nat)
    requires i <= |ls|
    ensures LenSum(ls[..i]) <= LenSum(ls)
    decreases |ls| - i
  {
    if i < |ls| {
      LenSumPrefix(ls, i);
      LenSumPrefixBound(ls, i + 1);
      assert ls[..|ls|] == ls;
    } else {
      assert ls[..i] == ls;
    }
  }

  /** Dropping the first line leaves a list that weighs less by that line. */
  lemma {:induction false} LenSumTail(ls: seq<string>)
    requires ls != []
    ensures LenSum(ls) == |ls[0]| + LenSum(ls[1..])
    decreases |ls|
  {
    if |ls| > 1 {
      var init := ls[..|ls| - 1];
      LenSumTail(init);
      assert init[1..] == ls[1..][..|ls| - 2];
      assert ls[1..][..|ls[1..]| - 1] == init[1..];
    } else {
      assert ls[..0] == [];
      assert ls[1..] == [];
    }
  }

  /** ASCII `c.lower()`. */
  function LowerChar(c: char): (r: char)
    ensures 'A' <= c <= 'Z' ==> 'a' <= r <= 'z'
    ensures !('A' <= c <= 'Z') ==> r == c
  {
    if 'A' <= c <= 'Z' then (c as int - 'A' as int + 'a' as int) as char else c
  }

  /** `s.lower()` on ASCII letters. */
  function Lower(s: string): (r: string)
    ensures |r| == |s|
    ensures forall i :: 0 <= i < |s| ==> r[i] == LowerChar(s[i])
  {
    seq(|s|, i requires 0 <= i < |s| => LowerChar(s[i]))
  }

  /** The decimal digit for `d`. */
  function Digit(d: nat): (c: char)
    requires d < 10
    ensures '0' <= c <= '9'
  {
    ('0' as int + d) as char
  }

  /** The number a string of decimal digits spells. */
  function DigitsValue(s: string): nat
    requires forall i :: 0 <= i < |s| ==> '0' <= s[i] <= '9'
  {
    if s == [] then 0 else 10 * DigitsValue(s[..|s| - 1]) + (s[|s| - 1] as int - '0' as int)
  }

  /** `str(n)` for a non-negative integer: the digits of `n`, with no leading zero. */
  function NatToString(n: nat): (r: string)
    ensures r != []
    ensures forall i :: 0 <= i < |r| ==> '0' <= r[i] <= '9'
    ensures DigitsValue(r) == n
    ensures |r| > 1 ==> r[0] != '0'
  {
    if n < 10 then [Digit(n)]
    else
      var r := NatToString(n / 10) + [Digit(n % 10)];
      assert r[..|r| - 1] == NatToString(n / 10);
      r
  }

  /** Distinct numbers have distinct decimal strings. */
  lemma NatToStringInjective(m: nat, n: nat)
    requires m != n
    ensures NatToString(m) != NatToString(n)
  {
  }
}
