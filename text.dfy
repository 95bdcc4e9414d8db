/** The Option wrapper used for PHP values that may be null or unset. */
module Wrappers {
  datatype Option<+T> = None | Some(value: T) {
    function GetOr(default: T): T {
      match this
      case Some(v) => v
      case None => default
    }
  }
}

/**
 * String helpers with PHP's meaning: `empty()`, `substr($s, 0, $n)`,
 * `strpos($s, $p) === 0`, `str_replace`, `ucwords` and ASCII case folding.
 * Strings are sequences of single-byte characters.
 */
module Text {
  import opened Wrappers

  /** PHP `empty($s)` for a string: the empty string and "0" are empty. */
  predicate PhpEmpty(s: string) {
    s == "" || s == "0"
  }

  /** `strpos($s, $p) === 0`; an empty prefix matches every string (PHP 8). */
  predicate StartsWith(s: string, p: string) {
    |p| <= |s| && s[..|p|] == p
  }

  /** `substr($s, -strlen($suf)) === $suf`. */
  predicate EndsWith(s: string, suf: string) {
    |suf| <= |s| && s[|s| - |suf|..] == suf
  }

  /** `strpos($s, $sub) !== false`. */
  predicate Contains(s: string, sub: string)
    decreases |s|
  {
    StartsWith(s, sub) || (|s| > 0 && Contains(s[1..], sub))
  }

  lemma {:induction false} ContainsAt(s: string, sub: string, i: nat)
    requires i + |sub| <= |s| && s[i..i + |sub|] == sub
    ensures Contains(s, sub)
    decreases i
  {
    if i > 0 {
      assert s[1..][i - 1..i - 1 + |sub|] == s[i..i + |sub|];
      ContainsAt(s[1..], sub, i - 1);
    }
  }

  /** `substr($s, 0, $n)`: the first `n` characters, or all of them. */
  function Truncate(s: string, n: nat): (r: string)
    ensures |r| <= n && |r| <= |s|
    ensures |r| == if |s| <= n then |s| else n
    ensures r == s[..|r|]
  {
    if |s| <= n then s else s[..n]
  }

  /** ASCII lower-casing, as PCRE's `i` flag and `strtolower` apply it. */
  function LowerChar(c: char): (r: char)
    ensures 'A' <= c <= 'Z' ==> r != c && 'a' <= r <= 'z'
    ensures !('A' <= c <= 'Z') ==> r == c
  {
    if 'A' <= c <= 'Z' then (c as int + 32) as char else c
  }

  function UpperChar(c: char): (r: char)
    ensures 'a' <= c <= 'z' ==> 'A' <= r <= 'Z'
    ensures !('a' <= c <= 'z') ==> r == c
  {
    if 'a' <= c <= 'z' then (c as int - 32) as char else c
  }

  function Lower(s: string): (r: string)
    ensures |r| == |s|
    ensures forall i :: 0 <= i < |s| ==> r[i] == LowerChar(s[i])
  {
    seq(|s|, i requires 0 <= i < |s| => LowerChar(s[i]))
  }

  /** `str_replace($from, $to, $s)` for single characters. */
  function ReplaceChar(s: string, from: char, to: char): (r: string)
    ensures |r| == |s|
    ensures forall i :: 0 <= i < |s| ==> r[i] == (if s[i] == from then to else s[i])
  {
    seq(|s|, i requires 0 <= i < |s| => if s[i] == from then to else s[i])
  }

  lemma ReplaceCharAppend(a: string, b: string, from: char, to: char)
    ensures ReplaceChar(a + b, from, to) == ReplaceChar(a, from, to) + ReplaceChar(b, from, to)
  {
    var l := ReplaceChar(a + b, from, to);
    var r := ReplaceChar(a, from, to) + ReplaceChar(b, from, to);
    assert forall i :: 0 <= i < |l| ==> l[i] == r[i] by {
      forall i | 0 <= i < |l| ensures l[i] == r[i] {
        if i >= |a| { assert (a + b)[i] == b[i - |a|]; }
      }
    }
  }

  /** Replacing a character a string does not hold changes nothing. */
  lemma ReplaceCharAbsent(s: string, from: char, to: char)
    requires from !in s
    ensures ReplaceChar(s, from, to) == s
  {
  }

  /**
   * `str_replace($pat, $rep, $s)`: every non-overlapping occurrence, left to
   * right; an empty search string leaves the subject unchanged.
   */
  function ReplaceAll(s: string, pat: string, rep: string): (r: string)
    ensures pat == "" ==> r == s
    ensures !Contains(s, pat) ==> r == s
    decreases |s|
  {
    if pat == "" then s
    else if StartsWith(s, pat) then rep + ReplaceAll(s[|pat|..], pat, rep)
    else if s == [] then s
    else [s[0]] + ReplaceAll(s[1..], pat, rep)
  }

  /** `str_replace` finds nothing that starts inside a prefix lacking the pattern's first character. */
  lemma {:induction false} ReplaceAllSkip(prefix: string, tail: string, pat: string, rep: string)
    requires pat != "" && pat[0] !in prefix
    ensures ReplaceAll(prefix + tail, pat, rep) == prefix + ReplaceAll(tail, pat, rep)
    decreases |prefix|
  {
    if prefix == [] {
      assert prefix + tail == tail;
    } else {
      var s := prefix + tail;
      assert s[0] == prefix[0] && s[0] != pat[0];
      assert !StartsWith(s, pat);
      assert s[1..] == prefix[1..] + tail;
      ReplaceAllSkip(prefix[1..], tail, pat, rep);
      var x := ReplaceAll(tail, pat, rep);
      assert ReplaceAll(s, pat, rep) == [prefix[0]] + (prefix[1..] + x);
      assert [prefix[0]] + (prefix[1..] + x) == ([prefix[0]] + prefix[1..]) + x;
      assert [prefix[0]] + prefix[1..] == prefix;
    }
  }

  /**
   * `str_replace` on `<prefix><pat>`, where the prefix holds no occurrence and
   * the pattern's first character does not recur in it (so no occurrence can
   * straddle the two): only the final pattern is replaced.
   */
  lemma {:induction false} ReplaceAllFinal(prefix: string, pat: string, rep: string)
    requires pat != "" && pat[0] !in pat[1..] && !Contains(prefix, pat)
    ensures ReplaceAll(prefix + pat, pat, rep) == prefix + rep
    decreases |prefix|
  {
    if prefix == [] {
      assert prefix + pat == pat && pat[|pat|..] == [];
    } else {
      var t := prefix[1..];
      NoOccurrenceAtStart(prefix, pat);
      assert !Contains(t, pat);
      ReplaceAllFinal(t, pat, rep);
      ConsSplit(prefix, pat);
      ConsSplit(prefix, rep);
      ReplaceAllCons(prefix[0], t + pat, pat, rep);
    }
  }

  /** A non-empty string is its first character followed by the rest. */
  lemma ConsSplit(s: string, x: string)
    requires s != []
    ensures s + x == [s[0]] + (s[1..] + x)
  {
  }

  /** Where the pattern does not start, `str_replace` keeps the first character and goes on with the rest. */
  lemma ReplaceAllCons(c: char, s: string, pat: string, rep: string)
    requires pat != "" && !StartsWith([c] + s, pat)
    ensures ReplaceAll([c] + s, pat, rep) == [c] + ReplaceAll(s, pat, rep)
  {
    assert ([c] + s)[1..] == s;
  }

  /** A non-empty prefix without the pattern, followed by the pattern, does not start with it. */
  lemma NoOccurrenceAtStart(prefix: string, pat: string)
    requires pat != "" && pat[0] !in pat[1..] && !Contains(prefix, pat) && prefix != []
    ensures !StartsWith(prefix + pat, pat)
  {
    var s := prefix + pat;
    if |prefix| < |pat| {
      assert s[|prefix|] == pat[0] && pat[|prefix|] == pat[1..][|prefix| - 1];
    } else {
      assert s[..|pat|] == prefix[..|pat|];
    }
  }

  /** Replacing a character that is not in the pattern, by another that is not either, creates no occurrence. */
  lemma {:induction false} ReplaceCharKeepsAbsent(s: string, pat: string, from: char, to: char)
    requires to !in pat && !Contains(s, pat)
    ensures !Contains(ReplaceChar(s, from, to), pat)
    decreases |s|
  {
    var r := ReplaceChar(s, from, to);
    if StartsWith(r, pat) {
      forall i | 0 <= i < |pat| ensures s[i] == pat[i] {
        assert r[i] == pat[i];
      }
    }
    if |s| > 0 {
      ReplaceCharKeepsAbsent(s[1..], pat, from, to);
      assert r[1..] == ReplaceChar(s[1..], from, to);
    }
  }

  /** The characters `ucwords` treats as word separators. */
  predicate WordDelimiter(c: char) {
    c == ' ' || c == '\t' || c == '\r' || c == '\n' || c as int == 12 || c as int == 11
  }

  function UcWordsFrom(s: string, atWordStart: bool): (r: string)
    ensures |r| == |s|
    decreases |s|
  {
    if s == [] then []
    else [if atWordStart then UpperChar(s[0]) else s[0]] + UcWordsFrom(s[1..], WordDelimiter(s[0]))
  }

  /** PHP `ucwords`: upper-case the first character of every word. */
  function UcWords(s: string): (r: string)
    ensures |r| == |s|
  {
    UcWordsFrom(s, true)
  }

  /** Where a word starts: at the beginning, or just after a separator. */
  predicate WordStart(s: string, i: int)
    requires 0 <= i < |s|
  {
    i == 0 || WordDelimiter(s[i - 1])
  }

  lemma {:induction false} UcWordsFromAt(s: string, atWordStart: bool, i: nat)
    requires i < |s|
    ensures UcWordsFrom(s, atWordStart)[i] ==
      if (if i == 0 then atWordStart else WordDelimiter(s[i - 1])) then UpperChar(s[i]) else s[i]
    decreases i
  {
    if i > 0 {
      UcWordsFromAt(s[1..], WordDelimiter(s[0]), i - 1);
    }
  }

  /** Every character of `ucwords($s)`: upper-cased at a word start, kept elsewhere. */
  lemma UcWordsAt(s: string, i: nat)
    requires i < |s|
    ensures UcWords(s)[i] == if WordStart(s, i) then UpperChar(s[i]) else s[i]
  {
    UcWordsFromAt(s, true, i);
  }

  /** The first index of `c` in `s`, as `strpos($s, $c)` for one character. */
  function IndexOf(s: string, c: char): (r: Option<nat>)
    ensures r.None? ==> c !in s
    ensures r.Some? ==> r.value < |s| && s[r.value] == c && c !in s[..r.value]
  {
    if |s| == 0 then None
    else if s[0] == c then Some(0)
    else match IndexOf(s[1..], c)
      case None => None
      case Some(k) => assert s[1..][..k] == s[1..k + 1]; Some(k + 1)
  }

  /** Searching past a prefix that lacks the character. */
  lemma {:induction false} IndexOfAfter(a: string, b: string, c: char)
    requires c !in a
    ensures IndexOf(a + b, c) == match IndexOf(b, c) case None => None case Some(k) => Some(|a| + k)
    decreases |a|
  {
    if a == [] {
      assert a + b == b;
    } else {
      assert (a + b)[1..] == a[1..] + b;
      IndexOfAfter(a[1..], b, c);
    }
  }

  /** The text after the last `/`, as `basename` gives it for a path without a trailing slash. */
  function LastSegment(path: string): (r: string)
    ensures '/' !in r
    ensures EndsWith(path, r)
    decreases |path|
  {
    if path == [] then []
    else if path[|path| - 1] == '/' then []
    else
      var r := LastSegment(path[..|path| - 1]);
      assert path[..|path| - 1][|path| - 1 - |r|..] == r;
      assert path[|path| - |r| - 1..] == r + [path[|path| - 1]];
      r + [path[|path| - 1]]
  }

  /** `rtrim($path, '/')`. */
  function TrimTrailingSlashes(path: string): (r: string)
    ensures r == [] || r[|r| - 1] != '/'
    ensures StartsWith(path, r)
    decreases |path|
  {
    if path != [] && path[|path| - 1] == '/' then TrimTrailingSlashes(path[..|path| - 1]) else path
  }

  /** PHP `basename($path)`: the last component, ignoring trailing slashes. */
  function Basename(path: string): (r: string)
    ensures '/' !in r
  {
    LastSegment(TrimTrailingSlashes(path))
  }

  /** PHP `basename($path, $suffix)`: also drops the suffix unless it is the whole name. */
  function BasenameWithout(path: string, suffix: string): (r: string)
    ensures '/' !in r
  {
    var b := Basename(path);
    if EndsWith(b, suffix) && b != suffix then b[..|b| - |suffix|] else b
  }

  /** `ltrim($s, '/')`. */
  function TrimLeadingSlashes(s: string): (r: string)
    ensures r == [] || r[0] != '/'
    decreases |s|
  {
    if s != [] && s[0] == '/' then TrimLeadingSlashes(s[1..]) else s
  }

  /** A query string can only start after a prefix without `?`. */
  lemma StripQueryAfter(a: string, b: string)
    requires '?' !in a
    ensures StripQuery(a + b) == a + StripQuery(b)
  {
    IndexOfAfter(a, b, '?');
    match IndexOf(b, '?')
    case None =>
    case Some(k) =>
      assert (a + b)[..|a| + k] == a + b[..k];
  }

  /** Cut at the first `?`, as `preg_replace('/\?.*$/', '', $s)` does. */
  function StripQuery(s: string): (r: string)
    ensures '?' !in r
    ensures StartsWith(s, r)
    ensures '?' !in s ==> r == s
  {
    match IndexOf(s, '?')
    case None => s
    case Some(k) => s[..k]
  }
}
