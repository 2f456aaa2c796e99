/** The string operations of Python that the core relies on, at the ASCII
    level: `strip`, `lower`, `capitalize`, `split` on one character,
    `sep.join`, `find`, slicing with clamped or negative bounds, `replace`
    and `str(int)`. */
module Strings {

  /** Python's `str.isspace` restricted to ASCII: space, `\t` `\n` `\v` `\f`
      `\r` and the four separators `\x1c`..`\x1f`. */
  predicate IsSpace(c: char) {
    c == ' ' || ('\t' <= c <= '\r') || ('\U{1c}' <= c <= '\U{1f}')
  }

  /** A string with no visible character: `not s.strip()` in Python. */
  predicate IsBlank(s: string) {
    forall i :: 0 <= i < |s| ==> IsSpace(s[i])
  }

  /** `s.lstrip()`. */
  function StripLeft(s: string): string
    decreases |s|
  {
    if |s| > 0 && IsSpace(s[0]) then StripLeft(s[1..]) else s
  }

  /** `s.rstrip()`. */
  function StripRight(s: string): string
    decreases |s|
  {
    if |s| > 0 && IsSpace(s[|s| - 1]) then StripRight(s[..|s| - 1]) else s
  }

  /** `s.strip()`: `s` without its leading and trailing whitespace. */
  function Strip(s: string): string {
    StripRight(StripLeft(s))
  }

  /** `lstrip` drops a blank prefix and keeps a suffix that is empty or starts
      with a visible character. */
  lemma {:induction false} StripLeftSpec(s: string)
    ensures |StripLeft(s)| <= |s| && StripLeft(s) == s[|s| - |StripLeft(s)|..]
    ensures IsBlank(s[..|s| - |StripLeft(s)|])
    ensures StripLeft(s) == [] || !IsSpace(StripLeft(s)[0])
    decreases |s|
  {
    if |s| > 0 && IsSpace(s[0]) {
      StripLeftSpec(s[1..]);
      var r := StripLeft(s);
      var n := |s| - |r|;
      assert s[1..][|s| - 1 - |r|..] == s[n..];
      forall i | 0 <= i < n
        ensures IsSpace(s[..n][i])
      {
        if i > 0 {
          assert s[..n][i] == s[1..][..n - 1][i - 1];
        }
      }
    } else {
      assert s[..0] == [];
      assert s[0..] == s;
    }
  }

  /** `rstrip` drops a blank suffix and keeps a prefix that is empty or ends
      with a visible character. */
  lemma {:induction false} StripRightSpec(s: string)
    ensures |StripRight(s)| <= |s| && StripRight(s) == s[..|StripRight(s)|]
    ensures IsBlank(s[|StripRight(s)|..])
    ensures StripRight(s) == [] || !IsSpace(StripRight(s)[|StripRight(s)| - 1])
    decreases |s|
  {
    if |s| > 0 && IsSpace(s[|s| - 1]) {
      var init := s[..|s| - 1];
      StripRightSpec(init);
      var r := StripRight(s);
      assert init[..|r|] == s[..|r|];
      forall i | |r| <= i < |s|
        ensures IsSpace(s[i])
      {
        if i < |s| - 1 {
          assert s[i] == init[|r|..][i - |r|];
        }
      }
      assert forall i :: 0 <= i < |s| - |r| ==> s[|r|..][i] == s[|r| + i];
    } else {
      assert s[..|s|] == s;
      assert s[|s|..] == [];
    }
  }

  /** A stripped string is empty or starts and ends with a visible character. */
  lemma StripSpec(s: string)
    ensures Strip(s) == [] || (!IsSpace(Strip(s)[0]) && !IsSpace(Strip(s)[|Strip(s)| - 1]))
  {
    var l := StripLeft(s);
    StripLeftSpec(s);
    StripRightSpec(l);
    var r := Strip(s);
    if r != [] {
      assert r[0] == l[0];
    }
  }

  lemma StripLeftBlank(s: string)
    ensures StripLeft(s) == [] <==> IsBlank(s)
  {
    StripLeftSpec(s);
    var r := StripLeft(s);
    if r == [] {
      assert s[..|s|] == s;
    } else {
      assert s[|s| - |r|] == r[0];
    }
  }

  /** Stripping leaves nothing exactly when the string is blank. */
  lemma StripEmptyIffBlank(s: string)
    ensures Strip(s) == [] <==> IsBlank(s)
  {
    var l := StripLeft(s);
    StripLeftBlank(s);
    StripLeftSpec(s);
    StripRightSpec(l);
    if Strip(s) == [] {
      assert l[0..] == l;
    }
  }

  /** A string that starts and ends with a visible character is its own strip. */
  lemma StripOfTrimmed(s: string)
    requires s == [] || (!IsSpace(s[0]) && !IsSpace(s[|s| - 1]))
    ensures Strip(s) == s
  {
  }

  lemma StripIdempotent(s: string)
    ensures Strip(Strip(s)) == Strip(s)
  {
    StripSpec(s);
    StripOfTrimmed(Strip(s));
  }

  /** A string that ends with some visible character keeps it through `+ w`. */
  lemma StripLeftAppend(s: string, w: string)
    requires !IsBlank(s)
    ensures StripLeft(s + w) == StripLeft(s) + w
    decreases |s|
  {
    if IsSpace(s[0]) {
      assert (s + w)[1..] == s[1..] + w;
      StripLeftAppend(s[1..], w);
    }
  }

  lemma StripRightAppendBlank(s: string, w: string)
    requires IsBlank(w)
    ensures StripRight(s + w) == StripRight(s)
    decreases |w|
  {
    if |w| > 0 {
      var sw := s + w;
      assert sw[..|sw| - 1] == s + w[..|w| - 1];
      StripRightAppendBlank(s, w[..|w| - 1]);
    } else {
      assert s + w == s;
    }
  }

  /** Appending whitespace does not change what `strip` returns. */
  lemma StripAppendBlank(s: string, w: string)
    requires IsBlank(w)
    ensures Strip(s + w) == Strip(s)
  {
    if IsBlank(s) {
      assert IsBlank(s + w);
      StripLeftBlank(s + w);
      StripLeftBlank(s);
    } else {
      StripLeftAppend(s, w);
      StripRightAppendBlank(StripLeft(s), w);
    }
  }

  /** Concatenating after a visible character stays visible. */
  lemma NonBlankPrefix(a: string, b: string)
    requires !IsBlank(a)
    ensures !IsBlank(a + b)
  {
    var i :| 0 <= i < |a| && !IsSpace(a[i]);
    assert (a + b)[i] == a[i];
  }

  function LowerChar(c: char): char {
    if 'A' <= c <= 'Z' then (c as int + 32) as char else c
  }

  function UpperChar(c: char): char {
    if 'a' <= c <= 'z' then (c as int - 32) as char else c
  }

  /** `s.lower()` on ASCII letters; other characters are kept. */
  function Lower(s: string): (r: string)
    ensures |r| == |s|
    ensures forall i :: 0 <= i < |s| ==> r[i] == LowerChar(s[i])
  {
    seq(|s|, i requires 0 <= i < |s| => LowerChar(s[i]))
  }

  /** `s.capitalize()`: the first character upper-cased, the rest lower-cased. */
  function Capitalize(s: string): (r: string)
    ensures |r| == |s|
    ensures |s| > 0 ==> r[0] == UpperChar(s[0]) && r[1..] == Lower(s[1..])
  {
    if |s| == 0 then [] else [UpperChar(s[0])] + Lower(s[1..])
  }

  /** Capitalizing twice is capitalizing once. */
  lemma CapitalizeIdempotent(s: string)
    ensures Capitalize(Capitalize(s)) == Capitalize(s)
  {
    if |s| > 0 {
      var c := Capitalize(s);
      assert Lower(c[1..]) == c[1..];
    }
  }

  /** Capitalizing changes only letters, so a stripped string stays stripped. */
  lemma CapitalizeStripped(s: string)
    requires Strip(s) == s
    ensures Strip(Capitalize(s)) == Capitalize(s)
  {
    StripSpec(s);
    var c := Capitalize(s);
    if |s| > 0 {
      assert c[|c| - 1] == (if |s| == 1 then UpperChar(s[0]) else LowerChar(s[|s| - 1]));
    }
    StripOfTrimmed(c);
  }

  /** `strip` keeps a substring: the string from its first to its last
      visible character. */
  lemma StripOccurs(s: string)
    ensures OccursAt(s, Strip(s), |s| - |StripLeft(s)|)
  {
    var l := StripLeft(s);
    StripLeftSpec(s);
    StripRightSpec(l);
    var p := |s| - |l|;
    assert s[p..p + |Strip(s)|] == l[..|Strip(s)|];
  }

  /** Lower-casing commutes with slicing. */
  lemma LowerSlice(s: string, i: nat, j: nat)
    requires i <= j <= |s|
    ensures Lower(s)[i..j] == Lower(s[i..j])
  {
  }

  /** An occurrence inside an occurrence is an occurrence. */
  lemma OccursWithin(s: string, mid: string, sub: string, p: int, q: int)
    requires OccursAt(s, mid, p) && OccursAt(mid, sub, q)
    ensures OccursAt(s, sub, p + q)
  {
    forall k | 0 <= k < |sub|
      ensures s[p + q..p + q + |sub|][k] == sub[k]
    {
      assert sub[k] == mid[q + k] == s[p..p + |mid|][q + k];
    }
  }

  /** `sep.join(parts)`. */
  function Join(parts: seq<string>, sep: string): string {
    if |parts| == 0 then []
    else if |parts| == 1 then parts[0]
    else Join(parts[..|parts| - 1], sep) + sep + parts[|parts| - 1]
  }

  /** Each part followed by `sep`: what a loop of `acc += part + sep` builds. */
  function Terminated(parts: seq<string>, sep: string): string {
    if |parts| == 0 then [] else Terminated(parts[..|parts| - 1], sep) + parts[|parts| - 1] + sep
  }

  /** Building with a trailing separator gives the joined string plus one separator. */
  lemma {:induction false} TerminatedIsJoinPlusSep(parts: seq<string>, sep: string)
    requires |parts| > 0
    ensures Terminated(parts, sep) == Join(parts, sep) + sep
    decreases |parts|
  {
    if |parts| > 1 {
      TerminatedIsJoinPlusSep(parts[..|parts| - 1], sep);
    } else {
      assert parts[..0] == [];
    }
  }

  /** `strip` of a string built with a trailing blank separator equals
      `strip` of the joined string. */
  lemma StripTerminated(parts: seq<string>, sep: string)
    requires IsBlank(sep)
    ensures Strip(Terminated(parts, sep)) == Strip(Join(parts, sep))
  {
    if |parts| > 0 {
      TerminatedIsJoinPlusSep(parts, sep);
      StripAppendBlank(Join(parts, sep), sep);
    }
  }

  /** A joined string starts with the first part and ends with the last. */
  lemma {:induction false} JoinEnds(parts: seq<string>, sep: string)
    requires |parts| > 0
    ensures |Join(parts, sep)| >= |parts[0]| && |Join(parts, sep)| >= |parts[|parts| - 1]|
    ensures Join(parts, sep)[..|parts[0]|] == parts[0]
    ensures Join(parts, sep)[|Join(parts, sep)| - |parts[|parts| - 1]|..] == parts[|parts| - 1]
    decreases |parts|
  {
    if |parts| > 1 {
      var init := parts[..|parts| - 1];
      JoinEnds(init, sep);
      assert init[0] == parts[0];
      var j := Join(init, sep);
      assert Join(parts, sep) == j + sep + parts[|parts| - 1];
      assert (j + sep + parts[|parts| - 1])[..|parts[0]|] == j[..|parts[0]|];
    }
  }

  /** `strip` leaves alone a joined string whose first part starts, and whose
      last part ends, with a visible character. */
  lemma StripJoinTrimmed(parts: seq<string>, sep: string)
    requires |parts| > 0 && |parts[0]| > 0 && |parts[|parts| - 1]| > 0
    requires !IsSpace(parts[0][0]) && !IsSpace(parts[|parts| - 1][|parts[|parts| - 1]| - 1])
    ensures Strip(Join(parts, sep)) == Join(parts, sep)
  {
    JoinEnds(parts, sep);
    var j := Join(parts, sep);
    var last := parts[|parts| - 1];
    assert j[0] == j[..|parts[0]|][0];
    assert j[|j| - 1] == j[|j| - |last|..][|last| - 1];
    StripOfTrimmed(j);
  }

  /** Unfolds `Join` from the front. */
  lemma {:induction false} JoinCons(parts: seq<string>, sep: string)
    requires |parts| >= 2
    ensures Join(parts, sep) == parts[0] + sep + Join(parts[1..], sep)
    decreases |parts|
  {
    var n := |parts|;
    if n > 2 {
      JoinCons(parts[..n - 1], sep);
      assert parts[..n - 1][1..] == parts[1..][..n - 2];
    } else {
      assert parts[..1] == [parts[0]];
      assert parts[1..] == [parts[1]];
    }
  }

  /** `s.split(c)`: the pieces between occurrences of `c`, always at least one. */
  function Split(s: string, c: char): (parts: seq<string>)
    ensures |parts| >= 1
    ensures forall k :: 0 <= k < |parts| ==> c !in parts[k]
    decreases |s|
  {
    if |s| == 0 then [[]]
    else
      var rest := Split(s[1..], c);
      if s[0] == c then [[]] + rest
      else [[s[0]] + rest[0]] + rest[1..]
  }

  /** Joining the pieces of a split with the separator gives the string back. */
  lemma {:induction false} JoinSplit(s: string, c: char)
    ensures Join(Split(s, c), [c]) == s
    decreases |s|
  {
    if |s| > 0 {
      JoinSplit(s[1..], c);
      if s[0] == c {
        JoinSplitAtSeparator(s, c);
      } else {
        JoinSplitInPart(s, c);
      }
    }
  }

  lemma JoinSplitAtSeparator(s: string, c: char)
    requires |s| > 0 && s[0] == c
    requires Join(Split(s[1..], c), [c]) == s[1..]
    ensures Join(Split(s, c), [c]) == s
  {
    var rest := Split(s[1..], c);
    var parts := Split(s, c);
    assert parts == [[]] + rest;
    JoinCons(parts, [c]);
    assert parts[1..] == rest;
    assert s == [c] + s[1..];
  }

  lemma JoinSplitInPart(s: string, c: char)
    requires |s| > 0 && s[0] != c
    requires Join(Split(s[1..], c), [c]) == s[1..]
    ensures Join(Split(s, c), [c]) == s
  {
    var rest := Split(s[1..], c);
    assert Split(s, c) == [[s[0]] + rest[0]] + rest[1..];
    assert s == [s[0]] + s[1..];
    ExtendFirstPart(s[0], rest, [c]);
  }

  /** Prepending a character to the first part prepends it to the join. */
  lemma ExtendFirstPart(x: char, parts: seq<string>, sep: string)
    requires |parts| >= 1
    ensures Join([[x] + parts[0]] + parts[1..], sep) == [x] + Join(parts, sep)
  {
    var parts' := [[x] + parts[0]] + parts[1..];
    if |parts| == 1 {
      assert parts' == [[x] + parts[0]];
    } else {
      var tail := Join(parts[1..], sep);
      JoinCons(parts', sep);
      JoinCons(parts, sep);
      assert parts'[1..] == parts[1..];
      assert ([x] + parts[0]) + sep + tail == [x] + (parts[0] + sep + tail);
    }
  }

  lemma {:induction false} SplitPrefix(a: string, c: char, r: string)
    requires c !in a
    ensures Split(a + [c] + r, c) == [a] + Split(r, c)
    decreases |a|
  {
    if |a| == 0 {
      assert (a + [c] + r)[1..] == r;
    } else {
      assert (a + [c] + r)[1..] == a[1..] + [c] + r;
      SplitPrefix(a[1..], c, r);
      assert [a[0]] + a[1..] == a;
    }
  }

  lemma {:induction false} SplitFree(a: string, c: char)
    requires c !in a
    ensures Split(a, c) == [a]
    decreases |a|
  {
    if |a| > 0 {
      SplitFree(a[1..], c);
      assert [a[0]] + a[1..] == a;
    }
  }

  /** Splitting a join of separator-free parts gives the parts back. */
  lemma {:induction false} SplitJoin(parts: seq<string>, c: char)
    requires |parts| >= 1
    requires forall k :: 0 <= k < |parts| ==> c !in parts[k]
    ensures Split(Join(parts, [c]), c) == parts
    decreases |parts|
  {
    if |parts| == 1 {
      SplitFree(parts[0], c);
    } else {
      JoinCons(parts, [c]);
      SplitJoin(parts[1..], c);
      SplitPrefix(parts[0], c, Join(parts[1..], [c]));
      assert [parts[0]] + parts[1..] == parts;
    }
  }

  /** `sub` occurs in `s` at index `p`. */
  predicate OccursAt(s: string, sub: string, p: int) {
    0 <= p && p + |sub| <= |s| && s[p..p + |sub|] == sub
  }

  /** `s.find(sub, start)` for `start >= 0`: the least index from `start` on
      where `sub` occurs, or -1 (also when `start` is past the end). */
  function Find(s: string, sub: string, start: nat): (r: int)
    ensures r == -1 || (start <= r && OccursAt(s, sub, r))
    ensures r == -1 ==> forall p :: start <= p ==> !OccursAt(s, sub, p)
    ensures r != -1 ==> forall p :: start <= p < r ==> !OccursAt(s, sub, p)
    decreases |s| + 1 - start
  {
    if start + |sub| > |s| then -1
    else if s[start..start + |sub|] == sub then start
    else Find(s, sub, start + 1)
  }

  /** `sub in s`. */
  predicate Contains(s: string, sub: string) {
    Find(s, sub, 0) != -1
  }

  /** `sub in s` holds exactly when `sub` occurs at some index of `s`. */
  lemma ContainsIffOccurs(s: string, sub: string)
    ensures Contains(s, sub) <==> exists p :: OccursAt(s, sub, p)
  {
  }

  /** A Python slice bound: negative counts from the end, then clamped to `[0, n]`. */
  function SliceBound(i: int, n: nat): (b: nat)
    ensures b <= n
  {
    if i < 0 then (if n + i < 0 then 0 else n + i) else if i > n then n else i
  }

  /** `s[i:j]` with Python's rules for negative and out-of-range bounds. */
  function PySlice(s: string, i: int, j: int): (r: string)
    ensures 0 <= i <= j <= |s| ==> r == s[i..j]
    ensures |r| <= |s|
  {
    var lo := SliceBound(i, |s|);
    var hi := SliceBound(j, |s|);
    if lo >= hi then [] else s[lo..hi]
  }

  /** `s.replace(pattern, replacement)`: every non-overlapping occurrence of `pattern`,
      scanning left to right, replaced by `replacement`; an empty `pattern` inserts `replacement`
      before every character and at the end. */
  function ReplaceAll(s: string, pattern: string, replacement: string): string
    decreases |s|
  {
    if |pattern| == 0 then replacement + (if |s| == 0 then [] else [s[0]] + ReplaceAll(s[1..], pattern, replacement))
    else if |s| < |pattern| then s
    else if s[..|pattern|] == pattern then replacement + ReplaceAll(s[|pattern|..], pattern, replacement)
    else [s[0]] + ReplaceAll(s[1..], pattern, replacement)
  }

  function DigitChar(d: nat): char
    requires d < 10
  {
    ('0' as int + d) as char
  }

  function NatToString(n: nat): (r: string)
    ensures |r| >= 1
    ensures forall k :: 0 <= k < |r| ==> '0' <= r[k] <= '9'
  {
    if n < 10 then [DigitChar(n)] else NatToString(n / 10) + [DigitChar(n % 10)]
  }

  /** The value of a string of decimal digits. */
  function DigitsValue(s: string): nat {
    if |s| == 0 then 0
    else
      var d := s[|s| - 1] as int - '0' as int;
      DigitsValue(s[..|s| - 1]) * 10 + (if 0 <= d then d else 0)
  }

  /** Reading back the decimal form of a number gives the number. */
  lemma {:induction false} DigitsValueOfNatToString(n: nat)
    ensures DigitsValue(NatToString(n)) == n
    decreases n
  {
    if n >= 10 {
      DigitsValueOfNatToString(n / 10);
      var s := NatToString(n);
      assert s[..|s| - 1] == NatToString(n / 10);
    }
  }

  /** `xs[:n]` for `n >= 0`. */
  function Take<T>(xs: seq<T>, n: nat): (r: seq<T>)
    ensures |r| <= n && |r| <= |xs|
    ensures |r| == if |xs| < n then |xs| else n
    ensures r == xs[..|r|]
  {
    if |xs| <= n then xs else xs[..n]
  }
}
