/**
  String helpers shared by the knowledge-management model: the subset of
  Python's `str` behaviour that the modelled code relies on (`in`, `find`,
  `startswith`, `endswith`, `strip`, `split`, `join`, `lower`, `upper`,
  slicing with a bound, and `str()` of a non-negative integer).
 */
module Text {

  datatype Option<T> = None | Some(value: T)

  datatype Result<T, E> = Ok(value: T) | Err(error: E)

  /** Python's `str.isspace()` for one character (also what `\s` and `strip()` use). */
  predicate IsSpace(c: char)
  {
    c == ' ' || c == '\t' || c == '\n' || c == '\r' || c == '\U{000B}' || c == '\U{000C}'
    || ('\U{001C}' <= c <= '\U{001F}') || c == '\U{0085}' || c == '\U{00A0}'
    || c == '\U{1680}' || ('\U{2000}' <= c <= '\U{200A}') || c == '\U{2028}' || c == '\U{2029}'
    || c == '\U{202F}' || c == '\U{205F}' || c == '\U{3000}'
  }

  /** `s.lstrip()`: drops the leading whitespace. */
  function StripLeft(s: string): (r: string)
    ensures |r| <= |s| && r == s[|s| - |r|..]
    ensures r == [] || !IsSpace(r[0])
    ensures forall k :: 0 <= k < |s| - |r| ==> IsSpace(s[k])
  {
    if |s| > 0 && IsSpace(s[0]) then StripLeft(s[1..]) else s
  }

  /** `s.rstrip()`: drops the trailing whitespace. */
  function StripRight(s: string): (r: string)
    ensures |r| <= |s| && r == s[..|r|]
    ensures r == [] || !IsSpace(r[|r| - 1])
    ensures forall k :: |r| <= k < |s| ==> IsSpace(s[k])
  {
    if |s| > 0 && IsSpace(s[|s| - 1]) then StripRight(s[..|s| - 1]) else s
  }

  /** `s.strip()`. */
  function Strip(s: string): (r: string)
  {
    StripRight(StripLeft(s))
  }

  /** What `strip()` promises: no whitespace is left at either end. */
  lemma StripTrimmed(s: string)
    ensures Trimmed(Strip(s))
  {
  }

  /** A string that `strip()` leaves unchanged. */
  predicate Trimmed(s: string)
  {
    s == [] || (!IsSpace(s[0]) && !IsSpace(s[|s| - 1]))
  }

  /** Stripping a string padded with whitespace on both sides gives back the
      string itself when it is already trimmed. */
  lemma {:induction false} StripPadded(pre: string, s: string, post: string)
    requires forall k :: 0 <= k < |pre| ==> IsSpace(pre[k])
    requires forall k :: 0 <= k < |post| ==> IsSpace(post[k])
    requires Trimmed(s)
    ensures Strip(pre + s + post) == s
  {
    if s == [] {
      assert pre + s + post == pre + post;
      StripAllSpace(pre, post);
    } else {
      var t := s + post;
      assert t[0] == s[0];
      StripLeftPadded(pre, t);
      StripRightPadded(s, post);
      calc {
        Strip(pre + s + post);
        { ConcatAssoc(pre, s, post); }
        StripRight(StripLeft(pre + t));
        StripRight(t);
        s;
      }
    }
  }

  /** Whitespace alone strips to nothing. */
  lemma StripAllSpace(pre: string, post: string)
    requires forall k :: 0 <= k < |pre| ==> IsSpace(pre[k])
    requires forall k :: 0 <= k < |post| ==> IsSpace(post[k])
    ensures Strip(pre + post) == []
  {
    var t := pre + post;
    forall k | 0 <= k < |t|
      ensures IsSpace(t[k])
    {
      if k >= |pre| {
        assert t[k] == post[k - |pre|];
      }
    }
    AllSpaceStripsLeft(t);
  }

  lemma {:induction false} StripLeftPadded(pre: string, s: string)
    requires forall k :: 0 <= k < |pre| ==> IsSpace(pre[k])
    requires s == [] || !IsSpace(s[0])
    ensures StripLeft(pre + s) == s
  {
    if pre != [] {
      assert (pre + s)[1..] == pre[1..] + s;
      StripLeftPadded(pre[1..], s);
    }
  }

  lemma {:induction false} StripRightPadded(s: string, post: string)
    requires forall k :: 0 <= k < |post| ==> IsSpace(post[k])
    requires s != [] && !IsSpace(s[|s| - 1])
    ensures StripRight(s + post) == s
  {
    if post != [] {
      assert (s + post)[..|s + post| - 1] == s + post[..|post| - 1];
      StripRightPadded(s, post[..|post| - 1]);
    } else {
      assert s + post == s;
    }
  }

  lemma {:induction false} AllSpaceStripsLeft(t: string)
    requires forall k :: 0 <= k < |t| ==> IsSpace(t[k])
    ensures StripLeft(t) == []
  {
    if t != [] {
      AllSpaceStripsLeft(t[1..]);
    }
  }

  /** `pat` occurs in `s` starting at index `k`. */
  predicate OccursAt(s: string, pat: string, k: int)
  {
    0 <= k && k + |pat| <= |s| && s[k..k + |pat|] == pat
  }

  /** `s.find(pat, i)`: the first occurrence of `pat` at or after index `i`. */
  function FindFrom(s: string, pat: string, i: nat): (r: Option<nat>)
    decreases |s| - i
    ensures r.Some? ==> i <= r.value && OccursAt(s, pat, r.value)
    ensures r.Some? ==> forall k :: i <= k < r.value ==> !OccursAt(s, pat, k)
    ensures r.None? ==> forall k :: i <= k ==> !OccursAt(s, pat, k)
  {
    if i + |pat| > |s| then None
    else if s[i..i + |pat|] == pat then Some(i)
    else FindFrom(s, pat, i + 1)
  }

  /** Python's `pat in s`. */
  predicate Contains(s: string, pat: string)
  {
    FindFrom(s, pat, 0).Some?
  }

  lemma ContainsAt(s: string, pat: string, k: int)
    requires OccursAt(s, pat, k)
    ensures Contains(s, pat)
  {
  }

  lemma ContainsWitness(s: string, pat: string)
    requires Contains(s, pat)
    ensures exists k :: OccursAt(s, pat, k)
  {
    assert OccursAt(s, pat, FindFrom(s, pat, 0).value);
  }

  /** What occurs in a part occurs in the whole. */
  lemma ContainsInLeft(x: string, y: string, pat: string)
    requires Contains(x, pat)
    ensures Contains(x + y, pat)
  {
    var k := FindFrom(x, pat, 0).value;
    assert (x + y)[k..k + |pat|] == x[k..k + |pat|];
    ContainsAt(x + y, pat, k);
  }

  lemma ContainsInRight(x: string, y: string, pat: string)
    requires Contains(y, pat)
    ensures Contains(x + y, pat)
  {
    var k := FindFrom(y, pat, 0).value;
    assert (x + y)[|x| + k..|x| + k + |pat|] == y[k..k + |pat|];
    ContainsAt(x + y, pat, |x| + k);
  }

  lemma ContainsSelf(s: string)
    ensures Contains(s, s)
  {
    assert s[0..|s|] == s;
    ContainsAt(s, s, 0);
  }

  lemma ContainsMiddle(x: string, pat: string, y: string)
    ensures Contains(x + pat + y, pat)
  {
    ContainsSelf(pat);
    ContainsInRight(x, pat, pat);
    ContainsInLeft(x + pat, y, pat);
  }

  predicate StartsWith(s: string, p: string)
  {
    |p| <= |s| && s[..|p|] == p
  }

  predicate EndsWith(s: string, p: string)
  {
    |p| <= |s| && s[|s| - |p|..] == p
  }

  /** A window of `x + y` that lies inside `x` or inside `y` is an occurrence there. */
  lemma OccursInParts(x: string, y: string, pat: string, k: int)
    requires OccursAt(x + y, pat, k)
    ensures k + |pat| <= |x| ==> OccursAt(x, pat, k)
    ensures k >= |x| ==> OccursAt(y, pat, k - |x|)
  {
    if k + |pat| <= |x| {
      assert (x + y)[k..k + |pat|] == x[k..k + |pat|];
    }
    if k >= |x| {
      assert (x + y)[k..k + |pat|] == y[k - |x|..k - |x| + |pat|];
    }
  }

  /** Gluing two strings with a separator character that `pat` does not
      contain creates no occurrence of `pat`. */
  lemma NoOccurrenceAcrossSeparator(x: string, c: char, y: string, pat: string)
    requires !Contains(x, pat) && !Contains(y, pat)
    requires c !in pat
    ensures !Contains(x + [c] + y, pat)
  {
    var z := x + [c] + y;
    if Contains(z, pat) {
      var k := FindFrom(z, pat, 0).value;
      if k + |pat| <= |x| {
        assert z == x + ([c] + y);
        OccursInParts(x, [c] + y, pat, k);
        ContainsAt(x, pat, k);
      } else if k > |x| {
        assert z == (x + [c]) + y;
        OccursInParts(x + [c], y, pat, k);
        ContainsAt(y, pat, k - |x| - 1);
      } else {
        WindowOverSeparator(x, c, y, pat, k);
      }
    }
  }

  lemma WindowOverSeparator(x: string, c: char, y: string, pat: string, k: int)
    requires OccursAt(x + [c] + y, pat, k)
    requires k <= |x| < k + |pat|
    ensures c in pat
  {
    var z := x + [c] + y;
    assert pat[|x| - k] == z[k..k + |pat|][|x| - k] == z[|x|] == c;
  }

  /** The first occurrence of `pat` in `a + pat + b` at or after `i` is the
      displayed one, when `a` has none from `i` on and its last character
      cannot start an overlapping one. */
  lemma FirstOccurrenceAfter(a: string, pat: string, b: string, i: nat)
    requires i <= |a|
    requires forall k :: i <= k ==> !OccursAt(a, pat, k)
    requires a == [] || a[|a| - 1] !in pat
    ensures FindFrom(a + pat + b, pat, i) == Some(|a|)
  {
    var z := a + pat + b;
    assert z[|a|..|a| + |pat|] == pat;
    assert OccursAt(z, pat, |a|);
    var r := FindFrom(z, pat, i);
    if r.value < |a| {
      var k := r.value;
      if k + |pat| <= |a| {
        assert z == a + (pat + b);
        OccursInParts(a, pat + b, pat, k);
      } else {
        assert z == a + (pat + b);
        WindowOverLastChar(a, pat + b, pat, k);
      }
    }
  }

  lemma WindowOverLastChar(a: string, b: string, pat: string, k: int)
    requires OccursAt(a + b, pat, k)
    requires k < |a| < k + |pat|
    ensures a[|a| - 1] in pat
  {
    var z := a + b;
    assert pat[|a| - 1 - k] == z[k..k + |pat|][|a| - 1 - k] == z[|a| - 1] == a[|a| - 1];
  }

  /** A string without occurrences of `pat` keeps none when put after a prefix
      whose occurrences all lie inside it and whose last character cannot
      start an overlapping one. */
  lemma NoOccurrenceAfterPrefix(pre: string, s: string, pat: string)
    requires !Contains(s, pat)
    ensures forall k :: |pre| <= k ==> !OccursAt(pre + s, pat, k)
  {
    forall k | |pre| <= k
      ensures !OccursAt(pre + s, pat, k)
    {
      if OccursAt(pre + s, pat, k) {
        OccursInParts(pre, s, pat, k);
        ContainsAt(s, pat, k - |pre|);
      }
    }
  }

  /** ASCII-only `lower()` of one character. */
  function LowerChar(c: char): char
  {
    if 'A' <= c <= 'Z' then (c as int + 32) as char else c
  }

  /** ASCII-only `upper()` of one character. */
  function UpperChar(c: char): char
  {
    if 'a' <= c <= 'z' then (c as int - 32) as char else c
  }

  function Lower(s: string): (r: string)
    ensures |r| == |s|
    ensures forall k :: 0 <= k < |s| ==> r[k] == LowerChar(s[k])
  {
    if s == [] then [] else [LowerChar(s[0])] + Lower(s[1..])
  }

  function Upper(s: string): (r: string)
    ensures |r| == |s|
    ensures forall k :: 0 <= k < |s| ==> r[k] == UpperChar(s[k])
  {
    if s == [] then [] else [UpperChar(s[0])] + Upper(s[1..])
  }

  /** Lower-casing forgets an earlier upper-casing. */
  lemma LowerOfUpper(s: string)
    ensures Lower(Upper(s)) == Lower(s)
  {
    forall k | 0 <= k < |s|
      ensures Lower(Upper(s))[k] == Lower(s)[k]
    {
      var c := s[k];
      assert LowerChar(UpperChar(c)) == LowerChar(c);
    }
  }

  lemma {:induction false} LowerAppend(x: string, y: string)
    ensures Lower(x + y) == Lower(x) + Lower(y)
  {
    if x == [] {
      assert x + y == y;
    } else {
      assert (x + y)[1..] == x[1..] + y;
      LowerAppend(x[1..], y);
      ConcatAssoc([LowerChar(x[0])], Lower(x[1..]), Lower(y));
    }
  }

  /** Every part lower-cased. */
  function LowerAll(parts: seq<string>): (r: seq<string>)
    ensures |r| == |parts|
    ensures forall k :: 0 <= k < |parts| ==> r[k] == Lower(parts[k])
  {
    if parts == [] then [] else [Lower(parts[0])] + LowerAll(parts[1..])
  }

  /** Lower-casing a join with a caseless separator lower-cases each part. */
  lemma {:induction false} LowerJoin(sep: string, parts: seq<string>)
    requires Lower(sep) == sep
    ensures Lower(Join(sep, parts)) == Join(sep, LowerAll(parts))
  {
    if |parts| > 1 {
      LowerJoin(sep, parts[1..]);
      LowerAppend(parts[0] + sep, Join(sep, parts[1..]));
      LowerAppend(parts[0], sep);
      assert LowerAll(parts)[1..] == LowerAll(parts[1..]);
    }
  }

  /** `sep.join(parts)`. */
  function Join(sep: string, parts: seq<string>): (r: string)
  {
    if |parts| == 0 then ""
    else if |parts| == 1 then parts[0]
    else parts[0] + sep + Join(sep, parts[1..])
  }

  /** Joining with a separator adds no occurrence of a character that neither
      the separator nor any part contains. */
  lemma {:induction false} JoinAvoids(sep: string, parts: seq<string>, c: char)
    requires c !in sep
    requires forall k :: 0 <= k < |parts| ==> c !in parts[k]
    ensures c !in Join(sep, parts)
  {
    if |parts| > 1 {
      JoinAvoids(sep, parts[1..], c);
    }
  }

  /** Joining a non-empty list begins with its first element and ends with its last. */
  lemma {:induction false} JoinEnds(sep: string, parts: seq<string>)
    requires |parts| > 0
    ensures StartsWith(Join(sep, parts), parts[0])
    ensures EndsWith(Join(sep, parts), parts[|parts| - 1])
  {
    if |parts| > 1 {
      JoinEnds(sep, parts[1..]);
      var rest := Join(sep, parts[1..]);
      assert Join(sep, parts) == (parts[0] + sep) + rest;
      var j := Join(sep, parts);
      assert j[|j| - |parts[|parts| - 1]|..] == rest[|rest| - |parts[|parts| - 1]|..];
    }
  }

  /** Joining a list whose k-th element is `x` shows `x` in the result. */
  lemma {:induction false} JoinShows(sep: string, parts: seq<string>, k: nat)
    requires k < |parts|
    ensures Contains(Join(sep, parts), parts[k])
  {
    if k == 0 {
      JoinEnds(sep, parts);
      ContainsAt(Join(sep, parts), parts[0], 0);
    } else {
      JoinShows(sep, parts[1..], k - 1);
      assert parts[1..][k - 1] == parts[k];
      var rest := Join(sep, parts[1..]);
      var pre := parts[0] + sep;
      assert Join(sep, parts) == pre + rest;
      ContainsInRight(pre, rest, parts[k]);
    }
  }

  /** Joining two non-empty lists puts the separator between their joins. */
  lemma {:induction false} JoinConcat(sep: string, p: seq<string>, q: seq<string>)
    requires |p| > 0 && |q| > 0
    ensures Join(sep, p + q) == Join(sep, p) + sep + Join(sep, q)
  {
    assert (p + q)[1..] == p[1..] + q;
    if |p| > 1 {
      JoinConcat(sep, p[1..], q);
    }
  }

  /** A one-character separator that cannot appear in a pattern lets no
      occurrence of it straddle two parts. */
  lemma {:induction false} JoinAvoidsPattern(sep: string, parts: seq<string>, pat: string)
    requires |sep| == 1 && sep[0] !in pat
    requires forall k :: 0 <= k < |parts| ==> !Contains(parts[k], pat)
    requires pat != []
    ensures !Contains(Join(sep, parts), pat)
  {
    if |parts| > 1 {
      JoinAvoidsPattern(sep, parts[1..], pat);
      assert parts[0] + sep + Join(sep, parts[1..]) == parts[0] + [sep[0]] + Join(sep, parts[1..]);
      NoOccurrenceAcrossSeparator(parts[0], sep[0], Join(sep, parts[1..]), pat);
    } else if |parts| == 0 {
      assert FindFrom("", pat, 0).None?;
    }
  }

  /** Python's `s.split(c)` for a one-character separator. */
  function Split(s: string, c: char): (r: seq<string>)
    decreases |s|
    ensures |r| >= 1
    ensures forall k :: 0 <= k < |r| ==> c !in r[k]
    ensures |r| == 1 <==> c !in s
    ensures |r| == 1 ==> r[0] == s
  {
    if c !in s then [s]
    else
      var k := IndexOfChar(s, c);
      [s[..k]] + Split(s[k + 1..], c)
  }

  /** Index of the first occurrence of a character known to be present. */
  function IndexOfChar(s: string, c: char): (k: nat)
    requires c in s
    ensures k < |s| && s[k] == c && c !in s[..k]
  {
    if s[0] == c then 0 else 1 + IndexOfChar(s[1..], c)
  }

  /** Splitting a join of separator-free parts gives the parts back. */
  lemma {:induction false} JoinSplit(parts: seq<string>, c: char)
    requires |parts| >= 1
    requires forall k :: 0 <= k < |parts| ==> c !in parts[k]
    ensures Split(Join([c], parts), c) == parts
  {
    if |parts| > 1 {
      var a, rest := parts[0], Join([c], parts[1..]);
      JoinSplit(parts[1..], c);
      var s := Join([c], parts);
      assert s == a + [c] + rest;
      AroundElement(a, c, rest);
      IndexOfCharIs(s, c, |a|);
      assert Split(s, c) == [a] + Split(rest, c);
      assert parts == [a] + parts[1..];
    }
  }

  /** Joining the pieces of a split with the separator gives the text back. */
  lemma {:induction false} SplitJoin(s: string, c: char)
    ensures Join([c], Split(s, c)) == s
    decreases |s|
  {
    if c in s {
      var k := IndexOfChar(s, c);
      var rest := s[k + 1..];
      SplitJoin(rest, c);
      JoinCons([c], s[..k], Split(rest, c));
      AroundIndex(s, k);
    }
  }

  /** Joining a head before a non-empty list puts the separator after it. */
  lemma JoinCons(sep: string, a: string, parts: seq<string>)
    requires |parts| >= 1
    ensures Join(sep, [a] + parts) == a + sep + Join(sep, parts)
  {
    assert ([a] + parts)[1..] == parts;
  }

  lemma IndexOfCharIs(s: string, c: char, k: nat)
    requires k < |s| && s[k] == c && c !in s[..k]
    ensures IndexOfChar(s, c) == k
  {
    if s[0] != c {
      IndexOfCharIs(s[1..], c, k - 1);
    }
  }

  /** Python's `str(n)` for a non-negative integer. */
  function NatToString(n: nat): (r: string)
    ensures |r| >= 1
    ensures forall k :: 0 <= k < |r| ==> '0' <= r[k] <= '9'
    ensures |r| > 1 ==> r[0] != '0'
  {
    if n < 10 then [Digit(n)] else NatToString(n / 10) + [Digit(n % 10)]
  }

  function Digit(d: nat): char
    requires d < 10
  {
    "0123456789"[d]
  }

  predicate IsDigits(s: string)
  {
    forall k :: 0 <= k < |s| ==> '0' <= s[k] <= '9'
  }

  /** The number a string of decimal digits spells. */
  function DigitsValue(s: string): nat
    requires IsDigits(s)
  {
    if s == [] then 0 else DigitsValue(s[..|s| - 1]) * 10 + (s[|s| - 1] as int - '0' as int)
  }

  lemma DigitValue(d: nat)
    requires d < 10
    ensures Digit(d) as int - '0' as int == d
  {
  }

  /** Spelling a number out in decimal and reading it back gives it again. */
  lemma {:induction false} NatToStringValue(n: nat)
    ensures DigitsValue(NatToString(n)) == n
  {
    DigitValue(n % 10);
    if n >= 10 {
      NatToStringValue(n / 10);
      var s := NatToString(n);
      assert s[..|s| - 1] == NatToString(n / 10);
    }
  }

  /** Distinct numbers are spelled differently. */
  lemma NatToStringInjective(n: nat, m: nat)
    requires NatToString(n) == NatToString(m)
    ensures n == m
  {
    NatToStringValue(n);
    NatToStringValue(m);
  }

  function Pow10(w: nat): nat
  {
    if w == 0 then 1 else 10 * Pow10(w - 1)
  }

  /** The last `w` decimal digits of `n`, zero-padded: the `%0wd` format of
      a number below `10^w`. */
  function Padded(n: nat, w: nat): (r: string)
    ensures |r| == w && IsDigits(r)
  {
    if w == 0 then "" else Padded(n / 10, w - 1) + [Digit(n % 10)]
  }

  /** A number below `10^w` is read back from its padded spelling. */
  lemma {:induction false} PaddedValue(n: nat, w: nat)
    requires n < Pow10(w)
    ensures DigitsValue(Padded(n, w)) == n
  {
    if w > 0 {
      DigitValue(n % 10);
      PaddedValue(n / 10, w - 1);
      var s := Padded(n, w);
      assert s[..|s| - 1] == Padded(n / 10, w - 1);
    }
  }

  /** Python's `s[:n]` for a non-negative bound. */
  function Prefix<T>(s: seq<T>, n: nat): (r: seq<T>)
    ensures |r| == if n < |s| then n else |s|
    ensures r == s[..|r|]
  {
    if n < |s| then s[..n] else s
  }

  /** Python's `s[:m]` for any integer bound: a negative bound counts from the end. */
  function PySlicePrefix<T>(s: seq<T>, m: int): (r: seq<T>)
    ensures |r| <= |s| && r == s[..|r|]
    ensures m >= 0 ==> |r| == if m < |s| then m else |s|
    ensures m < 0 ==> |r| == if |s| + m > 0 then |s| + m else 0
  {
    if m >= 0 then Prefix(s, m)
    else if |s| + m > 0 then s[..|s| + m]
    else []
  }

  lemma ConcatAssoc<T>(a: seq<T>, b: seq<T>, c: seq<T>)
    ensures a + b + c == a + (b + c)
  {
  }

  /** The two halves of a concatenation. */
  lemma ConcatParts<T>(a: seq<T>, b: seq<T>)
    ensures (a + b)[..|a|] == a && (a + b)[|a|..] == b
  {
  }

  /** A non-empty sequence is its head followed by its tail. */
  lemma HeadTail<T>(p: seq<T>, s: seq<T>)
    requires p != []
    ensures p + s == [p[0]] + (p[1..] + s)
  {
    assert p == [p[0]] + p[1..];
  }

  /** The parts around one element placed between two sequences. */
  lemma AroundElement<T>(a: seq<T>, x: T, b: seq<T>)
    ensures var s := a + [x] + b;
      s[|a|] == x && s[..|a|] == a && s[|a| + 1..] == b
  {
  }

  /** A concatenation starts with its first part. */
  lemma StartsWithAppend(x: string, y: string)
    ensures StartsWith(x + y, x)
  {
    assert (x + y)[..|x|] == x;
  }

  /** A concatenation ends with its second part. */
  lemma EndsWithAppend(x: string, y: string)
    ensures EndsWith(x + y, y)
  {
    assert (x + y)[|x|..] == y;
  }

  /** A sequence is what precedes index `k`, element `k` and what follows. */
  lemma AroundIndex<T>(s: seq<T>, k: nat)
    requires k < |s|
    ensures s == s[..k] + [s[k]] + s[k + 1..]
  {
  }

  /** The first `i + 1` elements are the first `i` and element `i`. */
  lemma TakeSnoc<T>(s: seq<T>, i: nat)
    requires i < |s|
    ensures s[..i + 1] == s[..i] + [s[i]]
  {
  }

  /** Past a leading element, index `i + 1` is index `i` of the rest. */
  lemma ConsIndex<T>(x: T, t: seq<T>, i: nat)
    requires i < |t|
    ensures i + 1 < |[x] + t| && ([x] + t)[i + 1] == t[i]
  {
  }
}
