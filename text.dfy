/** Python's string built-ins that the rewrite loop relies on, as functions on
    `string` (a sequence of Unicode scalar values): `str.split()`,
    `str.strip()`, `str.lower()`, the substring test `p in s`, `sep.join(...)`
    and `str(n)` for a natural number. */
module Text {

  /** Python's `str.isspace()` on one character: the separators that
      `str.split()` and `str.strip()` (both without arguments) use. */
  predicate IsSpace(c: char) {
    || ('\t' <= c <= '\r')           // tab, line feed, vertical tab, form feed, carriage return
    || ('\U{1C}' <= c <= ' ')        // the four information separators and the space
    || c == '\U{85}' || c == '\U{A0}' || c == '\U{1680}'
    || ('\U{2000}' <= c <= '\U{200A}')
    || c == '\U{2028}' || c == '\U{2029}' || c == '\U{202F}' || c == '\U{205F}'
    || c == '\U{3000}'
  }

  predicate IsDigit(c: char) {
    '0' <= c <= '9'
  }

  // ---------------------------------------------------------------------------
  // str.lower()
  // ---------------------------------------------------------------------------

  /** Lower-cases one character (ASCII letters only). */
  function LowerChar(c: char): (r: char)
    ensures 'A' <= c <= 'Z' ==> r as int == c as int + 32
    ensures !('A' <= c <= 'Z') ==> r == c
    ensures !('A' <= r <= 'Z')
  {
    if 'A' <= c <= 'Z' then (c as int + 32) as char else c
  }

  /** `s.lower()`, character by character. */
  function Lower(s: string): (r: string)
    ensures |r| == |s|
    ensures forall i :: 0 <= i < |r| ==> !('A' <= r[i] <= 'Z')
  {
    seq(|s|, i requires 0 <= i < |s| => LowerChar(s[i]))
  }

  lemma LowerAppend(a: string, b: string)
    ensures Lower(a + b) == Lower(a) + Lower(b)
  {
    assert forall i :: 0 <= i < |a + b| ==> Lower(a + b)[i] == (Lower(a) + Lower(b))[i];
  }

  /** A lower-case letter appears in `Lower(s)` only where `s` holds it in
      lower or upper case. */
  lemma LowerAvoids(s: string, c: char)
    requires 'a' <= c <= 'z'
    requires c !in s && (c as int - 32) as char !in s
    ensures c !in Lower(s)
  {
  }

  // ---------------------------------------------------------------------------
  // The substring test `p in s`
  // ---------------------------------------------------------------------------

  /** `p in s` for strings: `p` occurs in `s` as a contiguous block. */
  predicate Contains(s: string, p: string)
    decreases |s|
  {
    p <= s || (|s| > 0 && Contains(s[1..], p))
  }

  /** `p` sits in `s` starting at index `i`. */
  predicate OccursAt(s: string, p: string, i: int) {
    0 <= i <= |s| - |p| && s[i..i + |p|] == p
  }

  /** `Contains` agrees with the positional reading of a substring. */
  lemma {:induction false} ContainsIffOccurs(s: string, p: string)
    ensures Contains(s, p) <==> exists i :: OccursAt(s, p, i)
    decreases |s|
  {
    if p <= s {
      assert OccursAt(s, p, 0);
    } else if |s| > 0 {
      ContainsIffOccurs(s[1..], p);
      forall i | OccursAt(s, p, i) ensures i > 0 && OccursAt(s[1..], p, i - 1) {
        assert s[..|p|] == s[0..0 + |p|];
        if i > 0 {
          assert s[1..][i - 1..i - 1 + |p|] == s[i..i + |p|];
        }
      }
      if Contains(s[1..], p) {
        var i :| OccursAt(s[1..], p, i);
        assert OccursAt(s, p, i + 1);
      }
    }
  }

  lemma ContainsInLeft(a: string, b: string, p: string)
    requires Contains(a, p)
    ensures Contains(a + b, p)
  {
    ContainsIffOccurs(a, p);
    var i :| OccursAt(a, p, i);
    assert OccursAt(a + b, p, i);
    ContainsIffOccurs(a + b, p);
  }

  lemma ContainsInRight(a: string, b: string, p: string)
    requires Contains(b, p)
    ensures Contains(a + b, p)
  {
    ContainsIffOccurs(b, p);
    var i :| OccursAt(b, p, i);
    assert OccursAt(a + b, p, |a| + i);
    ContainsIffOccurs(a + b, p);
  }

  // ---------------------------------------------------------------------------
  // Two guards that rule a two-character pattern out of a string and survive
  // concatenation; they show that a literal phrase can never occur.
  // ---------------------------------------------------------------------------

  /** Every `x` in `s` is followed, inside `s`, by a character other than `y`. */
  ghost predicate FollowedSafely(s: string, x: char, y: char) {
    forall i :: 0 <= i < |s| && s[i] == x ==> i + 1 < |s| && s[i + 1] != y
  }

  /** Every `y` in `s` is preceded, inside `s`, by a character other than `x`. */
  ghost predicate PrecededSafely(s: string, x: char, y: char) {
    forall i :: 0 <= i < |s| && s[i] == y ==> 0 < i && s[i - 1] != x
  }

  lemma FollowedSafelyAppend(a: string, b: string, x: char, y: char)
    requires FollowedSafely(a, x, y) && FollowedSafely(b, x, y)
    ensures FollowedSafely(a + b, x, y)
  {
    forall i | 0 <= i < |a + b| && (a + b)[i] == x
      ensures i + 1 < |a + b| && (a + b)[i + 1] != y
    {
      if i < |a| {
        assert a[i] == x;
      } else {
        assert b[i - |a|] == x;
      }
    }
  }

  lemma PrecededSafelyAppend(a: string, b: string, x: char, y: char)
    requires PrecededSafely(a, x, y) && PrecededSafely(b, x, y)
    ensures PrecededSafely(a + b, x, y)
  {
    forall i | 0 <= i < |a + b| && (a + b)[i] == y
      ensures 0 < i && (a + b)[i - 1] != x
    {
      if i < |a| {
        assert a[i] == y;
      } else {
        assert b[i - |a|] == y;
      }
    }
  }

  /** A string guarded against `x` followed by `y` contains no phrase that has
      `y` right after an `x`. */
  lemma FollowedSafelyExcludes(s: string, p: string, m: nat, x: char, y: char)
    requires FollowedSafely(s, x, y)
    requires m + 1 < |p| && p[m] == x && p[m + 1] == y
    ensures !Contains(s, p)
  {
    ContainsIffOccurs(s, p);
  }

  /** A string guarded against `y` preceded by `x` contains no phrase that has
      `y` right after an `x`. */
  lemma PrecededSafelyExcludes(s: string, p: string, m: nat, x: char, y: char)
    requires PrecededSafely(s, x, y)
    requires 0 < m < |p| && p[m - 1] == x && p[m] == y
    ensures !Contains(s, p)
  {
    ContainsIffOccurs(s, p);
  }

  // ---------------------------------------------------------------------------
  // sep.join(parts)
  // ---------------------------------------------------------------------------

  /** `sep.join(parts)`. */
  function Join(sep: string, parts: seq<string>): string
    decreases |parts|
  {
    if |parts| == 0 then ""
    else if |parts| == 1 then parts[0]
    else parts[0] + sep + Join(sep, parts[1..])
  }

  /** A joined string starts with its first part. */
  lemma {:induction false} JoinStartsWithFirst(sep: string, parts: seq<string>)
    requires |parts| > 0
    ensures parts[0] <= Join(sep, parts)
  {
  }

  lemma {:induction false} JoinFollowedSafely(sep: string, parts: seq<string>, x: char, y: char)
    requires FollowedSafely(sep, x, y)
    requires forall k :: 0 <= k < |parts| ==> FollowedSafely(parts[k], x, y)
    ensures FollowedSafely(Join(sep, parts), x, y)
    decreases |parts|
  {
    if |parts| > 1 {
      JoinFollowedSafely(sep, parts[1..], x, y);
      FollowedSafelyAppend(parts[0], sep, x, y);
      FollowedSafelyAppend(parts[0] + sep, Join(sep, parts[1..]), x, y);
    }
  }

  /** The lower-cased join keeps a guard that the separator and every
      lower-cased part keep. */
  lemma {:induction false} JoinLowerPrecededSafely(sep: string, parts: seq<string>, x: char, y: char)
    requires PrecededSafely(Lower(sep), x, y)
    requires forall k :: 0 <= k < |parts| ==> PrecededSafely(Lower(parts[k]), x, y)
    ensures PrecededSafely(Lower(Join(sep, parts)), x, y)
    decreases |parts|
  {
    if |parts| > 1 {
      JoinLowerPrecededSafely(sep, parts[1..], x, y);
      LowerAppend(parts[0], sep);
      LowerAppend(parts[0] + sep, Join(sep, parts[1..]));
      PrecededSafelyAppend(Lower(parts[0]), Lower(sep), x, y);
      PrecededSafelyAppend(Lower(parts[0]) + Lower(sep), Lower(Join(sep, parts[1..])), x, y);
    }
  }

  // ---------------------------------------------------------------------------
  // str(n) for a natural number
  // ---------------------------------------------------------------------------

  function DigitChar(d: nat): (c: char)
    requires d < 10
    ensures IsDigit(c)
  {
    ['0', '1', '2', '3', '4', '5', '6', '7', '8', '9'][d]
  }

  function DigitValue(c: char): nat
    requires IsDigit(c)
  {
    c as int - '0' as int
  }

  /** `str(n)`: decimal digits, no sign, no leading zero. */
  function NatToString(n: nat): (r: string)
    ensures |r| > 0
    ensures forall k :: 0 <= k < |r| ==> IsDigit(r[k])
    decreases n
  {
    if n < 10 then [DigitChar(n)] else NatToString(n / 10) + [DigitChar(n % 10)]
  }

  /** Reads a string of decimal digits back as a number. */
  function ParseDecimal(s: string): nat
    requires forall k :: 0 <= k < |s| ==> IsDigit(s[k])
    decreases |s|
  {
    if s == [] then 0 else 10 * ParseDecimal(s[..|s| - 1]) + DigitValue(s[|s| - 1])
  }

  /** The number printed in the judge's feedback reads back as the count it reports. */
  lemma {:induction false} NatToStringRoundTrip(n: nat)
    ensures ParseDecimal(NatToString(n)) == n
    decreases n
  {
    var r := NatToString(n);
    if n < 10 {
      assert DigitValue(DigitChar(n)) == n;
    } else {
      NatToStringRoundTrip(n / 10);
      assert r[..|r| - 1] == NatToString(n / 10);
      assert DigitValue(DigitChar(n % 10)) == n % 10;
    }
  }

  // ---------------------------------------------------------------------------
  // str.split() and len(...)
  // ---------------------------------------------------------------------------

  /** The end of the word that starts at `i`: the first whitespace at or after
      `i`, or the end of `s`. */
  function WordEnd(s: string, i: nat): (j: nat)
    requires i <= |s|
    ensures i <= j <= |s|
    ensures forall k :: i <= k < j ==> !IsSpace(s[k])
    ensures j == |s| || IsSpace(s[j])
    decreases |s| - i
  {
    if i == |s| || IsSpace(s[i]) then i else WordEnd(s, i + 1)
  }

  /** `s.split()`: the maximal runs of non-whitespace, in order. */
  function Words(s: string): (ws: seq<string>)
    ensures forall k :: 0 <= k < |ws| ==> |ws[k]| > 0
    ensures forall k, m :: 0 <= k < |ws| && 0 <= m < |ws[k]| ==> !IsSpace(ws[k][m])
    decreases |s|
  {
    if s == [] then []
    else if IsSpace(s[0]) then Words(s[1..])
    else
      var j := WordEnd(s, 0);
      [s[..j]] + Words(s[j..])
  }

  /** `len(s.split())`. */
  function WordCount(s: string): nat {
    |Words(s)|
  }

  /** The characters of `s` other than whitespace, in order. */
  function Squeeze(s: string): string
    decreases |s|
  {
    if s == [] then [] else (if IsSpace(s[0]) then [] else [s[0]]) + Squeeze(s[1..])
  }

  function Concat(ws: seq<string>): string
    decreases |ws|
  {
    if ws == [] then [] else ws[0] + Concat(ws[1..])
  }

  lemma {:induction false} SqueezeAppend(a: string, b: string)
    ensures Squeeze(a + b) == Squeeze(a) + Squeeze(b)
    decreases |a|
  {
    if a == [] {
      assert a + b == b;
    } else {
      assert (a + b)[1..] == a[1..] + b;
      SqueezeAppend(a[1..], b);
    }
  }

  lemma {:induction false} SqueezeNoSpace(s: string)
    requires forall k :: 0 <= k < |s| ==> !IsSpace(s[k])
    ensures Squeeze(s) == s
    decreases |s|
  {
    if s != [] {
      SqueezeNoSpace(s[1..]);
      assert [s[0]] + s[1..] == s;
    }
  }

  /** Splitting loses only whitespace: the words, glued back together, are the
      non-whitespace characters of `s` in their original order. */
  lemma {:induction false} WordsKeepEverythingButSpace(s: string)
    ensures Concat(Words(s)) == Squeeze(s)
    decreases |s|
  {
    if s == [] {
    } else if IsSpace(s[0]) {
      WordsKeepEverythingButSpace(s[1..]);
    } else {
      var j := WordEnd(s, 0);
      assert s == s[..j] + s[j..];
      WordsKeepEverythingButSpace(s[j..]);
      SqueezeAppend(s[..j], s[j..]);
      SqueezeNoSpace(s[..j]);
      assert ([s[..j]] + Words(s[j..]))[1..] == Words(s[j..]);
    }
  }

  /** A text made only of whitespace has no words, and vice versa. */
  lemma {:induction false} NoWordsIffBlank(s: string)
    ensures WordCount(s) == 0 <==> forall k :: 0 <= k < |s| ==> IsSpace(s[k])
    decreases |s|
  {
    if s != [] {
      if IsSpace(s[0]) {
        NoWordsIffBlank(s[1..]);
        if forall k :: 0 <= k < |s[1..]| ==> IsSpace(s[1..][k]) {
          forall k | 0 <= k < |s| ensures IsSpace(s[k]) {
            if k > 0 { assert s[k] == s[1..][k - 1]; }
          }
        }
      }
    }
  }

  /** A word of `s` starts at `i`: a non-whitespace character at the start of
      `s` or right after whitespace. */
  predicate WordStartAt(s: string, i: int) {
    0 <= i < |s| && !IsSpace(s[i]) && (i == 0 || IsSpace(s[i - 1]))
  }

  /** The number of word starts at positions `i` and later. */
  function StartsFrom(s: string, i: nat): nat
    requires i <= |s|
    decreases |s| - i
  {
    if i == |s| then 0 else (if WordStartAt(s, i) then 1 else 0) + StartsFrom(s, i + 1)
  }

  /** Past position `k`, a suffix has the same word starts as the whole. */
  lemma {:induction false} StartsFromSuffix(s: string, k: nat, i: nat)
    requires k < i <= |s|
    ensures StartsFrom(s, i) == StartsFrom(s[k..], i - k)
    decreases |s| - i
  {
    if i < |s| {
      assert WordStartAt(s, i) == WordStartAt(s[k..], i - k);
      StartsFromSuffix(s, k, i + 1);
    }
  }

  /** Inside a run of non-whitespace no word starts. */
  lemma {:induction false} NoStartsInsideWord(s: string, i: nat, j: nat)
    requires 1 <= i <= j <= |s|
    requires forall k :: 0 <= k < j ==> !IsSpace(s[k])
    ensures StartsFrom(s, i) == StartsFrom(s, j)
    decreases j - i
  {
    if i < j {
      assert !WordStartAt(s, i);
      NoStartsInsideWord(s, i + 1, j);
    }
  }

  /** `len(s.split())` counts the places where a word begins. */
  lemma {:induction false} WordCountIsWordStarts(s: string)
    ensures WordCount(s) == StartsFrom(s, 0)
    decreases |s|
  {
    if s == [] {
    } else if IsSpace(s[0]) {
      WordCountIsWordStarts(s[1..]);
      if |s| >= 2 {
        assert WordStartAt(s, 1) == WordStartAt(s[1..], 0);
        StartsFromSuffix(s, 1, 2);
      }
    } else {
      var j := WordEnd(s, 0);
      assert WordStartAt(s, 0);
      NoStartsInsideWord(s, 1, j);
      WordCountIsWordStarts(s[j..]);
      assert |Words(s)| == 1 + |Words(s[j..])|;
      if j < |s| {
        assert !WordStartAt(s, j) && !WordStartAt(s[j..], 0);
        StartsFromSuffix(s, j, j + 1);
      }
    }
  }

  // ---------------------------------------------------------------------------
  // str.strip()
  // ---------------------------------------------------------------------------

  /** `s.lstrip()`. */
  function TrimStart(s: string): (r: string)
    ensures |r| <= |s| && r == s[|s| - |r|..]
    ensures forall k :: 0 <= k < |s| - |r| ==> IsSpace(s[k])
    ensures r == [] || !IsSpace(r[0])
    decreases |s|
  {
    if s != [] && IsSpace(s[0]) then TrimStart(s[1..]) else s
  }

  /** `s.rstrip()`. */
  function TrimEnd(s: string): (r: string)
    ensures |r| <= |s| && r == s[..|r|]
    ensures forall k :: |r| <= k < |s| ==> IsSpace(s[k])
    ensures r == [] || !IsSpace(r[|r| - 1])
    decreases |s|
  {
    if s != [] && IsSpace(s[|s| - 1]) then TrimEnd(s[..|s| - 1]) else s
  }

  /** `s.strip()`: `s` less its leading and trailing whitespace. */
  function Strip(s: string): (r: string)
    ensures |r| <= |s| && Contains(s, r)
    ensures r == [] || (!IsSpace(r[0]) && !IsSpace(r[|r| - 1]))
  {
    var t := TrimStart(s);
    var r := TrimEnd(t);
    assert OccursAt(s, r, |s| - |t|);
    ContainsIffOccurs(s, r);
    r
  }

  /** Trimming the front removes whitespace and nothing else. */
  lemma {:induction false} TrimStartKeepsText(s: string)
    ensures Squeeze(TrimStart(s)) == Squeeze(s)
    decreases |s|
  {
    if s != [] && IsSpace(s[0]) {
      TrimStartKeepsText(s[1..]);
    }
  }

  /** Trimming the back removes whitespace and nothing else. */
  lemma {:induction false} TrimEndKeepsText(s: string)
    ensures Squeeze(TrimEnd(s)) == Squeeze(s)
    decreases |s|
  {
    if s != [] && IsSpace(s[|s| - 1]) {
      var init, last := s[..|s| - 1], [s[|s| - 1]];
      TrimEndKeepsText(init);
      assert s == init + last;
      SqueezeAppend(init, last);
      assert Squeeze(last) == [] + Squeeze(last[1..]);
    }
  }

  /** Stripping removes whitespace and nothing else. */
  lemma StripKeepsText(s: string)
    ensures Squeeze(Strip(s)) == Squeeze(s)
  {
    TrimStartKeepsText(s);
    TrimEndKeepsText(TrimStart(s));
  }
}
