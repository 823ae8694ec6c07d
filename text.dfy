/**
 * The string operations the builder relies on, written out with the
 * behaviour of Python 2 byte strings: `strip()`, `split(" ")`, `split()`,
 * `" ".join(...)`, `startswith`, the `"%03i"` format and
 * `os.path.basename` / `os.path.dirname`.
 */
module Text {

  /** The characters Python 2's `str.strip()` and `str.split()` treat as whitespace. */
  predicate IsSpace(c: char)
  {
    c == ' ' || c == '\t' || c == '\n' || c == '\r' || c as int == 11 || c as int == 12
  }

  predicate StartsWith(s: string, prefix: string)
  {
    |prefix| <= |s| && s[..|prefix|] == prefix
  }

  /** `s.lstrip()`: the suffix of `s` that starts at its first non-space character. */
  function StripLeft(s: string): (r: string)
    ensures |r| <= |s| && r == s[|s| - |r|..]
    ensures forall k :: 0 <= k < |s| - |r| ==> IsSpace(s[k])
    ensures r == [] || !IsSpace(r[0])
    decreases |s|
  {
    if s != [] && IsSpace(s[0]) then StripLeft(s[1..]) else s
  }

  /** `s.rstrip()`: the prefix of `s` that ends at its last non-space character. */
  function StripRight(s: string): (r: string)
    ensures |r| <= |s| && r == s[..|r|]
    ensures forall k :: |r| <= k < |s| ==> IsSpace(s[k])
    ensures r == [] || !IsSpace(r[|r| - 1])
    decreases |s|
  {
    if s != [] && IsSpace(s[|s| - 1]) then StripRight(s[..|s| - 1]) else s
  }

  /**
   * `s.strip()`: the middle of `s` left once the whitespace on both sides
   * is removed, which neither starts nor ends with whitespace.
   */
  function Strip(s: string): (r: string)
    ensures |r| <= |s|
    ensures exists i :: 0 <= i <= |s| - |r| && r == s[i..i + |r|] && Blank(s[..i]) && Blank(s[i + |r|..])
    ensures r == [] || (!IsSpace(r[0]) && !IsSpace(r[|r| - 1]))
  {
    var t := StripLeft(s);
    var r := StripRight(t);
    var i := |s| - |t|;
    assert Blank(s[..i]);
    assert s[i + |r|..] == t[|r|..];
    r
  }

  /** The string is whitespace only. */
  predicate Blank(s: string)
  {
    forall k :: 0 <= k < |s| ==> IsSpace(s[k])
  }

  /** A string that has no surrounding whitespace is left alone by `strip()`. */
  lemma StripUnchanged(s: string)
    requires s == [] || (!IsSpace(s[0]) && !IsSpace(s[|s| - 1]))
    ensures Strip(s) == s
  {
  }

  /**
   * `s.split(sep)` with an explicit one-character separator: the pieces
   * between consecutive separators, empty pieces included.
   */
  function SplitOn(s: string, sep: char): (parts: seq<string>)
    ensures |parts| >= 1
    ensures forall k :: 0 <= k < |parts| ==> sep !in parts[k]
    decreases |s|
  {
    if s == [] then [""]
    else
      var rest := SplitOn(s[1..], sep);
      if s[0] == sep then [""] + rest
      else [[s[0]] + rest[0]] + rest[1..]
  }

  /** `sep.join(parts)`. */
  function Join(parts: seq<string>, sep: string): string
    decreases |parts|
  {
    if parts == [] then ""
    else if |parts| == 1 then parts[0]
    else parts[0] + sep + Join(parts[1..], sep)
  }

  /** The text after the first occurrence of `sep`, or "" when there is none. */
  function AfterFirst(s: string, sep: char): (r: string)
    ensures |r| <= |s|
    decreases |s|
  {
    if s == [] then ""
    else if s[0] == sep then s[1..]
    else AfterFirst(s[1..], sep)
  }

  /** The text before the first occurrence of `sep`, or all of `s`. */
  function BeforeFirst(s: string, sep: char): (r: string)
    ensures sep !in r && StartsWith(s, r)
    decreases |s|
  {
    if s == [] || s[0] == sep then ""
    else [s[0]] + BeforeFirst(s[1..], sep)
  }

  /** Joining the pieces of a split with the separator gives back the string. */
  lemma {:induction false} JoinSplit(s: string, sep: char)
    ensures Join(SplitOn(s, sep), [sep]) == s
    decreases |s|
  {
    if s != [] {
      var rest := SplitOn(s[1..], sep);
      JoinSplit(s[1..], sep);
      if s[0] == sep {
        if |rest| == 1 {
          assert Join([""] + rest, [sep]) == "" + [sep] + rest[0];
        } else {
          assert ([""] + rest)[1..] == rest;
        }
      } else {
        var parts := [[s[0]] + rest[0]] + rest[1..];
        if |rest| == 1 {
          assert Join(rest, [sep]) == rest[0];
        } else {
          assert parts[1..] == rest[1..];
          assert Join(rest, [sep]) == rest[0] + [sep] + Join(rest[1..], [sep]);
        }
      }
    }
  }

  /**
   * The first piece of `s.split(sep)` is the text before the first
   * separator, and the other pieces joined back with the separator are
   * the text after it.
   */
  lemma {:induction false} SplitHeadTail(s: string, sep: char)
    ensures SplitOn(s, sep)[0] == BeforeFirst(s, sep)
    ensures Join(SplitOn(s, sep)[1..], [sep]) == AfterFirst(s, sep)
    decreases |s|
  {
    if s != [] {
      var rest := SplitOn(s[1..], sep);
      if s[0] == sep {
        assert ([""] + rest)[1..] == rest;
        JoinSplit(s[1..], sep);
      } else {
        SplitHeadTail(s[1..], sep);
        assert ([[s[0]] + rest[0]] + rest[1..])[1..] == rest[1..];
      }
    }
  }

  /** Splitting a string that begins with a separator-free word and a separator. */
  lemma {:induction false} SplitAfterWord(w: string, sep: char, x: string)
    requires sep !in w
    ensures SplitOn(w + [sep] + x, sep) == [w] + SplitOn(x, sep)
    decreases |w|
  {
    if w == [] {
      assert w + [sep] + x == [sep] + x;
      assert ([sep] + x)[1..] == x;
    } else {
      SplitAfterWord(w[1..], sep, x);
      assert (w + [sep] + x)[1..] == w[1..] + [sep] + x;
      assert [w[0]] + w[1..] == w;
    }
  }

  /** A separator-free head is what comes before the first separator, and the rest is what comes after it. */
  lemma {:induction false} FirstSeparator(w: string, sep: char, x: string)
    requires sep !in w
    ensures BeforeFirst(w + [sep] + x, sep) == w
    ensures AfterFirst(w + [sep] + x, sep) == x
    decreases |w|
  {
    if w == [] {
      assert w + [sep] + x == [sep] + x;
    } else {
      FirstSeparator(w[1..], sep, x);
      assert (w + [sep] + x)[1..] == w[1..] + [sep] + x;
      assert [w[0]] + w[1..] == w;
    }
  }

  /** A string without the separator splits into itself alone. */
  lemma {:induction false} SplitWithoutSeparator(s: string, sep: char)
    requires sep !in s
    ensures SplitOn(s, sep) == [s]
    decreases |s|
  {
    if s != [] {
      SplitWithoutSeparator(s[1..], sep);
      assert [s[0]] + s[1..] == s;
    }
  }

  /** The leading run of non-space characters of `s`. */
  function Word(s: string): (w: string)
    ensures StartsWith(s, w) && (forall k :: 0 <= k < |w| ==> !IsSpace(w[k]))
    ensures |w| < |s| ==> IsSpace(s[|w|])
    ensures s != [] && !IsSpace(s[0]) ==> w != []
    decreases |s|
  {
    if s == [] || IsSpace(s[0]) then "" else [s[0]] + Word(s[1..])
  }

  /** A non-empty run of non-space characters. */
  predicate IsWord(w: string)
  {
    w != [] && forall j :: 0 <= j < |w| ==> !IsSpace(w[j])
  }

  /** `s.split()`: the maximal runs of non-space characters, in order. */
  function Words(s: string): seq<string>
    decreases |s|
  {
    var t := StripLeft(s);
    if t == [] then [] else var w := Word(t); [w] + Words(t[|w|..])
  }

  /** Every piece of a split is a non-empty run of non-space characters. */
  lemma {:induction false} WordsAreWords(s: string)
    ensures forall k :: 0 <= k < |Words(s)| ==> IsWord(Words(s)[k])
    decreases |s|
  {
    var t := StripLeft(s);
    if t != [] {
      var w := Word(t);
      var rest := Words(t[|w|..]);
      assert IsWord(w);
      WordsAreWords(t[|w|..]);
      assert Words(s) == [w] + rest;
      forall k | 0 <= k < |Words(s)|
        ensures IsWord(Words(s)[k])
      {
        if k > 0 {
          assert Words(s)[k] == rest[k - 1];
        }
      }
    }
  }

  /** A word ends at the first whitespace character: what follows it does not matter. */
  lemma {:induction false} WordBeforeSpace(x: string, c: char, y: string)
    requires IsSpace(c)
    ensures Word(x + [c] + y) == Word(x)
    decreases |x|
  {
    if x == [] {
      assert x + [c] + y == [c] + y;
    } else if !IsSpace(x[0]) {
      WordBeforeSpace(x[1..], c, y);
      assert (x + [c] + y)[1..] == x[1..] + [c] + y;
    }
  }

  /** Leading whitespace does not change a split. */
  lemma WordsSkipSpace(s: string)
    requires s != [] && IsSpace(s[0])
    ensures Words(s) == Words(s[1..])
  {
    assert StripLeft(s) == StripLeft(s[1..]);
  }

  /** `split()` cuts at every whitespace character: the words of the two sides, in order. */
  lemma {:induction false} WordsAtSpace(x: string, c: char, y: string)
    requires IsSpace(c)
    ensures Words(x + [c] + y) == Words(x) + Words(y)
    decreases |x|
  {
    if x == [] {
      WordsEmptyPrefix(c, y);
    } else if IsSpace(x[0]) {
      WordsAtSpace(x[1..], c, y);
      WordsSpacePrefix(x, c, y);
    } else {
      var w := Word(x);
      var rest := x[|w|..];
      WordsAfterWord(x, c, y);
      WordsAtSpace(rest, c, y);
      var a, b := Words(rest), Words(y);
      assert Words(x + [c] + y) == [w] + (a + b);
      ConcatAssociates([w], a, b);
    }
  }

  lemma ConcatAssociates<T>(p: seq<T>, q: seq<T>, r: seq<T>)
    ensures p + (q + r) == (p + q) + r
  {
  }

  lemma WordsEmptyPrefix(c: char, y: string)
    requires IsSpace(c)
    ensures Words([] + [c] + y) == Words([]) + Words(y)
  {
    var s := [] + [c] + y;
    assert s[1..] == y;
    WordsSkipSpace(s);
    assert StripLeft([]) == [];
  }

  lemma WordsSpacePrefix(x: string, c: char, y: string)
    requires IsSpace(c) && x != [] && IsSpace(x[0])
    ensures Words(x + [c] + y) == Words(x[1..] + [c] + y)
    ensures Words(x) == Words(x[1..])
  {
    var s := x + [c] + y;
    assert s[1..] == x[1..] + [c] + y;
    WordsSkipSpace(s);
    WordsSkipSpace(x);
  }

  /** A split of a string that starts with a word: that word, then the split of the rest. */
  lemma WordsAfterWord(x: string, c: char, y: string)
    requires IsSpace(c) && x != [] && !IsSpace(x[0])
    ensures 0 < |Word(x)| <= |x|
    ensures Words(x) == [Word(x)] + Words(x[|Word(x)|..])
    ensures Words(x + [c] + y) == [Word(x)] + Words(x[|Word(x)|..] + [c] + y)
  {
    var s := x + [c] + y;
    var w := Word(x);
    WordBeforeSpace(x, c, y);
    assert StripLeft(s) == s && StripLeft(x) == x;
    assert s[|w|..] == x[|w|..] + [c] + y;
  }

  /** `split()` finds no word exactly in a string of whitespace only. */
  lemma WordsEmptyIffBlank(s: string)
    ensures Words(s) == [] <==> Blank(s)
  {
    var t := StripLeft(s);
    if t != [] {
      assert s[|s| - |t|] == t[0];
    }
  }

  /** A single run of non-space characters is its own split. */
  lemma WordsOfWord(w: string)
    requires IsWord(w)
    ensures Words(w) == [w]
  {
    assert StripLeft(w) == w;
    WordIsAll(w);
    assert w[|w|..] == [];
    assert StripLeft([]) == [];
  }

  lemma {:induction false} WordIsAll(w: string)
    requires forall j :: 0 <= j < |w| ==> !IsSpace(w[j])
    ensures Word(w) == w
    decreases |w|
  {
    if w != [] {
      WordIsAll(w[1..]);
      assert [w[0]] + w[1..] == w;
    }
  }

  // ---- "%03i" ----------------------------------------------------------

  predicate IsDigit(c: char)
  {
    '0' <= c <= '9'
  }

  function DigitChar(d: nat): (c: char)
    requires d < 10
    ensures IsDigit(c) && c as int - '0' as int == d
  {
    ('0' as int + d) as char
  }

  /** The decimal notation of `n`, without leading zeros. */
  function Decimal(n: nat): (s: string)
    ensures 1 <= |s|
    ensures n < 10 <==> |s| == 1
    ensures n < 100 ==> |s| <= 2
    ensures n < 1000 ==> |s| <= 3
    decreases n
  {
    if n < 10 then [DigitChar(n)] else Decimal(n / 10) + [DigitChar(n % 10)]
  }

  lemma {:induction false} DecimalDigits(n: nat)
    ensures forall k :: 0 <= k < |Decimal(n)| ==> IsDigit(Decimal(n)[k])
    decreases n
  {
    if n >= 10 {
      DecimalDigits(n / 10);
    }
  }

  /** `s` with '0' put in front until it is `width` characters long. */
  function PadLeft(s: string, width: nat): (r: string)
    ensures |r| >= width && |r| >= |s|
    ensures |s| <= width ==> |r| == width
    ensures |s| >= width ==> r == s
    decreases width - |s|
  {
    if |s| >= width then s else PadLeft("0" + s, width)
  }

  /** Python's `"%03i" % n`: the decimal notation of `n`, zero-padded to at least three digits. */
  function Padded(n: nat): (s: string)
    ensures 3 <= |s|
    ensures n < 1000 ==> |s| == 3
    ensures n >= 1000 ==> s == Decimal(n)
  {
    PadLeft(Decimal(n), 3)
  }

  lemma {:induction false} PadLeftDigits(s: string, width: nat)
    requires forall k :: 0 <= k < |s| ==> IsDigit(s[k])
    ensures forall k :: 0 <= k < |PadLeft(s, width)| ==> IsDigit(PadLeft(s, width)[k])
    decreases width - |s|
  {
    if |s| < width {
      var t := "0" + s;
      assert forall k :: 0 <= k < |t| ==> IsDigit(t[k]) by {
        forall k | 0 <= k < |t|
          ensures IsDigit(t[k])
        {
          if k > 0 {
            assert t[k] == s[k - 1];
          }
        }
      }
      PadLeftDigits(t, width);
    }
  }

  /** A padded label consists of digits only. */
  lemma PaddedDigits(n: nat)
    ensures forall k :: 0 <= k < |Padded(n)| ==> IsDigit(Padded(n)[k])
  {
    DecimalDigits(n);
    PadLeftDigits(Decimal(n), 3);
  }

  /** The number a string of digits denotes; leading zeros do not count. */
  function ValueOf(s: string): int
    decreases |s|
  {
    if s == [] then 0
    else ValueOf(s[..|s| - 1]) * 10 + (s[|s| - 1] as int - '0' as int)
  }

  lemma {:induction false} ValueOfDecimal(n: nat)
    ensures ValueOf(Decimal(n)) == n
    decreases n
  {
    if n >= 10 {
      var d := Decimal(n / 10) + [DigitChar(n % 10)];
      assert d[..|d| - 1] == Decimal(n / 10);
      ValueOfDecimal(n / 10);
    }
  }

  /** A leading '0' does not change the value. */
  lemma {:induction false} ValueOfZeroPrefix(s: string)
    ensures ValueOf("0" + s) == ValueOf(s)
    decreases |s|
  {
    if s != [] {
      var t := "0" + s;
      assert t[..|t| - 1] == "0" + s[..|s| - 1];
      ValueOfZeroPrefix(s[..|s| - 1]);
    }
  }

  lemma {:induction false} ValueOfPadLeft(s: string, width: nat)
    ensures ValueOf(PadLeft(s, width)) == ValueOf(s)
    decreases width - |s|
  {
    if |s| < width {
      ValueOfZeroPrefix(s);
      ValueOfPadLeft("0" + s, width);
    }
  }

  /** Reading back a padded sequence number gives the number. */
  lemma PaddedRoundTrip(n: nat)
    ensures ValueOf(Padded(n)) == n
  {
    ValueOfDecimal(n);
    ValueOfPadLeft(Decimal(n), 3);
  }

  /** Distinct sequence numbers never share a padded label. */
  lemma PaddedInjective(i: nat, j: nat)
    requires Padded(i) == Padded(j)
    ensures i == j
  {
    PaddedRoundTrip(i);
    PaddedRoundTrip(j);
  }

  /** Equal strings with a common prefix have equal remainders. */
  lemma CancelPrefix(p: string, x: string, y: string)
    requires p + x == p + y
    ensures x == y
  {
    assert x == (p + x)[|p|..];
    assert y == (p + y)[|p|..];
  }

  /** Equal strings with a common suffix have equal beginnings. */
  lemma CancelSuffix(x: string, y: string, t: string)
    requires x + t == y + t
    ensures x == y
  {
    assert x == (x + t)[..|x|];
    assert y == (y + t)[..|y|];
  }

  // ---- os.path --------------------------------------------------------

  /** One past the index of the last '/' in `s`, 0 when there is none (`s.rfind('/') + 1`). */
  function AfterLastSlash(s: string): (i: nat)
    ensures i <= |s|
    ensures i > 0 ==> s[i - 1] == '/'
    ensures forall k :: i <= k < |s| ==> s[k] != '/'
    decreases |s|
  {
    if s == [] then 0
    else if s[|s| - 1] == '/' then |s|
    else AfterLastSlash(s[..|s| - 1])
  }

  /** `os.path.basename(s)`: the text after the last '/'. */
  function Basename(s: string): string
  {
    s[AfterLastSlash(s)..]
  }

  /** The base name is the slash-free tail of the path. */
  lemma BasenameIsTail(s: string)
    ensures '/' !in Basename(s)
    ensures |Basename(s)| <= |s| && Basename(s) == s[|s| - |Basename(s)|..]
  {
  }

  function StripTrailingSlashes(s: string): (r: string)
    ensures StartsWith(s, r)
    decreases |s|
  {
    if s != [] && s[|s| - 1] == '/' then StripTrailingSlashes(s[..|s| - 1]) else s
  }

  /**
   * `os.path.dirname(s)`: everything up to the last '/', with trailing
   * slashes removed unless the head consists of slashes only.
   */
  function Dirname(s: string): (r: string)
    ensures StartsWith(s, r)
  {
    DirHead(s[..AfterLastSlash(s)])
  }

  /** Drop trailing slashes one at a time while something other than slashes remains before them. */
  function DirHead(head: string): (r: string)
    ensures StartsWith(head, r)
    decreases |head|
  {
    if head != [] && head[|head| - 1] == '/' && HasNonSlash(head[..|head| - 1]) then DirHead(head[..|head| - 1])
    else head
  }

  /** The head is stripped of its trailing slashes exactly when it is not made of slashes only. */
  lemma {:induction false} DirHeadIsPosix(head: string)
    ensures DirHead(head) == if HasNonSlash(head) then StripTrailingSlashes(head) else head
    decreases |head|
  {
    if head != [] && head[|head| - 1] == '/' && HasNonSlash(head[..|head| - 1]) {
      DirHeadIsPosix(head[..|head| - 1]);
    }
  }

  /** `dirname` as the posix module writes it: cut after the last '/', then strip trailing slashes unless only slashes are left. */
  lemma DirnameIsPosix(s: string)
    ensures var head := s[..AfterLastSlash(s)];
      Dirname(s) == if HasNonSlash(head) then StripTrailingSlashes(head) else head
  {
    DirHeadIsPosix(s[..AfterLastSlash(s)]);
  }

  /** Whether `s` holds a character other than '/'. */
  function HasNonSlash(s: string): (b: bool)
    ensures b <==> exists k :: 0 <= k < |s| && s[k] != '/'
    decreases |s|
  {
    s != [] && (s[|s| - 1] != '/' || HasNonSlash(s[..|s| - 1]))
  }
}
