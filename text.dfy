/**
 * Small option/result wrappers shared by every module.
 */
module Wrappers {
  datatype Option<T> = None | Some(value: T)
  {
    function GetOr(default: T): T
    {
      if Some? then value else default
    }
  }

  datatype Result<T, E> = Ok(value: T) | Err(error: E)
}

/**
 * The Python string operations the modelled code relies on, written out on
 * `seq<char>`: `str.split()`, `str.strip()`, `str.lower()`, the `in`
 * substring test, `startswith`, `str.join`, and slicing with Python's
 * treatment of negative and oversized bounds.
 */
module Text {
  import opened Wrappers

  /** The characters Python's `str.isspace()` accepts (and so `split()` / `strip()` use). */
  predicate IsSpace(c: char)
  {
    c == ' ' || c == '\t' || c == '\n' || c == '\r' || c == '\U{B}' || c == '\U{C}'
    || ('\U{1C}' <= c <= '\U{1F}') || c == '\U{85}' || c == '\U{A0}' || c == '\U{1680}'
    || ('\U{2000}' <= c <= '\U{200A}') || c == '\U{2028}' || c == '\U{2029}' || c == '\U{202F}'
    || c == '\U{205F}' || c == '\U{3000}'
  }

  predicate NoSpace(s: string)
  {
    forall i :: 0 <= i < |s| ==> !IsSpace(s[i])
  }

  predicate IsDigit(c: char)
  {
    '0' <= c <= '9'
  }

  /**
   * The first code point of every run of ten decimal digits of Unicode 15
   * (general category Nd) in the Basic Multilingual Plane, and beyond it:
   * the characters `\d`, `str.isdecimal()` and `int()` take as digits.
   */
  const BMP_DIGIT_ZEROS: seq<int> := [
    0x30, 0x660, 0x6F0, 0x7C0, 0x966, 0x9E6, 0xA66, 0xAE6, 0xB66, 0xBE6, 0xC66, 0xCE6, 0xD66, 0xDE6,
    0xE50, 0xED0, 0xF20, 0x1040, 0x1090, 0x17E0, 0x1810, 0x1946, 0x19D0, 0x1A80, 0x1A90, 0x1B50,
    0x1BB0, 0x1C40, 0x1C50, 0xA620, 0xA8D0, 0xA900, 0xA9D0, 0xA9F0, 0xAA50, 0xABF0, 0xFF10]
  const ASTRAL_DIGIT_ZEROS: seq<int> := [
    0x104A0, 0x10D30, 0x11066, 0x110F0, 0x11136, 0x111D0, 0x112F0, 0x11450, 0x114D0, 0x11650,
    0x116C0, 0x11730, 0x118E0, 0x11950, 0x11C50, 0x11D50, 0x11DA0, 0x11F50, 0x16A60, 0x16AC0,
    0x16B50, 0x1D7CE, 0x1D7D8, 0x1D7E2, 0x1D7EC, 0x1D7F6, 0x1E140, 0x1E2F0, 0x1E4F0, 0x1E950, 0x1FBF0]

  /** The digit `c` stands for in one of the runs starting at `zeros[k..]`. */
  function DigitFrom(c: char, zeros: seq<int>, k: nat): (r: Option<nat>)
    requires k <= |zeros|
    ensures r.Some? ==> r.value < 10
    decreases |zeros| - k
  {
    if k == |zeros| then None
    else if zeros[k] <= c as int < zeros[k] + 10 then Some(c as int - zeros[k])
    else DigitFrom(c, zeros, k + 1)
  }

  /** A digit is found exactly when `c` lies in one of the runs, and its value is its offset there. */
  lemma {:induction false} DigitFromRuns(c: char, zeros: seq<int>, k: nat)
    requires k <= |zeros|
    ensures DigitFrom(c, zeros, k).Some? ==>
      exists j :: k <= j < |zeros| && c as int == zeros[j] + DigitFrom(c, zeros, k).value
    ensures DigitFrom(c, zeros, k).None? <==> forall j :: k <= j < |zeros| ==> !(zeros[j] <= c as int < zeros[j] + 10)
    decreases |zeros| - k
  {
    if k < |zeros| && !(zeros[k] <= c as int < zeros[k] + 10) {
      DigitFromRuns(c, zeros, k + 1);
    }
  }

  /** A decimal digit lies in a run of one of the two tables. */
  lemma DecimalRuns(c: char)
    ensures IsDecimal(c) <==>
      (exists j :: 0 <= j < |BMP_DIGIT_ZEROS| && BMP_DIGIT_ZEROS[j] <= c as int < BMP_DIGIT_ZEROS[j] + 10)
      || (exists j :: 0 <= j < |ASTRAL_DIGIT_ZEROS| && ASTRAL_DIGIT_ZEROS[j] <= c as int < ASTRAL_DIGIT_ZEROS[j] + 10)
  {
    DigitFromRuns(c, BMP_DIGIT_ZEROS, 0);
    DigitFromRuns(c, ASTRAL_DIGIT_ZEROS, 0);
  }

  /** The digit a Unicode decimal digit stands for; `None` for any other character. */
  function DigitOf(c: char): (r: Option<nat>)
    ensures r.Some? ==> r.value < 10
  {
    var bmp := DigitFrom(c, BMP_DIGIT_ZEROS, 0);
    if bmp.Some? then bmp else DigitFrom(c, ASTRAL_DIGIT_ZEROS, 0)
  }

  predicate IsDecimal(c: char)
  {
    DigitOf(c).Some?
  }

  function DigitValue(c: char): (d: nat)
    requires IsDecimal(c)
    ensures d < 10
  {
    DigitOf(c).value
  }

  /** Runs that do not hold `c` are passed over. */
  lemma {:induction false} DigitFromSkips(c: char, zeros: seq<int>, k: nat, m: nat)
    requires k <= m <= |zeros|
    requires forall j :: k <= j < m ==> !(zeros[j] <= c as int < zeros[j] + 10)
    ensures DigitFrom(c, zeros, k) == DigitFrom(c, zeros, m)
    decreases m - k
  {
    if k < m {
      DigitFromSkips(c, zeros, k + 1, m);
    }
  }

  /** The full-width digits are decimal digits with their usual values. */
  lemma FullWidthDigitIsDecimal(c: char)
    requires '０' <= c <= '９'
    ensures IsDecimal(c) && DigitValue(c) == c as int - '０' as int
  {
    assert BMP_DIGIT_ZEROS[36] == '０' as int;
    assert forall j :: 0 <= j < 36 ==> BMP_DIGIT_ZEROS[j] + 10 <= '０' as int;
    DigitFromSkips(c, BMP_DIGIT_ZEROS, 0, 36);
  }

  /** The BMP runs up to the Mongolian-adjacent ones end below U+3000; the rest start at U+A000 or above. */
  lemma BmpRunsAroundCjk()
    ensures forall j :: 0 <= j < 29 ==> BMP_DIGIT_ZEROS[j] + 10 <= 0x3000
    ensures forall j :: 29 <= j < |BMP_DIGIT_ZEROS| ==> BMP_DIGIT_ZEROS[j] >= 0xA000
  {
  }

  lemma AstralRunsAboveCjk()
    ensures forall j :: 0 <= j < |ASTRAL_DIGIT_ZEROS| ==> ASTRAL_DIGIT_ZEROS[j] >= 0xA000
  {
  }

  /** No character of the CJK blocks is a decimal digit. */
  lemma CjkIsNotDecimal(c: char)
    requires 0x3000 <= c as int < 0xA000
    ensures !IsDecimal(c)
  {
    BmpRunsAroundCjk();
    AstralRunsAboveCjk();
    DigitFromSkips(c, BMP_DIGIT_ZEROS, 0, 29);
    DigitFromSkips(c, BMP_DIGIT_ZEROS, 29, |BMP_DIGIT_ZEROS|);
    DigitFromSkips(c, ASTRAL_DIGIT_ZEROS, 0, |ASTRAL_DIGIT_ZEROS|);
  }

  /** No decimal digit is whitespace. */
  lemma DecimalIsNotSpace(c: char)
    requires IsDecimal(c)
    ensures !IsSpace(c)
  {
    DecimalRuns(c);
    assert forall j :: 0 <= j < |BMP_DIGIT_ZEROS| ==>
      (0x30 <= BMP_DIGIT_ZEROS[j] && BMP_DIGIT_ZEROS[j] + 10 <= 0x85)
      || (0xA1 <= BMP_DIGIT_ZEROS[j] && BMP_DIGIT_ZEROS[j] + 10 <= 0x1680)
      || (0x1681 <= BMP_DIGIT_ZEROS[j] && BMP_DIGIT_ZEROS[j] + 10 <= 0x2000)
      || 0x3001 <= BMP_DIGIT_ZEROS[j];
    assert forall j :: 0 <= j < |ASTRAL_DIGIT_ZEROS| ==> 0x3001 <= ASTRAL_DIGIT_ZEROS[j];
  }

  /** No decimal digit is a sign. */
  lemma DecimalIsNotSign(c: char)
    requires IsDecimal(c)
    ensures c != '-' && c != '+' && c != '_'
  {
    DecimalRuns(c);
    assert forall j :: 0 <= j < |BMP_DIGIT_ZEROS| ==> BMP_DIGIT_ZEROS[j] == 0x30 || 0x660 <= BMP_DIGIT_ZEROS[j];
    assert forall j :: 0 <= j < |ASTRAL_DIGIT_ZEROS| ==> 0x660 <= ASTRAL_DIGIT_ZEROS[j];
    assert 0x30 <= c as int < 0x3A || 0x660 <= c as int;
  }

  /** The ASCII digits are decimal digits with their usual values. */
  lemma AsciiDigitIsDecimal(c: char)
    requires IsDigit(c)
    ensures IsDecimal(c) && DigitValue(c) == c as int - '0' as int
  {
    assert BMP_DIGIT_ZEROS[0] == '0' as int;
  }

  /** The value of a run of decimal digits and underscores, most significant digit first; underscores are skipped. */
  function DigitsValue(d: string): (n: nat)
    requires forall i :: 0 <= i < |d| ==> d[i] == '_' || IsDecimal(d[i])
    decreases |d|
  {
    if d == [] then 0
    else if d[|d| - 1] == '_' then DigitsValue(d[..|d| - 1])
    else DigitsValue(d[..|d| - 1]) * 10 + DigitValue(d[|d| - 1])
  }

  /** What `int()` accepts after its sign: digits, with single underscores only between two digits. */
  predicate IntDigits(d: string)
  {
    d != [] && IsDecimal(d[0]) && IsDecimal(d[|d| - 1])
    && (forall i :: 0 <= i < |d| ==> d[i] == '_' || IsDecimal(d[i]))
    && (forall i :: 0 <= i < |d| - 1 ==> d[i] == '_' ==> d[i + 1] != '_')
  }

  /** A stripped string that starts with a sign, and what follows the sign. */
  function Unsigned(t: string): (d: string)
    ensures |d| <= |t| && d == t[|t| - |d|..]
  {
    if t != [] && (t[0] == '-' || t[0] == '+') then t[1..] else t
  }

  /**
   * `int(s)` on a string: surrounding whitespace, one sign, then Unicode
   * decimal digits with single underscores between them; `None` where it
   * raises `ValueError`.
   */
  function ParseInt(s: string): (r: Option<int>)
    ensures r.Some? <==> IntDigits(Unsigned(Strip(s)))
  {
    var t := Strip(s);
    var digits := Unsigned(t);
    if !IntDigits(digits) then None
    else
      var v: int := DigitsValue(digits);
      Some(if t[0] == '-' then -v else v)
  }

  /**
   * Digits alone (ASCII, full-width or of any other script, with single
   * underscores between them) are read as the number they write.
   */
  lemma ParseIntDigits(s: string)
    requires IntDigits(s)
    ensures ParseInt(s) == Some(DigitsValue(s))
  {
    DecimalIsNotSign(s[0]);
    assert Strip(s) == s by {
      DecimalIsNotSpace(s[0]);
      DecimalIsNotSpace(s[|s| - 1]);
      assert TrimLeft(s) == s;
    }
  }

  /** `c.lower()` for the ASCII letters; every other character is left as it is. */
  function LowerChar(c: char): (r: char)
  {
    if 'A' <= c <= 'Z' then (c as int + 32) as char else c
  }

  function Lower(s: string): (r: string)
    ensures |r| == |s|
    ensures forall i :: 0 <= i < |s| ==> r[i] == LowerChar(s[i])
  {
    if s == [] then [] else [LowerChar(s[0])] + Lower(s[1..])
  }

  /** `c.upper()` for the ASCII letters; every other character is left as it is. */
  function UpperChar(c: char): (r: char)
    ensures !('a' <= r <= 'z')
    ensures IsSpace(r) <==> IsSpace(c)
  {
    if 'a' <= c <= 'z' then (c as int - 32) as char else c
  }

  function Upper(s: string): (r: string)
    ensures |r| == |s|
    ensures forall i :: 0 <= i < |s| ==> r[i] == UpperChar(s[i])
  {
    if s == [] then [] else [UpperChar(s[0])] + Upper(s[1..])
  }

  /** `s.startswith(p)` */
  predicate StartsWith(s: string, p: string)
  {
    |p| <= |s| && s[..|p|] == p
  }

  /** `t in s` for strings: `t` occurs in `s` at some position. */
  predicate Contains(s: string, t: string)
    decreases |s|
  {
    StartsWith(s, t) || (|s| > 0 && Contains(s[1..], t))
  }

  /** `t in s` holds exactly when `t` occurs at some offset of `s`. */
  lemma {:induction false} ContainsAt(s: string, t: string, k: nat)
    requires k + |t| <= |s| && s[k..k + |t|] == t
    ensures Contains(s, t)
    decreases k
  {
    if k == 0 {
      assert s[..|t|] == t;
    } else {
      assert s[1..][k - 1..k - 1 + |t|] == s[k..k + |t|];
      ContainsAt(s[1..], t, k - 1);
    }
  }

  lemma {:induction false} ContainsChar(s: string, c: char)
    ensures Contains(s, [c]) <==> c in s
    decreases |s|
  {
    if |s| > 0 {
      ContainsChar(s[1..], c);
      assert c in s <==> (s[0] == c || c in s[1..]);
    }
  }

  /** `s.find(t)`: the first offset where `t` occurs, or `None` (Python's -1). */
  function Find(s: string, t: string): (r: Option<nat>)
    ensures r.Some? ==> r.value + |t| <= |s| && s[r.value..r.value + |t|] == t
    ensures r.Some? ==> forall j :: 0 <= j < r.value ==> !StartsWith(s[j..], t)
    ensures r.Some? <==> Contains(s, t)
    decreases |s|
  {
    if StartsWith(s, t) then Some(0)
    else if |s| == 0 then None
    else
      match Find(s[1..], t)
      case None => None
      case Some(i) =>
        assert forall j :: 1 <= j <= i ==> s[1..][j - 1..] == s[j..];
        Some(i + 1)
  }

  /** `s.split(sep, 1)`: the text before the first `sep` and the rest, or `[s]` when `sep` does not occur. */
  function SplitOnce(s: string, sep: string): (parts: seq<string>)
    requires |sep| > 0
    ensures |parts| == 1 || |parts| == 2
    ensures |parts| == 1 <==> !Contains(s, sep)
    ensures |parts| == 1 ==> parts[0] == s
    ensures |parts| == 2 ==> s == parts[0] + sep + parts[1] && Find(s, sep) == Some(|parts[0]|)
  {
    match Find(s, sep)
    case None => [s]
    case Some(i) =>
      assert s == s[..i] + s[i..i + |sep|] + s[i + |sep|..];
      [s[..i], s[i + |sep|..]]
  }

  /** A prefix of `s` that ends no later than the first occurrence of `t` does not hold `t`. */
  lemma {:induction false} NotContainsBeforeFind(s: string, t: string, h: string)
    requires |t| > 0 && |h| <= |s| && s[..|h|] == h
    requires Find(s, t).Some? && Find(s, t).value >= |h|
    ensures !Contains(h, t)
    decreases |h|
  {
    if |h| > 0 {
      assert !StartsWith(s, t);
      assert !StartsWith(h, t) by {
        if |t| <= |h| {
          assert h[..|t|] == s[..|t|];
        }
      }
      assert s[1..][..|h| - 1] == h[1..];
      NotContainsBeforeFind(s[1..], t, h[1..]);
    }
  }

  /** The text before the first separator does not itself hold the separator. */
  lemma SplitOnceHead(s: string, sep: string)
    requires |sep| > 0 && |SplitOnce(s, sep)| == 2
    ensures !Contains(SplitOnce(s, sep)[0], sep)
  {
    var head := SplitOnce(s, sep)[0];
    assert s[..|head|] == head;
    NotContainsBeforeFind(s, sep, head);
  }

  /** Split on a single character, the part before it does not hold that character. */
  lemma SplitOnceChar(s: string, c: char)
    requires |SplitOnce(s, [c])| == 2
    ensures c !in SplitOnce(s, [c])[0]
  {
    var head := SplitOnce(s, [c])[0];
    forall j | 0 <= j < |head|
      ensures head[j] != c
    {
      assert !StartsWith(s[j..], [c]);
      assert s[j] == head[j];
    }
  }

  /** Any of `keys` occurs in `s` (`any(k in s for k in keys)`). */
  predicate AnyIn(keys: seq<string>, s: string)
  {
    exists i :: 0 <= i < |keys| && Contains(s, keys[i])
  }

  /** `sum(1 for k in keys if k in s)` */
  function CountIn(keys: seq<string>, s: string): (n: nat)
    ensures n <= |keys|
    ensures n > 0 <==> AnyIn(keys, s)
  {
    if keys == [] then 0
    else
      var rest := CountIn(keys[1..], s);
      assert AnyIn(keys, s) <==> Contains(s, keys[0]) || AnyIn(keys[1..], s) by {
        if AnyIn(keys[1..], s) {
          var i :| 0 <= i < |keys[1..]| && Contains(s, keys[1..][i]);
          assert Contains(s, keys[i + 1]);
        }
        if AnyIn(keys, s) && !Contains(s, keys[0]) {
          var i :| 0 <= i < |keys| && Contains(s, keys[i]);
          assert keys[1..][i - 1] == keys[i];
        }
      }
      (if Contains(s, keys[0]) then 1 else 0) + rest
  }

  /** `s.lstrip()` */
  function TrimLeft(s: string): (r: string)
    ensures |r| <= |s| && r == s[|s| - |r|..]
    ensures r == [] || !IsSpace(r[0])
    ensures forall i :: 0 <= i < |s| - |r| ==> IsSpace(s[i])
  {
    if s == [] || !IsSpace(s[0]) then s else TrimLeft(s[1..])
  }

  /** `s.rstrip()` */
  function TrimRight(s: string): (r: string)
    ensures |r| <= |s| && r == s[..|r|]
    ensures r == [] || !IsSpace(r[|r| - 1])
    ensures forall i :: |r| <= i < |s| ==> IsSpace(s[i])
  {
    if s == [] || !IsSpace(s[|s| - 1]) then s else TrimRight(s[..|s| - 1])
  }

  /** `rstrip` removes exactly the trailing whitespace: any prefix ending in non-space after which only whitespace follows is it. */
  lemma TrimRightUnique(s: string, k: nat)
    requires k <= |s|
    requires k == 0 || !IsSpace(s[k - 1])
    requires forall i :: k <= i < |s| ==> IsSpace(s[i])
    ensures TrimRight(s) == s[..k]
  {
  }

  /** `s.strip()` */
  function Strip(s: string): (r: string)
    ensures |r| <= |s|
    ensures r == [] || (!IsSpace(r[0]) && !IsSpace(r[|r| - 1]))
  {
    TrimRight(TrimLeft(s))
  }

  /** Longest prefix of `s` without whitespace. */
  function Word(s: string): (w: string)
    ensures |w| <= |s| && w == s[..|w|] && NoSpace(w)
    ensures |w| == |s| || IsSpace(s[|w|])
    ensures s != [] && !IsSpace(s[0]) ==> |w| > 0
  {
    if s == [] || IsSpace(s[0]) then [] else [s[0]] + Word(s[1..])
  }

  /** `s.split()`: the maximal runs of non-whitespace characters, in order. */
  function Split(s: string): (r: seq<string>)
    decreases |s|
  {
    var t := TrimLeft(s);
    if t == [] then []
    else
      var w := Word(t);
      assert 0 < |w| <= |t| <= |s|;
      [w] + Split(t[|w|..])
  }

  /** Non-empty words without whitespace. */
  predicate Words(r: seq<string>)
  {
    forall i :: 0 <= i < |r| ==> |r[i]| > 0 && NoSpace(r[i])
  }

  lemma WordsCons(w: string, rest: seq<string>)
    requires |w| > 0 && NoSpace(w) && Words(rest)
    ensures Words([w] + rest)
  {
    forall i | 0 < i < |[w] + rest|
      ensures ([w] + rest)[i] == rest[i - 1]
    {
    }
  }

  /** Every word `split()` returns is non-empty and holds no whitespace. */
  lemma {:induction false} SplitWords(s: string)
    ensures Words(Split(s))
    decreases |s|
  {
    var t := TrimLeft(s);
    if t != [] {
      var w := Word(t);
      SplitWords(t[|w|..]);
      WordsCons(w, Split(t[|w|..]));
    }
  }

  /** A string made of whitespace only splits into no words. */
  lemma SplitBlank(s: string)
    requires forall i :: 0 <= i < |s| ==> IsSpace(s[i])
    ensures Split(s) == []
  {
  }

  /** `sep.join(parts)` */
  function Join(parts: seq<string>, sep: string): (r: string)
    ensures parts == [] ==> r == []
    ensures |parts| == 1 ==> r == parts[0]
  {
    if parts == [] then []
    else if |parts| == 1 then parts[0]
    else parts[0] + sep + Join(parts[1..], sep)
  }

  /** `s.split(c)` for a one-character separator: the pieces between the separators, empty ones included. */
  function SplitChar(s: string, c: char): (parts: seq<string>)
    ensures |parts| >= 1
    ensures forall i :: 0 <= i < |parts| ==> c !in parts[i]
    decreases |s|
  {
    if s == [] then [[]]
    else
      var rest := SplitChar(s[1..], c);
      if s[0] == c then [[]] + rest
      else [[s[0]] + rest[0]] + rest[1..]
  }

  /** Joining the pieces with the separator gives the text back. */
  lemma {:induction false} JoinSplitChar(s: string, c: char)
    ensures Join(SplitChar(s, c), [c]) == s
    decreases |s|
  {
    if s != [] {
      var rest := SplitChar(s[1..], c);
      JoinSplitChar(s[1..], c);
      var parts := SplitChar(s, c);
      if s[0] == c {
        assert parts[1..] == rest;
      } else if |rest| > 1 {
        assert parts[1..] == rest[1..];
        assert Join(rest, [c]) == rest[0] + [c] + Join(rest[1..], [c]);
      }
    }
  }

  /** `''.join(parts)` */
  function Concat(parts: seq<string>): string
  {
    if parts == [] then [] else Concat(parts[..|parts| - 1]) + parts[|parts| - 1]
  }

  /** Joining two lists of pieces one after the other joins their texts one after the other. */
  lemma {:induction false} ConcatAppend(a: seq<string>, b: seq<string>)
    ensures Concat(a + b) == Concat(a) + Concat(b)
    decreases |b|
  {
    if b != [] {
      assert (a + b)[..|a + b| - 1] == a + b[..|b| - 1];
      ConcatAppend(a, b[..|b| - 1]);
    } else {
      assert a + b == a;
    }
  }

  /** Joining a piece in front of a list of pieces puts its text in front. */
  lemma ConcatCons(a: string, rest: seq<string>)
    ensures Concat([a] + rest) == a + Concat(rest)
  {
    ConcatAppend([a], rest);
    assert [a][..0] == [];
  }

  /** Python's `xs[:k]`: a negative `k` counts from the end, a large one is clipped. */
  function SliceTo<T>(xs: seq<T>, k: int): (r: seq<T>)
    ensures k >= 0 ==> r == xs[..if k < |xs| then k else |xs|]
    ensures k < 0 ==> r == xs[..if |xs| + k > 0 then |xs| + k else 0]
    ensures |r| <= |xs|
  {
    if k >= 0 then xs[..if k < |xs| then k else |xs|]
    else xs[..if |xs| + k > 0 then |xs| + k else 0]
  }

  /** `[v] * k`: a negative count gives the empty list. */
  function Repeat<T>(v: T, k: int): (r: seq<T>)
    ensures |r| == (if k > 0 then k else 0)
    ensures forall i :: 0 <= i < |r| ==> r[i] == v
    decreases k
  {
    if k <= 0 then [] else [v] + Repeat(v, k - 1)
  }

  /** `str(n)` for an integer: its decimal digits, after a '-' when it is negative. */
  function IntText(n: int): (r: string)
    ensures r != []
    ensures n >= 0 ==> forall i :: 0 <= i < |r| ==> IsDigit(r[i])
    ensures n < 0 ==> r[0] == '-' && forall i :: 1 <= i < |r| ==> IsDigit(r[i])
    decreases if n < 0 then 1 - n else n
  {
    if n < 0 then "-" + IntText(-n)
    else if n < 10 then [('0' as int + n) as char]
    else IntText(n / 10) + [('0' as int + n % 10) as char]
  }

  /** `max(s)` on a non-empty list of numbers: one of them, and no smaller than any. */
  function MaxOf(s: seq<real>): (m: real)
    requires |s| > 0
    ensures m in s
    ensures forall i :: 0 <= i < |s| ==> s[i] <= m
  {
    if |s| == 1 then s[0]
    else
      var rest := MaxOf(s[1..]);
      if s[0] >= rest then s[0] else rest
  }

  function Min(a: int, b: int): int { if a < b then a else b }
  function Max(a: int, b: int): int { if a < b then b else a }
}
