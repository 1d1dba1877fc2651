/** Shared vocabulary: optional values, error results, sums and means of
    real sequences, decimal rendering of naturals, Python's string order
    and a stable insertion sort used wherever the source calls `sorted`
    or `sort_values`. */
module Common {

  /** A value that may be missing: pandas' NaN / NaT / None. */
  datatype Option<T> = None | Some(value: T)

  /** The outcome of an operation that may raise: `Err` carries the
      exception text. */
  datatype Result<T> = Ok(value: T) | Err(error: string)

  /** The text of the IndexError pandas raises for `.iloc[-1]` on an empty
      series. */
  const IndexOutOfBounds := "single positional indexer is out-of-bounds"

  /** The ValueError pandas raises when a series whose index repeats a
      label has to be aligned on another index. */
  const DuplicateLabels := "cannot reindex on an axis with duplicate labels"

  // ---------------------------------------------------------------------
  // Sums, means, extremes

  function Sum(s: seq<real>): real
  {
    if |s| == 0 then 0.0 else Sum(s[..|s| - 1]) + s[|s| - 1]
  }

  function Mean(s: seq<real>): real
    requires |s| > 0
  {
    Sum(s) / (|s| as real)
  }

  function Min(s: seq<real>): (m: real)
    requires |s| > 0
    ensures m in s
    ensures forall i :: 0 <= i < |s| ==> m <= s[i]
  {
    if |s| == 1 then s[0]
    else
      var m' := Min(s[..|s| - 1]);
      assert forall i :: 0 <= i < |s| - 1 ==> s[..|s| - 1][i] == s[i];
      if s[|s| - 1] < m' then s[|s| - 1] else m'
  }

  function Abs(x: real): real { if x < 0.0 then -x else x }

  function Max(s: seq<real>): (m: real)
    requires |s| > 0
    ensures m in s
    ensures forall i :: 0 <= i < |s| ==> s[i] <= m
  {
    if |s| == 1 then s[0]
    else
      var m' := Max(s[..|s| - 1]);
      assert forall i :: 0 <= i < |s| - 1 ==> s[..|s| - 1][i] == s[i];
      if s[|s| - 1] > m' then s[|s| - 1] else m'
  }

  /** Every element lies between lo and hi. */
  predicate Between(s: seq<real>, lo: real, hi: real)
  {
    forall i :: 0 <= i < |s| ==> lo <= s[i] <= hi
  }

  lemma {:induction false} SumBounds(s: seq<real>, lo: real, hi: real)
    requires Between(s, lo, hi)
    ensures (|s| as real) * lo <= Sum(s) <= (|s| as real) * hi
  {
    if |s| > 0 {
      var p := s[..|s| - 1];
      assert Between(p, lo, hi) by {
        forall i | 0 <= i < |p| ensures lo <= p[i] <= hi { assert p[i] == s[i]; }
      }
      SumBounds(p, lo, hi);
      assert (|s| as real) * lo == (|p| as real) * lo + lo;
      assert (|s| as real) * hi == (|p| as real) * hi + hi;
    }
  }

  /** The mean of values in [lo, hi] is in [lo, hi]. */
  lemma MeanBetween(s: seq<real>, lo: real, hi: real)
    requires |s| > 0 && Between(s, lo, hi)
    ensures lo <= Mean(s) <= hi
  {
    SumBounds(s, lo, hi);
    var n := |s| as real;
    assert Sum(s) / n >= lo by { assert Sum(s) >= n * lo; }
    assert Sum(s) / n <= hi by { assert Sum(s) <= n * hi; }
  }

  /** The mean lies between the smallest and the largest element. */
  lemma MeanBounds(s: seq<real>)
    requires |s| > 0
    ensures Min(s) <= Mean(s) <= Max(s)
  {
    MeanBetween(s, Min(s), Max(s));
  }

  /** The mean of a constant sequence is that constant. */
  lemma MeanOfConstant(s: seq<real>, c: real)
    requires |s| > 0 && forall i :: 0 <= i < |s| ==> s[i] == c
    ensures Mean(s) == c
  {
    MeanBetween(s, c, c);
  }

  lemma {:induction false} SumAppend(a: seq<real>, b: seq<real>)
    ensures Sum(a + b) == Sum(a) + Sum(b)
  {
    if |b| == 0 {
      assert a + b == a;
    } else {
      var b' := b[..|b| - 1];
      assert (a + b)[..|a + b| - 1] == a + b';
      SumAppend(a, b');
    }
  }

  // ---------------------------------------------------------------------
  // Missing values

  /** `Series.dropna()`: the present values, in order. */
  function Present(s: seq<Option<real>>): (r: seq<real>)
    ensures |r| <= |s|
  {
    if |s| == 0 then []
    else Present(s[..|s| - 1]) + (if s[|s| - 1].Some? then [s[|s| - 1].value] else [])
  }

  /** A sequence whose every element is present loses nothing to `dropna`. */
  lemma {:induction false} PresentOfAllPresent(s: seq<real>)
    ensures Present(seq(|s|, i requires 0 <= i < |s| => Some(s[i]))) == s
  {
    if |s| > 0 {
      var w := seq(|s|, i requires 0 <= i < |s| => Some(s[i]));
      var p := s[..|s| - 1];
      assert w[..|w| - 1] == seq(|p|, i requires 0 <= i < |p| => Some(p[i]));
      PresentOfAllPresent(p);
    }
  }

  function Wrap(s: seq<real>): (r: seq<Option<real>>)
    ensures |r| == |s| && forall i :: 0 <= i < |s| ==> r[i] == Some(s[i])
  {
    seq(|s|, i requires 0 <= i < |s| => Some(s[i]))
  }

  // ---------------------------------------------------------------------
  // Ordering of real sequences

  predicate StrictlyIncreasing(s: seq<real>)
  {
    forall i, j :: 0 <= i < j < |s| ==> s[i] < s[j]
  }

  predicate IncreasingInts(s: seq<int>)
  {
    forall i, j :: 0 <= i < j < |s| ==> s[i] < s[j]
  }

  predicate NonDecreasingInts(s: seq<int>)
  {
    forall i, j :: 0 <= i < j < |s| ==> s[i] <= s[j]
  }

  /** No value occurs twice. */
  predicate Distinct<T(==)>(xs: seq<T>)
  {
    forall i, j :: 0 <= i < j < |xs| ==> xs[i] != xs[j]
  }

  // ---------------------------------------------------------------------
  // Decimal rendering and reading of naturals

  function DigitChar(d: nat): (c: char)
    requires d < 10
    ensures '0' <= c <= '9' && (c as int) - ('0' as int) == d
  {
    (('0' as int) + d) as char
  }

  predicate IsDigit(c: char)
  {
    '0' <= c <= '9'
  }

  /** Python's `str(n)` for a natural number. */
  function NatToString(n: nat): (s: string)
    ensures |s| >= 1
    ensures forall i :: 0 <= i < |s| ==> IsDigit(s[i])
  {
    if n < 10 then [DigitChar(n)] else NatToString(n / 10) + [DigitChar(n % 10)]
  }

  /** Python's `str(i)` for an integer. */
  function IntToString(i: int): string
  {
    if i < 0 then "-" + NatToString(-i) else NatToString(i)
  }

  /** The value of a string of decimal digits (`int("0042") == 42`). */
  function DigitsValue(s: string): nat
    requires forall i :: 0 <= i < |s| ==> IsDigit(s[i])
  {
    if |s| == 0 then 0
    else
      assert IsDigit(s[|s| - 1]);
      10 * DigitsValue(s[..|s| - 1]) + ((s[|s| - 1] as int) - ('0' as int))
  }

  /** Reading back a rendered natural gives the natural. */
  lemma {:induction false} DigitsValueOfNatToString(n: nat)
    ensures DigitsValue(NatToString(n)) == n
  {
    if n >= 10 {
      var s := NatToString(n);
      assert s[..|s| - 1] == NatToString(n / 10);
      DigitsValueOfNatToString(n / 10);
    }
  }

  /** A character `repr` shows as a `\\xNN` escape: the controls, DEL, and
      the Latin-1 characters `str.isprintable` rejects (U+0080..U+00A0,
      the soft hyphen U+00AD). */
  predicate HexEscaped(c: char)
  {
    (c < ' ' && c != '\t' && c != '\n' && c != '\r') || ('\U{7F}' <= c <= '\U{A0}') || c == '\U{AD}'
  }

  function HexDigit(d: nat): (c: char)
    requires d < 16
  {
    if d < 10 then DigitChar(d) else (('a' as int) + d - 10) as char
  }

  /** How `repr` writes one character inside quotes `q`. */
  function ReprChar(c: char, q: char): (r: string)
    ensures |r| >= 1
  {
    if c == q || c == '\\' then ['\\', c]
    else if c == '\t' then "\\t"
    else if c == '\n' then "\\n"
    else if c == '\r' then "\\r"
    else if HexEscaped(c) then "\\x" + [HexDigit((c as int) / 16), HexDigit((c as int) % 16)]
    else [c]
  }

  function ReprBody(s: string, q: char): string
  {
    if |s| == 0 then "" else ReprBody(s[..|s| - 1], q) + ReprChar(s[|s| - 1], q)
  }

  /** `repr` uses double quotes when the text holds a single quote and no
      double quote, and single quotes otherwise. */
  function QuoteChar(s: string): char
  {
    if '\'' in s && '"' !in s then '"' else '\''
  }

  /** A text as Python's `repr` shows it. */
  function Quote(s: string): string
  {
    var q := QuoteChar(s);
    [q] + ReprBody(s, q) + [q]
  }

  /** A text with no quote, backslash, tab, newline, carriage return or
      unprintable character is shown as itself in single quotes. */
  lemma QuotePlain(s: string)
    requires forall i :: 0 <= i < |s| ==> s[i] !in "'\\\t\n\r" && !HexEscaped(s[i])
    ensures Quote(s) == "'" + s + "'"
  {
    assert '\'' !in s;
    PlainBody(s);
  }

  lemma {:induction false} PlainBody(s: string)
    requires forall i :: 0 <= i < |s| ==> s[i] !in "'\\\t\n\r" && !HexEscaped(s[i])
    ensures ReprBody(s, '\'') == s
  {
    if |s| > 0 {
      PlainBody(s[..|s| - 1]);
      assert s == s[..|s| - 1] + [s[|s| - 1]];
    }
  }

  /** Each character is shown as itself or as a backslash escape, so the
      shown text is never shorter than the text. */
  lemma {:induction false} ReprBodyLength(s: string, q: char)
    ensures |ReprBody(s, q)| >= |s|
  {
    if |s| > 0 {
      ReprBodyLength(s[..|s| - 1], q);
    }
  }

  function Quoted(names: seq<string>): (r: seq<string>)
    ensures |r| == |names|
  {
    if |names| == 0 then [] else Quoted(names[..|names| - 1]) + [Quote(names[|names| - 1])]
  }

  /** `sep.join(parts)`. */
  function Join(parts: seq<string>, sep: string): string
  {
    if |parts| == 0 then ""
    else if |parts| == 1 then parts[0]
    else Join(parts[..|parts| - 1], sep) + sep + parts[|parts| - 1]
  }

  // ---------------------------------------------------------------------
  // Case mapping of Latin-1 text, as Python's `str.upper()` / `str.lower()`

  /** A small letter of Latin-1 with a one-letter Latin-1 capital 32 code
      points below it ('a'..'z', 'à'..'þ' without '÷'). */
  predicate SmallLatin1(c: char)
  {
    'a' <= c <= 'z' || ('\U{E0}' <= c <= '\U{FE}' && c != '\U{F7}')
  }

  /** A capital letter of Latin-1 ('A'..'Z', 'À'..'Þ' without '×'). */
  predicate CapitalLatin1(c: char)
  {
    'A' <= c <= 'Z' || ('\U{C0}' <= c <= '\U{DE}' && c != '\U{D7}')
  }

  /** `c.upper()` for a Latin-1 character: 'µ' becomes Greek capital mu,
      'ÿ' becomes 'Ÿ' and 'ß' becomes "SS"; characters beyond U+00FF are
      kept as they are. */
  function UpperText(c: char): (r: string)
    ensures |r| >= 1
  {
    if SmallLatin1(c) then [((c as int) - 32) as char]
    else if c == '\U{B5}' then ['\U{39C}']
    else if c == '\U{FF}' then ['\U{178}']
    else if c == '\U{DF}' then "SS"
    else [c]
  }

  /** `c.lower()` for a Latin-1 character. */
  function LowerChar(c: char): char
  {
    if CapitalLatin1(c) then ((c as int) + 32) as char else c
  }

  /** `str.upper()`: the upper-cased characters, in order ('ß' gives two). */
  function Upper(s: string): (r: string)
    ensures |r| >= |s|
  {
    if |s| == 0 then "" else Upper(s[..|s| - 1]) + UpperText(s[|s| - 1])
  }

  /** `str.lower()`: one lower-cased character per character. */
  function Lower(s: string): (r: string)
    ensures |r| == |s| && forall i :: 0 <= i < |s| ==> r[i] == LowerChar(s[i])
  {
    seq(|s|, i requires 0 <= i < |s| => LowerChar(s[i]))
  }

  lemma UpperTextOfLower(c: char)
    ensures UpperText(LowerChar(c)) == UpperText(c)
  {
  }

  /** Upper-casing ignores the case of its input. */
  lemma {:induction false} UpperOfLower(s: string)
    ensures Upper(Lower(s)) == Upper(s)
  {
    if |s| > 0 {
      var n := |s| - 1;
      assert Lower(s)[..n] == Lower(s[..n]);
      UpperOfLower(s[..n]);
      UpperTextOfLower(s[n]);
    }
  }

  lemma LowerConcat(a: string, b: string)
    ensures Lower(a + b) == Lower(a) + Lower(b)
  {
  }

  /** Lower-casing after upper-casing gives back the lower-cased character,
      except for 'µ', 'ß' and 'ÿ', which come back as text that is not a
      single small ASCII letter other than 's'. */
  lemma LowerOfUpperText(c: char)
    ensures c != '\U{B5}' && c != '\U{DF}' && c != '\U{FF}' ==> Lower(UpperText(c)) == [LowerChar(c)]
    ensures c == '\U{DF}' ==> Lower(UpperText(c)) == "ss"
    ensures c == '\U{B5}' || c == '\U{FF}' ==> |Lower(UpperText(c))| == 1 && !('a' <= Lower(UpperText(c))[0] <= 'z')
  {
  }

  /** A word of small ASCII letters with no two 's' in a row. */
  predicate PlainWord(w: string)
  {
    (forall i :: 0 <= i < |w| ==> 'a' <= w[i] <= 'z') &&
    forall i :: 0 < i < |w| ==> !(w[i - 1] == 's' && w[i] == 's')
  }

  /** A text lower-cases to a plain word exactly when its upper-cased form
      does. */
  lemma {:induction false} LowerUpperPlain(f: string, w: string)
    requires PlainWord(w)
    ensures Lower(Upper(f)) == w <==> Lower(f) == w
  {
    if |f| > 0 {
      var n := |f| - 1;
      var c := f[n];
      var p, l := Lower(Upper(f[..n])), Lower(f[..n]);
      LowerConcat(Upper(f[..n]), UpperText(c));
      assert Lower(Upper(f)) == p + Lower(UpperText(c));
      assert Lower(f) == l + [LowerChar(c)];
      LowerOfUpperText(c);
      if c == '\U{DF}' {
        NotPlainDoubleS(p + "ss", w);
        NotPlainLast(l + [LowerChar(c)], w);
      } else if c == '\U{B5}' || c == '\U{FF}' {
        NotPlainLast(p + Lower(UpperText(c)), w);
        NotPlainLast(l + [LowerChar(c)], w);
      } else {
        if |w| > 0 {
          assert PlainWord(w[..|w| - 1]);
          LowerUpperPlain(f[..n], w[..|w| - 1]);
        }
        PlainStep(p, l, LowerChar(c), w);
      }
    }
  }

  /** A text ending in a character other than a small ASCII letter is not
      a plain word. */
  lemma NotPlainLast(x: string, w: string)
    requires PlainWord(w) && |x| > 0 && !('a' <= x[|x| - 1] <= 'z')
    ensures x != w
  {
  }

  /** A text ending in "ss" is not a plain word. */
  lemma NotPlainDoubleS(x: string, w: string)
    requires PlainWord(w) && |x| >= 2 && x[|x| - 2] == 's' && x[|x| - 1] == 's'
    ensures x != w
  {
  }

  /** Appending the same character keeps two texts equally close to a
      word when their prefixes already were. */
  lemma PlainStep(p: string, l: string, c: char, w: string)
    requires |w| > 0 ==> (p == w[..|w| - 1] <==> l == w[..|w| - 1])
    ensures p + [c] == w <==> l + [c] == w
  {
    if |w| > 0 {
      assert p + [c] == w <==> p == w[..|w| - 1] && c == w[|w| - 1];
      assert l + [c] == w <==> l == w[..|w| - 1] && c == w[|w| - 1];
    }
  }

  // ---------------------------------------------------------------------
  // Python's string order (code point by code point, a prefix first)

  predicate LexLe(a: string, b: string)
  {
    if |a| == 0 then true
    else if |b| == 0 then false
    else if a[0] < b[0] then true
    else if a[0] > b[0] then false
    else LexLe(a[1..], b[1..])
  }

  lemma {:induction false} LexLeTotal(a: string, b: string)
    ensures LexLe(a, b) || LexLe(b, a)
  {
    if |a| > 0 && |b| > 0 && a[0] == b[0] {
      LexLeTotal(a[1..], b[1..]);
    }
  }

  lemma {:induction false} LexLeTransitive(a: string, b: string, c: string)
    requires LexLe(a, b) && LexLe(b, c)
    ensures LexLe(a, c)
  {
    if |a| > 0 && |b| > 0 && |c| > 0 && a[0] == b[0] && b[0] == c[0] {
      LexLeTransitive(a[1..], b[1..], c[1..]);
    }
  }

  lemma {:induction false} LexLeAntisymmetric(a: string, b: string)
    requires LexLe(a, b) && LexLe(b, a)
    ensures a == b
  {
    if |a| > 0 && |b| > 0 {
      LexLeAntisymmetric(a[1..], b[1..]);
      assert a == [a[0]] + a[1..] && b == [b[0]] + b[1..];
    }
  }

  /** Python's string order is a total preorder, so `sorted` applies. */
  lemma LexLeTotalPreorder()
    ensures TotalPreorder(LexLe)
  {
    forall a: string, b: string ensures LexLe(a, b) || LexLe(b, a) {
      LexLeTotal(a, b);
    }
    forall a: string, b: string, c: string | LexLe(a, b) && LexLe(b, c) ensures LexLe(a, c) {
      LexLeTransitive(a, b, c);
    }
  }

  /** The prefix of full length is the whole sequence. */
  lemma Whole<T>(s: seq<T>)
    ensures s[..|s|] == s
  {
  }

  // ---------------------------------------------------------------------
  // Order of a selection

  /** Every two entries of `r` occur in `s` in the same order. */
  predicate InOrderOf<T(==)>(r: seq<T>, s: seq<T>)
  {
    forall i, j :: 0 <= i < j < |r| ==> OccurInOrder(r[i], r[j], s)
  }

  /** `x` occurs in `s` before an occurrence of `y`. */
  predicate OccurInOrder<T(==)>(x: T, y: T, s: seq<T>)
  {
    exists a, b :: 0 <= a < b < |s| && s[a] == x && s[b] == y
  }

  /** Selecting from `s` in order and then possibly the next element `x`
      stays in the order of `s + [x]`. */
  lemma InOrderExtend<T>(r: seq<T>, s: seq<T>, x: T, keep: bool)
    requires InOrderOf(r, s) && forall e :: e in r ==> e in s
    ensures InOrderOf(r + (if keep then [x] else []), s + [x])
  {
    var r' := r + (if keep then [x] else []);
    var s' := s + [x];
    forall i, j | 0 <= i < j < |r'|
      ensures OccurInOrder(r'[i], r'[j], s')
    {
      if j < |r| {
        assert r'[i] == r[i] && r'[j] == r[j];
        assert OccurInOrder(r[i], r[j], s);
        var a, b :| 0 <= a < b < |s| && s[a] == r[i] && s[b] == r[j];
        assert s'[a] == r'[i] && s'[b] == r'[j];
      } else {
        assert r'[i] == r[i] && r[i] in r;
        var a :| 0 <= a < |s| && s[a] == r[i];
        assert s'[a] == r'[i] && s'[|s|] == r'[j];
      }
    }
    assert InOrderOf(r', s');
  }

  /** The elements of `s` that `keep` accepts, in their order
      (a list comprehension with a condition). */
  function {:induction false} Select<T(==,!new)>(s: seq<T>, keep: T -> bool): (r: seq<T>)
    ensures forall x :: x in r <==> x in s && keep(x)
    ensures InOrderOf(r, s)
  {
    if |s| == 0 then []
    else
      var init, last := s[..|s| - 1], s[|s| - 1];
      assert s == init + [last];
      var prev := Select(init, keep);
      InOrderExtend(prev, init, last, keep(last));
      prev + if keep(last) then [last] else []
  }

  // ---------------------------------------------------------------------
  // Sorting by a total preorder

  ghost predicate TotalPreorder<T(!new)>(le: (T, T) -> bool)
  {
    && (forall x, y :: le(x, y) || le(y, x))
    && (forall x, y, z :: le(x, y) && le(y, z) ==> le(x, z))
  }

  predicate SortedBy<T>(s: seq<T>, le: (T, T) -> bool)
  {
    forall i, j :: 0 <= i < j < |s| ==> le(s[i], s[j])
  }

  /** Every element of a sequence holding the same elements as `s` plus
      `x` is bounded below by anything bounding `s` and `x`. */
  lemma LowerBoundOfMultiset<T>(b: T, x: T, s: seq<T>, t: seq<T>, le: (T, T) -> bool)
    requires multiset(t) == multiset(s) + multiset{x}
    requires le(b, x) && forall j :: 0 <= j < |s| ==> le(b, s[j])
    ensures forall j :: 0 <= j < |t| ==> le(b, t[j])
  {
    forall j | 0 <= j < |t| ensures le(b, t[j]) {
      assert t[j] in multiset(t);
      if t[j] != x {
        assert t[j] in multiset(s);
        var k :| 0 <= k < |s| && s[k] == t[j];
      }
    }
  }

  lemma PrependSorted<T>(b: T, t: seq<T>, le: (T, T) -> bool)
    requires SortedBy(t, le) && forall j :: 0 <= j < |t| ==> le(b, t[j])
    ensures SortedBy([b] + t, le)
  {
    var r := [b] + t;
    forall i, j | 0 <= i < j < |r| ensures le(r[i], r[j]) {
      assert r[j] == t[j - 1];
      if i > 0 {
        assert r[i] == t[i - 1];
      }
    }
  }

  /** Inserts `x` after every element that is not strictly greater. */
  function InsertBy<T(!new)>(x: T, s: seq<T>, le: (T, T) -> bool): (r: seq<T>)
    requires TotalPreorder(le) && SortedBy(s, le)
    ensures multiset(r) == multiset(s) + multiset{x}
    ensures SortedBy(r, le)
  {
    if |s| == 0 then [x]
    else if le(x, s[0]) && !le(s[0], x) then
      assert forall j :: 0 <= j < |s| ==> le(s[0], s[j]);
      PrependSorted(x, s, le);
      [x] + s
    else
      var t := InsertBy(x, s[1..], le);
      SplitFirst(s);
      LowerBoundOfMultiset(s[0], x, s[1..], t, le);
      PrependSorted(s[0], t, le);
      [s[0]] + t
  }

  /** A stable insertion sort: `sorted(s, key=...)` for a total preorder. */
  function SortBy<T(!new)>(s: seq<T>, le: (T, T) -> bool): (r: seq<T>)
    requires TotalPreorder(le)
    ensures multiset(r) == multiset(s)
    ensures |r| == |s|
    ensures SortedBy(r, le)
  {
    if |s| == 0 then []
    else
      var init := s[..|s| - 1];
      var r := InsertBy(s[|s| - 1], SortBy(init, le), le);
      SplitLast(s);
      assert |r| == |multiset(r)| == |multiset(s)| == |s|;
      r
  }

  lemma SplitFirst<T>(s: seq<T>)
    requires |s| > 0
    ensures multiset(s) == multiset{s[0]} + multiset(s[1..])
  {
    assert s == [s[0]] + s[1..];
  }

  lemma SplitLast<T>(s: seq<T>)
    requires |s| > 0
    ensures multiset(s) == multiset(s[..|s| - 1]) + multiset{s[|s| - 1]}
  {
    assert s == s[..|s| - 1] + [s[|s| - 1]];
  }

  lemma SameElements<T>(a: seq<T>, b: seq<T>, x: T)
    requires multiset(a) == multiset(b)
    ensures x in a <==> x in b
  {
    assert x in a <==> x in multiset(a);
    assert x in b <==> x in multiset(b);
  }

  /** The last n entries (all of them when there are fewer). */
  function Tail<T>(s: seq<T>, n: nat): (r: seq<T>)
    ensures |r| == if |s| < n then |s| else n
    ensures r == s[|s| - |r|..]
  {
    if |s| <= n then s else s[|s| - n..]
  }

  /** The middle part of a three-part concatenation, and its last part. */
  lemma ConcatParts<T>(a: seq<T>, b: seq<T>, c: seq<T>)
    ensures (a + b + c)[|a|..|a| + |b|] == b
    ensures (a + b + c)[|a| + |b|..] == c
  {
    assert (a + b + c)[|a|..|a| + |b|] == b;
  }

  /** The second part of a four-part concatenation. */
  lemma SecondOfFour<T>(a: seq<T>, b: seq<T>, c: seq<T>, d: seq<T>)
    ensures |a + b + c + d| >= |a| + |b|
    ensures (a + b + c + d)[|a|..|a| + |b|] == b
  {
    assert (a + b + c + d)[|a|..|a| + |b|] == b;
  }
}
