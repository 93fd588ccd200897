/**
 * String helpers with the semantics of the Python built-ins and `posixpath` functions that
 * the modelled code uses: `startswith`, `endswith`, `rstrip`, `str.join`, `str(int)`,
 * `sorted` on strings (code-point order), `os.path.basename`/`dirname`/`join`,
 * `split(c)[0]` and `rsplit(c, 1)[0]`.
 */
module Strings {

  predicate StartsWith(s: string, p: string) {
    |p| <= |s| && s[..|p|] == p
  }

  predicate EndsWith(s: string, p: string) {
    |p| <= |s| && s[|s| - |p|..] == p
  }

  predicate NoChar(s: string, c: char) {
    forall i :: 0 <= i < |s| ==> s[i] != c
  }

  /** `s.rstrip(c)`: removes every trailing occurrence of `c`, and nothing else. */
  function RStrip(s: string, c: char): (r: string)
    ensures r <= s
    ensures r == [] || r[|r| - 1] != c
    ensures forall i :: |r| <= i < |s| ==> s[i] == c
  {
    if |s| > 0 && s[|s| - 1] == c then RStrip(s[..|s| - 1], c) else s
  }

  lemma {:induction false} RStripIdempotent(s: string, c: char)
    ensures RStrip(RStrip(s, c), c) == RStrip(s, c)
  {
    var r := RStrip(s, c);
    assert !(|r| > 0 && r[|r| - 1] == c);
  }

  /** `sep.join(parts)`. */
  function Join(parts: seq<string>, sep: string): string {
    if |parts| == 0 then ""
    else if |parts| == 1 then parts[0]
    else parts[0] + sep + Join(parts[1..], sep)
  }

  lemma {:induction false} JoinNoChar(parts: seq<string>, c: char)
    requires forall i :: 0 <= i < |parts| ==> NoChar(parts[i], c)
    requires |parts| <= 1
    ensures NoChar(Join(parts, [c]), c)
  {
  }

  /** Index of the first `c` in `s`, or `|s|` when there is none. */
  function FirstIndexOf(s: string, c: char): (i: nat)
    ensures i <= |s| && NoChar(s[..i], c)
    ensures i < |s| ==> s[i] == c
  {
    if s == [] || s[0] == c then 0
    else
      assert s[..1 + FirstIndexOf(s[1..], c)] == [s[0]] + s[1..][..FirstIndexOf(s[1..], c)];
      1 + FirstIndexOf(s[1..], c)
  }

  lemma FirstIndexOfPrefix(x: string, rest: string, c: char)
    requires NoChar(x, c)
    ensures FirstIndexOf(x + rest, c) == |x| + FirstIndexOf(rest, c)
  {
    if x == [] {
      assert x + rest == rest;
    } else {
      assert (x + rest)[0] == x[0] != c;
      assert (x + rest)[1..] == x[1..] + rest;
      assert NoChar(x[1..], c) by { forall i | 0 <= i < |x[1..]| ensures x[1..][i] != c { assert x[1..][i] == x[i + 1]; } }
      FirstIndexOfPrefix(x[1..], rest, c);
    }
  }

  /** In a joined string, the first separator ends the first part; there is one exactly when there are two parts or more. */
  lemma {:induction false} JoinFirstPart(parts: seq<string>, c: char)
    requires |parts| > 0
    requires forall i :: 0 <= i < |parts| ==> NoChar(parts[i], c)
    ensures FirstIndexOf(Join(parts, [c]), c) == |parts[0]|
    ensures |parts| > 1 <==> |parts[0]| < |Join(parts, [c])|
    ensures Join(parts, [c])[..|parts[0]|] == parts[0]
    ensures |parts| > 1 ==> Join(parts, [c])[|parts[0]| + 1..] == Join(parts[1..], [c])
  {
    var s := Join(parts, [c]);
    if |parts| == 1 {
      FirstIndexOfPrefix(parts[0], [], c);
      assert s == parts[0] + [];
    } else {
      assert s == parts[0] + ([c] + Join(parts[1..], [c]));
      FirstIndexOfPrefix(parts[0], [c] + Join(parts[1..], [c]), c);
    }
  }

  /**
   * Joining with a one-character separator loses nothing when no part contains that
   * character and the list is not empty: different lists give different joined strings.
   */
  lemma {:induction false} JoinInjective(a: seq<string>, b: seq<string>, c: char)
    requires |a| > 0 && |b| > 0
    requires forall i :: 0 <= i < |a| ==> NoChar(a[i], c)
    requires forall i :: 0 <= i < |b| ==> NoChar(b[i], c)
    requires Join(a, [c]) == Join(b, [c])
    ensures a == b
  {
    var s := Join(a, [c]);
    JoinFirstPart(a, c);
    JoinFirstPart(b, c);
    assert a[0] == b[0];
    if |a| > 1 {
      forall i | 0 <= i < |a[1..]| ensures NoChar(a[1..][i], c) { assert a[1..][i] == a[i + 1]; }
      forall i | 0 <= i < |b[1..]| ensures NoChar(b[1..][i], c) { assert b[1..][i] == b[i + 1]; }
      JoinInjective(a[1..], b[1..], c);
      assert a == [a[0]] + a[1..];
      assert b == [b[0]] + b[1..];
    }
  }

  // ---------------------------------------------------------------------------------------
  // str(n) for natural numbers

  function Digit(d: nat): (c: char)
    requires d < 10
    ensures '0' <= c <= '9'
  {
    ['0', '1', '2', '3', '4', '5', '6', '7', '8', '9'][d]
  }

  /** The decimal representation `f"{n}"` of a natural number. */
  function NatToString(n: nat): (s: string)
    ensures |s| >= 1
    ensures n < 10 <==> |s| == 1
    ensures forall i :: 0 <= i < |s| ==> '0' <= s[i] <= '9'
  {
    if n < 10 then [Digit(n)] else NatToString(n / 10) + [Digit(n % 10)]
  }

  /** `str(n)` for an integer: a minus sign before the digits of a negative number. */
  function IntToString(n: int): (s: string)
    ensures |s| >= 1
    ensures n < 0 <==> s[0] == '-'
  {
    if n >= 0 then NatToString(n) else "-" + NatToString(-n)
  }

  lemma DigitInjective(a: nat, b: nat)
    requires a < 10 && b < 10 && Digit(a) == Digit(b)
    ensures a == b
  {
  }

  /** Different numbers have different decimal names. */
  lemma {:induction false} NatToStringInjective(a: nat, b: nat)
    requires NatToString(a) == NatToString(b)
    ensures a == b
  {
    var s := NatToString(a);
    if a < 10 && b < 10 {
      DigitInjective(a, b);
    } else if a >= 10 && b >= 10 {
      assert s == NatToString(a / 10) + [Digit(a % 10)];
      assert s == NatToString(b / 10) + [Digit(b % 10)];
      assert s[|s| - 1] == Digit(a % 10) == Digit(b % 10);
      DigitInjective(a % 10, b % 10);
      assert NatToString(a / 10) == s[..|s| - 1] == NatToString(b / 10);
      NatToStringInjective(a / 10, b / 10);
    }
  }

  /** Different integers have different `str` forms. */
  lemma IntToStringInjective(a: int, b: int)
    requires IntToString(a) == IntToString(b)
    ensures a == b
  {
    var s := IntToString(a);
    if a < 0 && b < 0 {
      assert NatToString(-a) == s[1..] == NatToString(-b);
      NatToStringInjective(-a, -b);
    } else if a >= 0 && b >= 0 {
      NatToStringInjective(a, b);
    }
  }

  // ---------------------------------------------------------------------------------------
  // Python's string order (code points, lexicographic) and `sorted`

  predicate StrLe(a: string, b: string) {
    a == [] || (b != [] && (a[0] < b[0] || (a[0] == b[0] && StrLe(a[1..], b[1..]))))
  }

  lemma {:induction false} StrLeTotal(a: string, b: string)
    ensures StrLe(a, b) || StrLe(b, a)
  {
    if a != [] && b != [] && a[0] == b[0] { StrLeTotal(a[1..], b[1..]); }
  }

  lemma {:induction false} StrLeAntisymmetric(a: string, b: string)
    requires StrLe(a, b) && StrLe(b, a)
    ensures a == b
  {
    if a != [] && b != [] {
      StrLeAntisymmetric(a[1..], b[1..]);
      assert a == [a[0]] + a[1..];
      assert b == [b[0]] + b[1..];
    }
  }

  lemma {:induction false} StrLeTransitive(a: string, b: string, c: string)
    requires StrLe(a, b) && StrLe(b, c)
    ensures StrLe(a, c)
  {
    if a != [] && b != [] && c != [] && a[0] == b[0] && b[0] == c[0] {
      StrLeTransitive(a[1..], b[1..], c[1..]);
    }
  }

  predicate Sorted(s: seq<string>) {
    forall i :: 0 < i < |s| ==> StrLe(s[i - 1], s[i])
  }

  function Insert(x: string, s: seq<string>): (r: seq<string>)
    ensures multiset(r) == multiset(s) + multiset{x}
    ensures |r| == |s| + 1
    ensures r[0] == x || (|s| > 0 && r[0] == s[0])
  {
    if s == [] || StrLe(x, s[0]) then [x] + s
    else
      assert s == [s[0]] + s[1..];
      [s[0]] + Insert(x, s[1..])
  }

  lemma {:induction false} InsertSorted(x: string, s: seq<string>)
    requires Sorted(s)
    ensures Sorted(Insert(x, s))
  {
    if s == [] || StrLe(x, s[0]) {
    } else {
      InsertSorted(x, s[1..]);
      StrLeTotal(x, s[0]);
      var t := Insert(x, s[1..]);
      assert Insert(x, s) == [s[0]] + t;
      assert t[0] == x || (|s| > 1 && t[0] == s[1]);
    }
  }

  /** `sorted(xs)` for strings, as an insertion sort. */
  function Sort(xs: seq<string>): (r: seq<string>)
    ensures multiset(r) == multiset(xs)
    ensures |r| == |xs|
  {
    if xs == [] then []
    else
      assert xs == [xs[0]] + xs[1..];
      Insert(xs[0], Sort(xs[1..]))
  }

  lemma {:induction false} SortSorted(xs: seq<string>)
    ensures Sorted(Sort(xs))
  {
    if xs != [] {
      SortSorted(xs[1..]);
      InsertSorted(xs[0], Sort(xs[1..]));
    }
  }

  lemma {:induction false} SortedHeadIsLeast(s: seq<string>, j: nat)
    requires Sorted(s) && j < |s|
    ensures StrLe(s[0], s[j])
  {
    if j == 0 {
      StrLeTotal(s[0], s[0]);
    } else {
      SortedHeadIsLeast(s, j - 1);
      StrLeTransitive(s[0], s[j - 1], s[j]);
    }
  }

  lemma SortedHeadsEqual(s: seq<string>, t: seq<string>)
    requires Sorted(s) && Sorted(t) && multiset(s) == multiset(t) && s != []
    ensures t != [] && s[0] == t[0]
  {
    assert s[0] in multiset(s);
    assert t != [];
    assert t[0] in multiset(t);
    var i :| 0 <= i < |t| && t[i] == s[0];
    var j :| 0 <= j < |s| && s[j] == t[0];
    SortedHeadIsLeast(s, j);
    SortedHeadIsLeast(t, i);
    StrLeAntisymmetric(s[0], t[0]);
  }

  lemma SameTails(s: seq<string>, t: seq<string>)
    requires s != [] && t != [] && s[0] == t[0] && multiset(s) == multiset(t)
    ensures multiset(s[1..]) == multiset(t[1..])
  {
    assert s == [s[0]] + s[1..];
    assert t == [t[0]] + t[1..];
    assert multiset(s[1..]) == multiset(s) - multiset{s[0]};
    assert multiset(t[1..]) == multiset(t) - multiset{t[0]};
  }

  lemma SortedTail(s: seq<string>)
    requires Sorted(s) && s != []
    ensures Sorted(s[1..])
  {
    forall i | 0 < i < |s[1..]| ensures StrLe(s[1..][i - 1], s[1..][i]) {
      assert s[1..][i - 1] == s[i] && s[1..][i] == s[i + 1];
    }
  }

  /** A sorted sequence is determined by its multiset of elements. */
  lemma {:induction false} SortedUnique(s: seq<string>, t: seq<string>)
    requires Sorted(s) && Sorted(t) && multiset(s) == multiset(t)
    ensures s == t
  {
    if s != [] {
      SortedHeadsEqual(s, t);
      SameTails(s, t);
      SortedTail(s);
      SortedTail(t);
      SortedUnique(s[1..], t[1..]);
      assert s == [s[0]] + s[1..];
      assert t == [t[0]] + t[1..];
    }
  }

  /** `sorted` depends only on the multiset of its input: any reordering sorts to the same list. */
  lemma SortPermutationInvariant(xs: seq<string>, ys: seq<string>)
    requires multiset(xs) == multiset(ys)
    ensures Sort(xs) == Sort(ys)
  {
    SortSorted(xs);
    SortSorted(ys);
    SortedUnique(Sort(xs), Sort(ys));
  }

  // ---------------------------------------------------------------------------------------
  // posixpath

  /** Index just after the last `/` of `p`, 0 when there is none (`p.rfind('/') + 1`). */
  function AfterLastSlash(p: string): (i: nat)
    ensures i <= |p|
    ensures i > 0 ==> p[i - 1] == '/'
    ensures NoChar(p[i..], '/')
  {
    if p == [] then 0
    else if p[|p| - 1] == '/' then |p|
    else
      var i := AfterLastSlash(p[..|p| - 1]);
      assert p[i..] == p[..|p| - 1][i..] + [p[|p| - 1]];
      i
  }

  /** `os.path.basename(p)`. */
  function Basename(p: string): (r: string)
    ensures NoChar(r, '/') && EndsWith(p, r)
  {
    p[AfterLastSlash(p)..]
  }

  predicate AllSlashes(s: string) {
    forall i :: 0 <= i < |s| ==> s[i] == '/'
  }

  /** `os.path.dirname(p)`. */
  function Dirname(p: string): string {
    var head := p[..AfterLastSlash(p)];
    if head != [] && !AllSlashes(head) then RStrip(head, '/') else head
  }

  /** `os.path.join(a, b)` for two components. */
  function PathJoin(a: string, b: string): string {
    if StartsWith(b, "/") then b
    else if a == [] || a[|a| - 1] == '/' then a + b
    else a + "/" + b
  }

  lemma {:induction false} AfterLastSlashOfJoin(d: string, n: string)
    requires NoChar(n, '/')
    ensures AfterLastSlash(d + "/" + n) == |d| + 1
  {
    var p := d + "/" + n;
    if n != [] {
      assert p[..|p| - 1] == d + "/" + n[..|n| - 1];
      assert p[|p| - 1] == n[|n| - 1];
      AfterLastSlashOfJoin(d, n[..|n| - 1]);
    }
  }

  /** Splitting `d + "/" + n` back: the base name is `n`, the directory is `d`. */
  lemma SplitPath(d: string, n: string)
    requires NoChar(n, '/')
    requires d != [] && d[|d| - 1] != '/'
    ensures Basename(d + "/" + n) == n
    ensures Dirname(d + "/" + n) == d
  {
    var p := d + "/" + n;
    AfterLastSlashOfJoin(d, n);
    assert p[|d| + 1..] == n;
    var head := p[..|d| + 1];
    assert head == d + "/";
    assert !AllSlashes(head) by { assert head[|d| - 1] != '/'; }
    assert head[..|d|] == d;
    assert RStrip(head, '/') == RStrip(d, '/') == d;
  }

  // ---------------------------------------------------------------------------------------
  // str.split / str.rsplit

  /** `s.split(c)[0]`: everything before the first `c`, or `s` when there is none. */
  function BeforeFirst(s: string, c: char): (r: string)
    ensures r <= s && NoChar(r, c)
    ensures |r| < |s| ==> s[|r|] == c
  {
    if s == [] || s[0] == c then []
    else
      var r := [s[0]] + BeforeFirst(s[1..], c);
      assert s == [s[0]] + s[1..];
      r
  }

  /** `s.rsplit(c, 1)[0]`: everything before the last `c`, or `s` when there is none. */
  function BeforeLast(s: string, c: char): (r: string)
    ensures r <= s
    ensures |r| < |s| ==> s[|r|] == c && NoChar(s[|r| + 1..], c)
    ensures |r| == |s| ==> NoChar(s, c)
  {
    if s == [] then []
    else if s[|s| - 1] == c then s[..|s| - 1]
    else
      var r := BeforeLast(s[..|s| - 1], c);
      if |r| == |s| - 1 then
        assert NoChar(s, c) by {
          forall i | 0 <= i < |s| ensures s[i] != c { if i < |s| - 1 { assert s[i] == s[..|s| - 1][i]; } }
        }
        s
      else
        assert s[|r| + 1..] == s[..|s| - 1][|r| + 1..] + [s[|s| - 1]];
        r
  }

  /** `split(c)[0]` of a string whose first `c` comes right after `x` is `x`. */
  lemma {:induction false} BeforeFirstOf(x: string, rest: string, c: char)
    requires NoChar(x, c)
    ensures BeforeFirst(x + [c] + rest, c) == x
  {
    if x != [] {
      assert (x + [c] + rest)[1..] == x[1..] + [c] + rest;
      BeforeFirstOf(x[1..], rest, c);
    }
  }

  /** A string without a trailing `c` is its own `rstrip(c)`. */
  lemma RStripNoTrailing(s: string, c: char)
    requires s == [] || s[|s| - 1] != c
    ensures RStrip(s, c) == s
  {
  }

  /** `rsplit(c, 1)[0]` of a string whose last `c` comes right after `x` is `x`. */
  lemma {:induction false} BeforeLastOf(x: string, rest: string, c: char)
    requires NoChar(rest, c)
    ensures BeforeLast(x + [c] + rest, c) == x
  {
    var s := x + [c] + rest;
    if rest != [] {
      var n := |rest| - 1;
      assert NoChar(rest[..n], c);
      assert s[..|s| - 1] == x + [c] + rest[..n];
      BeforeLastOf(x, rest[..n], c);
    } else {
      assert s[..|s| - 1] == x;
    }
  }
}
