/**
 * String helpers with the semantics of the Python str methods the source uses
 * (`lower`, `upper`, `strip`, `startswith`, `split`, `str(int)`, `sorted`),
 * restricted to what those methods do on ASCII letters.
 */
module Text {

  // ---------------------------------------------------------------------------
  // Characters
  // ---------------------------------------------------------------------------

  /** The class `[a-zA-Z0-9]` of the source's regular expressions. */
  predicate IsAlnum(c: char) {
    'a' <= c <= 'z' || 'A' <= c <= 'Z' || '0' <= c <= '9'
  }

  /** A character that `[a-z0-9_]` matches: what normalized tokens are made of. */
  predicate IsTokenChar(c: char) {
    'a' <= c <= 'z' || '0' <= c <= '9' || c == '_'
  }

  /** Python's `str.isspace`, character by character (the whole Unicode list). */
  predicate IsSpace(c: char) {
    var n := c as int;
    (9 <= n <= 13) || (28 <= n <= 32) || n == 0x85 || n == 0xA0 || n == 0x1680
    || (0x2000 <= n <= 0x200A) || n == 0x2028 || n == 0x2029 || n == 0x202F
    || n == 0x205F || n == 0x3000
  }

  predicate IsUnderscore(c: char) { c == '_' }

  predicate IsSlash(c: char) { c == '/' }

  function LowerChar(c: char): char {
    if 'A' <= c <= 'Z' then (c as int + 32) as char else c
  }

  function UpperChar(c: char): char {
    if 'a' <= c <= 'z' then (c as int - 32) as char else c
  }

  /** `s.lower()` on ASCII letters. */
  function Lower(s: string): string {
    seq(|s|, i requires 0 <= i < |s| => LowerChar(s[i]))
  }

  /** `s.upper()` on ASCII letters. */
  function Upper(s: string): string {
    seq(|s|, i requires 0 <= i < |s| => UpperChar(s[i]))
  }

  /** The alphanumeric characters of `s`, in order. */
  function Alnums(s: string): string {
    if s == "" then "" else (if IsAlnum(s[0]) then [s[0]] else "") + Alnums(s[1..])
  }

  lemma {:induction false} AlnumsAppend(a: string, b: string)
    ensures Alnums(a + b) == Alnums(a) + Alnums(b)
  {
    if a == "" {
      assert a + b == b;
    } else {
      var head := if IsAlnum(a[0]) then [a[0]] else "";
      assert (a + b)[1..] == a[1..] + b;
      assert Alnums(a + b) == head + Alnums(a[1..] + b);
      AlnumsAppend(a[1..], b);
      assert head + (Alnums(a[1..]) + Alnums(b)) == (head + Alnums(a[1..])) + Alnums(b);
    }
  }

  /** A string with no alphanumeric character has no alphanumerics to keep. */
  lemma {:induction false} AlnumsNone(s: string)
    requires forall k :: 0 <= k < |s| ==> !IsAlnum(s[k])
    ensures Alnums(s) == ""
  {
    if s != "" { AlnumsNone(s[1..]); }
  }

  lemma {:induction false} LowerAlnums(s: string)
    ensures Alnums(Lower(s)) == Lower(Alnums(s))
  {
    if s != "" {
      assert Lower(s) == [LowerChar(s[0])] + Lower(s[1..]);
      LowerAlnums(s[1..]);
      if IsAlnum(s[0]) {
        assert Lower(Alnums(s)) == [LowerChar(s[0])] + Lower(Alnums(s[1..]));
      }
    }
  }

  // ---------------------------------------------------------------------------
  // Trimming (`strip`)
  // ---------------------------------------------------------------------------

  /** Drops the leading characters that satisfy `drop`. */
  function TrimStart(s: string, drop: char -> bool): (r: string)
    ensures |r| <= |s| && r == s[|s| - |r|..]
    ensures forall k :: 0 <= k < |s| - |r| ==> drop(s[k])
    ensures r != "" ==> !drop(r[0])
  {
    if s != "" && drop(s[0]) then TrimStart(s[1..], drop) else s
  }

  /** Drops the trailing characters that satisfy `drop`. */
  function TrimEnd(s: string, drop: char -> bool): (r: string)
    ensures |r| <= |s| && r == s[..|r|]
    ensures forall k :: |r| <= k < |s| ==> drop(s[k])
    ensures r != "" ==> !drop(r[|r| - 1])
  {
    if s != "" && drop(s[|s| - 1]) then TrimEnd(s[..|s| - 1], drop) else s
  }

  /** `s.strip(chars)`: both ends. */
  function Trim(s: string, drop: char -> bool): string {
    TrimEnd(TrimStart(s, drop), drop)
  }

  /** `s.strip()`. */
  function Strip(s: string): string {
    Trim(s, IsSpace)
  }

  /** Neither end of a trimmed string is a dropped character. */
  lemma TrimEnds(s: string, drop: char -> bool)
    ensures var t := Trim(s, drop); t != "" ==> !drop(t[0]) && !drop(t[|t| - 1])
  {
    var a := TrimStart(s, drop);
    var t := TrimEnd(a, drop);
    if t != "" {
      assert t[0] == a[0];
    }
  }

  /** Dropped characters next to `x` add no alphanumerics, on either side. */
  lemma AlnumsAroundDropped(x: string, y: string, drop: char -> bool)
    requires forall c :: drop(c) ==> !IsAlnum(c)
    requires forall k :: 0 <= k < |y| ==> drop(y[k])
    ensures Alnums(x + y) == Alnums(x) && Alnums(y + x) == Alnums(x)
  {
    assert forall k :: 0 <= k < |y| ==> !IsAlnum(y[k]);
    AlnumsNone(y);
    AlnumsAppend(x, y);
    AlnumsAppend(y, x);
  }

  lemma TrimStartKeepsAlnums(s: string, drop: char -> bool)
    requires forall c :: drop(c) ==> !IsAlnum(c)
    ensures Alnums(TrimStart(s, drop)) == Alnums(s)
  {
    var a := TrimStart(s, drop);
    var head := s[..|s| - |a|];
    assert s == head + a;
    AlnumsAroundDropped(a, head, drop);
  }

  lemma TrimEndKeepsAlnums(s: string, drop: char -> bool)
    requires forall c :: drop(c) ==> !IsAlnum(c)
    ensures Alnums(TrimEnd(s, drop)) == Alnums(s)
  {
    var r := TrimEnd(s, drop);
    var tail := s[|r|..];
    assert s == r + tail;
    AlnumsAroundDropped(r, tail, drop);
  }

  /** When no dropped character is alphanumeric, trimming keeps every alphanumeric. */
  lemma TrimKeepsAlnums(s: string, drop: char -> bool)
    requires forall c :: drop(c) ==> !IsAlnum(c)
    ensures Alnums(Trim(s, drop)) == Alnums(s)
  {
    TrimStartKeepsAlnums(s, drop);
    TrimEndKeepsAlnums(TrimStart(s, drop), drop);
  }

  /** Trimming the front drops exactly a prefix of dropped characters in front of a kept one. */
  lemma {:induction false} TrimStartPrefix(p: string, u: string, drop: char -> bool)
    requires forall k :: 0 <= k < |p| ==> drop(p[k])
    requires u == "" || !drop(u[0])
    ensures TrimStart(p + u, drop) == u
    decreases |p|
  {
    if p != "" {
      assert (p + u)[1..] == p[1..] + u;
      TrimStartPrefix(p[1..], u, drop);
    } else {
      assert p + u == u;
    }
  }

  /** Trimming the end drops exactly a suffix of dropped characters behind a kept one. */
  lemma {:induction false} TrimEndSuffix(u: string, q: string, drop: char -> bool)
    requires forall k :: 0 <= k < |q| ==> drop(q[k])
    requires u == "" || !drop(u[|u| - 1])
    ensures TrimEnd(u + q, drop) == u
    decreases |q|
  {
    if q != "" {
      assert (u + q)[..|u + q| - 1] == u + q[..|q| - 1];
      TrimEndSuffix(u, q[..|q| - 1], drop);
    } else {
      assert u + q == u;
    }
  }

  /** `Trim` removes exactly the dropped characters around a piece that neither starts nor ends with one. */
  lemma TrimAround(p: string, t: string, q: string, drop: char -> bool)
    requires forall k :: 0 <= k < |p| ==> drop(p[k])
    requires forall k :: 0 <= k < |q| ==> drop(q[k])
    requires t != "" ==> !drop(t[0]) && !drop(t[|t| - 1])
    ensures Trim(p + t + q, drop) == t
  {
    if t == "" {
      assert p + t + q == p + q;
      TrimStartPrefix(p + q, "", drop);
      assert p + q + "" == p + q;
    } else {
      assert p + t + q == p + (t + q);
      TrimStartPrefix(p, t + q, drop);
      TrimEndSuffix(t, q, drop);
    }
  }

  /** The trimmed string is the piece `s[i..j]`, with only dropped characters around it. */
  lemma TrimSlice(s: string, drop: char -> bool) returns (i: nat, j: nat)
    ensures i <= j <= |s| && Trim(s, drop) == s[i..j]
    ensures forall k :: 0 <= k < i ==> drop(s[k])
    ensures forall k :: j <= k < |s| ==> drop(s[k])
  {
    var a := TrimStart(s, drop);
    var r := TrimEnd(a, drop);
    i, j := |s| - |a|, |s| - |a| + |r|;
    assert a == s[i..];
    assert r == a[..|r|];
    assert a[..|r|] == s[i..j];
    forall k | j <= k < |s| ensures drop(s[k]) {
      assert s[k] == a[k - i];
    }
  }

  // ---------------------------------------------------------------------------
  // Prefixes, splitting and joining
  // ---------------------------------------------------------------------------

  predicate StartsWith(s: string, prefix: string) {
    |prefix| <= |s| && s[..|prefix|] == prefix
  }

  /** The index of the first `c` in `s`, or `|s|` when there is none. */
  function IndexOf(s: string, c: char): (i: nat)
    ensures i <= |s|
    ensures i < |s| ==> s[i] == c
    ensures forall k :: 0 <= k < i ==> s[k] != c
  {
    if s == "" then 0 else if s[0] == c then 0 else 1 + IndexOf(s[1..], c)
  }

  /** `sep.join(parts)` for a one-character separator. */
  function JoinWith(parts: seq<string>, sep: char): string {
    if parts == [] then ""
    else if |parts| == 1 then parts[0]
    else parts[0] + [sep] + JoinWith(parts[1..], sep)
  }

  /**
   * `s.split(sep)`: never empty, no piece holds the separator, and joining the
   * pieces back gives `s`.
   */
  function Split(s: string, sep: char): (parts: seq<string>)
    ensures |parts| >= 1
    ensures forall k :: 0 <= k < |parts| ==> sep !in parts[k]
    ensures JoinWith(parts, sep) == s
    decreases |s|
  {
    var i := IndexOf(s, sep);
    if i == |s| then
      assert forall k :: 0 <= k < |s| ==> s[k] != sep;
      [s]
    else
      var rest := Split(s[i + 1..], sep);
      assert s == s[..i] + [sep] + s[i + 1..];
      [s[..i]] + rest
  }

  /** Splitting undoes joining, when no piece holds the separator. */
  lemma {:induction false} SplitJoin(parts: seq<string>, sep: char)
    requires |parts| >= 1
    requires forall k :: 0 <= k < |parts| ==> sep !in parts[k]
    ensures Split(JoinWith(parts, sep), sep) == parts
  {
    if |parts| > 1 {
      var s := JoinWith(parts, sep);
      var p := parts[0];
      assert s == p + [sep] + JoinWith(parts[1..], sep);
      assert s[|p|] == sep;
      assert forall k :: 0 <= k < |p| ==> s[k] == p[k] && s[k] != sep;
      assert IndexOf(s, sep) == |p|;
      assert s[..|p|] == p;
      assert s[|p| + 1..] == JoinWith(parts[1..], sep);
      SplitJoin(parts[1..], sep);
    } else {
      var p := parts[0];
      assert IndexOf(p, sep) == |p|;
    }
  }

  // ---------------------------------------------------------------------------
  // `str(n)` for an integer
  // ---------------------------------------------------------------------------

  function DigitChar(d: nat): char
    requires d < 10
  {
    ('0' as int + d) as char
  }

  function Digits(n: nat): string
    decreases n
  {
    if n < 10 then [DigitChar(n)] else Digits(n / 10) + [DigitChar(n % 10)]
  }

  function IntToString(n: int): string {
    if n < 0 then "-" + Digits(-n) else Digits(n)
  }

  // ---------------------------------------------------------------------------
  // Python's ordering of strings (by code point) and `sorted`
  // ---------------------------------------------------------------------------

  /** `a <= b` on Python strings. */
  predicate Le(a: string, b: string) {
    |a| == 0 || (|b| > 0 && (a[0] < b[0] || (a[0] == b[0] && Le(a[1..], b[1..]))))
  }

  predicate Lt(a: string, b: string) {
    Le(a, b) && a != b
  }

  lemma {:induction false} LeRefl(a: string)
    ensures Le(a, a)
  {
    if |a| > 0 { LeRefl(a[1..]); }
  }

  lemma {:induction false} LeAntisym(a: string, b: string)
    requires Le(a, b) && Le(b, a)
    ensures a == b
  {
    if |a| > 0 && |b| > 0 { LeAntisym(a[1..], b[1..]); }
  }

  lemma LeAntisymAll()
    ensures forall a, b :: Le(a, b) && Le(b, a) ==> a == b
  {
    forall a, b | Le(a, b) && Le(b, a) ensures a == b { LeAntisym(a, b); }
  }

  lemma {:induction false} LeTotal(a: string, b: string)
    ensures Le(a, b) || Le(b, a)
  {
    if |a| > 0 && |b| > 0 && a[0] == b[0] { LeTotal(a[1..], b[1..]); }
  }

  lemma {:induction false} LeTrans(a: string, b: string, c: string)
    requires Le(a, b) && Le(b, c)
    ensures Le(a, c)
  {
    if |a| > 0 && |b| > 0 && |c| > 0 && a[0] == b[0] && b[0] == c[0] {
      LeTrans(a[1..], b[1..], c[1..]);
    }
  }

  predicate Sorted(xs: seq<string>) {
    forall i, j :: 0 <= i < j < |xs| ==> Le(xs[i], xs[j])
  }

  predicate StrictlySorted(xs: seq<string>) {
    forall i, j :: 0 <= i < j < |xs| ==> Lt(xs[i], xs[j])
  }

  /** Inserts `x` into a sorted list, keeping it sorted. */
  function Insert(x: string, xs: seq<string>): (r: seq<string>)
    requires Sorted(xs)
    ensures Sorted(r)
    ensures multiset(r) == multiset(xs) + multiset{x}
    ensures forall y :: y in r ==> y == x || y in xs
  {
    if xs == [] then [x]
    else if Le(x, xs[0]) then
      forall j | 0 <= j < |xs| ensures Le(x, xs[j]) {
        if j > 0 { LeTrans(x, xs[0], xs[j]); }
      }
      [x] + xs
    else
      LeTotal(x, xs[0]);
      var rest := Insert(x, xs[1..]);
      assert xs == [xs[0]] + xs[1..];
      forall y | y in rest ensures Le(xs[0], y) {
        if y != x { var j :| 0 <= j < |xs[1..]| && xs[1..][j] == y; assert xs[j + 1] == y; }
      }
      [xs[0]] + rest
  }

  /** `sorted(xs)`: an ordered permutation of `xs`. */
  function Sort(xs: seq<string>): (r: seq<string>)
    ensures Sorted(r)
    ensures multiset(r) == multiset(xs)
  {
    if xs == [] then []
    else
      assert xs == [xs[0]] + xs[1..];
      Insert(xs[0], Sort(xs[1..]))
  }

  predicate IsMin(m: string, s: set<string>) {
    m in s && forall y :: y in s ==> Le(m, y)
  }

  lemma {:induction false} MinOf(s: set<string>) returns (m: string)
    requires s != {}
    ensures IsMin(m, s)
    decreases s
  {
    var x :| x in s;
    if s == {x} {
      LeRefl(x);
      m := x;
    } else {
      var m' := MinOf(s - {x});
      LeTotal(m', x);
      if Le(m', x) {
        m := m';
      } else {
        forall y | y in s ensures Le(x, y) {
          if y == x { LeRefl(x); } else { LeTrans(x, m', y); }
        }
        m := x;
      }
    }
  }

  lemma HasMin(s: set<string>)
    requires s != {}
    ensures exists m :: IsMin(m, s)
  {
    var m := MinOf(s);
  }

  /** `sorted(s)` for a set: its elements, each once, in increasing order. */
  function SortedOfSet(s: set<string>): (r: seq<string>)
    ensures StrictlySorted(r)
    ensures forall x :: x in r <==> x in s
    ensures |r| == |s|
    decreases s
  {
    if s == {} then []
    else
      HasMin(s);
      LeAntisymAll();
      var m :| IsMin(m, s);
      var rest := SortedOfSet(s - {m});
      assert forall j :: 0 <= j < |rest| ==> Lt(m, rest[j]);
      [m] + rest
  }
}
