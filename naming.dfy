/**
 * The two string rewritings of the registry builder: turning an OpenAPI tag
 * into a domain name, and deriving an action name from a method and a path
 * when an operation declares no operationId.
 */
module Naming {
  import opened Text

  predicate NoDoubleUnderscore(s: string) {
    forall k :: 0 <= k < |s| - 1 ==> !(s[k] == '_' && s[k + 1] == '_')
  }

  /**
   * A normalized token: non-empty, made of `[a-z0-9_]`, no underscore at
   * either end and never two in a row.
   */
  predicate IsToken(s: string) {
    && s != ""
    && (forall k :: 0 <= k < |s| ==> IsTokenChar(s[k]))
    && s[0] != '_' && s[|s| - 1] != '_'
    && NoDoubleUnderscore(s)
  }

  /** Drops the run of non-alphanumerics at the front. */
  function SkipRun(s: string): (r: string)
    ensures |r| <= |s| && r == s[|s| - |r|..]
    ensures forall k :: 0 <= k < |s| - |r| ==> !IsAlnum(s[k])
    ensures r != "" ==> IsAlnum(r[0])
  {
    if s != "" && !IsAlnum(s[0]) then
      var r := SkipRun(s[1..]);
      assert s[1..][|s| - 1 - |r|..] == s[|s| - |r|..];
      assert forall k :: 1 <= k < |s| - |r| ==> s[k] == s[1..][k - 1];
      r
    else s
  }

  predicate NoUpper(s: string) {
    forall k :: 0 <= k < |s| ==> !('A' <= s[k] <= 'Z')
  }

  /**
   * `re.sub(r"[^a-zA-Z0-9]+", "_", s)`: every maximal run of characters
   * outside `[a-zA-Z0-9]` becomes a single underscore.
   */
  function Collapse(s: string): (r: string)
    ensures forall k :: 0 <= k < |r| ==> r[k] == '_' || IsAlnum(r[k])
    ensures (r != "" && r[0] == '_') <==> (s != "" && !IsAlnum(s[0]))
    ensures r == "" <==> s == ""
    decreases |s|
  {
    if s == "" then ""
    else if IsAlnum(s[0]) then [s[0]] + Collapse(s[1..])
    else "_" + Collapse(SkipRun(s[1..]))
  }

  lemma ConsNoDouble(c: char, rest: string)
    requires NoDoubleUnderscore(rest)
    requires c == '_' ==> rest == "" || rest[0] != '_'
    ensures NoDoubleUnderscore([c] + rest)
  {
    var r := [c] + rest;
    assert forall k :: 1 <= k < |r| ==> r[k] == rest[k - 1];
  }

  lemma ConsNoUpper(c: char, rest: string)
    requires NoUpper(rest) && !('A' <= c <= 'Z')
    ensures NoUpper([c] + rest)
  {
    var r := [c] + rest;
    assert forall k :: 1 <= k < |r| ==> r[k] == rest[k - 1];
  }

  /** A collapsed string never holds two underscores in a row. */
  lemma {:induction false} CollapseNoDouble(s: string)
    ensures NoDoubleUnderscore(Collapse(s))
    decreases |s|
  {
    if s != "" {
      if IsAlnum(s[0]) {
        CollapseNoDouble(s[1..]);
        ConsNoDouble(s[0], Collapse(s[1..]));
      } else {
        var tail := SkipRun(s[1..]);
        CollapseNoDouble(tail);
        ConsNoDouble('_', Collapse(tail));
      }
    }
  }

  /** Collapsing brings in no upper case. */
  lemma {:induction false} CollapseNoUpper(s: string)
    requires NoUpper(s)
    ensures NoUpper(Collapse(s))
    decreases |s|
  {
    if s != "" {
      if IsAlnum(s[0]) {
        assert NoUpper(s[1..]);
        CollapseNoUpper(s[1..]);
        ConsNoUpper(s[0], Collapse(s[1..]));
      } else {
        var tail := SkipRun(s[1..]);
        assert NoUpper(tail);
        CollapseNoUpper(tail);
        ConsNoUpper('_', Collapse(tail));
      }
    }
  }

  /** The skipped run holds no alphanumerics. */
  lemma SkipRunAlnums(s: string)
    ensures Alnums(SkipRun(s)) == Alnums(s)
  {
    var tail := SkipRun(s);
    var dropped := s[..|s| - |tail|];
    assert s == dropped + tail;
    AlnumsNone(dropped);
    AlnumsAppend(dropped, tail);
  }

  /** A character in front adds itself to the alphanumerics exactly when it is one. */
  lemma AlnumsCons(c: char, s: string)
    ensures Alnums([c] + s) == (if IsAlnum(c) then [c] else "") + Alnums(s)
  {
    assert ([c] + s)[1..] == s;
  }

  /** Collapsing keeps every alphanumeric character, in order. */
  lemma {:induction false} CollapseAlnums(s: string)
    ensures Alnums(Collapse(s)) == Alnums(s)
    decreases |s|
  {
    if s != "" {
      AlnumsCons(s[0], s[1..]);
      assert s == [s[0]] + s[1..];
      if IsAlnum(s[0]) {
        CollapseAlnums(s[1..]);
        AlnumsCons(s[0], Collapse(s[1..]));
      } else {
        var tail := SkipRun(s[1..]);
        CollapseAlnums(tail);
        SkipRunAlnums(s[1..]);
        AlnumsCons('_', Collapse(tail));
      }
    }
  }

  /** A string that is already made of single underscores between alphanumerics is left alone. */
  lemma {:induction false} CollapseFixed(s: string)
    requires forall k :: 0 <= k < |s| ==> IsAlnum(s[k]) || s[k] == '_'
    requires NoDoubleUnderscore(s)
    ensures Collapse(s) == s
  {
    if s != "" {
      var t := s[1..];
      assert forall k :: 0 <= k < |t| ==> t[k] == s[k + 1];
      CollapseFixed(t);
      if IsAlnum(s[0]) {
        CollapseCons(s);
      } else {
        assert t == "" || IsAlnum(t[0]);
        assert SkipRun(t) == t;
        CollapseSeparator(s);
      }
      assert s == [s[0]] + t;
    }
  }

  // ---------------------------------------------------------------------------
  // The words of a string: an independent account of the substitution
  // ---------------------------------------------------------------------------

  /** A non-empty run of `[a-zA-Z0-9]`. */
  predicate IsWord(w: string) {
    w != "" && forall k :: 0 <= k < |w| ==> IsAlnum(w[k])
  }

  predicate NoAlnum(s: string) {
    forall k :: 0 <= k < |s| ==> !IsAlnum(s[k])
  }

  /** The number of alphanumerics at the front of `s`. */
  function RunLength(s: string): (n: nat)
    ensures n <= |s|
    ensures s != "" && IsAlnum(s[0]) ==> n > 0
  {
    if s != "" && IsAlnum(s[0]) then 1 + RunLength(s[1..]) else 0
  }

  /** The run is alphanumeric, and what follows it is not. */
  lemma {:induction false} RunLengthFacts(s: string)
    ensures forall k :: 0 <= k < RunLength(s) ==> IsAlnum(s[k])
    ensures RunLength(s) < |s| ==> !IsAlnum(s[RunLength(s)])
    decreases |s|
  {
    if s != "" && IsAlnum(s[0]) {
      RunLengthFacts(s[1..]);
      assert forall k :: 1 <= k < |s| ==> s[k] == s[1..][k - 1];
    }
  }

  /** A string without words ends outside `[a-zA-Z0-9]`. */
  lemma NoWordsLast(s: string)
    requires s != "" && Words(s) == []
    ensures !IsAlnum(s[|s| - 1])
  {
    NoWords(s);
  }

  /** The maximal runs of `[a-zA-Z0-9]` in `s`, from left to right. */
  function Words(s: string): seq<string>
    decreases |s|
  {
    if s == "" then []
    else if !IsAlnum(s[0]) then Words(s[1..])
    else
      var n := RunLength(s);
      [s[..n]] + Words(s[n..])
  }

  /** Every word is a non-empty alphanumeric run. */
  lemma {:induction false} WordsAreWords(s: string)
    ensures forall i :: 0 <= i < |Words(s)| ==> IsWord(Words(s)[i])
    decreases |s|
  {
    if s != "" {
      if !IsAlnum(s[0]) {
        WordsAreWords(s[1..]);
      } else {
        var n := RunLength(s);
        WordsAreWords(s[n..]);
        RunLengthFacts(s);
        assert IsWord(s[..n]);
      }
    }
  }

  /** A string has no words exactly when it has no alphanumerics. */
  lemma {:induction false} NoWords(s: string)
    ensures Words(s) == [] <==> NoAlnum(s)
    decreases |s|
  {
    if s != "" && !IsAlnum(s[0]) {
      NoWords(s[1..]);
      assert forall k :: 1 <= k < |s| ==> s[k] == s[1..][k - 1];
    }
  }

  /** The words of `s` joined by single underscores. */
  function Joined(s: string): string {
    JoinWith(Words(s), '_')
  }

  /** `_` when `c` is outside `[a-zA-Z0-9]`, nothing when it is inside. */
  function Edge(c: char): string {
    if IsAlnum(c) then "" else "_"
  }

  /** Skipping the separators at the front changes no word. */
  lemma {:induction false} WordsSkip(s: string)
    ensures Words(SkipRun(s)) == Words(s)
    decreases |s|
  {
    if s != "" && !IsAlnum(s[0]) {
      WordsSkip(s[1..]);
    }
  }

  /** An alphanumeric run at the front comes through the substitution unchanged. */
  lemma {:induction false} CollapseRun(w: string, t: string)
    requires forall k :: 0 <= k < |w| ==> IsAlnum(w[k])
    ensures Collapse(w + t) == w + Collapse(t)
    decreases |w|
  {
    if w != "" {
      var s := w + t;
      assert s[0] == w[0] && s[1..] == w[1..] + t;
      CollapseCons(s);
      CollapseRun(w[1..], t);
      var c := Collapse(t);
      assert Collapse(s) == [w[0]] + (w[1..] + c);
      assert [w[0]] + (w[1..] + c) == ([w[0]] + w[1..]) + c;
      assert [w[0]] + w[1..] == w;
    } else {
      assert w + t == t;
    }
  }

  /** One alphanumeric at the front comes through unchanged. */
  lemma CollapseCons(s: string)
    requires s != "" && IsAlnum(s[0])
    ensures Collapse(s) == [s[0]] + Collapse(s[1..])
  {
  }

  /** A separator at the front becomes one underscore, and the rest of its run goes. */
  lemma CollapseSeparator(s: string)
    requires s != "" && !IsAlnum(s[0])
    ensures Collapse(s) == "_" + Collapse(SkipRun(s[1..]))
  {
  }

  /**
   * `re.sub(r"[^a-zA-Z0-9]+", "_", s)` stated through the words of `s`: the
   * words joined by single underscores, with one more underscore at either
   * end exactly where `s` starts or ends outside `[a-zA-Z0-9]`; a string
   * without words becomes `_`, or stays empty.
   */
  function Substituted(s: string): string {
    if Words(s) == [] then (if s == "" then "" else "_")
    else Edge(s[0]) + Joined(s) + Edge(s[|s| - 1])
  }

  lemma JoinCons(w: string, ws: seq<string>, sep: char)
    requires ws != []
    ensures JoinWith([w] + ws, sep) == w + [sep] + JoinWith(ws, sep)
  {
    assert ([w] + ws)[1..] == ws;
  }

  /** Words joined by underscores make a non-empty string with alphanumerics at both ends. */
  lemma {:induction false} JoinedEnds(ws: seq<string>)
    requires forall i :: 0 <= i < |ws| ==> IsWord(ws[i])
    requires ws != []
    ensures var j := JoinWith(ws, '_'); j != "" && IsAlnum(j[0]) && IsAlnum(j[|j| - 1])
  {
    if |ws| > 1 {
      JoinedEnds(ws[1..]);
      assert IsWord(ws[0]);
    } else {
      assert IsWord(ws[0]);
    }
  }

  /** Skipping separators at the front keeps the last character. */
  lemma SkipRunLast(u: string)
    requires SkipRun(u) != ""
    ensures SkipRun(u)[|SkipRun(u)| - 1] == u[|u| - 1]
  {
    var r := SkipRun(u);
    assert r == u[|u| - |r|..];
  }

  lemma Regroup(a: string, b: string, c: string, d: string)
    ensures "" + (a + b + c) + d == a + (b + c + d)
  {
  }

  /** A string that starts outside `[a-zA-Z0-9]`, followed by one with the same words and the same end. */
  lemma SubstitutedSeparator(s: string, t: string)
    requires s != "" && !IsAlnum(s[0])
    requires Words(s) == Words(t)
    requires t == "" ==> Words(t) == []
    requires t != "" ==> Words(t) != [] && IsAlnum(t[0]) && t[|t| - 1] == s[|s| - 1]
    ensures Substituted(s) == "_" + Substituted(t)
  {
    if t == "" {
      assert Substituted(s) == "_";
      assert "_" + Substituted(t) == "_" + "";
    } else {
      var j, e := Joined(t), Edge(t[|t| - 1]);
      assert Joined(s) == j;
      assert Edge(s[|s| - 1]) == e;
      assert Substituted(s) == "_" + j + e;
      assert Edge(t[0]) == "";
      assert Substituted(t) == "" + j + e;
      assert "" + j + e == j + e;
      assert "_" + (j + e) == "_" + j + e;
    }
  }

  /** A leading separator run becomes one underscore before the rest. */
  lemma SeparatorCase(s: string)
    requires s != "" && !IsAlnum(s[0])
    ensures Substituted(s) == "_" + Substituted(SkipRun(s[1..]))
  {
    var u := s[1..];
    var t := SkipRun(u);
    WordsSkip(u);
    assert Words(s) == Words(u);
    if t != "" {
      SkipRunLast(u);
      assert u[|u| - 1] == s[|s| - 1];
      assert Words(t) != [];
    }
    SubstitutedSeparator(s, t);
  }

  /** The last word, followed by nothing or by separators only. */
  lemma SubstitutedLastWord(s: string, w: string, rest: string)
    requires s == w + rest && w != "" && IsAlnum(w[0]) && IsAlnum(w[|w| - 1])
    requires Words(s) == [w] && Words(rest) == []
    requires rest != "" ==> s[|s| - 1] == rest[|rest| - 1] && !IsAlnum(rest[|rest| - 1])
    ensures Substituted(s) == w + Substituted(rest)
  {
    assert s[0] == w[0];
    assert Joined(s) == w;
    if rest == "" {
      assert s == w;
      assert Substituted(s) == "" + w + "";
      assert "" + w + "" == w + "";
    } else {
      assert Substituted(s) == "" + w + "_";
      assert "" + w + "_" == w + "_";
    }
  }

  /** A word followed by a separator and more words. */
  lemma SubstitutedWordThenMore(s: string, w: string, rest: string)
    requires s == w + rest && w != "" && IsAlnum(w[0])
    requires Words(s) == [w] + Words(rest) && Words(rest) != []
    requires rest != "" && !IsAlnum(rest[0]) && s[|s| - 1] == rest[|rest| - 1]
    ensures Substituted(s) == w + Substituted(rest)
  {
    assert s[0] == w[0];
    JoinCons(w, Words(rest), '_');
    var j, e := Joined(rest), Edge(rest[|rest| - 1]);
    assert Joined(s) == w + "_" + j;
    assert Substituted(s) == "" + (w + "_" + j) + e;
    assert Substituted(rest) == "_" + j + e;
    Regroup(w, "_", j, e);
  }

  /** A leading alphanumeric run comes through before the rest. */
  lemma AlnumCase(s: string)
    requires s != "" && IsAlnum(s[0])
    ensures Substituted(s) == s[..RunLength(s)] + Substituted(s[RunLength(s)..])
  {
    var n := RunLength(s);
    var w, rest := s[..n], s[n..];
    RunLengthFacts(s);
    assert Words(s) == [w] + Words(rest);
    assert s == w + rest;
    if rest != "" {
      assert rest[0] == s[n];
      assert s[|s| - 1] == rest[|rest| - 1];
    }
    if Words(rest) == [] {
      if rest != "" {
        NoWordsLast(rest);
      }
      assert Words(s) == [w];
      assert IsAlnum(w[n - 1]);
      SubstitutedLastWord(s, w, rest);
    } else {
      assert rest != "";
      SubstitutedWordThenMore(s, w, rest);
    }
  }

  /** The substitution keeps the alphanumeric run at the front of `s`. */
  lemma CollapseLeadingRun(s: string)
    ensures Collapse(s) == s[..RunLength(s)] + Collapse(s[RunLength(s)..])
  {
    var n := RunLength(s);
    RunLengthFacts(s);
    assert s == s[..n] + s[n..];
    CollapseRun(s[..n], s[n..]);
  }

  /** The substitution as written is the substitution stated through words. */
  lemma {:induction false} CollapseWords(s: string)
    ensures Collapse(s) == Substituted(s)
    decreases |s|
  {
    if s == "" {
    } else if !IsAlnum(s[0]) {
      CollapseWords(SkipRun(s[1..]));
      CollapseSeparator(s);
      SeparatorCase(s);
    } else {
      var n := RunLength(s);
      CollapseWords(s[n..]);
      CollapseLeadingRun(s);
      AlnumCase(s);
    }
  }

  /** The words of a string with any, joined by underscores, start and end with an alphanumeric. */
  lemma JoinedShape(s: string)
    requires Words(s) != []
    ensures Joined(s) != "" && IsAlnum(Joined(s)[0]) && IsAlnum(Joined(s)[|Joined(s)| - 1])
  {
    WordsAreWords(s);
    JoinedEnds(Words(s));
  }

  /** Stripping underscores from `""` or `_` leaves nothing. */
  lemma TrimEdgeOnly(c: string)
    requires c == "" || c == "_"
    ensures Trim(c, IsUnderscore) == ""
  {
    assert c == c + "" + "";
    TrimAround(c, "", "", IsUnderscore);
  }

  /** Stripping underscores removes the edges around a piece that neither starts nor ends with one. */
  lemma TrimEdges(l: string, j: string, r: string)
    requires l == "" || l == "_"
    requires r == "" || r == "_"
    requires j != "" && j[0] != '_' && j[|j| - 1] != '_'
    ensures Trim(l + j + r, IsUnderscore) == j
  {
    TrimAround(l, j, r, IsUnderscore);
  }

  /** Collapsing and then stripping underscores leaves the words joined by single underscores. */
  lemma TidyWords(s: string)
    ensures Trim(Collapse(s), IsUnderscore) == Joined(s)
    ensures Joined(s) == "" <==> Words(s) == []
  {
    CollapseWords(s);
    if Words(s) == [] {
      TrimEdgeOnly(Collapse(s));
    } else {
      JoinedShape(s);
      TrimEdges(Edge(s[0]), Joined(s), Edge(s[|s| - 1]));
    }
  }

  /** Every word lower-cased. */
  function LowerAll(ws: seq<string>): (r: seq<string>)
    ensures |r| == |ws|
  {
    if ws == [] then [] else [Lower(ws[0])] + LowerAll(ws[1..])
  }

  lemma LowerSplit(x: string, n: nat)
    requires n <= |x|
    ensures Lower(x)[..n] == Lower(x[..n]) && Lower(x)[n..] == Lower(x[n..])
  {
  }

  lemma LowerAppend(a: string, b: string)
    ensures Lower(a + b) == Lower(a) + Lower(b)
  {
  }

  /** Lower-casing does not move the end of the run at the front. */
  lemma {:induction false} RunLengthLower(x: string)
    ensures RunLength(Lower(x)) == RunLength(x)
    decreases |x|
  {
    if x != "" {
      LowerSlices(x);
      RunLengthLower(x[1..]);
    }
  }

  /** The words of a lower-cased string are its words lower-cased. */
  lemma {:induction false} WordsLower(x: string)
    ensures Words(Lower(x)) == LowerAll(Words(x))
    decreases |x|
  {
    if x != "" {
      var l := Lower(x);
      LowerSlices(x);
      if !IsAlnum(x[0]) {
        WordsLower(x[1..]);
      } else {
        var n := RunLength(x);
        RunLengthLower(x);
        LowerSplit(x, n);
        WordsLower(x[n..]);
        var ws := Words(x[n..]);
        assert Words(x) == [x[..n]] + ws;
        assert ([x[..n]] + ws)[1..] == ws;
        assert Words(l) == [Lower(x[..n])] + Words(Lower(x[n..]));
      }
    }
  }

  /** Joining lower-cased words by underscores is lower-casing the joined words. */
  lemma {:induction false} JoinLower(ws: seq<string>)
    ensures JoinWith(LowerAll(ws), '_') == Lower(JoinWith(ws, '_'))
  {
    if |ws| > 1 {
      JoinLower(ws[1..]);
      assert LowerAll(ws)[1..] == LowerAll(ws[1..]);
      LowerAppend(ws[0], "_");
      LowerAppend(ws[0] + "_", JoinWith(ws[1..], '_'));
    } else if |ws| == 1 {
      assert LowerAll(ws) == [Lower(ws[0])];
    }
  }

  /** The run at the front stays the same in a prefix that still contains it. */
  lemma {:induction false} RunLengthPrefix(y: string, m: nat)
    requires RunLength(y) <= m <= |y|
    ensures RunLength(y[..m]) == RunLength(y)
    decreases m
  {
    if m > 0 && IsAlnum(y[0]) {
      assert y[..m][1..] == y[1..][..m - 1];
      RunLengthPrefix(y[1..], m - 1);
    }
  }

  /** Dropping a last character outside `[a-zA-Z0-9]` changes no word. */
  lemma {:induction false} WordsDropLast(y: string)
    requires y != "" && !IsAlnum(y[|y| - 1])
    ensures Words(y[..|y| - 1]) == Words(y)
    decreases |y|
  {
    var p := y[..|y| - 1];
    if |y| == 1 {
      assert Words(y) == Words(y[1..]);
    } else if !IsAlnum(y[0]) {
      assert p[1..] == y[1..][..|y| - 2];
      WordsDropLast(y[1..]);
    } else {
      var n := RunLength(y);
      RunLengthFacts(y);
      assert n < |y|;
      RunLengthPrefix(y, |y| - 1);
      assert p[..n] == y[..n];
      if n == |p| {
        assert Words(y[n..]) == Words(y[n..][1..]);
        assert p[n..] == "";
      } else {
        assert p[n..] == y[n..][..|y[n..]| - 1];
        WordsDropLast(y[n..]);
      }
    }
  }

  /** Trimming characters outside `[a-zA-Z0-9]` from the front changes no word. */
  lemma {:induction false} WordsTrimStart(x: string, drop: char -> bool)
    requires forall c :: drop(c) ==> !IsAlnum(c)
    ensures Words(TrimStart(x, drop)) == Words(x)
    decreases |x|
  {
    if x != "" && drop(x[0]) {
      WordsTrimStart(x[1..], drop);
    }
  }

  /** Trimming characters outside `[a-zA-Z0-9]` from the end changes no word. */
  lemma {:induction false} WordsTrimEnd(x: string, drop: char -> bool)
    requires forall c :: drop(c) ==> !IsAlnum(c)
    ensures Words(TrimEnd(x, drop)) == Words(x)
    decreases |x|
  {
    if x != "" && drop(x[|x| - 1]) {
      WordsDropLast(x);
      WordsTrimEnd(x[..|x| - 1], drop);
    }
  }

  lemma WordsTrim(x: string, drop: char -> bool)
    requires forall c :: drop(c) ==> !IsAlnum(c)
    ensures Words(Trim(x, drop)) == Words(x)
  {
    WordsTrimStart(x, drop);
    WordsTrimEnd(TrimStart(x, drop), drop);
  }

  lemma SpaceNotAlnum()
    ensures forall c :: IsSpace(c) ==> !IsAlnum(c)
  {
  }

  /**
   * `normalize_domain(tag)` through the words of the tag: its maximal
   * `[a-zA-Z0-9]` runs, lower-cased and joined by single underscores, or
   * `untagged` when it has none.
   */
  lemma NormalizeDomainWords(tag: string)
    ensures var ws := Words(tag);
      NormalizeDomain(tag) == if ws == [] then "untagged" else Lower(JoinWith(ws, '_'))
  {
    var stripped := Strip(tag);
    var lowered := Lower(stripped);
    TidyWords(lowered);
    SpaceNotAlnum();
    WordsTrim(tag, IsSpace);
    WordsLower(stripped);
    JoinLower(Words(stripped));
  }

  lemma LowerSlices(s: string)
    ensures |Lower(s)| == |s|
    ensures forall k :: 0 <= k < |s| ==> Lower(s)[k] == LowerChar(s[k])
    ensures s != "" ==> Lower(s)[1..] == Lower(s[1..])
  {
  }

  /** Lower-casing keeps underscores where they are and turns letters into lower-case ones. */
  lemma LowerKeepsShape(s: string)
    requires forall k :: 0 <= k < |s| ==> s[k] == '_' || IsAlnum(s[k])
    requires NoDoubleUnderscore(s)
    requires s != "" ==> s[0] != '_' && s[|s| - 1] != '_'
    ensures Lower(s) == "" <==> s == ""
    ensures Lower(s) != "" ==> IsToken(Lower(s))
  {
    LowerSlices(s);
  }

  /** Stripping underscores from a collapsed string: still collapsed, and no underscore at the ends. */
  lemma TrimUnderscores(c: string)
    requires forall k :: 0 <= k < |c| ==> c[k] == '_' || IsAlnum(c[k])
    requires NoDoubleUnderscore(c)
    ensures var t := Trim(c, IsUnderscore);
      && (forall k :: 0 <= k < |t| ==> t[k] == '_' || IsAlnum(t[k]))
      && NoDoubleUnderscore(t)
      && (NoUpper(c) ==> NoUpper(t))
      && (t != "" ==> t[0] != '_' && t[|t| - 1] != '_')
      && Alnums(t) == Alnums(c)
      && (t == "" <==> Alnums(c) == "")
  {
    var t := Trim(c, IsUnderscore);
    var i, j := TrimSlice(c, IsUnderscore);
    SliceShape(c, i, j);
    TrimEnds(c, IsUnderscore);
    TrimKeepsAlnums(c, IsUnderscore);
    AlnumsOfShaped(t);
  }

  /** A string of alphanumerics and underscores that does not start with `_` has alphanumerics iff it is non-empty. */
  lemma AlnumsOfShaped(t: string)
    requires t != "" ==> t[0] != '_' && (t[0] == '_' || IsAlnum(t[0]))
    ensures t == "" <==> Alnums(t) == ""
  {
    if t != "" {
      assert t == [t[0]] + t[1..];
      AlnumsAppend([t[0]], t[1..]);
    }
  }

  lemma SliceShape(c: string, i: nat, j: nat)
    requires i <= j <= |c|
    requires forall k :: 0 <= k < |c| ==> c[k] == '_' || IsAlnum(c[k])
    requires NoDoubleUnderscore(c)
    ensures forall k :: 0 <= k < j - i ==> c[i..j][k] == '_' || IsAlnum(c[i..j][k])
    ensures NoDoubleUnderscore(c[i..j])
    ensures NoUpper(c) ==> NoUpper(c[i..j])
  {
    var t := c[i..j];
    assert forall k :: 0 <= k < |t| ==> t[k] == c[i + k];
  }

  /** Python's whitespace is never alphanumeric, so `strip()` keeps every alphanumeric. */
  lemma StripKeepsAlnums(s: string)
    ensures Alnums(Strip(s)) == Alnums(s)
  {
    TrimKeepsAlnums(s, IsSpace);
  }

  lemma LowerNoUpper(s: string)
    ensures NoUpper(Lower(s)) && |Lower(s)| == |s|
  {
  }

  /** Alphanumerics and single inner underscores, no upper case: a token, once non-empty. */
  lemma ShapedIsToken(t: string)
    requires forall k :: 0 <= k < |t| ==> t[k] == '_' || IsAlnum(t[k])
    requires NoDoubleUnderscore(t) && NoUpper(t)
    requires t != "" && t[0] != '_' && t[|t| - 1] != '_'
    ensures IsToken(t)
  {
  }

  /**
   * `normalize_domain`: lower-case, collapse every non-alphanumeric run into
   * `_`, strip `_` from both ends, and fall back to `untagged` when nothing
   * is left.
   */
  function NormalizeDomain(tag: string): (r: string)
    ensures IsToken(r)
    ensures Alnums(tag) == "" ==> r == "untagged"
    ensures Alnums(tag) != "" ==> Alnums(r) == Lower(Alnums(tag))
  {
    var lowered := Lower(Strip(tag));
    var collapsed := Collapse(lowered);
    var n := Trim(collapsed, IsUnderscore);
    StripKeepsAlnums(tag);
    LowerAlnums(Strip(tag));
    LowerNoUpper(Strip(tag));
    LowerNoUpper(Alnums(Strip(tag)));
    CollapseAlnums(lowered);
    CollapseNoDouble(lowered);
    CollapseNoUpper(lowered);
    TrimUnderscores(collapsed);
    if n == "" then
      LiteralTokens();
      "untagged"
    else
      ShapedIsToken(n);
      n
  }

  /** The two fallback names are tokens themselves. */
  lemma LiteralTokens()
    ensures IsToken("untagged") && IsToken("root")
  {
    var u, r := "untagged", "root";
    assert forall k :: 0 <= k < |u| ==> 'a' <= u[k] <= 'z';
    assert forall k :: 0 <= k < |r| ==> 'a' <= r[k] <= 'z';
  }

  /** Normalizing a domain name a second time changes nothing. */
  lemma NormalizeDomainIdempotent(tag: string)
    ensures NormalizeDomain(NormalizeDomain(tag)) == NormalizeDomain(tag)
  {
    TokenIsFixed(NormalizeDomain(tag));
  }

  /** A token has no surrounding whitespace. */
  lemma TokenStripped(r: string)
    requires IsToken(r)
    ensures Strip(r) == r
  {
    assert !IsSpace(r[0]) && !IsSpace(r[|r| - 1]);
    assert TrimStart(r, IsSpace) == r;
  }

  /** A token has no upper-case letter to lower. */
  lemma TokenLowered(r: string)
    requires IsToken(r)
    ensures Lower(r) == r
  {
    assert forall k :: 0 <= k < |r| ==> LowerChar(r[k]) == r[k];
  }

  /** A token has no underscore at either end to strip. */
  lemma TokenTrimmed(r: string)
    requires IsToken(r)
    ensures Trim(r, IsUnderscore) == r
  {
    assert TrimStart(r, IsUnderscore) == r;
  }

  /** Every token is its own normal form. */
  lemma TokenIsFixed(r: string)
    requires IsToken(r)
    ensures NormalizeDomain(r) == r
  {
    TokenStripped(r);
    TokenLowered(r);
    CollapseFixed(r);
    TokenTrimmed(r);
  }

  /**
   * `re.sub(r"\{([^}]+)\}", r"\1", s)`: scanning from the left, every `{`
   * followed by at least one non-`}` character and then a `}` is replaced by
   * what stands between the braces.
   */
  function Unbrace(s: string): string
    decreases |s|
  {
    if s == "" then ""
    else
      var close := 1 + IndexOf(s[1..], '}');
      if s[0] == '{' && 2 <= close < |s| then s[1..close] + Unbrace(s[close + 1..])
      else [s[0]] + Unbrace(s[1..])
  }

  /** Unwrapping placeholders removes braces only: the alphanumerics stay, in order. */
  lemma {:induction false} UnbraceAlnums(s: string)
    ensures Alnums(Unbrace(s)) == Alnums(s)
    decreases |s|
  {
    if s != "" {
      var close := 1 + IndexOf(s[1..], '}');
      if s[0] == '{' && 2 <= close < |s| {
        var inner, after := s[1..close], s[close + 1..];
        assert s == "{" + inner + "}" + after;
        UnbraceAlnums(after);
        BracedAlnums(inner, after);
        AlnumsAppend(inner, Unbrace(after));
      } else {
        UnbraceAlnums(s[1..]);
        assert s == [s[0]] + s[1..];
        AlnumsCons(s[0], s[1..]);
        AlnumsCons(s[0], Unbrace(s[1..]));
      }
    }
  }

  /** The braces around a placeholder are not alphanumeric. */
  lemma BracedAlnums(inner: string, after: string)
    ensures Alnums("{" + inner + "}" + after) == Alnums(inner) + Alnums(after)
  {
    assert "{" + inner + "}" + after == [ '{' ] + (inner + ([ '}' ] + after));
    AlnumsCons('{', inner + ([ '}' ] + after));
    AlnumsAppend(inner, [ '}' ] + after);
    AlnumsCons('}', after);
  }

  /** Lower-casing a collapsed, trimmed string keeps its shape and removes upper case. */
  lemma LowerShape(t: string)
    requires forall k :: 0 <= k < |t| ==> t[k] == '_' || IsAlnum(t[k])
    requires NoDoubleUnderscore(t)
    requires t != "" ==> t[0] != '_' && t[|t| - 1] != '_'
    ensures var l := Lower(t);
      && |l| == |t|
      && (forall k :: 0 <= k < |l| ==> l[k] == '_' || IsAlnum(l[k]))
      && NoDoubleUnderscore(l) && NoUpper(l)
      && (l != "" ==> l[0] != '_' && l[|l| - 1] != '_')
  {
  }

  /** The steps of `PathSlug` before the fallback to `root`. */
  function CleanPath(path: string): string {
    Lower(Trim(Collapse(Unbrace(Trim(path, IsSlash))), IsUnderscore))
  }

  lemma SlashTrimAlnums(s: string)
    ensures Alnums(Trim(s, IsSlash)) == Alnums(s)
  {
    TrimKeepsAlnums(s, IsSlash);
  }

  lemma UnderscoreTrimAlnums(s: string)
    ensures Alnums(Trim(s, IsUnderscore)) == Alnums(s)
  {
    TrimKeepsAlnums(s, IsUnderscore);
  }

  lemma CleanPathAlnums(path: string)
    ensures Alnums(CleanPath(path)) == Lower(Alnums(path))
  {
    var stripped := Trim(path, IsSlash);
    var unbraced := Unbrace(stripped);
    var collapsed := Collapse(unbraced);
    var trimmed := Trim(collapsed, IsUnderscore);
    calc {
      Alnums(CleanPath(path));
      Alnums(Lower(trimmed));
      { LowerAlnums(trimmed); }
      Lower(Alnums(trimmed));
      { UnderscoreTrimAlnums(collapsed); }
      Lower(Alnums(collapsed));
      { CollapseAlnums(unbraced); }
      Lower(Alnums(unbraced));
      { UnbraceAlnums(stripped); }
      Lower(Alnums(stripped));
      { SlashTrimAlnums(path); }
      Lower(Alnums(path));
    }
  }

  /** Lower-casing a string of underscores and alphanumerics with tidy underscores gives a token or nothing. */
  lemma LowerShapedToken(t: string)
    requires forall k :: 0 <= k < |t| ==> t[k] == '_' || IsAlnum(t[k])
    requires NoDoubleUnderscore(t)
    requires t != "" ==> t[0] != '_' && t[|t| - 1] != '_'
    ensures var l := Lower(t);
      && (l == "" <==> Alnums(l) == "")
      && (l != "" ==> IsToken(l))
  {
    LowerShape(t);
    var l := Lower(t);
    AlnumsOfShaped(l);
    if l != "" { ShapedIsToken(l); }
  }

  lemma CleanPathShape(path: string)
    ensures var c := CleanPath(path);
      && (c == "" <==> Alnums(path) == "")
      && (c != "" ==> IsToken(c))
  {
    var unbraced := Unbrace(Trim(path, IsSlash));
    var collapsed := Collapse(unbraced);
    CollapseNoDouble(unbraced);
    TrimUnderscores(collapsed);
    var trimmed := Trim(collapsed, IsUnderscore);
    LowerShapedToken(trimmed);
    var c := CleanPath(path);
    assert c == Lower(trimmed);
    CleanPathAlnums(path);
    LowerNoUpper(Alnums(path));
  }

  /**
   * The path part of a fallback action name: slashes stripped, placeholders
   * unwrapped, non-alphanumeric runs collapsed to `_`, underscores stripped,
   * lower-cased, and `root` when nothing is left.
   */
  function PathSlug(path: string): (r: string)
    ensures IsToken(r)
    ensures Alnums(path) == "" ==> r == "root"
    ensures Alnums(path) != "" ==> Alnums(r) == Lower(Alnums(path))
  {
    var cleaned := CleanPath(path);
    CleanPathShape(path);
    CleanPathAlnums(path);
    if cleaned == "" then
      LiteralTokens();
      "root"
    else
      cleaned
  }

  /**
   * `fallback_action_id(method, path)`: the lower-cased method, an
   * underscore, and a token that keeps exactly the path's alphanumerics,
   * lower-cased and in order (or `root`).
   */
  function FallbackActionId(httpMethod: string, path: string): (r: string)
    ensures r == Lower(httpMethod) + "_" + PathSlug(path)
    ensures |r| > |httpMethod| + 1
    ensures r[..|httpMethod|] == Lower(httpMethod) && r[|httpMethod|] == '_'
    ensures IsToken(r[|httpMethod| + 1..])
    ensures Alnums(path) == "" ==> r[|httpMethod| + 1..] == "root"
    ensures Alnums(path) != "" ==> Alnums(r[|httpMethod| + 1..]) == Lower(Alnums(path))
  {
    var slug := PathSlug(path);
    var r := Lower(httpMethod) + "_" + slug;
    assert r[..|httpMethod|] == Lower(httpMethod);
    assert r[|httpMethod| + 1..] == slug;
    r
  }

  /**
   * `_path_slug(path)` through words: the maximal `[a-zA-Z0-9]` runs of the
   * path once its slashes are stripped and its placeholders unwrapped,
   * lower-cased and joined by single underscores, or `root` when there are none.
   */
  lemma PathSlugWords(path: string)
    ensures var ws := Words(Unbrace(Trim(path, IsSlash)));
      PathSlug(path) == if ws == [] then "root" else Lower(JoinWith(ws, '_'))
  {
    var u := Unbrace(Trim(path, IsSlash));
    TidyWords(u);
    LowerNoUpper(Joined(u));
  }

  /** The fallback action name, method and path slug stated through words. */
  lemma FallbackActionIdWords(httpMethod: string, path: string)
    ensures var ws := Words(Unbrace(Trim(path, IsSlash)));
      FallbackActionId(httpMethod, path)
        == Lower(httpMethod) + "_" + (if ws == [] then "root" else Lower(JoinWith(ws, '_')))
  {
    PathSlugWords(path);
  }
}
