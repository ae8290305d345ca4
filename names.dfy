/**
 * Normalisation of place names: trim, lower-case, and collapse every run of
 * white space to a single space. Beside the definition that follows the three
 * string operations, a reference definition in terms of words (`Words`,
 * `Join`) shows what normalisation keeps: the lower-cased words, in order.
 */
module Names {

  /** The characters that JavaScript's `trim` and the regular-expression class
      `\s` treat as white space: ECMAScript's WhiteSpace and LineTerminator code
      points (tab, line feed, vertical tab, form feed, carriage return, the
      space separators of Unicode category Zs, the line and paragraph
      separators, and the byte-order mark). */
  predicate IsSpace(c: char) {
    || c == ' '
    || ('\t' <= c <= '\r')
    || c == '\U{00A0}'
    || c == '\U{1680}'
    || ('\U{2000}' <= c <= '\U{200A}')
    || c == '\U{2028}'
    || c == '\U{2029}'
    || c == '\U{202F}'
    || c == '\U{205F}'
    || c == '\U{3000}'
    || c == '\U{FEFF}'
  }

  predicate IsUpper(c: char) {
    'A' <= c <= 'Z'
  }

  /** No character of `s` is an upper-case ASCII letter. */
  ghost predicate NoUpper(s: string) {
    forall i :: 0 <= i < |s| ==> !IsUpper(s[i])
  }

  /** Every white-space character of `s` is a plain space, and none is
      followed by another white-space character. */
  ghost predicate SingleSpaced(s: string) {
    && (forall i :: 0 <= i < |s| && IsSpace(s[i]) ==> s[i] == ' ')
    && (forall i, j :: 0 <= i < j < |s| && j == i + 1 ==> !IsSpace(s[i]) || !IsSpace(s[j]))
  }

  /** `s` neither starts nor ends with white space. */
  ghost predicate NoEdgeSpace(s: string) {
    s == [] || (!IsSpace(s[0]) && !IsSpace(s[|s| - 1]))
  }

  /** The shape of a registry key: no edge white space, no upper-case letter,
      and white space only as single spaces between non-space characters. */
  ghost predicate Normalized(s: string) {
    NoEdgeSpace(s) && NoUpper(s) && SingleSpaced(s)
  }

  /** ASCII `toLowerCase` of one character. */
  function LowerChar(c: char): (d: char)
    ensures !IsUpper(d)
    ensures IsSpace(d) == IsSpace(c)
    ensures !IsUpper(c) ==> d == c
  {
    if IsUpper(c) then (c as int + 32) as char else c
  }

  /** `toLowerCase`, character by character. */
  function Lower(s: string): (r: string)
    ensures |r| == |s|
    ensures forall i :: 0 <= i < |s| ==> r[i] == LowerChar(s[i])
  {
    seq(|s|, i requires 0 <= i < |s| => LowerChar(s[i]))
  }


  /** `s` without its leading white space. */
  function TrimStart(s: string): (r: string)
    ensures |r| <= |s|
  {
    if s != [] && IsSpace(s[0]) then TrimStart(s[1..]) else s
  }

  /** `s` without its trailing white space. */
  function TrimEnd(s: string): (r: string)
    ensures |r| <= |s|
  {
    if s != [] && IsSpace(s[|s| - 1]) then TrimEnd(s[..|s| - 1]) else s
  }

  /** JavaScript's `trim`. */
  function Trim(s: string): string {
    TrimEnd(TrimStart(s))
  }

  /** The replacement of `/\s+/g` by `" "`: a white-space character followed by
      another one is dropped, the last one of each run becomes a space, and every
      other character is kept. */
  function Collapse(s: string): string {
    if s == [] then []
    else if IsSpace(s[0]) then
      if |s| > 1 && IsSpace(s[1]) then Collapse(s[1..]) else [' '] + Collapse(s[1..])
    else
      [s[0]] + Collapse(s[1..])
  }

  /** The longest prefix of `s` that holds no white space. */
  function Word(s: string): (w: string)
    ensures |w| <= |s|
    ensures s != [] && !IsSpace(s[0]) ==> |w| > 0
  {
    if s == [] || IsSpace(s[0]) then [] else [s[0]] + Word(s[1..])
  }

  /** A word: a non-empty string without white space. */
  ghost predicate IsWord(w: string) {
    |w| > 0 && forall i :: 0 <= i < |w| ==> !IsSpace(w[i])
  }

  /** The white-space separated words of `s`, in order. */
  function Words(s: string): seq<string>
    decreases |s|
  {
    var t := TrimStart(s);
    if t == [] then []
    else
      var w := Word(t);
      [w] + Words(t[|w|..])
  }

  /** The words of `ws` separated by single spaces. */
  function Join(ws: seq<string>): string {
    if |ws| == 0 then []
    else if |ws| == 1 then ws[0]
    else ws[0] + [' '] + Join(ws[1..])
  }

  /** normalizeName: trim, lower-case, collapse white space. The result has the
      shape of a registry key, and it is the lower-cased words of the input
      joined by single spaces. */
  function NormalizeName(s: string): (r: string)
    ensures Normalized(r)
    ensures r == Join(Words(Lower(s)))
  {
    var t := Lower(Trim(s));
    LowerTrimIsTrimmed(s);
    CollapseShape(t);
    WordsOfLowerTrim(s);
    CollapseTrimmed(t);
    Collapse(t)
  }

  // ---------- Facts about the string operations ----------

  /** TrimStart removes a prefix made only of white space, and no more. */
  lemma {:induction false} TrimStartFacts(s: string)
    ensures TrimStart(s) == s[|s| - |TrimStart(s)|..]
    ensures TrimStart(s) == [] || !IsSpace(TrimStart(s)[0])
    ensures forall i :: 0 <= i < |s| - |TrimStart(s)| ==> IsSpace(s[i])
    decreases |s|
  {
    if s != [] && IsSpace(s[0]) {
      TrimStartFacts(s[1..]);
      forall i | 1 <= i < |s| - |TrimStart(s)| ensures IsSpace(s[i]) {
        assert s[i] == s[1..][i - 1];
      }
    }
  }

  /** TrimEnd removes a suffix made only of white space, and no more. */
  lemma {:induction false} TrimEndFacts(s: string)
    ensures TrimEnd(s) == s[..|TrimEnd(s)|]
    ensures TrimEnd(s) == [] || !IsSpace(TrimEnd(s)[|TrimEnd(s)| - 1])
    ensures forall i :: |TrimEnd(s)| <= i < |s| ==> IsSpace(s[i])
    decreases |s|
  {
    if s != [] && IsSpace(s[|s| - 1]) {
      TrimEndFacts(s[..|s| - 1]);
    }
  }

  /** Word stops at the first white-space character. */
  lemma {:induction false} WordFacts(s: string)
    ensures Word(s) == s[..|Word(s)|]
    ensures forall i :: 0 <= i < |Word(s)| ==> !IsSpace(s[i])
    ensures |Word(s)| < |s| ==> IsSpace(s[|Word(s)|])
    decreases |s|
  {
    if s != [] && !IsSpace(s[0]) {
      WordFacts(s[1..]);
      forall i | 1 <= i < |Word(s)| ensures !IsSpace(s[i]) {
        assert s[i] == s[1..][i - 1];
      }
    }
  }

  /** Every element of Words(s) is a word. */
  lemma {:induction false} WordsAreWords(s: string)
    ensures forall j :: 0 <= j < |Words(s)| ==> IsWord(Words(s)[j])
    decreases |s|
  {
    TrimStartFacts(s);
    var t := TrimStart(s);
    if t != [] {
      var w := Word(t);
      WordFacts(t);
      WordsAreWords(t[|w|..]);
      assert IsWord(w) by {
        assert forall i :: 0 <= i < |w| ==> w[i] == t[i];
      }
      assert Words(s) == [w] + Words(t[|w|..]);
    }
  }

  /** The result of collapsing is single-spaced, keeps the kind (space or not)
      of the first and of the last character, and adds no upper-case letter. */
  lemma {:induction false} CollapseShape(s: string)
    ensures s == [] <==> Collapse(s) == []
    ensures s != [] ==> IsSpace(Collapse(s)[0]) == IsSpace(s[0])
    ensures s != [] ==> IsSpace(Collapse(s)[|Collapse(s)| - 1]) == IsSpace(s[|s| - 1])
    ensures SingleSpaced(Collapse(s))
    ensures NoUpper(s) ==> NoUpper(Collapse(s))
    decreases |s|
  {
    if s != [] {
      var tail := s[1..];
      CollapseShape(tail);
      var c := Collapse(tail);
      if IsSpace(s[0]) && |s| > 1 && IsSpace(s[1]) {
        assert Collapse(s) == c;
        assert s[|s| - 1] == tail[|tail| - 1];
        assert NoUpper(s) ==> NoUpper(tail) by {
          forall i | 0 <= i < |tail| ensures s[i + 1] == tail[i] { }
        }
      } else {
        var h := if IsSpace(s[0]) then ' ' else s[0];
        assert Collapse(s) == [h] + c;
        assert tail != [] ==> s[|s| - 1] == tail[|tail| - 1];
        assert c != [] ==> !IsSpace(h) || !IsSpace(c[0]);
        PrependSingleSpaced(h, c);
        assert NoUpper(s) ==> NoUpper(tail) by {
          forall i | 0 <= i < |tail| ensures s[i + 1] == tail[i] { }
        }
      }
    }
  }

  lemma PrependSingleSpaced(h: char, c: string)
    requires SingleSpaced(c)
    requires IsSpace(h) ==> h == ' '
    requires c != [] ==> !IsSpace(h) || !IsSpace(c[0])
    ensures SingleSpaced([h] + c)
  {
    var s := [h] + c;
    forall i, j | 0 <= i < j < |s| && j == i + 1 ensures !IsSpace(s[i]) || !IsSpace(s[j]) {
      if i > 0 { assert s[i] == c[i - 1] && s[j] == c[j - 1]; }
    }
  }

  lemma LowerTrimIsTrimmed(s: string)
    ensures NoEdgeSpace(Lower(Trim(s))) && NoUpper(Lower(Trim(s)))
  {
    var t := TrimStart(s);
    TrimStartFacts(s);
    TrimEndFacts(t);
    var e := TrimEnd(t);
    assert e != [] ==> e[0] == t[0];
  }

  // ---------- Normalisation against the word-based reference ----------

  /** Leading white space does not change the words. */
  lemma {:induction false} WordsSkipLeadingSpace(sp: string, x: string)
    requires forall i :: 0 <= i < |sp| ==> IsSpace(sp[i])
    ensures TrimStart(sp + x) == TrimStart(x)
    ensures Words(sp + x) == Words(x)
    decreases |sp|
  {
    if sp == [] {
      assert sp + x == x;
    } else {
      assert (sp + x)[1..] == sp[1..] + x;
      WordsSkipLeadingSpace(sp[1..], x);
    }
  }

  lemma {:induction false} TrimStartAppend(x: string, y: string)
    requires TrimStart(x) != []
    ensures TrimStart(x + y) == TrimStart(x) + y
    decreases |x|
  {
    if IsSpace(x[0]) {
      assert (x + y)[1..] == x[1..] + y;
      TrimStartAppend(x[1..], y);
    }
  }

  lemma {:induction false} WordAppend(t: string, y: string)
    requires |Word(t)| < |t| || y == [] || IsSpace(y[0])
    ensures Word(t + y) == Word(t)
    decreases |t|
  {
    if t == [] {
      assert t + y == y;
    } else if !IsSpace(t[0]) {
      assert (t + y)[1..] == t[1..] + y;
      WordAppend(t[1..], y);
    }
  }

  /** Trailing white space does not change the words. */
  lemma {:induction false} WordsIgnoreTrailingSpace(x: string, sp: string)
    requires forall i :: 0 <= i < |sp| ==> IsSpace(sp[i])
    ensures Words(x + sp) == Words(x)
    decreases |x|
  {
    TrimStartFacts(x);
    var t := TrimStart(x);
    if t == [] {
      assert x + sp == x + sp;
      WordsSkipLeadingSpace(x, sp);
      WordsSkipLeadingSpace(sp, []);
      assert sp + [] == sp;
    } else {
      TrimStartAppend(x, sp);
      var w := Word(t);
      WordFacts(t);
      WordAppend(t, sp);
      assert (t + sp)[|w|..] == t[|w|..] + sp;
      WordsIgnoreTrailingSpace(t[|w|..], sp);
    }
  }

  /** Trimming does not change the words. */
  lemma WordsOfTrim(x: string)
    ensures Words(Trim(x)) == Words(x)
  {
    TrimStartFacts(x);
    var t := TrimStart(x);
    TrimEndFacts(t);
    var e := TrimEnd(t);
    assert x == x[..|x| - |t|] + t;
    WordsSkipLeadingSpace(x[..|x| - |t|], t);
    assert t == e + t[|e|..];
    WordsIgnoreTrailingSpace(e, t[|e|..]);
  }

  lemma {:induction false} LowerTrimStart(s: string)
    ensures Lower(TrimStart(s)) == TrimStart(Lower(s))
    decreases |s|
  {
    if s != [] {
      assert Lower(s)[1..] == Lower(s[1..]);
      if IsSpace(s[0]) {
        LowerTrimStart(s[1..]);
      }
    }
  }

  lemma {:induction false} LowerTrimEnd(s: string)
    ensures Lower(TrimEnd(s)) == TrimEnd(Lower(s))
    decreases |s|
  {
    if s != [] {
      assert Lower(s)[..|s| - 1] == Lower(s[..|s| - 1]);
      if IsSpace(s[|s| - 1]) {
        LowerTrimEnd(s[..|s| - 1]);
      }
    }
  }

  lemma WordsOfLowerTrim(s: string)
    ensures Words(Lower(Trim(s))) == Words(Lower(s))
  {
    LowerTrimStart(s);
    LowerTrimEnd(TrimStart(s));
    WordsOfTrim(Lower(s));
  }

  lemma {:induction false} CollapseAppendWord(w: string, rest: string)
    requires forall i :: 0 <= i < |w| ==> !IsSpace(w[i])
    ensures Collapse(w + rest) == w + Collapse(rest)
    decreases |w|
  {
    if w == [] {
      assert w + rest == rest;
    } else {
      assert (w + rest)[1..] == w[1..] + rest;
      CollapseAppendWord(w[1..], rest);
    }
  }

  /** A non-empty run of white space before a word, or before the end,
      collapses to one space. */
  lemma {:induction false} CollapseSpaceRun(sp: string, u: string)
    requires |sp| > 0 && forall i :: 0 <= i < |sp| ==> IsSpace(sp[i])
    requires u == [] || !IsSpace(u[0])
    ensures Collapse(sp + u) == [' '] + Collapse(u)
    decreases |sp|
  {
    assert (sp + u)[1..] == sp[1..] + u;
    if |sp| > 1 {
      CollapseSpaceRun(sp[1..], u);
    } else {
      assert sp[1..] + u == u;
    }
  }

  lemma JoinCons(w: string, ws: seq<string>)
    requires ws != []
    ensures Join([w] + ws) == w + [' '] + Join(ws)
  {
    assert ([w] + ws)[1..] == ws;
  }

  /** A string that starts with white space and does not end with it
      collapses to one space before the collapse of its trimmed rest, which has
      no edge white space and the same words. */
  lemma SplitLeadingRun(rest: string)
    requires rest != [] && IsSpace(rest[0]) && !IsSpace(rest[|rest| - 1])
    ensures TrimStart(rest) != [] && NoEdgeSpace(TrimStart(rest))
    ensures |TrimStart(rest)| < |rest|
    ensures Collapse(rest) == [' '] + Collapse(TrimStart(rest))
    ensures Words(rest) == Words(TrimStart(rest))
  {
    TrimStartFacts(rest);
    var u := TrimStart(rest);
    assert u != [] ==> u[|u| - 1] == rest[|rest| - 1];
    assert rest == rest[..|rest| - |u|] + u;
    CollapseSpaceRun(rest[..|rest| - |u|], u);
    WordsSkipLeadingSpace(rest[..|rest| - |u|], u);
  }

  /** On a string without edge white space, collapsing yields exactly the words
      joined by single spaces. */
  lemma {:induction false} CollapseTrimmed(t: string)
    requires NoEdgeSpace(t)
    ensures Collapse(t) == Join(Words(t))
    decreases |t|
  {
    if t != [] {
      WordFacts(t);
      var w := Word(t);
      var rest := t[|w|..];
      assert t == w + rest;
      CollapseAppendWord(w, rest);
      assert Words(t) == [w] + Words(rest);
      if rest == [] {
        assert Words(rest) == [];
      } else {
        assert rest[|rest| - 1] == t[|t| - 1];
        SplitLeadingRun(rest);
        CollapseTrimmed(TrimStart(rest));
        JoinCons(w, Words(rest));
      }
    }
  }

  /** Splitting joined words gives the words back. */
  lemma {:induction false} WordsOfJoin(ws: seq<string>)
    requires forall j :: 0 <= j < |ws| ==> IsWord(ws[j])
    ensures Words(Join(ws)) == ws
    decreases |ws|
  {
    if |ws| == 1 {
      var w := ws[0];
      WordAppend(w, []);
      assert w + [] == w;
      WordFacts(w);
      assert Words(w) == [w] + Words([]);
    } else if |ws| > 1 {
      var w := ws[0];
      var rest := Join(ws[1..]);
      var j := w + ([' '] + rest);
      assert Join(ws) == j;
      WordAppend(w, [' '] + rest);
      WordAppend(w, []);
      assert w + [] == w;
      WordFacts(w);
      assert j[|w|..] == [' '] + rest;
      WordsSkipLeadingSpace([' '], rest);
      WordsOfJoin(ws[1..]);
      assert Words(j) == [w] + Words(j[|w|..]);
    }
  }

  lemma {:induction false} CollapseSingleSpaced(s: string)
    requires SingleSpaced(s)
    ensures Collapse(s) == s
    decreases |s|
  {
    if s != [] {
      var tail := s[1..];
      assert SingleSpaced(tail) by {
        forall i | 0 <= i < |tail| ensures tail[i] == s[i + 1] { }
      }
      if |s| > 1 {
        assert !IsSpace(s[0]) || !IsSpace(s[1]);
      }
      CollapseSingleSpaced(tail);
    }
  }

  /** A string of registry-key shape is left as it is by normalisation. */
  lemma NormalizeNormalized(s: string)
    requires Normalized(s)
    ensures NormalizeName(s) == s
  {
    assert TrimStart(s) == s;
    assert TrimEnd(s) == s;
    assert Lower(s) == s;
    CollapseSingleSpaced(s);
  }

  /** A string is a fixed point of normalisation exactly when it has the shape
      of a registry key. */
  lemma NormalizedIffFixpoint(s: string)
    ensures Normalized(s) <==> NormalizeName(s) == s
  {
    if Normalized(s) {
      NormalizeNormalized(s);
    }
  }

  /** normalizeName is idempotent. */
  lemma NormalizeIdempotent(s: string)
    ensures NormalizeName(NormalizeName(s)) == NormalizeName(s)
  {
    NormalizeNormalized(NormalizeName(s));
  }

  /** Two names normalise to the same key exactly when they have the same
      lower-cased words: case and spacing variants of a name share its key,
      and no other name does. */
  lemma SameKeyIffSameWords(a: string, b: string)
    ensures NormalizeName(a) == NormalizeName(b) <==> Words(Lower(a)) == Words(Lower(b))
  {
    WordsAreWords(Lower(a));
    WordsAreWords(Lower(b));
    WordsOfJoin(Words(Lower(a)));
    WordsOfJoin(Words(Lower(b)));
  }

  /** The empty key comes from a name made only of white space, and from no
      other name. */
  lemma EmptyKeyIffBlank(s: string)
    ensures NormalizeName(s) == [] <==> forall i :: 0 <= i < |s| ==> IsSpace(s[i])
  {
    TrimStartFacts(s);
    var u := TrimStart(s);
    TrimEndFacts(u);
    CollapseShape(Lower(Trim(s)));
    if u != [] {
      assert s[|s| - |u|] == u[0];
      assert Trim(s) != [];
    }
  }
}
