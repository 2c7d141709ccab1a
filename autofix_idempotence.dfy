/**
  Running the automatic repair on code it has already repaired changes
  nothing. The heart of the argument is about the import rewrite: a match of
  the component-import expression is replaced by a canonical import that
  matches again with the same names, and the rewrite never creates a match
  that starts before a rewritten one.
*/
module AutoFixIdempotence {
  import opened Wrappers
  import opened Text
  import opened Components
  import opened AutoFix

  /*
    The matcher's pieces one at a time: each lemma relates one piece to the
    next, so that no proof has to see through the whole expression at once.
  */

  lemma {:induction false} ImportStep(s: string)
    requires StartsWith(s, "import")
    ensures UiImportAt(s) == BraceGroupAt(s, SkipSpaces(s, 6))
  {
  }

  lemma {:induction false} BraceGroupStep(s: string, a: nat)
    requires a < |s| && s[a] == '{'
    ensures BraceGroupAt(s, a) == NamesEndingAt(s, a + 1, IndexOfAny(s, CloseBrace, a + 1))
  {
  }

  lemma {:induction false} NamesStep(s: string, n: nat, e: nat)
    requires n < e < |s|
    ensures NamesEndingAt(s, n, Some(e)) == FromClauseAt(s, s[n..e], SkipSpaces(s, e + 1))
  {
  }

  lemma {:induction false} FromStep(s: string, names: string, b: nat)
    requires b <= |s| && OccursAt(s, "from", b)
    ensures FromClauseAt(s, names, b) == QuotedPathAt(s, names, SkipSpaces(s, b + 4))
  {
  }

  lemma {:induction false} QuoteStep(s: string, names: string, c: nat)
    requires c < |s| && IsQuote(s[c])
    ensures QuotedPathAt(s, names, c) == PathEndingAt(s, names, c + 1, IndexOfAny(s, Quotes, c + 1))
  {
  }

  lemma {:induction false} PathStep(s: string, names: string, p: nat, q: nat)
    requires p <= q < |s| && Contains(s[p..q], "components/ui")
    ensures PathEndingAt(s, names, p, Some(q)) == Some(UiImportMatch(q + 1, names))
  {
  }

  lemma {:induction false} ImportFound(s: string) returns (a: nat)
    requires UiImportAt(s).Some?
    ensures StartsWith(s, "import") && a == SkipSpaces(s, 6) && BraceGroupAt(s, a) == UiImportAt(s)
  {
    a := SkipSpaces(s, 6);
  }

  lemma {:induction false} BraceGroupFound(s: string, a: nat) returns (e: nat)
    requires a <= |s| && BraceGroupAt(s, a).Some?
    ensures a < |s| && s[a] == '{' && IndexOfAny(s, CloseBrace, a + 1) == Some(e) && a + 1 < e < |s|
    ensures FromClauseAt(s, s[a + 1..e], SkipSpaces(s, e + 1)) == BraceGroupAt(s, a)
  {
    e := IndexOfAny(s, CloseBrace, a + 1).value;
  }

  lemma {:induction false} FromFound(s: string, names: string, b: nat) returns (c: nat)
    requires b <= |s| && FromClauseAt(s, names, b).Some?
    ensures OccursAt(s, "from", b) && c == SkipSpaces(s, b + 4) && QuotedPathAt(s, names, c) == FromClauseAt(s, names, b)
  {
    c := SkipSpaces(s, b + 4);
  }

  lemma {:induction false} QuoteFound(s: string, names: string, c: nat) returns (q: nat)
    requires c <= |s| && QuotedPathAt(s, names, c).Some?
    ensures c < |s| && IsQuote(s[c]) && IndexOfAny(s, Quotes, c + 1) == Some(q)
    ensures Contains(s[c + 1..q], "components/ui")
    ensures QuotedPathAt(s, names, c) == Some(UiImportMatch(q + 1, names))
  {
    q := IndexOfAny(s, Quotes, c + 1).value;
  }

  /**
    The positions a component-import match at the start of `s` passes
    through: the `{` at `a`, the `}` at `e`, `from` at `b`, and the quotes at
    `c` and `q`.
  */
  predicate UiParts(s: string, a: nat, e: nat, b: nat, c: nat, q: nat) {
    && StartsWith(s, "import") && a == SkipSpaces(s, 6) && a < |s| && s[a] == '{'
    && IndexOfAny(s, CloseBrace, a + 1) == Some(e) && e > a + 1
    && b == SkipSpaces(s, e + 1) && ClauseParts(s, b, c, q)
  }

  /** A match passes through its positions. */
  lemma {:induction false} PartsOfMatch(s: string) returns (a: nat, e: nat, b: nat, c: nat, q: nat)
    requires UiImportAt(s).Some?
    ensures UiParts(s, a, e, b, c, q) && UiImportAt(s) == Some(UiImportMatch(q + 1, s[a + 1..e]))
  {
    a := ImportFound(s);
    e := BraceGroupFound(s, a);
    b := SkipSpaces(s, e + 1);
    c := FromFound(s, s[a + 1..e], b);
    q := QuoteFound(s, s[a + 1..e], c);
  }

  /** Positions that fit together are found by the matcher. */
  lemma {:induction false} MatchFound(s: string)
    requires exists a: nat, e: nat, b: nat, c: nat, q: nat :: UiParts(s, a, e, b, c, q)
    ensures UiImportAt(s).Some?
  {
    var a: nat, e: nat, b: nat, c: nat, q: nat :| UiParts(s, a, e, b, c, q);
    MatchOfParts(s, a, e, b, c, q);
  }

  /** Positions that fit together make a match. */
  lemma {:induction false} MatchOfParts(s: string, a: nat, e: nat, b: nat, c: nat, q: nat)
    requires UiParts(s, a, e, b, c, q)
    ensures UiImportAt(s) == Some(UiImportMatch(q + 1, s[a + 1..e]))
  {
    OpeningSteps(s, a, e);
    FromClauseOfFacts(s, s[a + 1..e], b, c, q);
  }

  /** A `{` after `import` and the first `}` after it leave the rest of the match to the `from` clause. */
  lemma {:induction false} OpeningSteps(s: string, a: nat, e: nat)
    requires StartsWith(s, "import") && a == SkipSpaces(s, 6) && a < |s| && s[a] == '{'
    requires IndexOfAny(s, CloseBrace, a + 1) == Some(e) && a + 1 < e
    ensures e < |s| && UiImportAt(s) == FromClauseAt(s, s[a + 1..e], SkipSpaces(s, e + 1))
  {
    ImportStep(s);
    BraceGroupStep(s, a);
    NamesStep(s, a + 1, e);
  }

  /** The canonical import, followed by anything, cut into its three pieces. */
  lemma {:induction false} CanonicalPieces(names: string, t: string)
    ensures var y := CanonicalImport(names) + t;
      && |y| == 32 + |names| + |t|
      && y[..8] == "import {" && y[8..8 + |names|] == names
      && y[8 + |names|..32 + |names|] == "} from './components/ui'"
  {
    var y := CanonicalImport(names) + t;
    assert y == "import {" + names + "} from './components/ui'" + t;
  }

  /** The import keyword and the opening brace of the canonical import. */
  lemma {:induction false} CanonicalOpen(names: string, t: string)
    ensures var y := CanonicalImport(names) + t;
      StartsWith(y, "import") && SkipSpaces(y, 6) == 7 && y[7] == '{'
  {
    var y := CanonicalImport(names) + t;
    CanonicalPieces(names, t);
    assert y[..6] == "import" by { assert y[..6] == y[..8][..6]; }
    assert y[6] == y[..8][6] == ' ';
    assert y[7] == y[..8][7] == '{';
  }

  /** The closing brace of the canonical import ends its names. */
  lemma {:induction false} CanonicalClose(names: string, t: string)
    requires '}' !in names
    ensures IndexOfAny(CanonicalImport(names) + t, CloseBrace, 8) == Some(8 + |names|)
  {
    var y := CanonicalImport(names) + t;
    var l := |names|;
    CanonicalPieces(names, t);
    forall k | 8 <= k < 8 + l ensures y[k] !in CloseBrace {
      assert y[k] == y[8..8 + l][k - 8] == names[k - 8];
    }
    assert y[8 + l] == y[8 + l..32 + l][0] == '}';
    IndexOfAnySkip(y, CloseBrace, 8, 8 + l);
  }

  /** The `from` of the canonical import and the quote after it. */
  lemma {:induction false} CanonicalFrom(names: string, t: string)
    ensures var y := CanonicalImport(names) + t; var l := |names|;
      && 15 + l < |y|
      && SkipSpaces(y, 9 + l) == 10 + l && OccursAt(y, "from", 10 + l)
      && SkipSpaces(y, 14 + l) == 15 + l && IsQuote(y[15 + l])
  {
    var y := CanonicalImport(names) + t;
    var l := |names|;
    CanonicalPieces(names, t);
    var tail := y[8 + l..32 + l];
    CanonicalTailText(tail);
    CanonicalTailFrom(tail);
    assert y[9 + l] == tail[1] == ' ';
    assert y[10 + l] == tail[2] == 'f';
    assert y[10 + l..14 + l] == tail[2..6] == "from";
    assert y[14 + l] == tail[6] == ' ';
    assert y[15 + l] == tail[7] == '\'';
  }

  /** The characters of the canonical import after its names, up to its path. */
  lemma {:induction false} CanonicalTailText(tail: string)
    requires tail == "} from './components/ui'"
    ensures tail[0] == '}' && tail[1] == ' ' && tail[2] == 'f'
    ensures tail[6] == ' ' && tail[7] == '\''
  {
  }

  /** The word `from` in the canonical import. */
  lemma {:induction false} CanonicalTailFrom(tail: string)
    requires tail == "} from './components/ui'"
    ensures tail[2..6] == "from"
  {
    var h := tail[..8];
    assert h == "} from '";
    FromInHead(h);
    assert tail[2..6] == h[2..6];
  }

  lemma {:induction false} FromInHead(h: string)
    requires h == "} from '"
    ensures h[2..6] == "from"
  {
  }

  /** The canonical path and its closing quote. */
  lemma {:induction false} CanonicalTailPath(tail: string)
    requires tail == "} from './components/ui'"
    ensures tail[8..23] == "./components/ui" && tail[23] == '\''
  {
  }

  /** The canonical path holds no quote. */
  lemma {:induction false} CanonicalPathUnquoted(path: string)
    requires path == "./components/ui"
    ensures forall k :: 0 <= k < |path| ==> path[k] !in Quotes
  {
  }

  /** The canonical path mentions `components/ui`. */
  lemma {:induction false} CanonicalPathMentionsUi(path: string)
    requires path == "./components/ui"
    ensures Contains(path, "components/ui")
  {
    assert path[2..] == "components/ui";
    ContainsAt(path, "components/ui", 2);
  }

  /** The path of the canonical import runs up to its closing quote and mentions `components/ui`. */
  lemma {:induction false} CanonicalPath(names: string, t: string)
    ensures var y := CanonicalImport(names) + t; var l := |names|;
      && IndexOfAny(y, Quotes, 16 + l) == Some(31 + l)
      && Contains(y[16 + l..31 + l], "components/ui")
  {
    var y := CanonicalImport(names) + t;
    var l := |names|;
    CanonicalPieces(names, t);
    var tail := y[8 + l..32 + l];
    CanonicalTailPath(tail);
    var path := y[16 + l..31 + l];
    assert path == tail[8..23];
    CanonicalPathUnquoted(path);
    CanonicalPathMentionsUi(path);
    forall k | 16 + l <= k < 31 + l ensures y[k] !in Quotes {
      assert y[k] == path[k - 16 - l];
    }
    assert y[31 + l] == tail[23] == '\'';
    IndexOfAnySkip(y, Quotes, 16 + l, 31 + l);
  }

  /** The positions of the canonical import's pieces. */
  lemma {:induction false} CanonicalParts(names: string, t: string)
    requires names != [] && '}' !in names
    ensures var l := |names|;
      UiParts(CanonicalImport(names) + t, 7, 8 + l, 10 + l, 15 + l, 31 + l)
  {
    CanonicalOpen(names, t);
    CanonicalClose(names, t);
    CanonicalFrom(names, t);
    CanonicalPath(names, t);
  }

  /** The canonical import matches again, with the same names and its own length. */
  lemma {:induction false} CanonicalRematches(names: string, t: string)
    requires names != [] && '}' !in names
    ensures UiImportAt(CanonicalImport(names) + t) == Some(UiImportMatch(|CanonicalImport(names)|, names))
  {
    var l := |names|;
    var y := CanonicalImport(names) + t;
    CanonicalParts(names, t);
    MatchOfParts(y, 7, 8 + l, 10 + l, 15 + l, 31 + l);
    CanonicalPieces(names, t);
    assert y[8..8 + l] == names;
  }

  /*
    Text put in front: a match of the expression that starts inside `P`
    sees the same characters in `P + u` and in `P + v` until it leaves `P`.
  */

  /** White space is none of the characters the expression looks for. */
  lemma {:induction false} SpaceIsPlain(c: char)
    requires IsJsSpace(c)
    ensures c != '{' && c != '}' && !IsQuote(c) && c != 'i'
  {
  }

  /** The word `import` holds none of `{`, `}` or a quote. */
  lemma {:induction false} ImportWordPlain(s: string)
    requires s == "import"
    ensures forall k :: 0 <= k < |s| ==> s[k] != '{' && s[k] != '}' && !IsQuote(s[k])
  {
  }

  /** Skipping white space from inside `P` ends at the same place whatever follows, provided it does not start with white space. */
  lemma {:induction false} SkipAgrees(P: string, u: string, v: string, i: nat)
    requires i <= |P| && u != [] && v != [] && !IsJsSpace(u[0]) && !IsJsSpace(v[0])
    ensures SkipSpaces(P + u, i) == SkipSpaces(P + v, i) == SkipSpaces(P, i)
  {
    SkipSpacesConcat(P, u, i);
    SkipSpacesConcat(P, v, i);
  }

  lemma {:induction false} SliceShift(P: string, w: string, i: nat, j: nat)
    requires i <= j <= |w|
    ensures (P + w)[|P| + i..|P| + j] == w[i..j]
  {
  }

  lemma {:induction false} OccursShift(P: string, w: string, pat: string, i: nat)
    requires OccursAt(w, pat, i)
    ensures OccursAt(P + w, pat, |P| + i)
  {
    SliceShift(P, w, i, i + |pat|);
  }

  /** The only `i` in `import` is its first character. */
  lemma {:induction false} ImportOnlyLeadingI(w: string, j: nat)
    requires w == "import" && j < 6 && w[j] == 'i'
    ensures j == 0
  {
  }

  /** `import` cannot start inside a shorter text put in front of another `import`. */
  lemma {:induction false} PrefixLong(P: string, u: string)
    requires P != [] && StartsWith(u, "import") && StartsWith(P + u, "import")
    ensures 6 <= |P|
  {
    var s := P + u;
    var j := if |P| < 6 then |P| else 0;
    assert s[|P|] == u[..6][0];
    assert s[..6][j] == 'i';
    ImportOnlyLeadingI(s[..6], j);
  }

  /** The `import` and the `{` of a match. */
  lemma {:induction false} OpenFound(s: string) returns (a: nat)
    requires UiImportAt(s).Some?
    ensures StartsWith(s, "import") && a == SkipSpaces(s, 6) && a < |s| && s[a] == '{'
  {
    a := ImportFound(s);
  }

  lemma {:induction false} KeepsImport(P: string, u: string, v: string)
    requires 6 <= |P| && StartsWith(P + u, "import")
    ensures StartsWith(P + v, "import")
  {
    assert (P + v)[..6] == P[..6] == (P + u)[..6];
  }

  /** The `import` at the front of a match, and the `{` after it, lie inside a nonempty `P` put in front of `import`. */
  lemma {:induction false} PrefixOpen(P: string, u: string, v: string) returns (a: nat)
    requires P != [] && StartsWith(u, "import") && StartsWith(v, "import")
    requires UiImportAt(P + u).Some?
    ensures 6 <= |P| && a < |P| && P[a] == '{'
    ensures StartsWith(P + v, "import") && a == SkipSpaces(P + u, 6) && a == SkipSpaces(P + v, 6)
  {
    a := OpenFound(P + u);
    PrefixLong(P, u);
    KeepsImport(P, u, v);
    assert u[0] == u[..6][0] == 'i';
    assert v[0] == v[..6][0] == 'i';
    SkipAgrees(P, u, v, 6);
    assert (P + u)[|P|] == u[0];
  }

  /** The first `}` of a match's text is the one after its names. */
  lemma {:induction false} HeadPlain(w: string, a: nat)
    requires StartsWith(w, "import") && a == SkipSpaces(w, 6) && a < |w| && w[a] == '{'
    ensures forall k :: 0 <= k <= a ==> w[k] !in CloseBrace && !IsQuote(w[k])
  {
    var word := w[..6];
    ImportWordPlain(word);
    forall k | 0 <= k <= a ensures w[k] !in CloseBrace && !IsQuote(w[k]) {
      if k < 6 {
        assert w[k] == word[k];
      } else if k < a {
        SpaceIsPlain(w[k]);
      }
    }
  }

  /** The `from` of a match, shifted by the text put in front. */
  lemma {:induction false} FromShift(P: string, w: string, e: nat, b: nat)
    requires e < |w| && b == SkipSpaces(w, e + 1) && OccursAt(w, "from", b)
    ensures |P| + b == SkipSpaces(P + w, |P| + e + 1) && OccursAt(P + w, "from", |P| + b)
  {
    SkipSpacesShift(P, w, e + 1);
    OccursShift(P, w, "from", b);
  }

  /** The opening quote of a match, shifted by the text put in front. */
  lemma {:induction false} QuoteShift(P: string, w: string, b: nat, c: nat)
    requires b + 4 <= |w| && c == SkipSpaces(w, b + 4) && c < |w| && IsQuote(w[c])
    ensures |P| + c == SkipSpaces(P + w, |P| + b + 4) && IsQuote((P + w)[|P| + c])
  {
    SkipSpacesShift(P, w, b + 4);
    assert (P + w)[|P| + c] == w[c];
  }

  /** The path of a match, shifted by the text put in front. */
  lemma {:induction false} PathShift(P: string, w: string, c: nat, q: nat)
    requires c < |w| && IndexOfAny(w, Quotes, c + 1) == Some(q) && Contains(w[c + 1..q], "components/ui")
    ensures IndexOfAny(P + w, Quotes, |P| + c + 1) == Some(|P| + q)
    ensures Contains((P + w)[|P| + c + 1..|P| + q], "components/ui")
  {
    IndexOfAnyShift(P, w, Quotes, c + 1);
    SliceShift(P, w, c + 1, q);
  }

  /** The part of a match after its `}`, shifted by the text put in front. */
  lemma {:induction false} TailShift(P: string, w: string, e: nat, b: nat, c: nat, q: nat)
    requires e < |w| && b == SkipSpaces(w, e + 1) && ClauseParts(w, b, c, q)
    ensures |P| + b == SkipSpaces(P + w, |P| + e + 1) && ClauseParts(P + w, |P| + b, |P| + c, |P| + q)
  {
    FromShift(P, w, e, b);
    QuoteShift(P, w, b, c);
    PathShift(P, w, c, q);
  }

  /** The positions of a `from` clause: `from` at `b`, the quotes at `c` and `q`, and a path mentioning `components/ui` between them. */
  predicate ClauseParts(y: string, b: nat, c: nat, q: nat) {
    && b <= |y| && OccursAt(y, "from", b)
    && c == SkipSpaces(y, b + 4) && c < |y| && IsQuote(y[c])
    && IndexOfAny(y, Quotes, c + 1) == Some(q) && Contains(y[c + 1..q], "components/ui")
  }

  /** Positions that fit together after a `}` make the rest of a match, whatever the names. */
  lemma {:induction false} FromClauseOfFacts(y: string, n: string, b: nat, c: nat, q: nat)
    requires ClauseParts(y, b, c, q)
    ensures FromClauseAt(y, n, b).Some? && FromClauseAt(y, n, b) == Some(UiImportMatch(q + 1, n))
  {
    FromStep(y, n, b);
    QuoteStep(y, n, c);
    PathStep(y, n, c + 1, q);
  }

  /** The `}` of a match is the first in its text. */
  lemma {:induction false} CloseOfParts(w: string, a: nat, e: nat)
    requires StartsWith(w, "import") && a == SkipSpaces(w, 6) && a < |w| && w[a] == '{'
    requires IndexOfAny(w, CloseBrace, a + 1) == Some(e)
    ensures IndexOfAny(w, CloseBrace, 0) == Some(e)
  {
    HeadPlain(w, a);
    IndexOfAnySkip(w, CloseBrace, 0, a + 1);
  }

  /**
    When the names of a match starting in `P` would run past the end of `P`,
    `P + w` matches by following the match of `w`, whose `}` is at `e`.
  */
  lemma {:induction false} ShiftedMatch(P: string, w: string, a: nat, e: nat, b: nat, c: nat, q: nat)
    requires 0 < e < |w| && IndexOfAny(w, CloseBrace, 0) == Some(e)
    requires b == SkipSpaces(w, e + 1) && ClauseParts(w, b, c, q)
    requires a < |P| && StartsWith(P + w, "import") && a == SkipSpaces(P + w, 6) && P[a] == '{'
    requires IndexOfAny(P, CloseBrace, a + 1).None?
    ensures UiImportAt(P + w).Some?
  {
    ShiftedParts(P, w, a, e, b, c, q);
    MatchFound(P + w);
  }

  /** The positions of that match of `P + w`. */
  lemma {:induction false} ShiftedParts(P: string, w: string, a: nat, e: nat, b: nat, c: nat, q: nat)
    requires 0 < e < |w| && IndexOfAny(w, CloseBrace, 0) == Some(e)
    requires b == SkipSpaces(w, e + 1) && ClauseParts(w, b, c, q)
    requires a < |P| && StartsWith(P + w, "import") && a == SkipSpaces(P + w, 6) && P[a] == '{'
    requires IndexOfAny(P, CloseBrace, a + 1).None?
    ensures UiParts(P + w, a, |P| + e, |P| + b, |P| + c, |P| + q)
  {
    var y := P + w;
    IndexOfAnyConcat(P, w, CloseBrace, a + 1);
    TailShift(P, w, e, b, c, q);
    assert y[a] == '{';
  }

  /** The word `from` holds no `i`, no `}` and no quote. */
  lemma {:induction false} FromWordPlain(s: string)
    requires s == "from"
    ensures forall k :: 0 <= k < |s| ==> s[k] != 'i' && s[k] != '}' && !IsQuote(s[k])
  {
  }

  /** The `from` of a match that starts in `P` lies in `P` when what follows `P` starts with `i`. */
  lemma {:induction false} FromInPrefix(P: string, u: string, v: string, b: nat)
    requires b <= |P| && u != [] && u[0] == 'i' && OccursAt(P + u, "from", b)
    ensures b + 4 <= |P| && OccursAt(P + v, "from", b)
  {
    var word := (P + u)[b..b + 4];
    FromWordPlain(word);
    var j := if b + 4 > |P| then |P| - b else 0;
    assert word[j] == (P + u)[b + j];
    assert (P + v)[b..b + 4] == P[b..b + 4] == word;
  }

  /** A match that starts in `P` and closes its names in `P` reaches its opening quote in `P`. */
  lemma {:induction false} PrefixFromClause(P: string, u: string, v: string, e: nat, b: nat, c: nat, q: nat)
    requires e < |P| && u != [] && u[0] == 'i' && v != [] && v[0] == 'i'
    requires b == SkipSpaces(P + u, e + 1) && ClauseParts(P + u, b, c, q)
    ensures b == SkipSpaces(P + v, e + 1) && OccursAt(P + v, "from", b)
    ensures c == SkipSpaces(P + v, b + 4) && c < |P| && IsQuote(P[c])
  {
    SkipAgrees(P, u, v, e + 1);
    FromInPrefix(P, u, v, b);
    SkipAgrees(P, u, v, b + 4);
    assert (P + u)[|P|] == 'i';
    assert (P + u)[c] == P[c];
  }

  /*
    Where a path would end if the quote that opens it were the last one in
    `P`: at the first quote of what follows `P`. Up to that quote, the
    canonical import and the import it replaced differ only in white space
    and in what follows the names.
  */

  /** The head of the canonical import holds no quote. */
  lemma {:induction false} OpenTextPlain(h: string)
    requires h == "import {"
    ensures h == "import" + " {" && forall k :: 0 <= k < |h| ==> h[k] !in Quotes
  {
  }

  /** The canonical import after its names, up to its first quote. */
  lemma {:induction false} TailHeadPlain(tail: string)
    requires tail == "} from './components/ui'"
    ensures tail[..7] == "} " + "from " && tail[7] in Quotes
    ensures forall k :: 0 <= k < 7 ==> tail[k] !in Quotes
  {
  }

  /** The first quote of the canonical import lies in its names, or else opens its path. */
  lemma {:induction false} CanonicalFirstQuote(names: string, t: string) returns (j: nat, r: string)
    ensures IndexOfAny(CanonicalImport(names) + t, Quotes, 0) == Some(j)
    ensures (CanonicalImport(names) + t)[..j] == "import" + " {" + r
    ensures var f := IndexOfAny(names, Quotes, 0);
      if f.Some? then r == names[..f.value] else r == names + "} " + "from "
  {
    var z := CanonicalImport(names) + t;
    CanonicalPieces(names, t);
    var head := z[..8];
    OpenTextPlain(head);
    forall k | 0 <= k < 8 ensures z[k] !in Quotes {
      assert z[k] == head[k];
    }
    IndexOfAnySkip(z, Quotes, 0, 8);
    if IndexOfAny(names, Quotes, 0).Some? {
      j, r := QuoteInNamesPiece(z, names);
    } else {
      j, r := QuoteAfterNamesPiece(z, names);
    }
    SliceSplit(z, 8, j);
  }

  /** When the names hold a quote, the first one is the first quote after the canonical import's `{`. */
  lemma {:induction false} QuoteInNamesPiece(z: string, names: string) returns (j: nat, r: string)
    requires 8 + |names| <= |z| && z[8..8 + |names|] == names && IndexOfAny(names, Quotes, 0).Some?
    ensures 8 <= j <= |z| && IndexOfAny(z, Quotes, 8) == Some(j) && z[8..j] == r
    ensures r == names[..IndexOfAny(names, Quotes, 0).value]
  {
    var f := IndexOfAny(names, Quotes, 0).value;
    j := 8 + f;
    r := names[..f];
    forall k | 8 <= k < j ensures z[k] !in Quotes {
      assert z[k] == names[k - 8];
    }
    assert z[j] == names[f];
    IndexOfAnySkip(z, Quotes, 8, j);
    assert z[8..j] == names[..f];
  }

  /** When the names hold no quote, the first quote after the canonical import's `{` opens its path. */
  lemma {:induction false} QuoteAfterNamesPiece(z: string, names: string) returns (j: nat, r: string)
    requires 32 + |names| <= |z| && z[8..8 + |names|] == names && IndexOfAny(names, Quotes, 0).None?
    requires z[8 + |names|..32 + |names|] == "} from './components/ui'"
    ensures 8 <= j <= |z| && IndexOfAny(z, Quotes, 8) == Some(j) && z[8..j] == r
    ensures r == names + "} " + "from "
  {
    var l := |names|;
    j := 15 + l;
    r := names + "} " + "from ";
    var tail := z[8 + l..32 + l];
    TailHeadPlain(tail);
    forall k | 8 <= k < j ensures z[k] !in Quotes {
      if k < 8 + l {
        assert z[k] == names[k - 8];
      } else {
        assert z[k] == tail[k - 8 - l];
      }
    }
    assert z[j] == tail[7];
    IndexOfAnySkip(z, Quotes, 8, j);
    assert z[8..j] == names + tail[..7];
  }

  /** Between the `}` of a match and its opening quote there is no quote. */
  lemma {:induction false} TailPlain(w: string, e: nat, b: nat, c: nat)
    requires e < |w| && w[e] == '}' && b == SkipSpaces(w, e + 1) && OccursAt(w, "from", b)
    requires c == SkipSpaces(w, b + 4)
    ensures forall k :: e <= k < c ==> w[k] !in Quotes
  {
    var word := w[b..b + 4];
    FromWordPlain(word);
    forall k | e <= k < c ensures w[k] !in Quotes {
      if k == e {
      } else if k < b || k >= b + 4 {
        SpaceIsPlain(w[k]);
      } else {
        assert w[k] == word[k - b];
      }
    }
  }

  lemma {:induction false} SliceSplit(s: string, i: nat, j: nat)
    requires i <= j <= |s|
    ensures s[..j] == s[..i] + s[i..j]
  {
  }

  lemma {:induction false} SliceOfSlice(s: string, i: nat, e: nat, f: nat)
    requires i + f <= e <= |s|
    ensures s[i..e][..f] == s[i..i + f]
  {
  }

  /** A quote among the names is the first quote of the text. */
  lemma {:induction false} QuoteInNames(w: string, a: nat, e: nat, f: nat)
    requires a < e <= |w| && forall k :: 0 <= k <= a ==> w[k] !in Quotes
    requires IndexOfAny(w[a + 1..e], Quotes, 0) == Some(f)
    ensures IndexOfAny(w, Quotes, 0) == Some(a + 1 + f) && w[..a + 1 + f] == w[..a + 1] + w[a + 1..e][..f]
  {
    var names := w[a + 1..e];
    IndexOfAnySkip(w, Quotes, 0, a + 1);
    forall k | a + 1 <= k < a + 1 + f ensures w[k] !in Quotes {
      assert w[k] == names[k - a - 1];
    }
    assert w[a + 1 + f] == names[f];
    IndexOfAnySkip(w, Quotes, a + 1, a + 1 + f);
    SliceSplit(w, a + 1, a + 1 + f);
    SliceOfSlice(w, a + 1, e, f);
  }

  /** With no quote among the names, the first quote of the text is the one after `from`. */
  lemma {:induction false} QuoteAfterNames(w: string, a: nat, e: nat, c: nat)
    requires a < e <= c < |w| && forall k :: 0 <= k <= a ==> w[k] !in Quotes
    requires IndexOfAny(w[a + 1..e], Quotes, 0).None?
    requires (forall k :: e <= k < c ==> w[k] !in Quotes) && IsQuote(w[c])
    ensures IndexOfAny(w, Quotes, 0) == Some(c) && w[..c] == w[..a + 1] + w[a + 1..e] + w[e..c]
  {
    var names := w[a + 1..e];
    IndexOfAnySkip(w, Quotes, 0, a + 1);
    forall k | a + 1 <= k < e ensures w[k] !in Quotes {
      assert w[k] == names[k - a - 1];
    }
    IndexOfAnySkip(w, Quotes, a + 1, c);
    SliceSplit(w, a + 1, c);
    SliceSplit(w[a + 1..c], e - a - 1, c - a - 1);
    assert w[a + 1..c][..e - a - 1] == names;
    assert w[a + 1..c][e - a - 1..c - a - 1] == w[e..c];
  }

  /** The first quote of a match's text, in its names or else opening its path. */
  lemma {:induction false} FirstQuoteOfParts(w: string, a: nat, e: nat, b: nat, c: nat) returns (j: nat, g: string, rest: string)
    requires StartsWith(w, "import") && a == SkipSpaces(w, 6) && a < |w| && w[a] == '{'
    requires IndexOfAny(w, CloseBrace, a + 1) == Some(e) && a + 1 < e
    requires b == SkipSpaces(w, e + 1) && OccursAt(w, "from", b)
    requires c == SkipSpaces(w, b + 4) && c < |w| && IsQuote(w[c])
    ensures IndexOfAny(w, Quotes, 0) == Some(j)
    ensures var names := w[a + 1..e]; var f := IndexOfAny(names, Quotes, 0);
      w[..j] == "import" + g + (if f.Some? then names[..f.value] else names + rest)
  {
    var names := w[a + 1..e];
    HeadPlain(w, a);
    g := w[6..a + 1];
    SliceSplit(w, 6, a + 1);
    var f := IndexOfAny(names, Quotes, 0);
    if f.Some? {
      QuoteInNames(w, a, e, f.value);
      j := a + 1 + f.value;
      rest := [];
    } else {
      TailPlain(w, e, b, c);
      QuoteAfterNames(w, a, e, c);
      j := c;
      rest := w[e..c];
    }
  }

  /** The separators of the canonical import use no character of `components/ui`. */
  lemma {:induction false} SeparatorPlain(sep: string)
    requires sep == " {" || sep == "} "
    ensures sep != [] && forall k :: 0 <= k < |sep| ==> sep[k] !in "components/ui"
  {
  }

  /** `components/ui` found up to a quote among the canonical names is found up to the same quote of the import they came from. */
  lemma {:induction false} TransferInNames(pre: string, g: string, r: string)
    requires Contains(pre + ("import" + " {" + r), "components/ui")
    ensures Contains(pre + ("import" + g + r), "components/ui")
  {
    var pat := "components/ui";
    assert pre + ("import" + " {" + r) == (pre + "import") + " {" + r;
    SeparatorPlain(" {");
    ContainsSplitBySeparator(pre + "import", " {", r, pat);
    ContainsAroundSeparator(pre + "import", g, r, pat);
    assert pre + ("import" + g + r) == (pre + "import") + g + r;
  }

  /** `components/ui` found up to the path quote of the canonical import is found up to the path quote of the import it came from. */
  lemma {:induction false} TransferPastNames(pre: string, g: string, names: string, rest: string)
    requires Contains(pre + ("import" + " {" + (names + "} " + "from ")), "components/ui")
    ensures Contains(pre + ("import" + g + (names + rest)), "components/ui")
  {
    var pat := "components/ui";
    var r := names + "} " + "from ";
    assert pre + ("import" + " {" + r) == (pre + "import") + " {" + r;
    SeparatorPlain(" {");
    ContainsSplitBySeparator(pre + "import", " {", r, pat);
    if Contains(r, pat) {
      SeparatorPlain("} ");
      ContainsSplitBySeparator(names, "} ", "from ", pat);
      ContainsTooShort("from ", pat);
      ContainsInConcat([], names, rest, pat);
      assert [] + names + rest == names + rest;
    }
    ContainsAroundSeparator(pre + "import", g, names + rest, pat);
    assert pre + ("import" + g + (names + rest)) == (pre + "import") + g + (names + rest);
  }

  lemma {:induction false} ConcatSlice(P: string, u: string, i: nat, j: nat)
    requires i <= |P| && j <= |u|
    ensures (P + u)[i..|P| + j] == P[i..] + u[..j]
  {
  }

  /** A path opened in `P` and closed in the canonical import that follows. */
  lemma {:induction false} CanonicalPathPastPrefix(P: string, names: string, t: string, c: nat, q: nat) returns (r: string)
    requires c < |P| && IndexOfAny(P, Quotes, c + 1).None?
    requires var z := CanonicalImport(names) + t;
      IndexOfAny(P + z, Quotes, c + 1) == Some(q) && Contains((P + z)[c + 1..q], "components/ui")
    ensures Contains(P[c + 1..] + ("import" + " {" + r), "components/ui")
    ensures var f := IndexOfAny(names, Quotes, 0);
      if f.Some? then r == names[..f.value] else r == names + "} " + "from "
  {
    var z := CanonicalImport(names) + t;
    var jz;
    jz, r := CanonicalFirstQuote(names, t);
    IndexOfAnyConcat(P, z, Quotes, c + 1);
    ConcatSlice(P, z, c + 1, jz);
  }

  /** A path opened in `P` and closed in the import that follows. */
  lemma {:induction false} MatchPathPastPrefix(P: string, w: string, c: nat, a: nat, e: nat, b: nat, cw: nat)
    returns (qw: nat, g: string, rest: string)
    requires c < |P| && IndexOfAny(P, Quotes, c + 1).None?
    requires StartsWith(w, "import") && a == SkipSpaces(w, 6) && a < |w| && w[a] == '{'
    requires IndexOfAny(w, CloseBrace, a + 1) == Some(e) && a + 1 < e
    requires b == SkipSpaces(w, e + 1) && OccursAt(w, "from", b)
    requires cw == SkipSpaces(w, b + 4) && cw < |w| && IsQuote(w[cw])
    ensures IndexOfAny(P + w, Quotes, c + 1) == Some(qw) && c + 1 <= qw
    ensures var names := w[a + 1..e]; var f := IndexOfAny(names, Quotes, 0);
      (P + w)[c + 1..qw] == P[c + 1..] + ("import" + g + (if f.Some? then names[..f.value] else names + rest))
  {
    var jw;
    jw, g, rest := FirstQuoteOfParts(w, a, e, b, cw);
    IndexOfAnyConcat(P, w, Quotes, c + 1);
    ConcatSlice(P, w, c + 1, jw);
    qw := |P| + jw;
  }

  /**
    A path opened by a quote at `c` in `P`, closed in the canonical import
    that follows `P`, is closed in the import it came from, and mentions
    `components/ui` there too.
  */
  lemma {:induction false} PathPastPrefix(P: string, names: string, t: string, w: string, c: nat, q: nat,
                       a: nat, e: nat, b: nat, cw: nat) returns (qw: nat)
    requires c < |P| && IndexOfAny(P, Quotes, c + 1).None?
    requires var z := CanonicalImport(names) + t;
      IndexOfAny(P + z, Quotes, c + 1) == Some(q) && Contains((P + z)[c + 1..q], "components/ui")
    requires StartsWith(w, "import") && a == SkipSpaces(w, 6) && a < |w| && w[a] == '{'
    requires IndexOfAny(w, CloseBrace, a + 1) == Some(e) && a + 1 < e && names == w[a + 1..e]
    requires b == SkipSpaces(w, e + 1) && OccursAt(w, "from", b)
    requires cw == SkipSpaces(w, b + 4) && cw < |w| && IsQuote(w[cw])
    ensures IndexOfAny(P + w, Quotes, c + 1) == Some(qw) && Contains((P + w)[c + 1..qw], "components/ui")
  {
    var r := CanonicalPathPastPrefix(P, names, t, c, q);
    var g, rest;
    qw, g, rest := MatchPathPastPrefix(P, w, c, a, e, b, cw);
    if IndexOfAny(names, Quotes, 0).Some? {
      TransferInNames(P[c + 1..], g, r);
    } else {
      TransferPastNames(P[c + 1..], g, names, rest);
    }
  }

  /** A path opened by a quote at `c` in `P` reads the same in `P + u` and in `P + v` when it closes in `P`. */
  lemma {:induction false} PathInPrefix(P: string, u: string, v: string, c: nat, q: nat)
    requires c < |P| && IndexOfAny(P, Quotes, c + 1).Some?
    requires IndexOfAny(P + u, Quotes, c + 1) == Some(q) && Contains((P + u)[c + 1..q], "components/ui")
    ensures IndexOfAny(P + v, Quotes, c + 1) == Some(q) && Contains((P + v)[c + 1..q], "components/ui")
  {
    IndexOfAnyConcat(P, u, Quotes, c + 1);
    IndexOfAnyConcat(P, v, Quotes, c + 1);
    assert (P + v)[c + 1..q] == P[c + 1..q] == (P + u)[c + 1..q];
  }

  /** A match of `P + u` whose names close in `P` reaches its opening quote in `P`. */
  lemma {:induction false} ClauseInPrefix(P: string, u: string, v: string, a: nat, e: nat, e1: nat, b: nat, c: nat, q: nat)
    requires UiParts(P + u, a, e1, b, c, q)
    requires u != [] && u[0] == 'i' && v != [] && v[0] == 'i'
    requires a < |P| && IndexOfAny(P, CloseBrace, a + 1) == Some(e)
    ensures e1 == e && a + 1 < e
    ensures b == SkipSpaces(P + v, e + 1) && OccursAt(P + v, "from", b)
    ensures c == SkipSpaces(P + v, b + 4) && c < |P| && IsQuote(P[c])
  {
    IndexOfAnyConcat(P, u, CloseBrace, a + 1);
    PrefixFromClause(P, u, v, e, b, c, q);
  }

  /** The path of a match of `P + z` opened in `P` gives a path of `P + w` opened at the same quote. */
  lemma {:induction false} PathOfPrefix(P: string, names: string, t: string, w: string, c: nat, q: nat,
                     aw: nat, ew: nat, bw: nat, cw: nat) returns (qy: nat)
    requires c < |P|
    requires var z := CanonicalImport(names) + t;
      IndexOfAny(P + z, Quotes, c + 1) == Some(q) && Contains((P + z)[c + 1..q], "components/ui")
    requires StartsWith(w, "import") && aw == SkipSpaces(w, 6) && aw < |w| && w[aw] == '{'
    requires IndexOfAny(w, CloseBrace, aw + 1) == Some(ew) && aw + 1 < ew && names == w[aw + 1..ew]
    requires bw == SkipSpaces(w, ew + 1) && OccursAt(w, "from", bw)
    requires cw == SkipSpaces(w, bw + 4) && cw < |w| && IsQuote(w[cw])
    ensures IndexOfAny(P + w, Quotes, c + 1) == Some(qy) && Contains((P + w)[c + 1..qy], "components/ui")
  {
    if IndexOfAny(P, Quotes, c + 1).Some? {
      PathInPrefix(P, CanonicalImport(names) + t, w, c, q);
      qy := q;
    } else {
      qy := PathPastPrefix(P, names, t, w, c, q, aw, ew, bw, cw);
    }
  }

  /** A match whose names close in `P`, with a path after the quote at `c`, is a match of `P + w`. */
  lemma {:induction false} ClosedInPrefix(P: string, w: string, a: nat, e: nat, b: nat, c: nat, q: nat)
    requires a < |P| && P[a] == '{' && StartsWith(P + w, "import") && a == SkipSpaces(P + w, 6)
    requires IndexOfAny(P, CloseBrace, a + 1) == Some(e) && a + 1 < e
    requires b == SkipSpaces(P + w, e + 1) && OccursAt(P + w, "from", b)
    requires c == SkipSpaces(P + w, b + 4) && c < |P| && IsQuote(P[c])
    requires IndexOfAny(P + w, Quotes, c + 1) == Some(q) && Contains((P + w)[c + 1..q], "components/ui")
    ensures UiImportAt(P + w).Some?
  {
    ClosedParts(P, w, a, e, b, c, q);
    MatchFound(P + w);
  }

  /** The positions of that match of `P + w`. */
  lemma {:induction false} ClosedParts(P: string, w: string, a: nat, e: nat, b: nat, c: nat, q: nat)
    requires a < |P| && P[a] == '{' && StartsWith(P + w, "import") && a == SkipSpaces(P + w, 6)
    requires IndexOfAny(P, CloseBrace, a + 1) == Some(e) && a + 1 < e
    requires b == SkipSpaces(P + w, e + 1) && OccursAt(P + w, "from", b)
    requires c == SkipSpaces(P + w, b + 4) && c < |P| && IsQuote(P[c])
    requires IndexOfAny(P + w, Quotes, c + 1) == Some(q) && Contains((P + w)[c + 1..q], "components/ui")
    ensures UiParts(P + w, a, e, b, c, q)
  {
    var y := P + w;
    assert y[c] == P[c];
    IndexOfAnyConcat(P, w, CloseBrace, a + 1);
    assert y[a] == '{';
  }

  /**
    Rewriting a match `w` to its canonical import creates no match that
    starts in the nonempty text `P` before it: if `P` followed by the
    canonical import matches, `P` followed by `w` already did.
  */
  lemma {:induction false} CanonicalAddsNoMatch(P: string, w: string, t: string)
    requires P != [] && UiImportAt(w).Some?
    requires UiImportAt(P + (CanonicalImport(UiImportAt(w).value.names) + t)).Some?
    ensures UiImportAt(P + w).Some?
  {
    var names := UiImportAt(w).value.names;
    var z := CanonicalImport(names) + t;
    var aw, ew, bw, cw, qw := PartsOfMatch(w);
    CanonicalOpen(names, t);
    var a := PrefixOpen(P, z, w);
    assert z[0] == z[..6][0] && w[0] == w[..6][0];
    if IndexOfAny(P, CloseBrace, a + 1).None? {
      CloseOfParts(w, aw, ew);
      ShiftedMatch(P, w, a, ew, bw, cw, qw);
    } else {
      var e := IndexOfAny(P, CloseBrace, a + 1).value;
      var a1, e1, b, c, q := PartsOfMatch(P + z);
      ClauseInPrefix(P, z, w, a, e, e1, b, c, q);
      var qy := PathOfPrefix(P, names, t, w, c, q, aw, ew, bw, cw);
      ClosedInPrefix(P, w, a, e, b, c, qy);
    }
  }

  lemma {:induction false} Associative(a: string, b: string, c: string)
    ensures (a + b) + c == a + (b + c)
  {
  }

  /** Normalising the text after a nonempty `P` creates no match starting in `P`. */
  lemma {:induction false} NormaliseAddsNoMatch(P: string, s: string)
    requires P != [] && UiImportAt(P + s).None?
    ensures UiImportAt(P + NormaliseImports(s)).None?
    decreases |s|
  {
    if s == [] {
      assert P + NormaliseImports(s) == P + s;
    } else {
      match UiImportAt(s)
      case Some(m) =>
        if UiImportAt(P + NormaliseImports(s)).Some? {
          CanonicalAddsNoMatch(P, s, NormaliseImports(s[m.len..]));
        }
      case None =>
        assert NormaliseImports(s) == [s[0]] + NormaliseImports(s[1..]);
        assert [s[0]] + s[1..] == s;
        Associative(P, [s[0]], s[1..]);
        NormaliseAddsNoMatch(P + [s[0]], s[1..]);
        Associative(P, [s[0]], NormaliseImports(s[1..]));
    }
  }

  /** Rewriting component imports to the canonical path a second time changes nothing. */
  lemma {:induction false} NormaliseIdempotent(s: string)
    ensures NormaliseImports(NormaliseImports(s)) == NormaliseImports(s)
    decreases |s|
  {
    if s != [] {
      var n := NormaliseImports(s);
      match UiImportAt(s)
      case Some(m) =>
        var rest := NormaliseImports(s[m.len..]);
        CanonicalRematches(m.names, rest);
        assert n[|CanonicalImport(m.names)|..] == rest;
        NormaliseIdempotent(s[m.len..]);
      case None =>
        assert [s[0]] + s[1..] == s;
        NormaliseAddsNoMatch([s[0]], s[1..]);
        assert n[1..] == NormaliseImports(s[1..]);
        NormaliseIdempotent(s[1..]);
    }
  }

  /*
    The second run of the repair on its own output: the normalisation finds
    only the canonical import it wrote, the component import is present
    whenever components are used, and `import React` is present.
  */

  /** Where no match starts, normalising copies one character. */
  lemma {:induction false} NormaliseCopies(y: string)
    requires y != [] && UiImportAt(y).None?
    ensures NormaliseImports(y) == [y[0]] + NormaliseImports(y[1..])
  {
  }

  lemma {:induction false} EmptyConcat(a: string, t: string)
    requires a == []
    ensures a + t == t
  {
  }

  lemma {:induction false} ConsSplit(a: string, t: string)
    requires a != []
    ensures [a[0]] + (a[1..] + t) == a + t
  {
  }

  lemma {:induction false} HeadTail(a: string, x: string)
    requires a != []
    ensures (a + x)[0] == a[0] && (a + x)[1..] == a[1..] + x
  {
  }

  /** Copying the first character of `a` when no match starts there. */
  lemma {:induction false} CopyStep(a: string, x: string)
    requires a != [] && UiImportAt(a + x).None?
    requires NormaliseImports(a[1..] + x) == a[1..] + NormaliseImports(x)
    ensures NormaliseImports(a + x) == a + NormaliseImports(x)
  {
    NormaliseCopies(a + x);
    HeadTail(a, x);
    ConsSplit(a, NormaliseImports(x));
  }

  /** A text whose first character differs from that of `p` does not start with `p`. */
  lemma {:induction false} NotStartsWithByHead(s: string, p: string)
    requires p != [] && (s == [] || s[0] != p[0])
    ensures !StartsWith(s, p)
  {
  }

  /** No match starts at a character other than `i`. */
  lemma {:induction false} NoMatchWithoutI(y: string)
    requires y != [] && y[0] != 'i'
    ensures UiImportAt(y).None?
  {
    NotStartsWithByHead(y, "import");
  }

  /** Text in which no character is `i` cannot start a match, and normalising after it is normalising what follows. */
  lemma {:induction false} NormaliseSkipsText(a: string, x: string)
    requires forall k :: 0 <= k < |a| ==> a[k] != 'i'
    ensures NormaliseImports(a + x) == a + NormaliseImports(x)
    decreases |a|
  {
    if a == [] {
      EmptyConcat(a, x);
      EmptyConcat(a, NormaliseImports(x));
    } else {
      HeadTail(a, x);
      NoMatchWithoutI(a + x);
      NormaliseSkipsText(a[1..], x);
      CopyStep(a, x);
    }
  }

  /** The added React import lines start with `import` then `R`. */
  lemma {:induction false} ReactLineHead(r: string)
    requires r == ReactImport || r == ReactStateImport
    ensures 8 <= |r| && r[..6] == "import" && r[6] == ' ' && r[7] == 'R'
  {
    assert r[..12] == ImportReact;
  }

  /** `import React` holds no `<`, and no `i` after its first character. */
  lemma {:induction false} ImportReactText()
    ensures '<' !in ImportReact && 'i' !in ImportReact[1..]
  {
    assert ImportReact[1..] == "mport React";
  }

  /** The tail of the plain React import line holds neither `i` nor `<`. */
  lemma {:induction false} ReactTailText(t: string)
    requires t == " from 'react';\n"
    ensures '<' !in t && 'i' !in t
  {
  }

  /** The tail of the React-and-useState import line holds neither `i` nor `<`. */
  lemma {:induction false} ReactStateTailText(t: string)
    requires t == ", { useState } from 'react';\n"
    ensures '<' !in t && 'i' !in t
  {
  }

  /** Dropping the first character of `a + t` drops it from `a`. */
  lemma {:induction false} DropConcat(a: string, t: string)
    requires a != []
    ensures (a + t)[1..] == a[1..] + t
  {
  }

  /** The added React import lines hold no `i` after their first character, and no `<`. */
  lemma {:induction false} ReactLineChars(r: string)
    requires r == ReactImport || r == ReactStateImport
    ensures 'i' !in r[1..] && '<' !in r
  {
    ImportReactText();
    var t: string := if r == ReactImport then " from 'react';\n" else ", { useState } from 'react';\n";
    if r == ReactImport {
      ReactTailText(t);
    } else {
      ReactStateTailText(t);
    }
    assert r == ImportReact + t;
    DropConcat(ImportReact, t);
  }

  /** The added React import lines: `import` then `R`, no other `i`, and no `<`. */
  lemma {:induction false} ReactLineText(r: string)
    requires r == ReactImport || r == ReactStateImport
    ensures 8 <= |r| && r[..6] == "import" && r[6] == ' ' && r[7] == 'R'
    ensures forall k :: 0 <= k < |r[1..]| ==> r[1..][k] != 'i'
    ensures forall k :: 0 <= k < |r| ==> r[k] != '<'
  {
    ReactLineHead(r);
    ReactLineChars(r);
    forall k | 0 <= k < |r[1..]| ensures r[1..][k] != 'i' {
      assert r[1..][k] in r[1..];
    }
    forall k | 0 <= k < |r| ensures r[k] != '<' {
      assert r[k] in r;
    }
  }

  /** An added React import line does not start a component-import match. */
  lemma {:induction false} ReactLineNoMatch(r: string, x: string)
    requires r == ReactImport || r == ReactStateImport
    ensures UiImportAt(r + x).None?
  {
    ReactLineText(r);
    var y := r + x;
    assert y[..6] == r[..6];
    assert y[6] == r[6] && y[7] == r[7];
    assert SkipSpaces(y, 6) == 7;
    ImportStep(y);
  }

  /** Normalising skips an added React import line. */
  lemma {:induction false} NormaliseReactLine(r: string, x: string)
    requires r == [] || r == ReactImport || r == ReactStateImport
    ensures NormaliseImports(r + x) == r + NormaliseImports(x)
  {
    if r == [] {
      EmptyConcat(r, x);
      EmptyConcat(r, NormaliseImports(x));
    } else {
      ReactLineText(r);
      ReactLineNoMatch(r, x);
      NormaliseSkipsText(r[1..], x);
      CopyStep(r, x);
    }
  }

  /** No whitelisted component name holds a closing brace. */
  lemma {:induction false} WhitelistNoBrace(c: string)
    requires c in Whitelist
    ensures '}' !in c
  {
  }

  /** The names between the braces of a synthesised component import hold no closing brace. */
  lemma {:induction false} SynthesisedNamesNoBrace(used: seq<string>)
    requires forall c :: c in used ==> c in Whitelist
    ensures '}' !in " " + Join(used, ", ") + " "
  {
    forall k | 0 <= k < |used| ensures '}' !in used[k] {
      WhitelistNoBrace(used[k]);
    }
    JoinAvoids(used, ", ", '}');
  }

  lemma {:induction false} ComponentLineOpen(a: string)
    requires a == "import { "
    ensures a == "import {" + " "
  {
  }

  lemma {:induction false} ComponentLineClose(b: string)
    requires b == " } from './components/ui';\n"
    ensures b == " " + "} from './components/ui'" + ";\n"
  {
  }

  /** Regrouping `a1 sp + j + sp b1 end` as `a1 + (sp j sp) + b1 + end`. */
  lemma {:induction false} Regroup(a: string, a1: string, sp: string, j: string, b: string, b1: string, end: string)
    requires a == a1 + sp && b == sp + b1 + end
    ensures a + j + b == a1 + (sp + j + sp) + b1 + end
  {
  }

  /** The synthesised component import line is the canonical import of ` names ` followed by `;` and a newline. */
  lemma {:induction false} ComponentLineIsCanonical(used: seq<string>)
    ensures ComponentImportLine(used) == CanonicalImport(" " + Join(used, ", ") + " ") + ";\n"
  {
    var a: string := "import { ";
    var b: string := " } from './components/ui';\n";
    ComponentLineOpen(a);
    ComponentLineClose(b);
    Regroup(a, "import {", " ", Join(used, ", "), b, "} from './components/ui'", ";\n");
  }

  /** Where a match starts, normalising writes its canonical import and goes on after it. */
  lemma {:induction false} NormaliseRewrites(y: string)
    requires y != [] && UiImportAt(y).Some?
    ensures NormaliseImports(y) == CanonicalImport(UiImportAt(y).value.names) + NormaliseImports(y[UiImportAt(y).value.len..])
  {
  }

  lemma {:induction false} SemicolonPlain(t: string)
    requires t == ";\n"
    ensures forall k :: 0 <= k < |t| ==> t[k] != 'i'
  {
  }

  /** The canonical import of `names`, then `;` and a newline, then already normalised text, is left as it is. */
  lemma {:induction false} NormaliseCanonicalLine(names: string, n: string)
    requires names != [] && '}' !in names
    requires NormaliseImports(n) == n
    ensures NormaliseImports(CanonicalImport(names) + ";\n" + n) == CanonicalImport(names) + ";\n" + n
  {
    var k := CanonicalImport(names);
    var t: string := ";\n" + n;
    Associative(k, ";\n", n);
    CanonicalRematches(names, t);
    NormaliseRewrites(k + t);
    assert (k + t)[|k|..] == t;
    SemicolonPlain(";\n");
    NormaliseSkipsText(";\n", n);
  }

  /** Putting the component import in front of already normalised text leaves normalisation nothing to do. */
  lemma {:induction false} NormaliseComponentLine(n: string)
    requires NormaliseImports(n) == n
    ensures NormaliseImports(ComponentImportPrefix(n) + n) == ComponentImportPrefix(n) + n
  {
    var c := ComponentImportPrefix(n);
    if c == [] {
      EmptyConcat(c, n);
    } else {
      var used := UsedComponents(n);
      SynthesisedNamesNoBrace(used);
      ComponentLineIsCanonical(used);
      NormaliseCanonicalLine(" " + Join(used, ", ") + " ", n);
    }
  }

  /** The repaired code is already normalised. */
  lemma {:induction false} NormaliseFixesRepair(code: string)
    ensures NormaliseImports(AutoFix.AutoFix(code)) == AutoFix.AutoFix(code)
  {
    var n := NormaliseImports(code);
    var c := ComponentImportPrefix(n);
    var r := ReactImportPrefix(c + n);
    NormaliseIdempotent(code);
    NormaliseComponentLine(n);
    NormaliseReactLine(r, c + n);
  }

  lemma {:induction false} ComponentLineTail(b: string)
    requires b == " } from './components/ui';\n"
    ensures b == " } " + "from './components/ui'" + ";\n"
  {
  }

  /** Regrouping `a + j + b` around a piece `p` of `b`. */
  lemma {:induction false} RegroupAround(a: string, j: string, b: string, b0: string, p: string, e: string)
    requires b == b0 + p + e
    ensures a + j + b == (a + j + b0) + p + e
  {
  }

  /** The synthesised component import line names the canonical path. */
  lemma {:induction false} ComponentLineMentionsUi(used: seq<string>)
    ensures Contains(ComponentImportLine(used), "from './components/ui'")
  {
    var p: string := "from './components/ui'";
    var b: string := " } from './components/ui';\n";
    ComponentLineTail(b);
    RegroupAround("import { ", Join(used, ", "), b, " } ", p, ";\n");
    ContainsSelf(p);
    ContainsInConcat("import { " + Join(used, ", ") + " } ", p, ";\n", p);
  }

  /** Text present in `n` is present in `r + (c + n)` when `c` is empty. */
  lemma {:induction false} ContainsBehindPrefix(r: string, c: string, n: string, p: string)
    requires c == [] && Contains(n, p)
    ensures Contains(r + (c + n), p)
  {
    ContainsInConcat(r, n, [], p);
    assert r + n + [] == r + (c + n);
  }

  /** A component not opened in `n` is not opened in `r + n`, for `r` an added React import line or nothing. */
  lemma {:induction false} NotOpenedBehindReactLine(r: string, n: string, name: string)
    requires r == [] || r == ReactImport || r == ReactStateImport
    requires !Contains(n, OpeningTag(name))
    ensures !Contains(r + n, OpeningTag(name))
  {
    if r == [] {
      EmptyConcat(r, n);
    } else if Contains(r + n, OpeningTag(name)) {
      ReactLineText(r);
      ContainsPastPrefix(r, n, OpeningTag(name));
    }
  }

  /** A nonempty sequence has its first element as a member. */
  lemma {:induction false} HeadIsMember(xs: seq<string>)
    ensures xs != [] ==> xs[0] in xs
  {
  }

  /** The repaired code holds a component import, or opens no whitelisted component. */
  lemma {:induction false} RepairImportsComponents(code: string)
    ensures ComponentImportPrefix(AutoFix.AutoFix(code)) == []
  {
    var n := NormaliseImports(code);
    var c := ComponentImportPrefix(n);
    var r := ReactImportPrefix(c + n);
    var f := r + (c + n);
    var p: string := "from './components/ui'";
    if c != [] {
      ComponentLineMentionsUi(UsedComponents(n));
      ContainsInConcat(r, c, n, p);
      Associative(r, c, n);
    } else if Contains(n, p) {
      ContainsBehindPrefix(r, c, n, p);
    } else if Contains(n, "from \"./components/ui\"") {
      ContainsBehindPrefix(r, c, n, "from \"./components/ui\"");
    } else {
      assert UsedComponents(n) == [];
      EmptyConcat(c, n);
      forall name | name in Whitelist ensures !Contains(f, OpeningTag(name)) {
        NotOpenedBehindReactLine(r, n, name);
      }
      HeadIsMember(UsedComponents(f));
    }
  }

  /**
    Running the repair on its own output changes nothing: the text is
    already normalised, a component import is present or no component is
    opened, and `import React` is present.
  */
  lemma {:induction false} AutoFixIdempotent(code: string)
    ensures AutoFix.AutoFix(AutoFix.AutoFix(code)) == AutoFix.AutoFix(code)
  {
    var f := AutoFix.AutoFix(code);
    NormaliseFixesRepair(code);
    RepairImportsComponents(code);
    AutoFixAlwaysImportsReact(code);
    EmptyConcat(ComponentImportPrefix(f), f);
    EmptyConcat(ReactImportPrefix(f), f);
  }
}
