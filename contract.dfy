/**
  The code-contract validator: four independent scans of generated code
  (inline styles, non-whitelisted component tags, non-relative imports and
  dangerous API names), each adding human-readable issues to one list. The
  code is valid exactly when the list stays empty. Findings are advisory:
  nothing here rejects code.

  The scans follow the global regular expressions of the source as direct
  matchers: `/style\s*=\s*\{[^}]*\}/g`, `/<([A-Z][a-zA-Z]*)/g` and
  `/import\s+.*from\s+['"]([^'"]+)['"]/g`, each resuming its search where the
  previous match ended, as `exec` and `match` do.
*/
module Contract {
  import opened Wrappers
  import opened Text
  import opened Components

  // ---------------------------------------------------------------------------
  // Inline styles

  /** `/style\s*=\s*\{/` at `i`: the position just after the opening brace. */
  function StyleOpenAt(s: string, i: nat): (r: Option<nat>)
    requires i <= |s|
    ensures r.Some? ==> i < r.value <= |s| && s[r.value - 1] == '{' && OccursAt(s, "style", i)
  {
    if !OccursAt(s, "style", i) then None
    else
      var j := SkipSpaces(s, i + 5);
      if j == |s| || s[j] != '=' then None
      else
        var k := SkipSpaces(s, j + 1);
        if k == |s| || s[k] != '{' then None else Some(k + 1)
  }

  /** `/style\s*=\s*\{[^}]*\}/` at `i`: the end of the match, just after the first closing brace. */
  function StyleMatchEnd(s: string, i: nat): (r: Option<nat>)
    requires i <= |s|
    ensures r.Some? ==> i < r.value <= |s| && s[r.value - 1] == '}' && OccursAt(s, "style", i)
  {
    match StyleOpenAt(s, i)
    case None => None
    case Some(b) =>
      match IndexOfAny(s, {'}'}, b)
      case None => None
      case Some(e) => Some(e + 1)
  }

  /** `code.match(/style\s*=\s*\{[^}]*\}/g) || []`, searching from `i`. */
  function StyleMatchesFrom(s: string, i: nat): (ms: seq<string>)
    requires i <= |s|
    ensures forall m :: m in ms ==> StartsWith(m, "style") && EndsWith(m, "}") && Contains(s, m)
    decreases |s| - i
  {
    if i == |s| then []
    else match StyleMatchEnd(s, i)
      case Some(e) =>
        var m := s[i..e];
        assert StartsWith(m, "style") by {
          assert m[..5] == s[i..i + 5];
        }
        assert EndsWith(m, "}") by {
          assert m[|m| - 1..] == [s[e - 1]];
        }
        assert Contains(s, m) by {
          assert s[i..i + |m|] == m;
          ContainsAt(s, m, i);
        }
        var rest := StyleMatchesFrom(s, e);
        assert forall x :: x in [m] + rest ==> x == m || x in rest;
        [m] + rest
      case None => StyleMatchesFrom(s, i + 1)
  }

  /** `/style\s*=\s*\{/.test(s)` on the text from `i` on. */
  predicate StyleOpensFrom(s: string, i: nat)
    requires i <= |s|
    decreases |s| - i
  {
    i < |s| && (StyleOpenAt(s, i).Some? || StyleOpensFrom(s, i + 1))
  }

  /** A style attribute is tolerated when it mentions one of the three sizing or background properties. */
  predicate AllowedStyle(m: string) {
    Contains(m, "height") || Contains(m, "width") || Contains(m, "background")
  }

  /** `match.substring(0, 50)`. */
  function Prefix50(m: string): string {
    if |m| <= 50 then m else m[..50]
  }

  function StyleIssue(m: string): string {
    "Inline style detected: " + Prefix50(m) + "..."
  }

  /** One issue per style match that is not tolerated, in match order. */
  function StyleIssuesOf(ms: seq<string>): seq<string> {
    if ms == [] then []
    else
      var m := ms[|ms| - 1];
      StyleIssuesOf(ms[..|ms| - 1]) + (if AllowedStyle(m) then [] else [StyleIssue(m)])
  }

  function StyleIssues(code: string): seq<string> {
    if StyleOpensFrom(code, 0) then StyleIssuesOf(StyleMatchesFrom(code, 0)) else []
  }

  // ---------------------------------------------------------------------------
  // Component tags

  predicate IsUpper(c: char) { 'A' <= c <= 'Z' }

  predicate IsLetter(c: char) { ('a' <= c <= 'z') || ('A' <= c <= 'Z') }

  /** The end of the run of ASCII letters starting at `i` (`[a-zA-Z]*`). */
  function LetterRunEnd(s: string, i: nat): (j: nat)
    requires i <= |s|
    ensures i <= j <= |s|
    ensures forall k :: i <= k < j ==> IsLetter(s[k])
    ensures j == |s| || !IsLetter(s[j])
    decreases |s| - i
  {
    if i < |s| && IsLetter(s[i]) then LetterRunEnd(s, i + 1) else i
  }

  /** `/<([A-Z][a-zA-Z]*)/` at `i`: the tag name it captures. */
  function TagAt(s: string, i: nat): (r: Option<string>)
    requires i <= |s|
    ensures r.Some? ==> i + 1 + |r.value| <= |s| && r.value != [] && s[i] == '<'
  {
    if i + 1 < |s| && s[i] == '<' && IsUpper(s[i + 1]) then Some(s[i + 1..LetterRunEnd(s, i + 1)]) else None
  }

  /** The tag names the `exec` loop visits from `i` on, one per occurrence. */
  function TagsFrom(s: string, i: nat): seq<string>
    requires i <= |s|
    decreases |s| - i
  {
    if i == |s| then []
    else match TagAt(s, i)
      case Some(t) => [t] + TagsFrom(s, i + 1 + |t|)
      case None => TagsFrom(s, i + 1)
  }

  /** A tag is reported when it is neither whitelisted nor `React`. */
  predicate Offending(t: string) {
    t !in Whitelist && t != "React"
  }

  function TagIssue(t: string): string {
    "Non-whitelisted component used: <" + t + ">"
  }

  function TagIssuesOf(ts: seq<string>): seq<string> {
    if ts == [] then []
    else (if Offending(ts[0]) then [TagIssue(ts[0])] else []) + TagIssuesOf(ts[1..])
  }

  function TagIssues(code: string): seq<string> {
    TagIssuesOf(TagsFrom(code, 0))
  }

  // ---------------------------------------------------------------------------
  // Imports

  /** A match of the import expression: where it ends and the captured path. */
  datatype ImportMatch = ImportMatch(end: nat, path: string)

  /** `from\s+['"]([^'"]+)['"]` at `f`. */
  function PathAfterFrom(s: string, f: nat): (r: Option<ImportMatch>)
    requires f <= |s|
    ensures r.Some? ==> f < r.value.end <= |s| && r.value.path != []
    ensures r.Some? ==> forall k :: 0 <= k < |r.value.path| ==> !IsQuote(r.value.path[k])
  {
    if !OccursAt(s, "from", f) then None
    else
      var n := SkipSpaces(s, f + 4);
      if n == f + 4 || n == |s| || !IsQuote(s[n]) then None
      else match IndexOfAny(s, {'\'', '"'}, n + 1)
        case None => None
        case Some(e) => if e == n + 1 then None else Some(ImportMatch(e + 1, s[n + 1..e]))
  }

  /** Greedy `.*`: the latest position `f` among `lo..hi` where `from\s+['"]([^'"]+)['"]` matches. */
  function LastFromBetween(s: string, lo: nat, hi: nat): (r: Option<nat>)
    requires lo <= hi <= |s|
    ensures r.Some? ==> lo <= r.value <= hi && PathAfterFrom(s, r.value).Some?
    ensures forall f :: lo <= f <= hi && (r.None? || r.value < f) ==> PathAfterFrom(s, f).None?
    decreases hi - lo
  {
    if PathAfterFrom(s, hi).Some? then Some(hi)
    else if hi == lo then None
    else LastFromBetween(s, lo, hi - 1)
  }

  /** `/import\s+.*from\s+['"]([^'"]+)['"]/` at `i`. */
  function ImportAt(s: string, i: nat): (r: Option<ImportMatch>)
    requires i <= |s|
    ensures r.Some? ==> i < r.value.end <= |s| && r.value.path != []
    ensures r.Some? ==> forall k :: 0 <= k < |r.value.path| ==> !IsQuote(r.value.path[k])
  {
    if !OccursAt(s, "import", i) then None
    else
      var j := SkipSpaces(s, i + 6);
      if j == i + 6 then None
      else match LastFromBetween(s, j, LineEnd(s, j))
        case None => None
        case Some(f) => PathAfterFrom(s, f)
  }

  /** The import paths the `exec` loop captures from `i` on. */
  function ImportPathsFrom(s: string, i: nat): seq<string>
    requires i <= |s|
    decreases |s| - i
  {
    if i == |s| then []
    else match ImportAt(s, i)
      case Some(m) => [m.path] + ImportPathsFrom(s, m.end)
      case None => ImportPathsFrom(s, i + 1)
  }

  /** Every captured path is non-empty and free of quote characters. */
  lemma {:induction false} ImportPathsWellFormed(s: string, i: nat, p: string)
    requires i <= |s| && p in ImportPathsFrom(s, i)
    ensures p != []
    ensures forall k :: 0 <= k < |p| ==> !IsQuote(p[k])
    decreases |s| - i
  {
    ImportPathsStep(s, i);
    var r := ImportAt(s, i);
    if r.None? {
      ImportPathsWellFormed(s, i + 1, p);
    } else if p != r.value.path {
      ImportPathsWellFormed(s, r.value.end, p);
    }
  }

  /** One step of the `exec` loop over imports. */
  lemma ImportPathsStep(code: string, i: nat)
    requires i < |code|
    ensures ImportAt(code, i).Some? ==>
      ImportPathsFrom(code, i) == [ImportAt(code, i).value.path] + ImportPathsFrom(code, ImportAt(code, i).value.end)
    ensures ImportAt(code, i).None? ==> ImportPathsFrom(code, i) == ImportPathsFrom(code, i + 1)
  {
  }

  /** Only relative paths and the base runtime itself may be imported. */
  predicate IsExternal(path: string) {
    !StartsWith(path, ".") && path != "react"
  }

  function ImportIssue(path: string): string {
    "External import detected: " + path
  }

  function ImportIssuesOf(ps: seq<string>): seq<string> {
    if ps == [] then []
    else (if IsExternal(ps[0]) then [ImportIssue(ps[0])] else []) + ImportIssuesOf(ps[1..])
  }

  function ImportIssues(code: string): seq<string> {
    ImportIssuesOf(ImportPathsFrom(code, 0))
  }

  // ---------------------------------------------------------------------------
  // Dangerous APIs

  const DangerousApis: seq<string> := ["eval(", "Function(", "document.write", "innerHTML"]

  function ApiIssue(api: string): string {
    "Dangerous API usage: " + api
  }

  function ApiIssuesOf(apis: seq<string>, code: string): (r: seq<string>)
    ensures |r| <= |apis|
  {
    if apis == [] then []
    else
      var api := apis[|apis| - 1];
      ApiIssuesOf(apis[..|apis| - 1], code) + (if Contains(code, api) then [ApiIssue(api)] else [])
  }

  function ApiIssues(code: string): seq<string> {
    ApiIssuesOf(DangerousApis, code)
  }

  // ---------------------------------------------------------------------------
  // The validator

  /** Every issue of the four scans, in scan order. */
  function Issues(code: string): seq<string> {
    StyleIssues(code) + TagIssues(code) + ImportIssues(code) + ApiIssues(code)
  }

  /** The inline-style scan: a `test` guard, then one issue per untolerated match. */
  method ScanStyles(code: string) returns (issues: seq<string>)
    ensures issues == StyleIssues(code)
  {
    issues := [];
    if StyleOpensFrom(code, 0) {
      var styleMatches := StyleMatchesFrom(code, 0);
      for k := 0 to |styleMatches|
        invariant issues == StyleIssuesOf(styleMatches[..k])
      {
        var m := styleMatches[k];
        if !AllowedStyle(m) {
          issues := issues + [StyleIssue(m)];
        }
        assert styleMatches[..k + 1][..k] == styleMatches[..k];
      }
      assert styleMatches[..|styleMatches|] == styleMatches;
    }
  }

  /** The tag scan: an `exec` loop over `<([A-Z][a-zA-Z]*)`, one issue per offending occurrence. */
  method ScanTags(code: string) returns (issues: seq<string>)
    ensures issues == TagIssues(code)
  {
    issues := [];
    var i := 0;
    while i < |code|
      invariant 0 <= i <= |code|
      invariant TagIssues(code) == issues + TagIssuesOf(TagsFrom(code, i))
    {
      var found;
      i, found := NextTag(code, i);
      issues := issues + found;
    }
  }

  /** One round of the `exec` loop over tags: the issue it adds, if any, and where the search resumes. */
  method NextTag(code: string, i: nat) returns (next: nat, found: seq<string>)
    requires i < |code|
    ensures i < next <= |code|
    ensures TagIssuesOf(TagsFrom(code, i)) == found + TagIssuesOf(TagsFrom(code, next))
  {
    match TagAt(code, i)
    case Some(tagName) =>
      assert TagsFrom(code, i) == [tagName] + TagsFrom(code, i + 1 + |tagName|);
      assert ([tagName] + TagsFrom(code, i + 1 + |tagName|))[1..] == TagsFrom(code, i + 1 + |tagName|);
      found := if Offending(tagName) then [TagIssue(tagName)] else [];
      next := i + 1 + |tagName|;
    case None =>
      found := [];
      next := i + 1;
  }

  /** The import scan: an `exec` loop over the import expression, one issue per external path. */
  method ScanImports(code: string) returns (issues: seq<string>)
    ensures issues == ImportIssues(code)
  {
    issues := [];
    var i := 0;
    while i < |code|
      invariant 0 <= i <= |code|
      invariant ImportIssues(code) == issues + ImportIssuesOf(ImportPathsFrom(code, i))
    {
      var found;
      i, found := NextImport(code, i);
      issues := issues + found;
    }
  }

  /** One round of the `exec` loop over imports: the issue it adds, if any, and where the search resumes. */
  method NextImport(code: string, i: nat) returns (next: nat, found: seq<string>)
    requires i < |code|
    ensures i < next <= |code|
    ensures ImportIssuesOf(ImportPathsFrom(code, i)) == found + ImportIssuesOf(ImportPathsFrom(code, next))
  {
    ImportPathsStep(code, i);
    match ImportAt(code, i)
    case Some(m) =>
      ImportIssuesStep(m.path, ImportPathsFrom(code, m.end));
      found := if IsExternal(m.path) then [ImportIssue(m.path)] else [];
      next := m.end;
    case None =>
      found := [];
      next := i + 1;
  }

  lemma ImportIssuesStep(p: string, ps: seq<string>)
    ensures ImportIssuesOf([p] + ps) == (if IsExternal(p) then [ImportIssue(p)] else []) + ImportIssuesOf(ps)
  {
    assert ([p] + ps)[1..] == ps;
  }

  /** The API scan: one issue per listed name the code contains, in list order. */
  method ScanApis(code: string) returns (issues: seq<string>)
    ensures issues == ApiIssues(code)
  {
    issues := [];
    for k := 0 to |DangerousApis|
      invariant issues == ApiIssuesOf(DangerousApis[..k], code)
    {
      var api := DangerousApis[k];
      if Contains(code, api) {
        issues := issues + [ApiIssue(api)];
      }
      assert DangerousApis[..k + 1][..k] == DangerousApis[..k];
    }
    assert DangerousApis[..|DangerousApis|] == DangerousApis;
  }

  /** The validator's answer: `{ valid, issues }`. */
  datatype Validation = Validation(valid: bool, issues: seq<string>)

  /** `validateGeneratedCode`: runs the four scans in order, collecting their issues. */
  method ValidateGeneratedCode(code: string) returns (result: Validation)
    ensures result.issues == Issues(code)
    ensures result.valid <==> result.issues == []
    ensures result.valid <==> NoFindings(code)
  {
    ValidIffNoFindings(code);
    var styleIssues := ScanStyles(code);
    var tagIssues := ScanTags(code);
    var importIssues := ScanImports(code);
    var apiIssues := ScanApis(code);
    var issues := styleIssues + tagIssues + importIssues + apiIssues;
    result := Validation(|issues| == 0, issues);
  }

  // ---------------------------------------------------------------------------
  // What the issues mean

  /** Nothing any of the four scans reports. */
  predicate NoFindings(code: string) {
    && (forall m :: m in StyleMatchesFrom(code, 0) ==> AllowedStyle(m))
    && (forall t :: t in TagsFrom(code, 0) ==> !Offending(t))
    && (forall p :: p in ImportPathsFrom(code, 0) ==> !IsExternal(p))
    && (forall a :: a in DangerousApis ==> !Contains(code, a))
  }

  /** The `test` guard of the style scan never hides a match: with no opening there is no complete match. */
  lemma {:induction false} StyleGuardRedundant(s: string, i: nat)
    requires i <= |s| && !StyleOpensFrom(s, i)
    ensures StyleMatchesFrom(s, i) == []
    decreases |s| - i
  {
    if i < |s| {
      StyleGuardRedundant(s, i + 1);
    }
  }

  lemma {:induction false} StyleIssuesOfMembers(ms: seq<string>, x: string)
    ensures x in StyleIssuesOf(ms) <==> exists m :: m in ms && !AllowedStyle(m) && x == StyleIssue(m)
  {
    if ms != [] {
      var init := ms[..|ms| - 1];
      var last := ms[|ms| - 1];
      var added := if AllowedStyle(last) then [] else [StyleIssue(last)];
      assert StyleIssuesOf(ms) == StyleIssuesOf(init) + added;
      assert x in StyleIssuesOf(ms) <==> x in StyleIssuesOf(init) || x in added;
      assert ms == init + [last];
      StyleIssuesOfMembers(init, x);
      if x in StyleIssuesOf(init) {
        var m :| m in init && !AllowedStyle(m) && x == StyleIssue(m);
        assert m in ms;
      }
      if exists m :: m in ms && !AllowedStyle(m) && x == StyleIssue(m) {
        var m :| m in ms && !AllowedStyle(m) && x == StyleIssue(m);
        if m != last {
          assert m in init;
        }
      }
    }
  }

  /**
    Every style issue quotes a complete `style={...}` match that mentions none
    of height, width and background, and every such match is reported.
  */
  lemma StyleIssuesReportUntolerated(code: string, x: string)
    ensures x in StyleIssues(code) <==>
      exists m :: m in StyleMatchesFrom(code, 0) && !AllowedStyle(m) && x == StyleIssue(m)
  {
    StyleIssuesOfMembers(StyleMatchesFrom(code, 0), x);
    if !StyleOpensFrom(code, 0) {
      StyleGuardRedundant(code, 0);
    }
  }

  /** The number of occurrences of `x` in `xs`. */
  function CountIn<T(==)>(x: T, xs: seq<T>): nat {
    if xs == [] then 0 else (if xs[0] == x then 1 else 0) + CountIn(x, xs[1..])
  }

  /** A name that `[A-Z][a-zA-Z]*` can capture in full. */
  predicate IsTagName(t: string) {
    t != [] && IsUpper(t[0]) && forall k :: 0 <= k < |t| ==> IsLetter(t[k])
  }

  /** `<t` at `i`, not followed by another letter. */
  predicate TagOccursAt(s: string, i: nat, t: string) {
    OccursAt(s, OpeningTag(t), i) && (i + 1 + |t| == |s| || !IsLetter(s[i + 1 + |t|]))
  }

  /** The number of positions at or after `i` where `t` is opened as a tag. */
  function TagOccurrences(s: string, i: nat, t: string): nat
    decreases |s| - i
  {
    if i >= |s| then 0 else (if TagOccursAt(s, i, t) then 1 else 0) + TagOccurrences(s, i + 1, t)
  }

  /** The tag matcher captures `t` at `i` exactly when `t` is opened there as a whole tag. */
  lemma TagAtIffOccurs(s: string, i: nat, t: string)
    requires i <= |s| && IsTagName(t)
    ensures TagAt(s, i) == Some(t) <==> TagOccursAt(s, i, t)
  {
    if TagOccursAt(s, i, t) {
      assert s[i..i + 1 + |t|] == OpeningTag(t);
      assert forall k :: i + 1 <= k < i + 1 + |t| ==> s[k] == t[k - i - 1];
      var j := LetterRunEnd(s, i + 1);
      assert j == i + 1 + |t|;
      assert s[i + 1..j] == t;
    }
    if TagAt(s, i) == Some(t) {
      assert s[i..i + 1 + |t|] == OpeningTag(t);
    }
  }

  /** Stretches without `<` hold no tag occurrence. */
  lemma {:induction false} NoTagOccurrencesBetween(s: string, a: nat, b: nat, t: string)
    requires a <= b <= |s|
    requires forall k :: a <= k < b ==> s[k] != '<'
    ensures TagOccurrences(s, a, t) == TagOccurrences(s, b, t)
    decreases b - a
  {
    if a < b {
      assert !OccursAt(s, OpeningTag(t), a) by {
        assert s[a] != OpeningTag(t)[0];
      }
      NoTagOccurrencesBetween(s, a + 1, b, t);
    }
  }

  /** The tag scan visits `t` once per position where it is opened as a whole tag. */
  lemma {:induction false} TagsFromCount(s: string, i: nat, t: string)
    requires i <= |s| && IsTagName(t)
    ensures CountIn(t, TagsFrom(s, i)) == TagOccurrences(s, i, t)
    decreases |s| - i
  {
    if i < |s| {
      TagAtIffOccurs(s, i, t);
      match TagAt(s, i)
      case Some(u) =>
        var e := i + 1 + |u|;
        assert ([u] + TagsFrom(s, e))[1..] == TagsFrom(s, e);
        TagsFromCount(s, e, t);
        NoTagOccurrencesBetween(s, i + 1, e, t);
      case None =>
        TagsFromCount(s, i + 1, t);
    }
  }

  lemma TagIssueInjective(a: string, b: string)
    requires TagIssue(a) == TagIssue(b)
    ensures a == b
  {
    var n := |"Non-whitelisted component used: <"|;
    assert a == TagIssue(a)[n..|TagIssue(a)| - 1];
    assert b == TagIssue(b)[n..|TagIssue(b)| - 1];
  }

  lemma {:induction false} TagIssuesOfCount(ts: seq<string>, t: string)
    ensures CountIn(TagIssue(t), TagIssuesOf(ts)) == if Offending(t) then CountIn(t, ts) else 0
  {
    if ts != [] {
      TagIssuesOfCount(ts[1..], t);
      var head := if Offending(ts[0]) then [TagIssue(ts[0])] else [];
      CountInConcat(TagIssue(t), head, TagIssuesOf(ts[1..]));
      if Offending(ts[0]) && TagIssue(ts[0]) == TagIssue(t) {
        TagIssueInjective(ts[0], t);
      }
    }
  }

  lemma {:induction false} CountInConcat<T>(x: T, xs: seq<T>, ys: seq<T>)
    ensures CountIn(x, xs + ys) == CountIn(x, xs) + CountIn(x, ys)
  {
    if xs == [] {
      assert xs + ys == ys;
    } else {
      assert (xs + ys)[1..] == xs[1..] + ys;
      CountInConcat(x, xs[1..], ys);
    }
  }

  /**
    Tag issues are counted per occurrence: a name outside the whitelist (and
    other than `React`) is reported once for every place it is opened as a
    tag, and a permitted name never.
  */
  lemma TagIssuesPerOccurrence(code: string, t: string)
    requires IsTagName(t)
    ensures CountIn(TagIssue(t), TagIssues(code)) == if Offending(t) then TagOccurrences(code, 0, t) else 0
  {
    TagIssuesOfCount(TagsFrom(code, 0), t);
    TagsFromCount(code, 0, t);
  }

  lemma ImportIssueInjective(a: string, b: string)
    requires ImportIssue(a) == ImportIssue(b)
    ensures a == b
  {
    var n := |"External import detected: "|;
    assert a == ImportIssue(a)[n..];
    assert b == ImportIssue(b)[n..];
  }

  lemma {:induction false} ImportIssuesOfMembers(ps: seq<string>, x: string)
    ensures x in ImportIssuesOf(ps) <==> exists p :: p in ps && IsExternal(p) && x == ImportIssue(p)
  {
    if ps != [] {
      ImportIssuesOfMembers(ps[1..], x);
      if x in ImportIssuesOf(ps[1..]) {
        var p :| p in ps[1..] && IsExternal(p) && x == ImportIssue(p);
        assert p in ps;
      }
      if exists p :: p in ps && IsExternal(p) && x == ImportIssue(p) {
        var p :| p in ps && IsExternal(p) && x == ImportIssue(p);
        if p != ps[0] {
          assert p in ps[1..];
        }
      }
    }
  }

  /**
    An import issue names a captured import path; exactly the paths that are
    neither relative nor the base runtime are reported.
  */
  lemma ImportIssuesReportExternal(code: string, x: string)
    ensures x in ImportIssues(code) <==>
      exists p :: p in ImportPathsFrom(code, 0) && IsExternal(p) && x == ImportIssue(p)
    ensures forall p :: ImportIssue(p) in ImportIssues(code) <==> p in ImportPathsFrom(code, 0) && IsExternal(p)
  {
    ImportIssuesOfMembers(ImportPathsFrom(code, 0), x);
    forall p ensures ImportIssue(p) in ImportIssues(code) <==> p in ImportPathsFrom(code, 0) && IsExternal(p) {
      ImportIssuesOfMembers(ImportPathsFrom(code, 0), ImportIssue(p));
      if ImportIssue(p) in ImportIssues(code) {
        var q :| q in ImportPathsFrom(code, 0) && IsExternal(q) && ImportIssue(p) == ImportIssue(q);
        ImportIssueInjective(p, q);
      }
    }
  }

  lemma ApiIssueInjective(a: string, b: string)
    requires ApiIssue(a) == ApiIssue(b)
    ensures a == b
  {
    var n := |"Dangerous API usage: "|;
    assert a == ApiIssue(a)[n..];
    assert b == ApiIssue(b)[n..];
  }

  lemma {:induction false} ApiIssuesOfMembers(apis: seq<string>, code: string, x: string)
    ensures x in ApiIssuesOf(apis, code) <==> exists a :: a in apis && Contains(code, a) && x == ApiIssue(a)
  {
    if apis != [] {
      var init := apis[..|apis| - 1];
      ApiIssuesOfMembers(init, code, x);
      assert apis == init + [apis[|apis| - 1]];
      if x in ApiIssuesOf(init, code) {
        var a :| a in init && Contains(code, a) && x == ApiIssue(a);
        assert a in apis;
      }
      if exists a :: a in apis && Contains(code, a) && x == ApiIssue(a) {
        var a :| a in apis && Contains(code, a) && x == ApiIssue(a);
        if a != apis[|apis| - 1] {
          assert a in init;
        }
      }
    }
  }

  /**
    At most one issue per listed API name, and a name is reported exactly
    when the code contains it.
  */
  lemma ApiIssuesReportPresent(code: string)
    ensures |ApiIssues(code)| <= 4
    ensures forall a :: ApiIssue(a) in ApiIssues(code) <==> a in DangerousApis && Contains(code, a)
  {
    forall a ensures ApiIssue(a) in ApiIssues(code) <==> a in DangerousApis && Contains(code, a) {
      ApiIssuesOfMembers(DangerousApis, code, ApiIssue(a));
      if ApiIssue(a) in ApiIssues(code) {
        var b :| b in DangerousApis && Contains(code, b) && ApiIssue(a) == ApiIssue(b);
        ApiIssueInjective(a, b);
      }
    }
  }

  lemma StyleIssuesEmptyIff(code: string)
    ensures StyleIssues(code) == [] <==> forall m :: m in StyleMatchesFrom(code, 0) ==> AllowedStyle(m)
  {
    var ms := StyleMatchesFrom(code, 0);
    forall m | m in ms && !AllowedStyle(m) ensures StyleIssues(code) != [] {
      StyleIssuesReportUntolerated(code, StyleIssue(m));
    }
    if StyleIssues(code) != [] {
      StyleIssuesReportUntolerated(code, StyleIssues(code)[0]);
    }
  }

  lemma TagIssuesEmptyIff(code: string)
    ensures TagIssues(code) == [] <==> forall t :: t in TagsFrom(code, 0) ==> !Offending(t)
  {
    forall t | t in TagsFrom(code, 0) && Offending(t) ensures TagIssues(code) != [] {
      TagIssuesOfCount(TagsFrom(code, 0), t);
      CountInPositive(t, TagsFrom(code, 0));
    }
    if TagIssues(code) != [] {
      TagIssuesOfNonEmpty(TagsFrom(code, 0));
    }
  }

  lemma ImportIssuesEmptyIff(code: string)
    ensures ImportIssues(code) == [] <==> forall p :: p in ImportPathsFrom(code, 0) ==> !IsExternal(p)
  {
    ImportIssuesReportExternal(code, if ImportIssues(code) == [] then "" else ImportIssues(code)[0]);
  }

  lemma ApiIssuesEmptyIff(code: string)
    ensures ApiIssues(code) == [] <==> forall a :: a in DangerousApis ==> !Contains(code, a)
  {
    ApiIssuesReportPresent(code);
    if ApiIssues(code) != [] {
      ApiIssuesOfMembers(DangerousApis, code, ApiIssues(code)[0]);
    }
  }

  /** The code is valid exactly when none of the four scans finds anything. */
  lemma ValidIffNoFindings(code: string)
    ensures Issues(code) == [] <==> NoFindings(code)
  {
    StyleIssuesEmptyIff(code);
    TagIssuesEmptyIff(code);
    ImportIssuesEmptyIff(code);
    ApiIssuesEmptyIff(code);
  }

  lemma {:induction false} CountInPositive<T>(x: T, xs: seq<T>)
    requires x in xs
    ensures CountIn(x, xs) > 0
  {
    var rest := xs[1..];
    assert xs == [xs[0]] + rest;
    if xs[0] != x {
      CountInPositive(x, rest);
    }
  }

  lemma {:induction false} TagIssuesOfNonEmpty(ts: seq<string>)
    requires TagIssuesOf(ts) != []
    ensures exists t :: t in ts && Offending(t)
  {
    if !Offending(ts[0]) {
      TagIssuesOfNonEmpty(ts[1..]);
      var t :| t in ts[1..] && Offending(t);
      assert t in ts;
    }
  }
}
