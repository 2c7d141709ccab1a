/**
  The automatic repair applied to generated code before it is validated:
  component imports from any path mentioning `components/ui` are rewritten to
  the canonical relative path, a component import is synthesised when none is
  present, and a React import is added when missing. Every step either keeps
  the text or puts a line in front of it.
*/
module AutoFix {
  import opened Wrappers
  import opened Text
  import opened Components

  /** The quote characters `['"]` of the component-import expression. */
  const Quotes: set<char> := {'\'', '"'}

  /** The character that ends the captured name list, `[^}]+`. */
  const CloseBrace: set<char> := {'}'}

  /** A match of the component-import expression at the start of a text: its length and the captured names. */
  datatype UiImportMatch = UiImportMatch(len: nat, names: string)

  /**
    `/import\s*\{([^}]+)\}\s*from\s*['"][^'"]*components\/ui[^'"]*['"]/` at
    the start of `s`. Every run in it is followed by a character it cannot
    consume, so the match is unique; the functions below take the expression
    piece by piece, each from the position where the previous piece ends.
  */
  function UiImportAt(s: string): (r: Option<UiImportMatch>)
    ensures r.Some? ==> 0 < r.value.len <= |s| && r.value.names != [] && '}' !in r.value.names
  {
    if !StartsWith(s, "import") then None else BraceGroupAt(s, SkipSpaces(s, 6))
  }

  /** `\{([^}]+)\}` at `a`: the names run from after the `{` to the first `}`. */
  function BraceGroupAt(s: string, a: nat): (r: Option<UiImportMatch>)
    requires a <= |s|
    ensures r.Some? ==> 0 < r.value.len <= |s| && r.value.names != [] && '}' !in r.value.names
  {
    if a == |s| || s[a] != '{' then None else NamesEndingAt(s, a + 1, IndexOfAny(s, CloseBrace, a + 1))
  }

  /** The names from `n` up to the `}` at `close`, at least one character, then the rest of the expression. */
  function NamesEndingAt(s: string, n: nat, close: Option<nat>): (r: Option<UiImportMatch>)
    requires n <= |s| && (close.Some? ==> n <= close.value < |s|)
    ensures r.Some? ==> close.Some? && n < close.value && r.value.names == s[n..close.value] && 0 < r.value.len <= |s|
  {
    if close.None? || close.value == n then None
    else FromClauseAt(s, s[n..close.value], SkipSpaces(s, close.value + 1))
  }

  /** `from\s*` at `b`, after the white space that follows the `}`. */
  function FromClauseAt(s: string, names: string, b: nat): (r: Option<UiImportMatch>)
    requires b <= |s|
    ensures r.Some? ==> r.value.names == names && 0 < r.value.len <= |s|
  {
    if !OccursAt(s, "from", b) then None else QuotedPathAt(s, names, SkipSpaces(s, b + 4))
  }

  /** An opening quote at `c`. */
  function QuotedPathAt(s: string, names: string, c: nat): (r: Option<UiImportMatch>)
    requires c <= |s|
    ensures r.Some? ==> r.value.names == names && 0 < r.value.len <= |s|
  {
    if c == |s| || !IsQuote(s[c]) then None else PathEndingAt(s, names, c + 1, IndexOfAny(s, Quotes, c + 1))
  }

  /** The path from `p` up to the first quote, at `close`, mentions `components/ui`; the match ends after that quote. */
  function PathEndingAt(s: string, names: string, p: nat, close: Option<nat>): (r: Option<UiImportMatch>)
    requires p <= |s| && (close.Some? ==> p <= close.value < |s|)
    ensures r.Some? ==> r.value.names == names && 0 < r.value.len <= |s|
  {
    if close.None? || !Contains(s[p..close.value], "components/ui") then None
    else Some(UiImportMatch(close.value + 1, names))
  }

  /** The replacement text `import {$1} from './components/ui'`. */
  function CanonicalImport(names: string): string {
    "import {" + names + "} from './components/ui'"
  }

  /** `String.replace` with the global component-import expression: matches are replaced left to right. */
  function NormaliseImports(s: string): string
    decreases |s|
  {
    if s == [] then []
    else match UiImportAt(s)
      case Some(m) => CanonicalImport(m.names) + NormaliseImports(s[m.len..])
      case None => [s[0]] + NormaliseImports(s[1..])
  }

  /** Text in which the word `import` never occurs is left as it is. */
  lemma {:induction false} NormaliseWithoutImports(s: string)
    requires !Contains(s, "import")
    ensures NormaliseImports(s) == s
    decreases |s|
  {
    if s != [] {
      assert !StartsWith(s, "import");
      NormaliseWithoutImports(s[1..]);
    }
  }


  /** The two spellings of an import from the canonical path that count as present. */
  predicate HasUiImport(s: string) {
    Contains(s, "from './components/ui'") || Contains(s, "from \"./components/ui\"")
  }

  /** The synthesised component import line. */
  function ComponentImportLine(used: seq<string>): string {
    "import { " + Join(used, ", ") + " } from './components/ui';\n"
  }

  /** The text whose presence counts as a React import. */
  const ImportReact: string := "import React"

  const ReactStateImport: string := ImportReact + ", { useState } from 'react';\n"

  const ReactImport: string := ImportReact + " from 'react';\n"

  /** What the second step puts in front of `n`: a component import naming the components in use, unless one is present. */
  function ComponentImportPrefix(n: string): (p: string)
    ensures p == [] || p == ComponentImportLine(UsedComponents(n))
  {
    if HasUiImport(n) then []
    else
      var used := UsedComponents(n);
      if |used| > 0 then ComponentImportLine(used) else []
  }

  function AddComponentImport(n: string): string {
    ComponentImportPrefix(n) + n
  }

  /** What the third step puts in front of `f`: a React import, with `useState` when the code uses it and imports nothing from React. */
  function ReactImportPrefix(f: string): (p: string)
    ensures p == [] || p == ReactImport || p == ReactStateImport
  {
    if Contains(f, "useState") && !Contains(f, ImportReact) && !Contains(f, "from 'react'") then ReactStateImport
    else if !Contains(f, ImportReact) then ReactImport
    else []
  }

  function AddReactImport(f: string): string {
    ReactImportPrefix(f) + f
  }

  /** The whole repair. */
  function AutoFix(code: string): string {
    AddReactImport(AddComponentImport(NormaliseImports(code)))
  }

  /** `autoFixCode`: reassigns the working text once per step. */
  method AutoFixCode(code: string) returns (fixed: string)
    ensures fixed == AutoFix(code)
    ensures Contains(fixed, ImportReact)
    ensures EndsWith(fixed, NormaliseImports(code))
  {
    fixed := code;
    fixed := NormaliseImports(fixed);
    if !Contains(fixed, "from './components/ui'") && !Contains(fixed, "from \"./components/ui\"") {
      var usedComponents := UsedComponents(fixed);
      if |usedComponents| > 0 {
        fixed := ComponentImportLine(usedComponents) + fixed;
      }
    }
    if Contains(fixed, "useState") && !Contains(fixed, ImportReact) && !Contains(fixed, "from 'react'") {
      fixed := ReactStateImport + fixed;
    } else if !Contains(fixed, ImportReact) {
      fixed := ReactImport + fixed;
    }
    AutoFixAlwaysImportsReact(code);
    AutoFixOnlyPrepends(code);
  }

  /** The lines the repair may put in front of the normalised text, outermost first, `component` being its component import line. */
  predicate IsAddedPrefix(p: string, component: string) {
    || p == []
    || p == component
    || p == ReactImport
    || p == ReactImport + component
    || p == ReactStateImport
    || p == ReactStateImport + component
  }

  /** A React prefix followed by a component prefix is one of the listed prefixes. */
  lemma AddedPrefixOf(r: string, c: string, component: string)
    requires r == [] || r == ReactImport || r == ReactStateImport
    requires c == [] || c == component
    ensures IsAddedPrefix(r + c, component)
  {
    if c == [] {
      assert r + c == r;
    } else if r == [] {
      assert r + c == c;
    }
  }

  /** Two texts put in front of `n`, one after the other, are what precedes `n` at the end of the result. */
  lemma PrependSplit(r: string, c: string, n: string)
    ensures EndsWith(r + (c + n), n) && (r + (c + n))[..|r + (c + n)| - |n|] == r + c
  {
    assert r + (c + n) == (r + c) + n;
    assert ((r + c) + n)[|(r + c) + n| - |n|..] == n;
    assert ((r + c) + n)[..|(r + c) + n| - |n|] == r + c;
  }

  /**
    The repair keeps the normalised text whole at its end and puts only the
    listed import lines before it: a React import, a component import naming
    the components in use, both, or nothing.
  */
  lemma AutoFixOnlyPrepends(code: string)
    ensures EndsWith(AutoFix(code), NormaliseImports(code))
    ensures IsAddedPrefix(AutoFix(code)[..|AutoFix(code)| - |NormaliseImports(code)|],
                          ComponentImportLine(UsedComponents(NormaliseImports(code))))
  {
    var n := NormaliseImports(code);
    var c := ComponentImportPrefix(n);
    var r := ReactImportPrefix(c + n);
    assert AutoFix(code) == r + (c + n);
    PrependSplit(r, c, n);
    AddedPrefixOf(r, c, ComponentImportLine(UsedComponents(n)));
  }

  /** The repaired code always contains `import React`. */
  lemma AutoFixAlwaysImportsReact(code: string)
    ensures Contains(AutoFix(code), ImportReact)
  {
    var f := AddComponentImport(NormaliseImports(code));
    var p := ReactImportPrefix(f);
    if p == [] {
      assert p + f == f;
    } else {
      assert OccursAt(p + f, ImportReact, 0);
      ContainsAt(p + f, ImportReact, 0);
    }
  }

  /**
    When no canonical import is present, a component import is synthesised
    exactly when some whitelisted component is opened in the code; it names
    exactly those components, each once, in whitelist order.
  */
  lemma SynthesisedImportListsUsedComponents(code: string)
    ensures var n := NormaliseImports(code);
      var f := AddComponentImport(n);
      (f != n <==> !HasUiImport(n) && exists c :: c in Whitelist && Contains(n, OpeningTag(c)))
      && (f != n ==>
            && f == ComponentImportLine(UsedComponents(n)) + n
            && (forall c :: c in UsedComponents(n) <==> c in Whitelist && Contains(n, OpeningTag(c)))
            && IsSubsequence(UsedComponents(n), Whitelist)
            && Distinct(UsedComponents(n)))
  {
    var n := NormaliseImports(code);
    var used := UsedComponents(n);
    if !HasUiImport(n) && exists c :: c in Whitelist && Contains(n, OpeningTag(c)) {
      var c :| c in Whitelist && Contains(n, OpeningTag(c));
      assert c in used;
    }
    if |used| > 0 {
      assert used[0] in used;
      assert |ComponentImportLine(used) + n| > |n|;
    }
  }
}
