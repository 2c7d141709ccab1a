/**
  The prompt safety filter: an ordered list of case-insensitive signatures of
  instruction-override attempts, code-injection idioms and non-relative
  imports, and the first-match check run on every user prompt before any
  agent is called.

  Each signature is written as a matcher at a position of the prompt. Every
  white-space run in the signatures is followed by a character that is not
  white space, so the greedy run the regular-expression engine takes is the
  only one that can succeed, and the matchers take exactly that run.
*/
module Safety {
  import opened Wrappers
  import opened Text

  /** ASCII case folding: all the signatures are ASCII, and case-insensitive matching folds ASCII letters only. */
  function LowerAscii(c: char): char {
    if 'A' <= c <= 'Z' then (c as int + 32) as char else c
  }

  /** The lower-case literal `lit` occurs at position `i`, ignoring the case of ASCII letters. */
  predicate LitAt(s: string, i: nat, lit: string) {
    i + |lit| <= |s| && forall k :: 0 <= k < |lit| ==> LowerAscii(s[i + k]) == lit[k]
  }

  /** `\s+` at `i`, then the position reached satisfies `LitAt` for `lit`. */
  predicate SpacesThenLit(s: string, i: nat, lit: string)
    requires i <= |s|
  {
    var j := SkipSpaces(s, i);
    j > i && LitAt(s, j, lit)
  }

  /** `\s*` at `i`, then the character `c`. */
  predicate OptSpacesThenChar(s: string, i: nat, c: char)
    requires i <= |s|
  {
    var j := SkipSpaces(s, i);
    j < |s| && s[j] == c
  }

  predicate IsWordChar(c: char) {
    ('a' <= c <= 'z') || ('A' <= c <= 'Z') || ('0' <= c <= '9') || c == '_'
  }

  /** `\b` before a word character at `i`. */
  predicate WordStart(s: string, i: nat)
    requires i <= |s|
  {
    i == 0 || !IsWordChar(s[i - 1])
  }

  /** `\s+(instructions|prompts|rules)` at `i`. */
  predicate SpacesThenInstructionNoun(s: string, i: nat)
    requires i <= |s|
  {
    SpacesThenLit(s, i, "instructions") || SpacesThenLit(s, i, "prompts") || SpacesThenLit(s, i, "rules")
  }

  /** `(previous|above|prior)` at `i`, followed by `\s+(instructions|prompts|rules)` when `needNoun`. */
  predicate EarlierWordAt(s: string, i: nat, needNoun: bool)
    requires i <= |s|
  {
    || (LitAt(s, i, "previous") && (!needNoun || SpacesThenInstructionNoun(s, i + 8)))
    || (LitAt(s, i, "above") && (!needNoun || SpacesThenInstructionNoun(s, i + 5)))
    || (LitAt(s, i, "prior") && (!needNoun || SpacesThenInstructionNoun(s, i + 5)))
  }

  /** `\s+(all\s+)?(previous|above|prior)` at `i`, then the noun when `needNoun`. */
  predicate SpacesThenEarlier(s: string, i: nat, needNoun: bool)
    requires i <= |s|
  {
    var j := SkipSpaces(s, i);
    j > i &&
      (|| EarlierWordAt(s, j, needNoun)
       || (LitAt(s, j, "all") && var k := SkipSpaces(s, j + 3); k > j + 3 && EarlierWordAt(s, k, needNoun)))
  }

  /** `from\s+['"][^.]` at `f`. */
  predicate FromQuoteAt(s: string, f: nat)
    requires f <= |s|
  {
    LitAt(s, f, "from") &&
    var n := SkipSpaces(s, f + 4);
    n > f + 4 && n + 1 < |s| && (s[n] == '\'' || s[n] == '"') && s[n + 1] != '.'
  }

  /** Some position `f` with `lo <= f <= hi` satisfies `FromQuoteAt`. */
  predicate FromQuoteBetween(s: string, lo: nat, hi: nat)
    requires hi <= |s|
    decreases hi - lo
  {
    lo <= hi && (FromQuoteAt(s, lo) || FromQuoteBetween(s, lo + 1, hi))
  }

  /** The dangerous-prompt signatures, in the order in which they are tried. */
  datatype Pattern =
    | IgnorePrevious
    | YouAreNow
    | ForgetPrevious
    | NewInstructions
    | SystemPrompt
    | EvalCall
    | FunctionCall
    | DocumentAccess
    | WindowAccess
    | ScriptTag
    | ExternalImport

  const DangerousPatterns: seq<Pattern> := [
    IgnorePrevious, YouAreNow, ForgetPrevious, NewInstructions, SystemPrompt,
    EvalCall, FunctionCall, DocumentAccess, WindowAccess, ScriptTag, ExternalImport
  ]

  /** The source text of each signature, which a rejection reports. */
  function Source(p: Pattern): string {
    match p
    case IgnorePrevious => "ignore\\s+(all\\s+)?(previous|above|prior)\\s+(instructions|prompts|rules)"
    case YouAreNow => "you\\s+are\\s+now\\s+"
    case ForgetPrevious => "forget\\s+(all\\s+)?(previous|above|prior)"
    case NewInstructions => "new\\s+instructions?\\s*:"
    case SystemPrompt => "system\\s*prompt\\s*:"
    case EvalCall => "\\beval\\s*\\("
    case FunctionCall => "\\bFunction\\s*\\("
    case DocumentAccess => "document\\.(cookie|domain|write)"
    case WindowAccess => "window\\.(location|open)"
    case ScriptTag => "<script"
    case ExternalImport => "import\\s+.*from\\s+['\"][^.]"
  }

  /** A match of signature `p` starts at position `i` of `s`. */
  predicate MatchesAt(p: Pattern, s: string, i: nat)
    requires i <= |s|
  {
    match p
    case IgnorePrevious => LitAt(s, i, "ignore") && SpacesThenEarlier(s, i + 6, true)
    case YouAreNow =>
      LitAt(s, i, "you") &&
      var a := SkipSpaces(s, i + 3);
      a > i + 3 && LitAt(s, a, "are") &&
      var b := SkipSpaces(s, a + 3);
      b > a + 3 && LitAt(s, b, "now") && SkipSpaces(s, b + 3) > b + 3
    case ForgetPrevious => LitAt(s, i, "forget") && SpacesThenEarlier(s, i + 6, false)
    case NewInstructions =>
      LitAt(s, i, "new") &&
      var a := SkipSpaces(s, i + 3);
      a > i + 3 && LitAt(s, a, "instruction") &&
      (OptSpacesThenChar(s, a + 11, ':') || (LitAt(s, a + 11, "s") && OptSpacesThenChar(s, a + 12, ':')))
    case SystemPrompt =>
      LitAt(s, i, "system") &&
      var a := SkipSpaces(s, i + 6);
      LitAt(s, a, "prompt") && OptSpacesThenChar(s, a + 6, ':')
    case EvalCall => WordStart(s, i) && LitAt(s, i, "eval") && OptSpacesThenChar(s, i + 4, '(')
    case FunctionCall => WordStart(s, i) && LitAt(s, i, "function") && OptSpacesThenChar(s, i + 8, '(')
    case DocumentAccess =>
      LitAt(s, i, "document.") && (LitAt(s, i + 9, "cookie") || LitAt(s, i + 9, "domain") || LitAt(s, i + 9, "write"))
    case WindowAccess =>
      LitAt(s, i, "window.") && (LitAt(s, i + 7, "location") || LitAt(s, i + 7, "open"))
    case ScriptTag => LitAt(s, i, "<script")
    case ExternalImport =>
      // `.*` reaches from the end of the white-space run to the end of that line
      LitAt(s, i, "import") &&
      var j := SkipSpaces(s, i + 6);
      j > i + 6 && FromQuoteBetween(s, j, LineEnd(s, j))
  }

  /** A match of `p` starts at some position at or after `i` (`pattern.test` searches the whole prompt). */
  predicate MatchesFrom(p: Pattern, s: string, i: nat)
    requires i <= |s|
    decreases |s| - i
  {
    MatchesAt(p, s, i) || (i < |s| && MatchesFrom(p, s, i + 1))
  }

  /** `pattern.test(s)`. */
  predicate Matches(p: Pattern, s: string) {
    MatchesFrom(p, s, 0)
  }

  /** The result of the safety check: `{ safe: true }` or `{ safe: false, reason }`. */
  datatype Verdict = Verdict(safe: bool, reason: Option<string>)

  function RejectionReason(p: Pattern): string {
    "Potential unsafe pattern detected: " + Source(p)
  }

  /** The index of the first of `patterns[k..]` that matches, scanning in order. */
  function FirstMatchFrom(patterns: seq<Pattern>, prompt: string, k: nat): (r: Option<nat>)
    requires k <= |patterns|
    ensures r.Some? ==> k <= r.value < |patterns| && Matches(patterns[r.value], prompt)
    ensures r.Some? ==> forall j :: k <= j < r.value ==> !Matches(patterns[j], prompt)
    ensures r.None? ==> forall j :: k <= j < |patterns| ==> !Matches(patterns[j], prompt)
    decreases |patterns| - k
  {
    if k == |patterns| then None
    else if Matches(patterns[k], prompt) then Some(k)
    else FirstMatchFrom(patterns, prompt, k + 1)
  }

  /**
    The safety check: safe exactly when no signature matches; a rejection
    names the first matching signature in list order.
  */
  function SanitizePrompt(prompt: string): (r: Verdict)
    ensures r.safe <==> forall j :: 0 <= j < |DangerousPatterns| ==> !Matches(DangerousPatterns[j], prompt)
    ensures r.safe ==> r.reason == None
    ensures !r.safe ==>
      exists i :: 0 <= i < |DangerousPatterns|
        && Matches(DangerousPatterns[i], prompt)
        && (forall j :: 0 <= j < i ==> !Matches(DangerousPatterns[j], prompt))
        && r.reason == Some(RejectionReason(DangerousPatterns[i]))
  {
    match FirstMatchFrom(DangerousPatterns, prompt, 0)
    case Some(i) => Verdict(false, Some(RejectionReason(DangerousPatterns[i])))
    case None => Verdict(true, None)
  }
}
