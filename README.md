# AI UI Builder backend core, modelled in Dafny

The AI UI Builder backend turns a natural-language request into a React
component. It does this through a pipeline of language-model agents:

- For a first request: the planner, then the generator, then the explainer.
- For a follow-up request: the modifier, then the explainer.

Every piece of generated code goes through these steps:

1. An automatic repair of its import lines.
2. An advisory validation against the UI contract:
   - the whitelisted components;
   - no inline styles beyond sizing;
   - no external imports;
   - no dangerous browser APIs.
3. Storage as the next entry of the session's version history.

Every user prompt first goes through a safety filter that looks for prompt-injection signatures.

This project models that core and proves what it promises.

| Module | Models |
|---|---|
| `Versions` | The in-memory version store. `Store` is a class over the session map. Its methods create sessions, append versions and roll back. Its read-only functions list, look up and fetch the latest version. |
| `Safety` | The eleven ordered prompt signatures, written as matchers, and `sanitizePrompt`'s first-match verdict. |
| `Contract` | `validateGeneratedCode` as methods with loops. They are proved equal to specification functions. Lemmas then say which finding produces which issue. |
| `AutoFix` | `autoFixCode` as a method that reassigns the working text once per step. It is proved against the function `AutoFix`. |
| `AutoFixIdempotence` | The proof that running `autoFixCode` on its own output changes nothing. |
| `Components` | The whitelist filter that yields `componentsUsed`. |
| `Explainer` | The deterministic part of `runExplainer`. This covers the component list, the values put into the prompt template, and the trimmed reply. |
| `Server` | The decision logic of `/api/generate`, `/api/modify`, `/api/rollback`, `/api/versions` and `/api/version`. |
| `Text` | JavaScript string helpers: `includes`, `trim`, `join`, `${n}` and `parseInt`. |

In `Server`, the language-model agents are parameters: their outcome (`Outcome`, `Reply`) is an input. Each handler is a method on the `Store`. It returns the response and the ordered list of agent calls it made. It is proved equal to a specification function (`GenerateSpec`, `ModifySpec`, `RollbackSpec`). That function gives:

- the response;
- the calls;
- the version saved, if any.

The store's new state is exactly the old one with that version appended. Lemmas about the specification functions show the following:

- A rejected request calls no agent and saves nothing.
- Each check has its status code and message, in the source's order.
- A failing stage answers 500 and names its step.
- A version is saved exactly when every agent succeeded. The validator's findings never decide this.

Two behaviours of the code worth knowing:

- The tag scan reports a non-whitelisted tag once per occurrence, not once per distinct name.
- `/api/modify` does not check for the API key.

## Model

| member | source | states |
|---|---|---|
| Versions.Store.constructor | server/versionStore.js:6 | the store starts with no session and satisfies the dense-id invariant |
| Versions.Store.CreateSession | server/versionStore.js:8-13 | the key maps to an empty session stamped with the given time, replacing any earlier one; every other key is unchanged; dense ids are kept |
| Versions.Store.AddVersion | server/versionStore.js:15-33 | the returned version has id = previous count + 1 and the draft's fields; the session map becomes exactly `WithVersion`, so only that history grows, by exactly this version; afterwards the version is the latest and is found under its id |
| Versions.WithVersion | server/versionStore.js:16-18 | the history under the key is the old history plus exactly the new version; the session is created with `now` only when it was missing, otherwise it keeps its creation time; every other session is unchanged |
| Versions.NewVersion | server/versionStore.js:21-29 | the id is count + 1, and code, plan, explanation, prompt, components and timestamp are carried over from the draft and the clock |
| Versions.Store.GetVersions | server/versionStore.js:35-44 | an unknown session gives `[]`; otherwise there is one summary per version, in order, each holding only id, prompt, timestamp and components |
| Versions.SummariseAll | server/versionStore.js:38-43 | same length as the history, entry i being the summary of version i |
| Versions.Store.GetVersion | server/versionStore.js:46-50 | found exactly when 1 <= id <= the session's version count, and then it is entry id - 1 and carries that id; none for an unknown session |
| Versions.FindById | server/versionStore.js:49 | a result is an element of the history with the requested id; none exactly when no version carries that id |
| Versions.FindInDenseHistory | server/versionStore.js:46-50 | in a history numbered 1..n, `find` by id succeeds exactly for 1..n and returns the entry at id - 1 |
| Versions.Store.GetLatestVersion | server/versionStore.js:52-56 | none exactly when the session is missing or empty; otherwise the last entry, whose id is the count |
| Versions.Store.RollbackToVersion | server/versionStore.js:58-70 | an unknown id gives none and leaves every session unchanged; a known id appends one new version with the target's code, plan and components, the rollback prompt and explanation, and nothing else changes |
| Versions.RollbackDraft | server/versionStore.js:63-69 | the copy keeps the target's code, plan and components; its prompt is `[Rollback] to v<id>` and its explanation quotes the target's prompt |
| Safety.SanitizePrompt | server/validation.js:34-44 | safe exactly when none of the eleven signatures matches; an unsafe verdict's reason names the first matching signature in list order, and a safe one has none |
| Safety.FirstMatchFrom | server/validation.js:35-41 | the index found is a matching signature with no match before it; none means no signature from that point matches |
| Contract.ValidateGeneratedCode | server/validation.js:49-95 | the issues are the style, tag, import and API issues in that order; valid exactly when there are none, and exactly when none of the four scans finds anything |
| Contract.ScanStyles | server/validation.js:53-62 | yields exactly the style issues of the code |
| Contract.ScanTags | server/validation.js:65-72 | the `exec` loop yields exactly the tag issues of the code |
| Contract.NextTag | server/validation.js:67-71 | one round of the tag loop moves forward and splits the remaining issues into this round's and the rest |
| Contract.ScanImports | server/validation.js:75-81 | the `exec` loop yields exactly the import issues of the code |
| Contract.NextImport | server/validation.js:76-80 | one round of the import loop moves forward and splits the remaining issues into this round's and the rest |
| Contract.ScanApis | server/validation.js:84-89 | yields exactly the API issues of the code |
| Contract.StyleMatchesFrom | server/validation.js:56 | every style match starts with `style`, ends with `}` and occurs in the code |
| Contract.StyleGuardRedundant | server/validation.js:53-56 | when the opening test fails there is no complete style match, so the guard hides nothing |
| Contract.StyleIssuesReportUntolerated | server/validation.js:53-62 | an issue is reported exactly for each style match that mentions none of height, width and background, quoting it |
| Contract.TagAtIffOccurs | server/validation.js:65-68 | the tag matcher captures a name at a position exactly when `<Name` occurs there, not followed by another letter |
| Contract.TagsFromCount | server/validation.js:65-71 | the loop visits a name once per position where it is opened as a whole tag |
| Contract.TagIssuesPerOccurrence | server/validation.js:65-72 | a tag that is neither whitelisted nor `React` is reported once per occurrence; any other tag is never reported |
| Contract.ImportAt | server/validation.js:75 | a match ends after its start and captures a non-empty path without quotes |
| Contract.ImportPathsWellFormed | server/validation.js:75-77 | every captured import path is non-empty and free of quotes |
| Contract.ImportIssuesReportExternal | server/validation.js:75-81 | an import issue is reported exactly for each captured path that neither starts with `.` nor is `react` |
| Contract.ApiIssuesReportPresent | server/validation.js:84-89 | an API issue is reported exactly for each of the four names the code contains, so there are at most four |
| Contract.StyleIssuesEmptyIff | server/validation.js:53-62 | no style issue exactly when every style match is tolerated |
| Contract.TagIssuesEmptyIff | server/validation.js:65-72 | no tag issue exactly when every tag found is whitelisted or `React` |
| Contract.ImportIssuesEmptyIff | server/validation.js:75-81 | no import issue exactly when every captured path is relative or `react` |
| Contract.ApiIssuesEmptyIff | server/validation.js:84-89 | no API issue exactly when the code contains none of the four names |
| Contract.ValidIffNoFindings | server/validation.js:91-94 | the issue list is empty exactly when none of the four scans finds anything |
| AutoFix.AutoFixCode | server/validation.js:100-125 | the result is the three-step repair of the code, contains `import React`, and ends with the path-normalised code |
| AutoFix.UiImportAt | server/validation.js:104-107 | a component-import match is non-empty and captures a non-empty name list without `}` |
| AutoFix.NormaliseWithoutImports | server/validation.js:104-107 | text without the word `import` is left unchanged by the normalisation |
| AutoFix.AutoFixOnlyPrepends | server/validation.js:100-125 | the repaired code is the normalised code with one of the allowed import-line prefixes put in front, and nothing else |
| AutoFix.AutoFixAlwaysImportsReact | server/validation.js:117-122 | the repaired code always contains `import React` |
| AutoFix.SynthesisedImportListsUsedComponents | server/validation.js:109-115 | a component import is added exactly when there is no canonical import and some whitelisted tag is opened; it names exactly those components, once each, in whitelist order |
| AutoFix.ComponentImportPrefix | server/validation.js:110-115 | the second step adds nothing or the component import line for the components in use |
| AutoFix.ReactImportPrefix | server/validation.js:118-122 | the third step adds nothing, the plain React import or the React-with-useState import |
| AutoFixIdempotence.AutoFixIdempotent | server/validation.js:100-125 | repairing code that was already repaired gives it back unchanged |
| AutoFixIdempotence.NormaliseIdempotent | server/validation.js:104-107 | rewriting component-import paths a second time changes nothing |
| AutoFixIdempotence.CanonicalRematches | server/validation.js:104-107 | the rewritten import matches the same expression again, with the same names, and ends where the rewrite ended |
| AutoFixIdempotence.CanonicalAddsNoMatch | server/validation.js:104-107 | a rewritten import creates no match that starts in the text before it: such a match was already there |
| AutoFixIdempotence.NormaliseAddsNoMatch | server/validation.js:104-107 | the rewrite of the text after a prefix creates no match starting in that prefix |
| AutoFixIdempotence.NormaliseReactLine | server/validation.js:104-122 | the rewrite passes over an added React import line unchanged |
| AutoFixIdempotence.ComponentLineIsCanonical | server/validation.js:110-115 | the synthesised component import line is already in the rewritten form, followed by `;` and a newline |
| AutoFixIdempotence.NormaliseComponentLine | server/validation.js:104-115 | once the path rewrite is done, adding the component import line leaves it nothing to do |
| AutoFixIdempotence.NormaliseFixesRepair | server/validation.js:100-125 | the repaired code is a fixed point of the path rewrite |
| AutoFixIdempotence.RepairImportsComponents | server/validation.js:109-115 | on repaired code the component-import step adds nothing: it holds a component import, or opens no whitelisted component |
| Components.UsedComponents | server/agents/explainer.js:10-11 | a name is listed exactly when it is whitelisted and `<Name` occurs in the code; the list follows whitelist order and has no repeats |
| Components.PresentMembers | server/validation.js:111 | the filter keeps a name exactly when it is in the list and its opening tag occurs in the code |
| Components.PresentIsSubsequence | server/agents/explainer.js:11 | the filter keeps list order |
| Components.WhitelistDistinct | server/validation.js:5-7 | the eight whitelisted names are pairwise different |
| Explainer.RunExplainer | server/agents/explainer.js:10-28 | the explanation is the trimmed reply; `componentsUsed` lists exactly the whitelisted components opened in the code, in whitelist order, once each; the prompt names exactly that list, comma-joined |
| Explainer.ExplainerPromptFor | server/agents/explainer.js:13-16 | the prompt values carry the user request and the plan unchanged |
| Text.TrimEmptyIffBlank | server/server.js:41 | `trim()` gives the empty text exactly for all-white-space text |
| Text.TrimHasNoOuterSpace | server/agents/explainer.js:22 | what `trim()` keeps neither starts nor ends with white space |
| Text.ParseIntOfIntToString | server/server.js:234 | `parseInt` reads back the decimal rendering of any integer |
| Server.Generate | server/server.js:37-124 | the request is keyed as the code keys it, an absent session id getting the fresh id and `null` staying `null`; the response, the ordered agent calls and the new store are those of `GenerateSpec`: the store changes only by the saved version, if any |
| Server.CheckGenerate | server/server.js:41-53 | the checks decide exactly `GenerateRejection` |
| Server.GenerateRejection | server/server.js:41-53 | letting a request through implies its prompt is a string |
| Server.GeneratePipeline | server/server.js:58-118 | the agent stages answer, call and save exactly as `GeneratePipelineSpec` |
| Server.GenerateRejectionCases | server/server.js:41-53 | the generate checks reject a missing, non-string or blank prompt with 400, then an unsafe one with 400, then a missing key with 500; a request is admitted exactly when all three pass |
| Server.GenerateChecksFirst | server/server.js:41-53 | a missing, non-string or blank prompt answers 400, then an unsafe one 400 quoting the filter, then a missing key 500; each rejection calls no agent and saves nothing; a request passing all three goes to the agent stages |
| Server.GenerateStageFailures | server/server.js:58-78 | the planner is called first with the prompt; a failing planner answers 500 with its details and step `planner`, a failing generator 500 with step `generator`; an exception answers with its message; none saves anything |
| Server.GenerateSavesOnlyOnSuccess | server/server.js:85-102 | a version is saved exactly when the answer is 200, which happens exactly when every agent succeeded; validation issues never block the save |
| Server.GenerateSavedVersion | server/server.js:82-102 | the saved version is number n + 1 of the session, with the repaired code, the plan, the prompt, the trimmed explanation and the components the code uses |
| Server.GenerateAnswer | server/server.js:104-118 | the 200 answer carries the session, the new version number, the repaired code, its components and issues, and four steps whose Validator step is `passed` exactly when there is no issue |
| Server.GenerateCallsEveryAgent | server/server.js:60-92 | a fully successful request calls planner, generator and explainer, in that order, with the plan and repaired code passed along |
| Server.Modify | server/server.js:129-196 | the response, the ordered agent calls and the new store are those of `ModifySpec`: the store changes only by the saved version, if any |
| Server.CheckModify | server/server.js:133-150 | the checks decide exactly `ModifyAdmission`, reading the latest version from the store |
| Server.ModifyAdmission | server/server.js:133-150 | an admitted request has a non-empty prompt and session id |
| Server.ModifyPipeline | server/server.js:155-190 | the modifier stage and the shared tail answer, call and save exactly as `ModifyPipelineSpec` |
| Server.ModifyChecksFirst | server/server.js:133-140 | a missing prompt or session id answers 400, then an unsafe prompt 400 quoting the filter |
| Server.ModifyRefusalSavesNothing | server/server.js:133-150 | a refused request answers with its refusal, calls no agent and saves nothing; an admitted one goes on to the modifier |
| Server.ModifyBaseCode | server/server.js:143-150 | the code modified is the request's own code when it has some, else the latest version's code |
| Server.ModifyNeedsCode | server/server.js:144-148 | with no code in the request and no version in the session, the request is refused with 400 |
| Server.ModifyStageOutcomes | server/server.js:157-176 | the modifier is called first with the code and the prompt; a failing modifier answers 500 with step `modifier`; a version is saved exactly on 200, which happens exactly when both agents succeeded |
| Server.ModifySaved | server/server.js:162-190 | the saved version is number n + 1 with the modification plan, the prompt and the repaired code; the answer carries its number, the issues and three steps whose Validator step is `passed` exactly when there is no issue |
| Server.Rollback | server/server.js:209-228 | the response and the new store are those of `RollbackSpec`: the store changes only by the saved version, if any |
| Server.RollbackOutcome | server/server.js:209-228 | a missing session or version id answers 400, an id naming no stored version 404, and neither saves; a 200 appends version n + 1 copying the target's code, plan and components under the rollback prompt, keeping the earlier history as its prefix |
| Server.VersionsRoute | server/server.js:201-204 | always 200, with entry i the summary (id, prompt, timestamp, components) of the session's version i, one per version, numbered 1, 2, 3, ... |
| Server.VersionRoute | server/server.js:233-239 | 200 exactly when `parseInt` of the path gives an id between 1 and the count, answering that version; otherwise 404 `Version not found` |
| Server.VersionRouteFindsPrintedId | server/server.js:233-239 | the path holding a version's decimal number finds exactly that version, and only ids 1..n are found |
| Server.ValidatorStep | server/server.js:115 | the Validator step is `passed` exactly when the code is valid, otherwise `warnings`, and lists the issues exactly when there are some |
| Server.Crash | server/server.js:120-123 | an exception answers 500 with its message, or `Internal server error` when the message is empty |
| Server.Rejected | server/server.js:46-49 | an unsafe prompt answers 400 with an error |
| Server.FinishSpec | server/server.js:82-102 | the shared tail repairs the code, validates the repaired code, explains it and numbers the version one past the history, whatever the validation found |
| Server.Finish | server/server.js:82-102 | the shared tail saves nothing when the explainer raised, and otherwise saves exactly `FinishSpec`'s version |
| Server.ValidationOf | server/validation.js:91-94 | the validation's issues are `Issues` of the code, and it is valid exactly when there are none |
| Server.SessionKeyAsWritten | server/server.js:39 | (as written) an absent session id gets a fresh id, `null` stays `null` |
| Server.NullSessionIsShared | server/server.js:39 | two first requests with `null` session ids share one session even with different fresh ids, while absent ids do not; that session is not the one the versions route reads for `null` |
| Server.SessionKey | server/server.js:39 | (corrected) every request naming no session, absent or `null`, gets the fresh id; a named one keeps its name |
| Server.UnnamedSessionsAreSeparate | server/server.js:39 | requests naming no session, given different fresh ids, get different sessions |
| Server.GenerateNullRequestsShareSession | server/server.js:37-118 | (as written) a successful generate request with a `null` session id is served the same whatever its fresh id: it appends version n + 1 to the one `null` session and answers `null`, so two such first requests get versions 1 and 2 of one session |
| Server.GenerateUnnamedRequestsSeparate | server/server.js:37-118 | (corrected) with the corrected key, a successful generate request naming no session starts its own session holding only version 1 and leaves every other session unchanged |

## Left out

- Language-model calls (planner, generator, modifier, explainer): each agent's outcome is an input of the handler; a call's `success: false` is `Failed` and a thrown exception `Raised`.
- Prompt template texts and their `{{...}}` substitution: `Explainer.ExplainerPrompt` records the three substituted values instead of the final text. The file `server/agents/prompts.js` is not part of this model.
- `JSON.stringify` of the plan for the explainer prompt: a plan is kept as a value (`Planned` or `Modification`).
- `server/storage.js`: file persistence, not used by the version store.
- Clocks and `uuidv4`: the timestamp `now` and the fresh session id are parameters. The store reads the clock twice when a request creates a session, once for the session's `createdAt` and once for the version's `timestamp`; the model passes the one parameter `now` to both reads and does not capture a difference between them.
- Console logging, Express routing, CORS, body parsing, the health route and `listen`.
- Strings are sequences of code points. `substring(0, 50)` in style issues counts UTF-16 units in JavaScript, which differ only outside the basic plane.
- Regular expressions are written as hand-made matchers for the exact patterns used. Only ASCII case folding is modelled for `/i`, and every signature is ASCII. `$` substitution patterns in `replace` are modelled only for the `$1` that the source uses.
- Server.Generate: a `sessionId` that is a JSON number, boolean, object or array is excluded by its precondition, because session keys are modelled as texts or `null`.
- Server.Modify: a `prompt`, `sessionId` or `currentCode` that is a JSON number, boolean, object or array is excluded by its precondition. `sanitizePrompt` would coerce such a prompt to a string, and session keys are modelled as texts.
- Server.Rollback: a `sessionId` that is a JSON number, boolean, object or array is excluded by its precondition. A `versionId` is absent, `null`, an integer or a text; fractional numbers, booleans and objects are not modelled. A text `versionId` is answered 404 without reaching the store, because strict equality never matches it with a numeric id.
- Text.ParseInt: reads an unbounded integer. Values beyond 2^53 lose precision in JavaScript, which is not modelled; such ids cannot name a stored version.
- The shared `sessions` map is a field of one `Store` object passed to each handler. Concurrent requests interleaving at the agents' `await` points are not modelled: each request runs to completion.

## Findings

| source | as written | input that shows it | evidently intended | confidence | as-written member | corrected member |
|---|---|---|---|---|---|---|
| server/server.js:39 | The default `sessionId = uuidv4()` applies only when the field is absent. The web client sends `sessionId: null` on its first request, so that request is stored under the key `null`. | Two clients each send a first `/api/generate` with `{"prompt": "a login form", "sessionId": null}`. Both land in the single `null` session, the second getting version 2. `/api/versions/null` then looks up the text `null` and lists nothing. | Every request that names no session, whether the field is absent or `null`, starts its own session under a fresh id. | high; not executed | Server.GenerateNullRequestsShareSession | Server.GenerateUnnamedRequestsSeparate |
