/**
  The decision logic of the HTTP handlers that drive the agent pipeline. Each
  handler checks its input, then the prompt safety filter, then the
  credential, then runs the agent stages in order; a failing stage ends the
  request with an error naming it, and only a request that passed every stage
  writes a version to the store.

  The language-model agents are represented by their outcomes, which are
  parameters; `calls` records, in order, which agents a request reached and
  with what input. A thrown exception ends in the handler's catch-all answer.
*/
module Server {
  import opened Wrappers
  import opened Text
  import opened Safety
  import opened Contract
  import opened AutoFix
  import opened Versions
  import opened Explainer
  import opened Components

  /** A field of a JSON request body: absent, `null`, a string, or another JSON value. */
  datatype Field = Missing | Null | Str(s: string) | NonString

  /** JavaScript truthiness of a field that is absent, `null` or a string. */
  predicate Truthy(f: Field) {
    f.Str? && f.s != []
  }

  /** What a planner, generator or modifier call produced: a text, a reported failure, or an exception. */
  datatype Outcome = Done(text: string) | Failed(error: string) | Raised(message: string)

  /** What the explainer's model call produced: its reply, or an exception. */
  datatype Reply = Answer(text: string) | ReplyRaised(message: string)

  /** An agent call made while serving a request, with its input. */
  datatype Call =
    | PlannerCall(userPrompt: string)
    | GeneratorCall(plan: Plan)
    | ModifierCall(currentCode: string, request: string)
    | ExplainerCall(prompt: ExplainerPrompt)

  datatype StepOutput = Note(text: string) | IssueList(issues: seq<string>)

  /** One entry of the `agentSteps` list of a response. */
  datatype AgentStep = AgentStep(step: string, status: string, output: StepOutput)

  /** The `versionId` of a rollback request. */
  datatype VersionRef = NoRef | NullRef | NumRef(n: int) | StrRef(s: string)

  datatype Body =
    | Error(error: string, details: Option<string>, step: Option<string>)
    | Generated(sessionId: Key, version: int, code: string, plan: Plan, explanation: string,
                componentsUsed: seq<string>, validationIssues: seq<string>, agentSteps: seq<AgentStep>)
    | Modified(sessionId: Key, version: int, code: string, explanation: string,
               componentsUsed: seq<string>, validationIssues: seq<string>, agentSteps: seq<AgentStep>)
    | RolledBack(sessionId: Key, version: int, code: string, explanation: string, rolledBackTo: int)
    | VersionFound(found: Version)
    | VersionList(versions: seq<Summary>)

  datatype Response = Response(status: int, body: Body)

  function Fail(status: int, message: string): Response {
    Response(status, Error(message, None, None))
  }

  /** The catch-all answer to an exception: its message, or a generic one when that is empty. */
  function Crash(message: string): (r: Response)
    ensures r.status == 500 && r.body.Error? && r.body.error != []
    ensures message != [] ==> r.body.error == message
  {
    Fail(500, if message == [] then "Internal server error" else message)
  }

  /** The answer to a prompt the safety filter refused, quoting its reason. */
  function Rejected(prompt: string): (r: Response)
    requires !SanitizePrompt(prompt).safe
    ensures r.status == 400 && r.body.Error?
  {
    Fail(400, "Prompt rejected: " + SanitizePrompt(prompt).reason.value)
  }

  const MissingKey: Response := Fail(500, "GEMINI_API_KEY is not configured. Please set it in .env file.")

  /** The Validator entry of `agentSteps`: `passed` or `warnings`, with the issues when there are any. */
  function ValidatorStep(v: Validation): (s: AgentStep)
    requires v.valid <==> v.issues == []
    ensures s.step == "Validator"
    ensures s.status == "passed" <==> v.valid
    ensures s.status == "passed" || s.status == "warnings"
    ensures s.output.IssueList? <==> !v.valid
    ensures s.output.IssueList? ==> s.output.issues == v.issues
  {
    AgentStep("Validator", if v.valid then "passed" else "warnings",
              if |v.issues| > 0 then IssueList(v.issues) else Note("All checks passed"))
  }

  function GenerateSteps(v: Validation): seq<AgentStep>
    requires v.valid <==> v.issues == []
  {
    [ AgentStep("Planner", "completed", Note("Structured plan created")),
      AgentStep("Generator", "completed", Note("React code generated")),
      ValidatorStep(v),
      AgentStep("Explainer", "completed", Note("Decision explanation ready")) ]
  }

  function ModifySteps(v: Validation): seq<AgentStep>
    requires v.valid <==> v.issues == []
  {
    [ AgentStep("Modifier", "completed", Note("Code modified incrementally")),
      ValidatorStep(v),
      AgentStep("Explainer", "completed", Note("Changes explained")) ]
  }

  /** The validation of `code`, as `validateGeneratedCode` reports it. */
  function ValidationOf(code: string): (v: Validation)
    ensures v.issues == Issues(code) && (v.valid <==> v.issues == [])
  {
    Validation(Issues(code) == [], Issues(code))
  }

  /**
    The session key of a generate request as the handler computes it: the
    default parameter supplies a fresh id only when the field is absent, so a
    `null` field becomes the key `null`.
  */
  function SessionKeyAsWritten(sessionId: Field, freshId: string): Key
    requires !sessionId.NonString?
  {
    match sessionId
    case Missing => Named(freshId)
    case Null => NullKey
    case Str(s) => Named(s)
  }

  /**
    Two clients that open their first generate request with a `null` session
    id, and are given different fresh ids, still land in one session, and that
    session cannot be listed through the versions route, whose path parameter
    is the text `null`.
  */
  lemma NullSessionIsShared(freshA: string, freshB: string)
    requires freshA != freshB
    ensures SessionKeyAsWritten(Null, freshA) == SessionKeyAsWritten(Null, freshB)
    ensures SessionKeyAsWritten(Missing, freshA) != SessionKeyAsWritten(Missing, freshB)
    ensures SessionKeyAsWritten(Null, freshA) != Named("null")
  {
  }

  /** The session key of a generate request: a fresh id whenever the client names no session. */
  function SessionKey(sessionId: Field, freshId: string): (k: Key)
    requires !sessionId.NonString?
    ensures k.Named?
    ensures sessionId.Str? ==> k == Named(sessionId.s)
    ensures !sessionId.Str? ==> k == Named(freshId)
  {
    if sessionId.Str? then Named(sessionId.s) else Named(freshId)
  }

  /** Clients that name no session and are given different fresh ids get different sessions. */
  lemma UnnamedSessionsAreSeparate(a: Field, b: Field, freshA: string, freshB: string)
    requires !a.Str? && !a.NonString? && !b.Str? && !b.NonString? && freshA != freshB
    ensures SessionKey(a, freshA) != SessionKey(b, freshB)
  {
  }

  /** The prompt of a generate request is usable: a string with some non-space character. */
  predicate PromptUsable(prompt: Field) {
    prompt.Str? && !Blank(prompt.s)
  }

  /** A generate request that passes the input, safety and credential checks reaches the planner. */
  predicate GenerateAdmitted(prompt: Field, hasApiKey: bool) {
    PromptUsable(prompt) && SanitizePrompt(prompt.s).safe && hasApiKey
  }

  /** How a request was handled: the response, the agent calls made, and the version saved, if any. */
  datatype Handled = Handled(response: Response, calls: seq<Call>, saved: Option<Save>)

  /** A version written to the session under `key`. */
  datatype Save = Save(key: Key, version: Version)

  /** The session map after a request that made `saved`. */
  function After(sessions: map<Key, Session>, saved: Option<Save>, now: string): map<Key, Session> {
    if saved.Some? then WithVersion(sessions, saved.value.key, saved.value.version, now) else sessions
  }

  /** What the repair, validation, explanation and save stages make of the code an agent produced. */
  datatype Finished = Finished(code: string, validation: Validation, explained: Explained, version: Version)

  /**
    The shared tail of generate and modify for a session holding `history`:
    the agent's code is repaired, validated and explained, and the version to
    save is numbered one past the history, whatever the validation found.
  */
  function FinishSpec(history: seq<Version>, userPrompt: string, plan: Plan, produced: string, reply: string, now: string): (f: Finished)
    ensures f.code == AutoFix.AutoFix(produced) && f.validation == ValidationOf(f.code)
    ensures f.explained == RunExplainer(userPrompt, plan, f.code, reply)
    ensures f.version.id == |history| + 1 && f.version.code == f.code && f.version.plan == plan
    ensures f.version.userPrompt == userPrompt && f.version.explanation == f.explained.explanation
    ensures f.version.componentsUsed == f.explained.componentsUsed
  {
    var code := AutoFix.AutoFix(produced);
    var explained := RunExplainer(userPrompt, plan, code, reply);
    Finished(code, ValidationOf(code), explained,
             NewVersion(|history|, Draft(code, plan, explained.explanation, userPrompt, explained.componentsUsed), now))
  }

  /** The explainer call the shared tail makes for the agent's code. */
  function ExplainerCallFor(userPrompt: string, plan: Plan, produced: string): Call {
    ExplainerCall(ExplainerPromptFor(userPrompt, plan, AutoFix.AutoFix(produced)))
  }

  /** The shared tail: repair, validate, explain, and save unless the explainer raised. */
  method Finish(store: Store, key: Key, userPrompt: string, plan: Plan, produced: string, explainer: Reply, now: string)
    returns (f: Option<Finished>)
    requires store.Valid()
    modifies store
    ensures store.Valid()
    ensures explainer.ReplyRaised? ==> f.None? && store.sessions == old(store.sessions)
    ensures explainer.Answer? ==>
      && f == Some(FinishSpec(old(store.History(key)), userPrompt, plan, produced, explainer.text, now))
      && store.sessions == WithVersion(old(store.sessions), key, f.value.version, now)
  {
    var code := AutoFixCode(produced);
    var validation := ValidateGeneratedCode(code);
    if explainer.ReplyRaised? {
      return None;
    }
    var explained := RunExplainer(userPrompt, plan, code, explainer.text);
    var version := store.AddVersion(key, Draft(code, plan, explained.explanation, userPrompt, explained.componentsUsed), now);
    f := Some(Finished(code, validation, explained, version));
  }

  /** The agent stages of a generate request that passed its checks. */
  function GeneratePipelineSpec(sessions: map<Key, Session>, key: Key, userPrompt: string,
                                planner: Outcome, generator: Outcome, explainer: Reply, now: string): Handled
  {
    var planning := [PlannerCall(userPrompt)];
    match planner
    case Raised(m) => Handled(Crash(m), planning, None)
    case Failed(e) => Handled(Response(500, Error("Planner failed", Some(e), Some("planner"))), planning, None)
    case Done(document) =>
      var plan := Planned(document);
      var generating := [PlannerCall(userPrompt), GeneratorCall(plan)];
      match generator
      case Raised(m) => Handled(Crash(m), generating, None)
      case Failed(_) => Handled(Response(500, Error("Generator failed", None, Some("generator"))), generating, None)
      case Done(generated) =>
        var explaining := [PlannerCall(userPrompt), GeneratorCall(plan), ExplainerCallFor(userPrompt, plan, generated)];
        match explainer
        case ReplyRaised(m) => Handled(Crash(m), explaining, None)
        case Answer(reply) =>
          var f := FinishSpec(HistoryIn(sessions, key), userPrompt, plan, generated, reply, now);
          Handled(Response(200, Generated(key, f.version.id, f.code, plan, f.explained.explanation,
                                          f.explained.componentsUsed, f.validation.issues, GenerateSteps(f.validation))),
                  explaining, Some(Save(key, f.version)))
  }

  /** The input, safety and credential checks of a generate request, in order; `None` lets it through. */
  function GenerateRejection(prompt: Field, hasApiKey: bool): (r: Option<Response>)
    ensures r.None? ==> prompt.Str?
  {
    if !prompt.Str? || prompt.s == [] || |Trim(prompt.s)| == 0 then Some(Fail(400, "Prompt is required"))
    else if !SanitizePrompt(prompt.s).safe then Some(Rejected(prompt.s))
    else if !hasApiKey then Some(MissingKey)
    else None
  }

  /** `POST /api/generate` on a store holding `sessions`, the session key already chosen. */
  function GenerateSpec(sessions: map<Key, Session>, key: Key, prompt: Field, hasApiKey: bool,
                        planner: Outcome, generator: Outcome, explainer: Reply, now: string): Handled
  {
    match GenerateRejection(prompt, hasApiKey)
    case Some(rejection) => Handled(rejection, [], None)
    case None => GeneratePipelineSpec(sessions, key, prompt.s, planner, generator, explainer, now)
  }

  /** The checks of a generate request. */
  method CheckGenerate(prompt: Field, hasApiKey: bool) returns (rejection: Option<Response>)
    ensures rejection == GenerateRejection(prompt, hasApiKey)
  {
    if !prompt.Str? || prompt.s == [] || |Trim(prompt.s)| == 0 {
      return Some(Fail(400, "Prompt is required"));
    }
    var safety := SanitizePrompt(prompt.s);
    if !safety.safe {
      return Some(Rejected(prompt.s));
    }
    if !hasApiKey {
      return Some(MissingKey);
    }
    return None;
  }

  /**
    `POST /api/generate`: the input, safety and credential checks, in that
    order, before any agent runs.
  */
  method Generate(store: Store, prompt: Field, sessionId: Field, freshId: string, hasApiKey: bool,
                  planner: Outcome, generator: Outcome, explainer: Reply, now: string)
    returns (resp: Response, calls: seq<Call>)
    requires store.Valid()
    requires !sessionId.NonString?
    modifies store
    ensures store.Valid()
    ensures var h := GenerateSpec(old(store.sessions), SessionKeyAsWritten(sessionId, freshId), prompt, hasApiKey,
                                  planner, generator, explainer, now);
      && resp == h.response && calls == h.calls
      && store.sessions == After(old(store.sessions), h.saved, now)
  {
    var rejection := CheckGenerate(prompt, hasApiKey);
    if rejection.Some? {
      return rejection.value, [];
    }
    resp, calls := GeneratePipeline(store, SessionKeyAsWritten(sessionId, freshId), prompt.s, planner, generator, explainer, now);
  }

  /** The planner and generator stages, each ending the request when it fails, then the shared tail. */
  method GeneratePipeline(store: Store, key: Key, userPrompt: string,
                          planner: Outcome, generator: Outcome, explainer: Reply, now: string)
    returns (resp: Response, calls: seq<Call>)
    requires store.Valid()
    modifies store
    ensures store.Valid()
    ensures var h := GeneratePipelineSpec(old(store.sessions), key, userPrompt, planner, generator, explainer, now);
      && resp == h.response && calls == h.calls
      && store.sessions == After(old(store.sessions), h.saved, now)
  {
    calls := [PlannerCall(userPrompt)];
    if planner.Raised? {
      return Crash(planner.message), calls;
    }
    if planner.Failed? {
      return Response(500, Error("Planner failed", Some(planner.error), Some("planner"))), calls;
    }
    var plan := Planned(planner.text);

    calls := [PlannerCall(userPrompt), GeneratorCall(plan)];
    if generator.Raised? {
      return Crash(generator.message), calls;
    }
    if generator.Failed? {
      return Response(500, Error("Generator failed", None, Some("generator"))), calls;
    }

    calls := [PlannerCall(userPrompt), GeneratorCall(plan), ExplainerCallFor(userPrompt, plan, generator.text)];
    var f := Finish(store, key, userPrompt, plan, generator.text, explainer, now);
    if f.None? {
      return Crash(explainer.message), calls;
    }
    var done := f.value;
    resp := Response(200, Generated(key, done.version.id, done.code, plan, done.explained.explanation,
                                    done.explained.componentsUsed, done.validation.issues, GenerateSteps(done.validation)));
  }

  /**
    The generate request's checks come first, in order, and a refused request
    calls no agent and saves nothing; an admitted one goes on to the agent stages.
  */
  lemma GenerateChecksFirst(sessions: map<Key, Session>, key: Key, prompt: Field, hasApiKey: bool,
                            planner: Outcome, generator: Outcome, explainer: Reply, now: string)
    ensures var h := GenerateSpec(sessions, key, prompt, hasApiKey, planner, generator, explainer, now);
      && (!PromptUsable(prompt) ==> h == Handled(Fail(400, "Prompt is required"), [], None))
      && (PromptUsable(prompt) && !SanitizePrompt(prompt.s).safe ==> h == Handled(Rejected(prompt.s), [], None))
      && (PromptUsable(prompt) && SanitizePrompt(prompt.s).safe && !hasApiKey ==> h == Handled(MissingKey, [], None))
      && (GenerateAdmitted(prompt, hasApiKey) ==>
            h == GeneratePipelineSpec(sessions, key, prompt.s, planner, generator, explainer, now))
  {
    GenerateRejectionCases(prompt, hasApiKey);
  }

  /** The three generate checks, in order, and a request is admitted exactly when none of them rejects it. */
  lemma GenerateRejectionCases(prompt: Field, hasApiKey: bool)
    ensures var r := GenerateRejection(prompt, hasApiKey);
      && (!PromptUsable(prompt) ==> r == Some(Fail(400, "Prompt is required")))
      && (PromptUsable(prompt) && !SanitizePrompt(prompt.s).safe ==> r == Some(Rejected(prompt.s)))
      && (PromptUsable(prompt) && SanitizePrompt(prompt.s).safe && !hasApiKey ==> r == Some(MissingKey))
      && (r.None? <==> GenerateAdmitted(prompt, hasApiKey))
  {
    if prompt.Str? {
      TrimEmptyIffBlank(prompt.s);
    }
  }

  /**
    The planner is called first, with the prompt; a failing planner or
    generator ends the request with 500 naming its step, and nothing is saved.
  */
  lemma GenerateStageFailures(sessions: map<Key, Session>, key: Key, userPrompt: string,
                              planner: Outcome, generator: Outcome, explainer: Reply, now: string)
    ensures var h := GeneratePipelineSpec(sessions, key, userPrompt, planner, generator, explainer, now);
      && h.calls != [] && h.calls[0] == PlannerCall(userPrompt)
      && (planner.Failed? ==>
            h == Handled(Response(500, Error("Planner failed", Some(planner.error), Some("planner"))), [PlannerCall(userPrompt)], None))
      && (planner.Raised? ==> h == Handled(Crash(planner.message), [PlannerCall(userPrompt)], None))
      && (planner.Done? && generator.Failed? ==>
            h == Handled(Response(500, Error("Generator failed", None, Some("generator"))),
                         [PlannerCall(userPrompt), GeneratorCall(Planned(planner.text))], None))
      && (planner.Done? && generator.Raised? ==> h.response == Crash(generator.message) && h.saved == None)
      && (planner.Done? && generator.Done? && explainer.ReplyRaised? ==>
            h.response == Crash(explainer.message) && |h.calls| == 3 && h.saved == None)
  {
  }

  /**
    The agent stages save a version exactly when they answer 200, and that
    happens exactly when every agent succeeded; what the validator found never
    decides it.
  */
  lemma GenerateSavesOnlyOnSuccess(sessions: map<Key, Session>, key: Key, userPrompt: string,
                                   planner: Outcome, generator: Outcome, explainer: Reply, now: string)
    ensures var h := GeneratePipelineSpec(sessions, key, userPrompt, planner, generator, explainer, now);
      && (h.saved.Some? <==> h.response.status == 200)
      && (h.response.status == 200 <==> planner.Done? && generator.Done? && explainer.Answer?)
  {
  }

  /**
    What a successful generate request saves: version `n + 1` of the session,
    holding the repaired code, the plan, the prompt, the trimmed explanation
    and the components the code uses.
  */
  lemma GenerateSavedVersion(sessions: map<Key, Session>, key: Key, userPrompt: string,
                             planner: Outcome, generator: Outcome, explainer: Reply, now: string)
    requires planner.Done? && generator.Done? && explainer.Answer?
    ensures var h := GeneratePipelineSpec(sessions, key, userPrompt, planner, generator, explainer, now);
      && h.saved.Some? && h.saved.value.key == key
      && var v := h.saved.value.version;
      && v.id == |HistoryIn(sessions, key)| + 1
      && v.code == AutoFix.AutoFix(generator.text) && v.plan == Planned(planner.text) && v.userPrompt == userPrompt
      && v.explanation == Trim(explainer.text) && v.timestamp == now
      && v.componentsUsed == UsedComponents(v.code)
  {
  }

  /**
    What a successful generate request answers: the saved version's number,
    code and components, the validator's issues, and a Validator step that
    says `passed` exactly when there are none.
  */
  lemma GenerateAnswer(sessions: map<Key, Session>, key: Key, userPrompt: string,
                       planner: Outcome, generator: Outcome, explainer: Reply, now: string)
    requires planner.Done? && generator.Done? && explainer.Answer?
    ensures var h := GeneratePipelineSpec(sessions, key, userPrompt, planner, generator, explainer, now);
      var code := AutoFix.AutoFix(generator.text);
      && h.response.status == 200 && h.response.body.Generated?
      && h.response.body.sessionId == key && h.response.body.version == |HistoryIn(sessions, key)| + 1
      && h.response.body.code == code && h.response.body.componentsUsed == UsedComponents(code)
      && h.response.body.validationIssues == Issues(code)
      && |h.response.body.agentSteps| == 4
      && (h.response.body.agentSteps[2].status == "passed" <==> Issues(code) == [])
  {
    var plan := Planned(planner.text);
    var h := GeneratePipelineSpec(sessions, key, userPrompt, planner, generator, explainer, now);
    var f := FinishSpec(HistoryIn(sessions, key), userPrompt, plan, generator.text, explainer.text, now);
    assert h.response.body == Generated(key, f.version.id, f.code, plan, f.explained.explanation,
                                        f.explained.componentsUsed, f.validation.issues, GenerateSteps(f.validation));
    assert h.response.body.agentSteps[2] == ValidatorStep(f.validation);
  }

  /**
    A successful generate request that sends a `null` session id is served
    the same whatever fresh id it was given: it appends version n + 1 to the
    one session stored under `null` and answers `null` as its session id. Two
    such first requests therefore get versions 1 and 2 of a single session.
  */
  lemma GenerateNullRequestsShareSession(sessions: map<Key, Session>, prompt: Field, hasApiKey: bool,
                                         planner: Outcome, generator: Outcome, explainer: Reply,
                                         freshA: string, freshB: string, now: string)
    requires GenerateAdmitted(prompt, hasApiKey) && planner.Done? && generator.Done? && explainer.Answer?
    ensures var h := GenerateSpec(sessions, SessionKeyAsWritten(Null, freshA), prompt, hasApiKey, planner, generator, explainer, now);
      && h == GenerateSpec(sessions, SessionKeyAsWritten(Null, freshB), prompt, hasApiKey, planner, generator, explainer, now)
      && h.saved.Some? && h.saved.value.key == NullKey
      && h.saved.value.version.id == |HistoryIn(sessions, NullKey)| + 1
      && h.response.body.Generated? && h.response.body.sessionId == NullKey
      && HistoryIn(After(sessions, h.saved, now), NullKey) == HistoryIn(sessions, NullKey) + [h.saved.value.version]
  {
    GenerateRejectionCases(prompt, hasApiKey);
    GenerateSavedVersion(sessions, NullKey, prompt.s, planner, generator, explainer, now);
    GenerateAnswer(sessions, NullKey, prompt.s, planner, generator, explainer, now);
  }

  /**
    With the corrected key, a successful generate request that names no
    session, given a fresh id that names no stored session, starts a session
    of its own holding only version 1 and leaves every other session as it was.
  */
  lemma GenerateUnnamedRequestsSeparate(sessions: map<Key, Session>, sessionId: Field, prompt: Field, hasApiKey: bool,
                                        planner: Outcome, generator: Outcome, explainer: Reply, freshId: string, now: string)
    requires sessionId.Missing? || sessionId.Null?
    requires Named(freshId) !in sessions
    requires GenerateAdmitted(prompt, hasApiKey) && planner.Done? && generator.Done? && explainer.Answer?
    ensures var h := GenerateSpec(sessions, SessionKey(sessionId, freshId), prompt, hasApiKey, planner, generator, explainer, now);
      && h.saved.Some? && h.saved.value.key == Named(freshId) && h.saved.value.version.id == 1
      && h.response.body.Generated? && h.response.body.sessionId == Named(freshId)
      && HistoryIn(After(sessions, h.saved, now), Named(freshId)) == [h.saved.value.version]
      && forall k :: k != Named(freshId) ==> HistoryIn(After(sessions, h.saved, now), k) == HistoryIn(sessions, k)
  {
    GenerateRejectionCases(prompt, hasApiKey);
    GenerateSavedVersion(sessions, Named(freshId), prompt.s, planner, generator, explainer, now);
    GenerateAnswer(sessions, Named(freshId), prompt.s, planner, generator, explainer, now);
  }

  /** A generate request whose agents all succeed calls the planner, the generator and the explainer, in that order. */
  lemma GenerateCallsEveryAgent(sessions: map<Key, Session>, key: Key, userPrompt: string,
                                planner: Outcome, generator: Outcome, explainer: Reply, now: string)
    requires planner.Done? && generator.Done? && explainer.Answer?
    ensures GeneratePipelineSpec(sessions, key, userPrompt, planner, generator, explainer, now).calls
         == [PlannerCall(userPrompt), GeneratorCall(Planned(planner.text)),
             ExplainerCall(ExplainerPromptFor(userPrompt, Planned(planner.text), AutoFix.AutoFix(generator.text)))]
  {
  }

  /** The result of the checks of a modify request: refused, or admitted with the code to modify. */
  datatype Admission = Refused(response: Response) | Admitted(base: string)

  /**
    The checks of a modify request, in order: prompt and session id present,
    prompt safe, then code to modify: the request's own code when it has
    some, else the latest version of the session, else a refusal.
  */
  function ModifyAdmission(sessions: map<Key, Session>, prompt: Field, sessionId: Field, currentCode: Field): (a: Admission)
    ensures a.Admitted? ==> Truthy(prompt) && Truthy(sessionId)
  {
    if !Truthy(prompt) || !Truthy(sessionId) then Refused(Fail(400, "Prompt and sessionId are required"))
    else if !SanitizePrompt(prompt.s).safe then Refused(Rejected(prompt.s))
    else if Truthy(currentCode) then Admitted(currentCode.s)
    else
      var history := HistoryIn(sessions, Named(sessionId.s));
      if history == [] then Refused(Fail(400, "No existing code found. Use /api/generate first."))
      else Admitted(history[|history| - 1].code)
  }

  /** The modifier stage, ending the request when it fails, then the shared tail with the modification plan. */
  function ModifyPipelineSpec(sessions: map<Key, Session>, key: Key, userPrompt: string, base: string,
                              modifier: Outcome, explainer: Reply, now: string): Handled
  {
    var modifying := [ModifierCall(base, userPrompt)];
    match modifier
    case Raised(m) => Handled(Crash(m), modifying, None)
    case Failed(_) => Handled(Response(500, Error("Modifier failed", None, Some("modifier"))), modifying, None)
    case Done(modified) =>
      var plan := Modification(userPrompt);
      var explaining := [ModifierCall(base, userPrompt), ExplainerCallFor(userPrompt, plan, modified)];
      match explainer
      case ReplyRaised(m) => Handled(Crash(m), explaining, None)
      case Answer(reply) =>
        var f := FinishSpec(HistoryIn(sessions, key), userPrompt, plan, modified, reply, now);
        Handled(Response(200, Modified(key, f.version.id, f.code, f.explained.explanation,
                                       f.explained.componentsUsed, f.validation.issues, ModifySteps(f.validation))),
                explaining, Some(Save(key, f.version)))
  }

  /** `POST /api/modify` on a store holding `sessions`. */
  function ModifySpec(sessions: map<Key, Session>, prompt: Field, sessionId: Field, currentCode: Field,
                      modifier: Outcome, explainer: Reply, now: string): Handled
  {
    match ModifyAdmission(sessions, prompt, sessionId, currentCode)
    case Refused(r) => Handled(r, [], None)
    case Admitted(base) => ModifyPipelineSpec(sessions, Named(sessionId.s), prompt.s, base, modifier, explainer, now)
  }

  /** The checks of a modify request, reading the latest version from the store when the request has no code. */
  method CheckModify(store: Store, prompt: Field, sessionId: Field, currentCode: Field) returns (a: Admission)
    requires store.Valid()
    ensures a == ModifyAdmission(store.sessions, prompt, sessionId, currentCode)
  {
    if !Truthy(prompt) || !Truthy(sessionId) {
      return Refused(Fail(400, "Prompt and sessionId are required"));
    }
    var safety := SanitizePrompt(prompt.s);
    if !safety.safe {
      return Refused(Rejected(prompt.s));
    }
    var codeToModify := currentCode;
    if !Truthy(codeToModify) {
      var latest := store.GetLatestVersion(Named(sessionId.s));
      if latest.None? {
        return Refused(Fail(400, "No existing code found. Use /api/generate first."));
      }
      codeToModify := Str(latest.value.code);
    }
    return Admitted(codeToModify.s);
  }

  /** `POST /api/modify`: the checks, then the modifier stage, then the shared tail. */
  method Modify(store: Store, prompt: Field, sessionId: Field, currentCode: Field,
                modifier: Outcome, explainer: Reply, now: string)
    returns (resp: Response, calls: seq<Call>)
    requires store.Valid()
    requires !prompt.NonString? && !sessionId.NonString? && !currentCode.NonString?
    modifies store
    ensures store.Valid()
    ensures var h := ModifySpec(old(store.sessions), prompt, sessionId, currentCode, modifier, explainer, now);
      && resp == h.response && calls == h.calls
      && store.sessions == After(old(store.sessions), h.saved, now)
  {
    var admission := CheckModify(store, prompt, sessionId, currentCode);
    if admission.Refused? {
      return admission.response, [];
    }
    resp, calls := ModifyPipeline(store, Named(sessionId.s), prompt.s, admission.base, modifier, explainer, now);
  }

  method ModifyPipeline(store: Store, key: Key, userPrompt: string, base: string,
                        modifier: Outcome, explainer: Reply, now: string)
    returns (resp: Response, calls: seq<Call>)
    requires store.Valid()
    modifies store
    ensures store.Valid()
    ensures var h := ModifyPipelineSpec(old(store.sessions), key, userPrompt, base, modifier, explainer, now);
      && resp == h.response && calls == h.calls
      && store.sessions == After(old(store.sessions), h.saved, now)
  {
    calls := [ModifierCall(base, userPrompt)];
    if modifier.Raised? {
      return Crash(modifier.message), calls;
    }
    if modifier.Failed? {
      return Response(500, Error("Modifier failed", None, Some("modifier"))), calls;
    }
    var plan := Modification(userPrompt);
    calls := [ModifierCall(base, userPrompt), ExplainerCallFor(userPrompt, plan, modifier.text)];
    var f := Finish(store, key, userPrompt, plan, modifier.text, explainer, now);
    if f.None? {
      return Crash(explainer.message), calls;
    }
    var done := f.value;
    resp := Response(200, Modified(key, done.version.id, done.code, done.explained.explanation,
                                   done.explained.componentsUsed, done.validation.issues, ModifySteps(done.validation)));
  }

  /**
    The modify request's first checks, in order: a missing prompt or session
    id is refused with 400, then an unsafe prompt with 400.
  */
  lemma ModifyChecksFirst(sessions: map<Key, Session>, prompt: Field, sessionId: Field, currentCode: Field)
    ensures var a := ModifyAdmission(sessions, prompt, sessionId, currentCode);
      && (!Truthy(prompt) || !Truthy(sessionId) ==> a == Refused(Fail(400, "Prompt and sessionId are required")))
      && (Truthy(prompt) && Truthy(sessionId) && !SanitizePrompt(prompt.s).safe ==> a == Refused(Rejected(prompt.s)))
  {
  }

  /** A refused modify request calls no agent and saves nothing; an admitted one goes on to the modifier. */
  lemma ModifyRefusalSavesNothing(sessions: map<Key, Session>, prompt: Field, sessionId: Field, currentCode: Field,
                                  modifier: Outcome, explainer: Reply, now: string)
    ensures var a := ModifyAdmission(sessions, prompt, sessionId, currentCode);
      var h := ModifySpec(sessions, prompt, sessionId, currentCode, modifier, explainer, now);
      && (a.Refused? ==> h.response == a.response && h.calls == [] && h.saved == None)
      && (a.Admitted? ==> h == ModifyPipelineSpec(sessions, Named(sessionId.s), prompt.s, a.base, modifier, explainer, now))
  {
  }

  /**
    The code a safe modify request works on: the request's own code when it
    has some, else the code of the session's latest version.
  */
  lemma ModifyBaseCode(sessions: map<Key, Session>, prompt: Field, sessionId: Field, currentCode: Field)
    requires Truthy(prompt) && Truthy(sessionId) && SanitizePrompt(prompt.s).safe
    ensures var a := ModifyAdmission(sessions, prompt, sessionId, currentCode);
      var history := HistoryIn(sessions, Named(sessionId.s));
      && (Truthy(currentCode) ==> a == Admitted(currentCode.s))
      && (!Truthy(currentCode) && history != [] ==> a == Admitted(history[|history| - 1].code))
  {
  }

  /** A safe modify request with no code of its own, in a session with no version, is refused with 400. */
  lemma ModifyNeedsCode(sessions: map<Key, Session>, prompt: Field, sessionId: Field, currentCode: Field)
    requires Truthy(prompt) && Truthy(sessionId) && SanitizePrompt(prompt.s).safe
    requires !Truthy(currentCode) && HistoryIn(sessions, Named(sessionId.s)) == []
    ensures ModifyAdmission(sessions, prompt, sessionId, currentCode)
      == Refused(Fail(400, "No existing code found. Use /api/generate first."))
  {
  }

  /**
    The modifier is called first, with the code to modify and the prompt; a
    failing modifier answers 500 naming its step. The stages save exactly
    when they answer 200, which happens exactly when both agents succeeded.
  */
  lemma ModifyStageOutcomes(sessions: map<Key, Session>, key: Key, userPrompt: string, base: string,
                            modifier: Outcome, explainer: Reply, now: string)
    ensures var h := ModifyPipelineSpec(sessions, key, userPrompt, base, modifier, explainer, now);
      && h.calls != [] && h.calls[0] == ModifierCall(base, userPrompt)
      && (modifier.Failed? ==>
            h == Handled(Response(500, Error("Modifier failed", None, Some("modifier"))), [ModifierCall(base, userPrompt)], None))
      && (h.saved.Some? <==> h.response.status == 200)
      && (h.response.status == 200 <==> modifier.Done? && explainer.Answer?)
  {
  }

  /**
    A successful modify request saves version `n + 1` of the session with the
    modification plan and the request's prompt, and answers with its number,
    the validator's issues and a Validator step that says `passed` exactly
    when there are none.
  */
  lemma ModifySaved(sessions: map<Key, Session>, key: Key, userPrompt: string, base: string,
                    modifier: Outcome, explainer: Reply, now: string)
    requires modifier.Done? && explainer.Answer?
    ensures var h := ModifyPipelineSpec(sessions, key, userPrompt, base, modifier, explainer, now);
      var code := AutoFix.AutoFix(modifier.text);
      && h.saved.Some? && h.saved.value.key == key
      && var v := h.saved.value.version;
      && v.id == |HistoryIn(sessions, key)| + 1
      && v.plan == Modification(userPrompt) && v.userPrompt == userPrompt && v.code == code
      && h.response.body.Modified? && h.response.body.version == v.id && h.response.body.sessionId == key
      && h.response.body.validationIssues == Issues(code)
      && |h.response.body.agentSteps| == 3
      && (h.response.body.agentSteps[1].status == "passed" <==> Issues(code) == [])
  {
  }

  /** JavaScript truthiness of a rollback's `versionId`. */
  predicate RefTruthy(r: VersionRef) {
    (r.NumRef? && r.n != 0) || (r.StrRef? && r.s != [])
  }

  /**
    `POST /api/rollback` on a store holding `sessions`. A text `versionId`
    never equals a stored numeric id, so it finds no version.
  */
  function RollbackSpec(sessions: map<Key, Session>, sessionId: Field, versionId: VersionRef, now: string): Handled {
    if !Truthy(sessionId) || !RefTruthy(versionId) then Handled(Fail(400, "sessionId and versionId are required"), [], None)
    else if !versionId.NumRef? then Handled(Fail(404, "Version not found"), [], None)
    else
      var key := Named(sessionId.s);
      var history := HistoryIn(sessions, key);
      if !(1 <= versionId.n <= |history|) then Handled(Fail(404, "Version not found"), [], None)
      else
        var v := NewVersion(|history|, RollbackDraft(history[versionId.n - 1], versionId.n), now);
        Handled(Response(200, RolledBack(key, v.id, v.code, v.explanation, versionId.n)), [], Some(Save(key, v)))
  }

  /** `POST /api/rollback`. */
  method Rollback(store: Store, sessionId: Field, versionId: VersionRef, now: string) returns (resp: Response)
    requires store.Valid()
    requires !sessionId.NonString?
    modifies store
    ensures store.Valid()
    ensures var h := RollbackSpec(old(store.sessions), sessionId, versionId, now);
      resp == h.response && store.sessions == After(old(store.sessions), h.saved, now)
  {
    if !Truthy(sessionId) || !RefTruthy(versionId) {
      return Fail(400, "sessionId and versionId are required");
    }
    if !versionId.NumRef? {
      return Fail(404, "Version not found");
    }
    var version := store.RollbackToVersion(Named(sessionId.s), versionId.n, now);
    if version.None? {
      return Fail(404, "Version not found");
    }
    var v := version.value;
    resp := Response(200, RolledBack(Named(sessionId.s), v.id, v.code, v.explanation, versionId.n));
  }

  /**
    A rollback request without a session id or version id answers 400, one
    naming no stored version 404, and neither changes the store. A successful
    one appends a new version copying the target's code, plan and components
    under the rollback prompt, and keeps the whole earlier history.
  */
  lemma RollbackOutcome(sessions: map<Key, Session>, sessionId: Field, versionId: VersionRef, now: string)
    requires !sessionId.NonString?
    ensures var h := RollbackSpec(sessions, sessionId, versionId, now);
      && (!Truthy(sessionId) || !RefTruthy(versionId) ==> h.response.status == 400 && h.saved == None)
      && (h.response.status == 404 <==>
            Truthy(sessionId) && RefTruthy(versionId)
            && !(versionId.NumRef? && 1 <= versionId.n <= |HistoryIn(sessions, Named(sessionId.s))|))
      && (h.response.status != 200 ==> h.saved == None)
      && (h.saved.Some? ==>
            var key := Named(sessionId.s);
            var history := HistoryIn(sessions, key);
            var target := history[versionId.n - 1];
            var v := h.saved.value.version;
            && h.response.status == 200
            && v.id == |history| + 1
            && v.code == target.code && v.plan == target.plan && v.componentsUsed == target.componentsUsed
            && v.userPrompt == RollbackPrompt(versionId.n)
            && HistoryIn(After(sessions, h.saved, now), key) == history + [v])
  {
  }

  /** `GET /api/versions/:sessionId`: the summaries of the session's versions, numbered 1, 2, 3, … */
  function VersionsRoute(store: Store, sessionId: string): (r: Response)
    reads store
    requires store.Valid()
    ensures r.status == 200 && r.body.VersionList?
    ensures |r.body.versions| == |store.History(Named(sessionId))|
    ensures forall i :: 0 <= i < |r.body.versions| ==> r.body.versions[i] == Summarise(store.History(Named(sessionId))[i])
    ensures forall i :: 0 <= i < |r.body.versions| ==> r.body.versions[i].id == i + 1
  {
    Response(200, VersionList(store.GetVersions(Named(sessionId))))
  }

  /** `GET /api/version/:sessionId/:versionId`, the id read with `parseInt`. */
  function VersionRoute(store: Store, sessionId: string, versionParam: string): (r: Response)
    reads store
    requires store.Valid()
    ensures r.status == 200 || r == Fail(404, "Version not found")
    ensures r.status == 200 <==>
      ParseInt(versionParam).Some? && 1 <= ParseInt(versionParam).value <= |store.History(Named(sessionId))|
    ensures r.status == 200 ==> r.body == VersionFound(store.History(Named(sessionId))[ParseInt(versionParam).value - 1])
  {
    match ParseInt(versionParam)
    case None => Fail(404, "Version not found")
    case Some(n) =>
      match store.GetVersion(Named(sessionId), n)
      case None => Fail(404, "Version not found")
      case Some(v) => Response(200, VersionFound(v))
  }

  /** The path written with a version's decimal number finds exactly that version. */
  lemma VersionRouteFindsPrintedId(store: Store, sessionId: string, id: int)
    requires store.Valid()
    ensures VersionRoute(store, sessionId, IntToString(id)).status == 200 <==> 1 <= id <= |store.History(Named(sessionId))|
    ensures 1 <= id <= |store.History(Named(sessionId))| ==>
      VersionRoute(store, sessionId, IntToString(id)).body.found.id == id
  {
    ParseIntOfIntToString(id);
  }
}
