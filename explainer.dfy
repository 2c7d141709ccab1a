/**
  The deterministic part of the explainer agent: which components the code
  uses, what is substituted into the explainer's prompt template, and what the
  agent returns. The language-model call itself is represented by its reply.
*/
module Explainer {
  import opened Text
  import opened Components
  import opened Versions

  /** The values substituted for the template's user-request, plan and components placeholders. */
  datatype ExplainerPrompt = ExplainerPrompt(userRequest: string, plan: Plan, componentsList: string)

  /** The values substituted into the template for `code`; they do not depend on the model's reply. */
  function ExplainerPromptFor(userRequest: string, plan: Plan, code: string): (p: ExplainerPrompt)
    ensures p.userRequest == userRequest && p.plan == plan
  {
    ExplainerPrompt(userRequest, plan, Join(UsedComponents(code), ", "))
  }

  /** What `runExplainer` returns, together with the prompt it sent. */
  datatype Explained = Explained(prompt: ExplainerPrompt, explanation: string, componentsUsed: seq<string>)

  /**
    `runExplainer` given the model's `reply`: the explanation is the trimmed
    reply, and `componentsUsed` lists exactly the whitelisted components whose
    opening tag occurs in the code, once each and in whitelist order; the same
    list, joined with commas, is what the prompt names.
  */
  function RunExplainer(userRequest: string, plan: Plan, code: string, reply: string): (r: Explained)
    ensures r.prompt == ExplainerPromptFor(userRequest, plan, code)
    ensures r.prompt.componentsList == Join(r.componentsUsed, ", ")
    ensures r.explanation == Trim(reply)
    ensures forall c :: c in r.componentsUsed <==> c in Whitelist && Contains(code, OpeningTag(c))
    ensures IsSubsequence(r.componentsUsed, Whitelist) && Distinct(r.componentsUsed)
  {
    Explained(ExplainerPromptFor(userRequest, plan, code), Trim(reply), UsedComponents(code))
  }
}
