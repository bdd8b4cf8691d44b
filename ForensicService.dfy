/** `FalconV3ForensicService.analyze_case`: prepare the document summary,
    build the jurisdiction prompt and hand both, with the dependencies, to
    the agent. The agent run itself is a parameter: its output, or the
    exception it raises (a validation failure included), is an input. */
module ForensicService {
  import opened Common
  import opened ForensicModels
  import opened DocumentSummary

  datatype AgentRequest = AgentRequest(prompt: string, deps: ForensicDependencies)

  type Agent = AgentRequest -> Result<ForensicOutput>

  const Indent := "        "

  /** The prompt is the text of the source's f-string: three fixed pieces
      around the jurisdiction and the summary. */
  const PromptHead := "\n" + Indent + "Analyzing divorce case in "
  const PromptMiddle := ".\n"
    + Indent + "Apply appropriate state law:\n"
    + Indent + "- Community Property States: AZ, CA, ID, LA, NV, NM, TX, WA, WI\n"
    + Indent + "- Equitable Distribution: All other states\n"
    + Indent + "\n"
    + Indent + "Documents provided:\n"
    + Indent
  const PromptEnd := "\n"
    + Indent + "\n"
    + Indent + "Execute full four-phase analysis with confidence scoring for all findings.\n"
    + Indent

  function JurisdictionPrompt(jurisdiction: string, docSummary: string): string {
    PromptHead + jurisdiction + PromptMiddle + docSummary + PromptEnd
  }

  /** The request one analysis sends to the agent. */
  function AgentCall(caseId: nat, documents: seq<DocEntry>, userContext: UserContext, jurisdiction: string,
                     marriageDate: Option<int>, separationDate: Option<int>): AgentRequest {
    AgentRequest(
      JurisdictionPrompt(jurisdiction, Join(SummaryLines(documents), "\n")),
      ForensicDependencies(caseId, documents, userContext, jurisdiction, separationDate, marriageDate))
  }

  method AnalyzeCase(agent: Agent, caseId: nat, documents: seq<DocEntry>, userContext: UserContext,
                     jurisdiction: string, marriageDate: Option<int>, separationDate: Option<int>)
    returns (result: Result<ForensicOutput>)
    ensures result == agent(AgentCall(caseId, documents, userContext, jurisdiction, marriageDate, separationDate))
  {
    var deps := ForensicDependencies(caseId, documents, userContext, jurisdiction, separationDate, marriageDate);
    var docSummary := PrepareDocumentSummary(documents);
    var jurisdictionPrompt := JurisdictionPrompt(jurisdiction, docSummary);
    result := agent(AgentRequest(jurisdictionPrompt, deps));
  }

  lemma {:induction false} ContainsInfix(a: string, b: string, c: string)
    ensures Contains(a + b + c, b)
    decreases |a|
  {
    if |a| == 0 {
      assert a + b + c == b + c;
      assert b <= b + c;
    } else {
      ContainsInfix(a[1..], b, c);
      assert (a + b + c)[1..] == a[1..] + b + c;
    }
  }

  /** Text found in a string is still found once more text follows. */
  lemma {:induction false} ContainsExtended(s: string, sub: string, tail: string)
    requires Contains(s, sub)
    ensures Contains(s + tail, sub)
    decreases |s|
  {
    if sub <= s {
      assert sub <= s + tail;
    } else {
      ContainsExtended(s[1..], sub, tail);
      assert (s + tail)[1..] == s[1..] + tail;
    }
  }

  /** The prompt names the jurisdiction and carries the document summary
      verbatim. */
  lemma PromptCarriesSummary(jurisdiction: string, docSummary: string)
    ensures Contains(JurisdictionPrompt(jurisdiction, docSummary), docSummary)
    ensures Contains(JurisdictionPrompt(jurisdiction, docSummary), jurisdiction)
  {
    var upToMiddle := PromptHead + jurisdiction + PromptMiddle;
    ContainsInfix(upToMiddle, docSummary, PromptEnd);
    ContainsInfix(PromptHead, jurisdiction, PromptMiddle);
    ContainsExtended(upToMiddle, jurisdiction, docSummary);
    ContainsExtended(upToMiddle + docSummary, jurisdiction, PromptEnd);
  }
}
