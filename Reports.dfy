/** The report synthesizer: three renderings of one `ForensicOutput`
    (executive Markdown, confidence Markdown, a full serialization) and the
    list formatters they use. Rendering is a function of the output record
    and of the `Renderer`, so the same record always yields the same text. */
module Reports {
  import opened Common
  import opened ForensicModels

  /** Number and text rendering the model does not spell out. */
  datatype Renderer = Renderer(
    money: real -> string,                      // f"{x:,.2f}"
    wholeNumber: real -> string,                // f"{x:.0f}"
    level: ConfidenceLevel -> string,           // f"{level}" of the enum
    value: Json -> string,                      // f"{v}" of a non-string value
    dashboard: ConfidenceDashboard -> string,   // str(dashboard.dict())
    dump: ForensicOutput -> string)             // json.dumps(analysis.dict(), indent=2, default=str)

  /** f"{v}": a string renders as itself. */
  function Show(r: Renderer, v: Json): string {
    if v.JStr? then v.s else r.value(v)
  }

  /** `d.get(key, 'Medium')`, rendered. */
  function GetOrMedium(r: Renderer, d: Dict, key: string): (s: string)
    ensures Lookup(d, key).None? ==> s == "Medium"
    ensures forall v :: Lookup(d, key) == Some(JStr(v)) ==> s == v
  {
    Show(r, Lookup(d, key).GetOr(JStr("Medium")))
  }

  // ---------------------------------------------------------------------
  // _format_actions

  function ActionLine(r: Renderer, action: Dict): Result<string> {
    var urgency := GetOrMedium(r, action, "urgency");
    var confidence := GetOrMedium(r, action, "confidence");
    match Lookup(action, "action")
    case None => Err(KeyError("action"))
    case Some(act) =>
      Ok("- **" + Show(r, act) + "** (Urgency: " + urgency + ", Success Probability: " + confidence + ")")
  }

  function ActionLines(r: Renderer, actions: seq<Dict>): Result<seq<string>> {
    MapAll(a => ActionLine(r, a), actions)
  }

  method FormatActions(r: Renderer, actions: seq<Dict>) returns (out: Result<string>)
    ensures out == JoinLines(ActionLines(r, actions))
  {
    var formatted: seq<string> := [];
    var i := 0;
    while i < |actions|
      invariant 0 <= i <= |actions|
      invariant ActionLines(r, actions[..i]) == Ok(formatted)
    {
      var action := actions[i];
      assert actions[..i + 1][..i] == actions[..i];
      var urgency := GetOrMedium(r, action, "urgency");
      var confidence := GetOrMedium(r, action, "confidence");
      var act := Lookup(action, "action");
      if act.None? {
        MapAllErrPersists(a => ActionLine(r, a), actions, i + 1);
        return Err(KeyError("action"));
      }
      formatted := formatted + ["- **" + Show(r, act.value) + "** (Urgency: " + urgency + ", Success Probability: " + confidence + ")"];
      i := i + 1;
    }
    assert actions[..i] == actions;
    out := Ok(Join(formatted, "\n"));
  }

  /** The actions render exactly when every one has an 'action' key; then
      there is one line per action, in order; otherwise KeyError('action'). */
  lemma ActionsRender(r: Renderer, actions: seq<Dict>)
    ensures ActionLines(r, actions).Ok? <==> forall i :: 0 <= i < |actions| ==> Lookup(actions[i], "action").Some?
    ensures ActionLines(r, actions).Ok? ==> |ActionLines(r, actions).value| == |actions|
    ensures ActionLines(r, actions).Err? ==> ActionLines(r, actions) == Err(KeyError("action"))
  {
    MapAllOutcome(a => ActionLine(r, a), actions);
  }

  // ---------------------------------------------------------------------
  // _format_leverage_points

  function LeverageLine(r: Renderer, point: Dict): Result<string> {
    var impact := GetOrMedium(r, point, "impact");
    var confidence := GetOrMedium(r, point, "confidence");
    match Lookup(point, "leverage")
    case None => Err(KeyError("leverage"))
    case Some(lev) =>
      Ok("- **" + Show(r, lev) + "** (Impact: " + impact + ", Confidence: " + confidence + ")")
  }

  function LeverageLines(r: Renderer, points: seq<Dict>): Result<seq<string>> {
    MapAll(p => LeverageLine(r, p), points)
  }

  method FormatLeveragePoints(r: Renderer, leveragePoints: seq<Dict>) returns (out: Result<string>)
    ensures out == JoinLines(LeverageLines(r, leveragePoints))
  {
    var formatted: seq<string> := [];
    var i := 0;
    while i < |leveragePoints|
      invariant 0 <= i <= |leveragePoints|
      invariant LeverageLines(r, leveragePoints[..i]) == Ok(formatted)
    {
      var point := leveragePoints[i];
      assert leveragePoints[..i + 1][..i] == leveragePoints[..i];
      var impact := GetOrMedium(r, point, "impact");
      var confidence := GetOrMedium(r, point, "confidence");
      var lev := Lookup(point, "leverage");
      if lev.None? {
        MapAllErrPersists(p => LeverageLine(r, p), leveragePoints, i + 1);
        return Err(KeyError("leverage"));
      }
      formatted := formatted + ["- **" + Show(r, lev.value) + "** (Impact: " + impact + ", Confidence: " + confidence + ")"];
      i := i + 1;
    }
    assert leveragePoints[..i] == leveragePoints;
    out := Ok(Join(formatted, "\n"));
  }

  lemma LeverageRenders(r: Renderer, points: seq<Dict>)
    ensures LeverageLines(r, points).Ok? <==> forall i :: 0 <= i < |points| ==> Lookup(points[i], "leverage").Some?
    ensures LeverageLines(r, points).Ok? ==> |LeverageLines(r, points).value| == |points|
    ensures LeverageLines(r, points).Err? ==> LeverageLines(r, points) == Err(KeyError("leverage"))
  {
    MapAllOutcome(p => LeverageLine(r, p), points);
  }

  // ---------------------------------------------------------------------
  // _format_settlement_scenarios

  /** One scenario, with at most its first two advantages. */
  function ScenarioEntry(r: Renderer, s: SettlementScenario): string {
    "\n### " + s.scenarioName + "\n"
    + "- Probability: " + r.wholeNumber(s.probability * 100.0) + "% "
    + "(" + s.confidenceInterval + ")\n"
    + "- Expected Value: $" + r.money(s.expectedValue) + "\n"
    + "- Advantages: " + Join(Take(s.strategicAdvantages, 2), ", ")
  }

  /** The entries of the first three scenarios, in the given order. */
  function ScenarioEntries(r: Renderer, scenarios: seq<SettlementScenario>): (es: seq<string>)
    ensures |es| == Min(3, |scenarios|)
    ensures forall k :: 0 <= k < |es| ==> es[k] == ScenarioEntry(r, scenarios[k])
  {
    var top := Take(scenarios, 3);
    seq(|top|, k requires 0 <= k < |top| => ScenarioEntry(r, top[k]))
  }

  method FormatSettlementScenarios(r: Renderer, scenarios: seq<SettlementScenario>) returns (out: string)
    ensures out == Join(ScenarioEntries(r, scenarios), "\n")
  {
    var top := Take(scenarios, 3);
    var formatted: seq<string> := [];
    var i := 0;
    while i < |top|
      invariant 0 <= i <= |top|
      invariant formatted == ScenarioEntries(r, scenarios)[..i]
    {
      var scenario := top[i];
      formatted := formatted + [
        "\n### " + scenario.scenarioName + "\n"
        + "- Probability: " + r.wholeNumber(scenario.probability * 100.0) + "% "
        + "(" + scenario.confidenceInterval + ")\n"
        + "- Expected Value: $" + r.money(scenario.expectedValue) + "\n"
        + "- Advantages: " + Join(Take(scenario.strategicAdvantages, 2), ", ")];
      i := i + 1;
    }
    assert formatted == ScenarioEntries(r, scenarios);
    out := Join(formatted, "\n");
  }

  // ---------------------------------------------------------------------
  // _format_document_verification and _format_asset_confidence

  function VerificationLine(r: Renderer, v: DocumentVerification): string {
    "- " + v.documentType + ": " + v.authenticationStatus + " (" + r.level(v.confidenceLevel) + " confidence)"
  }

  /** One line per verification, in order. */
  function VerificationLines(r: Renderer, verifications: seq<DocumentVerification>): (ls: seq<string>)
    ensures |ls| == |verifications|
    ensures forall i :: 0 <= i < |ls| ==> ls[i] == VerificationLine(r, verifications[i])
  {
    seq(|verifications|, i requires 0 <= i < |verifications| => VerificationLine(r, verifications[i]))
  }

  method FormatDocumentVerification(r: Renderer, verifications: seq<DocumentVerification>) returns (out: string)
    ensures out == Join(VerificationLines(r, verifications), "\n")
  {
    var formatted: seq<string> := [];
    var i := 0;
    while i < |verifications|
      invariant 0 <= i <= |verifications|
      invariant |formatted| == i
      invariant forall k :: 0 <= k < i ==> formatted[k] == VerificationLine(r, verifications[k])
    {
      var ver := verifications[i];
      formatted := formatted + ["- " + ver.documentType + ": " + ver.authenticationStatus + " (" + r.level(ver.confidenceLevel) + " confidence)"];
      i := i + 1;
    }
    assert formatted == VerificationLines(r, verifications);
    out := Join(formatted, "\n");
  }

  function AssetConfidenceLine(r: Renderer, a: AssetAnalysis): string {
    "- " + a.description + ": $" + r.money(a.estimatedValue) + " (" + r.level(a.valueConfidence) + " confidence)"
  }

  /** One line per asset, in order. */
  function AssetConfidenceLines(r: Renderer, assets: seq<AssetAnalysis>): (ls: seq<string>)
    ensures |ls| == |assets|
    ensures forall i :: 0 <= i < |ls| ==> ls[i] == AssetConfidenceLine(r, assets[i])
  {
    seq(|assets|, i requires 0 <= i < |assets| => AssetConfidenceLine(r, assets[i]))
  }

  method FormatAssetConfidence(r: Renderer, assets: seq<AssetAnalysis>) returns (out: string)
    ensures out == Join(AssetConfidenceLines(r, assets), "\n")
  {
    var formatted: seq<string> := [];
    var i := 0;
    while i < |assets|
      invariant 0 <= i <= |assets|
      invariant |formatted| == i
      invariant forall k :: 0 <= k < i ==> formatted[k] == AssetConfidenceLine(r, assets[k])
    {
      var asset := assets[i];
      formatted := formatted + ["- " + asset.description + ": $" + r.money(asset.estimatedValue) + " (" + r.level(asset.valueConfidence) + " confidence)"];
      i := i + 1;
    }
    assert formatted == AssetConfidenceLines(r, assets);
    out := Join(formatted, "\n");
  }

  // ---------------------------------------------------------------------
  // _format_concealment_confidence

  /** Formatting `None` with `:,.2f` raises this TypeError. */
  const NoneFormatError := TypeError("unsupported format string passed to NoneType.__format__")

  const NoSchemesMessage := "No concealment schemes detected."

  function SchemeEntry(r: Renderer, s: ConcealmentScheme): Result<string> {
    match s.estimatedAmount
    case None => Err(NoneFormatError)
    case Some(amount) =>
      Ok("- " + s.schemeType + ": " + r.level(s.evidenceStrength) + " evidence\n"
         + "  Amount: $" + r.money(amount) + " "
         + "(" + r.level(s.amountConfidence) + " confidence)\n"
         + "  Recovery: " + s.recoveryProbability)
  }

  function ConcealmentText(r: Renderer, schemes: seq<ConcealmentScheme>): Result<string> {
    if |schemes| == 0 then Ok(NoSchemesMessage)
    else JoinLines(MapAll(s => SchemeEntry(r, s), schemes))
  }

  method FormatConcealmentConfidence(r: Renderer, schemes: seq<ConcealmentScheme>) returns (out: Result<string>)
    ensures out == ConcealmentText(r, schemes)
  {
    if |schemes| == 0 {
      return Ok("No concealment schemes detected.");
    }
    var formatted: seq<string> := [];
    var i := 0;
    while i < |schemes|
      invariant 0 <= i <= |schemes|
      invariant MapAll(s => SchemeEntry(r, s), schemes[..i]) == Ok(formatted)
    {
      var scheme := schemes[i];
      assert schemes[..i + 1][..i] == schemes[..i];
      if scheme.estimatedAmount.None? {
        MapAllErrPersists(s => SchemeEntry(r, s), schemes, i + 1);
        return Err(NoneFormatError);
      }
      formatted := formatted + [
        "- " + scheme.schemeType + ": " + r.level(scheme.evidenceStrength) + " evidence\n"
        + "  Amount: $" + r.money(scheme.estimatedAmount.value) + " "
        + "(" + r.level(scheme.amountConfidence) + " confidence)\n"
        + "  Recovery: " + scheme.recoveryProbability];
      i := i + 1;
    }
    assert schemes[..i] == schemes;
    out := Ok(Join(formatted, "\n"));
  }

  /** No schemes gives the fixed message; otherwise the text renders exactly
      when every scheme has an estimated amount, and a scheme without one
      raises TypeError. */
  lemma ConcealmentRenders(r: Renderer, schemes: seq<ConcealmentScheme>)
    ensures |schemes| == 0 ==> ConcealmentText(r, schemes) == Ok("No concealment schemes detected.")
    ensures ConcealmentText(r, schemes).Ok? <==> forall i :: 0 <= i < |schemes| ==> schemes[i].estimatedAmount.Some?
    ensures ConcealmentText(r, schemes).Err? ==>
              ConcealmentText(r, schemes) == Err(TypeError("unsupported format string passed to NoneType.__format__"))
  {
    MapAllOutcome(s => SchemeEntry(r, s), schemes);
  }

  // ---------------------------------------------------------------------
  // The three reports

  /** The fixed text between the placeholders of the executive report. */
  const ExecutiveHead := "\n# FALCON v3.0 FORENSIC ANALYSIS - EXECUTIVE SUMMARY\n\n## CONFIDENCE DASHBOARD\n- Overall Confidence: "
  const ExecutiveCompleteness := "\n- Document Completeness: "
  const ExecutiveLegal := "\n- Legal Framework: "
  const ExecutiveAssets := "\n- Asset Identification: "
  const ExecutiveConcealment := "\n- Concealment Detection: "
  const ExecutiveIntelligence := "\n\n## STRATEGIC INTELLIGENCE\n"
  const ExecutiveTotalAssets := "\n\n## FINANCIAL SUMMARY\n- **Total Assets**: $"
  const ExecutiveLiabilities := " confidence)\n- **Total Liabilities**: $"
  const ExecutiveNetWorth := "\n- **Net Worth**: $"
  const ExecutiveRange := "\n- **Confidence Range**: "
  const ExecutiveActions := "\n\n## IMMEDIATE ACTIONS REQUIRED\n"
  const ExecutiveLeverage := "\n\n## STRATEGIC LEVERAGE POINTS\n"
  const ExecutiveScenarios := "\n\n## SETTLEMENT SCENARIOS\n"
  const ExecutiveTail := "\n\n*Detailed analysis with source documentation available in full report.*\n"

  function ExecutiveText(r: Renderer, a: ForensicOutput, actions: string, leverage: string, scenarios: string): string {
    var d := a.confidenceDashboard;
    ExecutiveHead + d.overallConfidence
    + ExecutiveCompleteness + d.documentCompleteness
    + ExecutiveLegal + d.legalFrameworkCertainty
    + ExecutiveAssets + d.assetIdentificationConfidence
    + ExecutiveConcealment + d.concealmentDetectionConfidence
    + ExecutiveIntelligence + a.executiveSummary
    + ExecutiveTotalAssets + r.money(a.totalAssetsValue) + " (" + r.level(a.totalAssetsConfidence)
    + ExecutiveLiabilities + r.money(a.totalLiabilitiesAmount)
    + ExecutiveNetWorth + r.money(a.netWorth)
    + ExecutiveRange + a.netWorthConfidenceRange
    + ExecutiveActions + actions
    + ExecutiveLeverage + leverage
    + ExecutiveScenarios + scenarios
    + ExecutiveTail
  }

  /** The executive report; it raises when an action or a leverage point
      lacks its name key (actions are formatted first). */
  function ExecutiveReport(r: Renderer, a: ForensicOutput): Result<string> {
    match JoinLines(ActionLines(r, a.immediateActions))
    case Err(e) => Err(e)
    case Ok(actions) =>
      match JoinLines(LeverageLines(r, a.strategicLeveragePoints))
      case Err(e) => Err(e)
      case Ok(leverage) =>
        Ok(ExecutiveText(r, a, actions, leverage, Join(ScenarioEntries(r, a.settlementScenarios), "\n")))
  }

  /** The fixed text between the placeholders of the confidence report. */
  const ConfidenceHead := "\n# CONFIDENCE ANALYSIS REPORT\n\n## Overall Assessment\n"
  const ConfidenceVerification := "\n\n## Document Verification Results\n"
  const ConfidenceAssets := "\n\n## Asset Confidence Breakdown\n"
  const ConfidenceConcealment := "\n\n## Concealment Detection Confidence\n"
  const ConfidenceRobustness := "\n\n## Methodology Validation\n- Evidence Robustness: "
  const ConfidenceObjectivity := "\n- Objectivity Assessment: "
  const ConfidenceAlternatives := "\n- Alternative Scenarios Considered: "
  const ConfidenceTail := "\n\n## Professional Standards Compliance\n"
    + "- AICPA SSFS No. 1: Compliant\n"
    + "- Daubert Standards: Met\n"
    + "- Jurisdictional Requirements: Verified\n"

  function ConfidenceText(r: Renderer, a: ForensicOutput, verifications: string, assets: string, concealment: string): string {
    ConfidenceHead + r.dashboard(a.confidenceDashboard)
    + ConfidenceVerification + verifications
    + ConfidenceAssets + assets
    + ConfidenceConcealment + concealment
    + ConfidenceRobustness + a.evidenceRobustness
    + ConfidenceObjectivity + a.objectivityAssessment
    + ConfidenceAlternatives + NatToString(|a.alternativeScenarios|)
    + ConfidenceTail
  }

  /** The confidence report; it raises when a concealment scheme has no
      estimated amount. */
  function ConfidenceReport(r: Renderer, a: ForensicOutput): Result<string> {
    var verifications := Join(VerificationLines(r, a.documentVerification), "\n");
    var assets := Join(AssetConfidenceLines(r, a.assets), "\n");
    match ConcealmentText(r, a.concealmentSchemes)
    case Err(e) => Err(e)
    case Ok(concealment) => Ok(ConfidenceText(r, a, verifications, assets, concealment))
  }

  method GenerateExecutiveReport(r: Renderer, analysis: ForensicOutput) returns (out: Result<string>)
    ensures out == ExecutiveReport(r, analysis)
  {
    var actions := FormatActions(r, analysis.immediateActions);
    if actions.Err? {
      return Err(actions.error);
    }
    var leverage := FormatLeveragePoints(r, analysis.strategicLeveragePoints);
    if leverage.Err? {
      return Err(leverage.error);
    }
    var scenarios := FormatSettlementScenarios(r, analysis.settlementScenarios);
    out := Ok(ExecutiveText(r, analysis, actions.value, leverage.value, scenarios));
  }

  method GenerateConfidenceReport(r: Renderer, analysis: ForensicOutput) returns (out: Result<string>)
    ensures out == ConfidenceReport(r, analysis)
  {
    var verifications := FormatDocumentVerification(r, analysis.documentVerification);
    var assets := FormatAssetConfidence(r, analysis.assets);
    var concealment := FormatConcealmentConfidence(r, analysis.concealmentSchemes);
    if concealment.Err? {
      return Err(concealment.error);
    }
    out := Ok(ConfidenceText(r, analysis, verifications, assets, concealment.value));
  }

  /** The specification of `generate_report`: "executive" and "confidence"
      select their reports, every other string the full serialization. */
  function Report(r: Renderer, analysis: ForensicOutput, reportType: string): Result<string> {
    if reportType == "executive" then ExecutiveReport(r, analysis)
    else if reportType == "confidence" then ConfidenceReport(r, analysis)
    else Ok(r.dump(analysis))
  }

  method GenerateReport(r: Renderer, analysis: ForensicOutput, reportType: string) returns (out: Result<string>)
    ensures reportType == "executive" ==> out == ExecutiveReport(r, analysis)
    ensures reportType == "confidence" ==> out == ConfidenceReport(r, analysis)
    ensures reportType != "executive" && reportType != "confidence" ==> out == Ok(r.dump(analysis))
    ensures out == Report(r, analysis, reportType)
  {
    if reportType == "executive" {
      out := GenerateExecutiveReport(r, analysis);
    } else if reportType == "confidence" {
      out := GenerateConfidenceReport(r, analysis);
    } else {
      out := Ok(r.dump(analysis));
    }
  }

  /** The detailed report never raises; the other two raise exactly on a
      nameless action or leverage point, or on a scheme without amount. */
  lemma ReportsRaiseOnlyOn(r: Renderer, a: ForensicOutput)
    ensures Report(r, a, "detailed").Ok?
    ensures Report(r, a, "executive").Ok? <==>
              (forall i :: 0 <= i < |a.immediateActions| ==> Lookup(a.immediateActions[i], "action").Some?) &&
              (forall i :: 0 <= i < |a.strategicLeveragePoints| ==> Lookup(a.strategicLeveragePoints[i], "leverage").Some?)
    ensures Report(r, a, "confidence").Ok? <==>
              forall i :: 0 <= i < |a.concealmentSchemes| ==> a.concealmentSchemes[i].estimatedAmount.Some?
  {
    ExecutiveReportOk(r, a);
    ConfidenceReportOk(r, a);
    ActionsRender(r, a.immediateActions);
    LeverageRenders(r, a.strategicLeveragePoints);
    ConcealmentRenders(r, a.concealmentSchemes);
  }

  lemma ExecutiveReportOk(r: Renderer, a: ForensicOutput)
    ensures Report(r, a, "executive").Ok? <==>
              JoinLines(ActionLines(r, a.immediateActions)).Ok? && JoinLines(LeverageLines(r, a.strategicLeveragePoints)).Ok?
  {
    assert Report(r, a, "executive") == ExecutiveReport(r, a);
  }

  lemma ConfidenceReportOk(r: Renderer, a: ForensicOutput)
    ensures Report(r, a, "detailed").Ok?
    ensures Report(r, a, "confidence").Ok? <==> ConcealmentText(r, a.concealmentSchemes).Ok?
  {
    assert Report(r, a, "confidence") == ConfidenceReport(r, a);
  }
}
