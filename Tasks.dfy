/** The background tasks. `analyze_case_task` runs the analysis, renders
    the three reports, saves them together with the case update in one
    commit and sends the completion e-mail; on any exception it marks the
    case failed, sends an error e-mail and re-raises. `process_document_task`
    extracts a document's data and records the outcome on the document.

    Exceptions that come from outside the modelled code (a time limit, the
    database, the mail code) are the `fault` input: raised just before the
    commit or just after it. */
module Tasks {
  import opened Common
  import opened ForensicModels
  import opened Reports
  import opened ForensicService
  import opened Store

  /** Celery's hard and soft time limits, in seconds. */
  const TaskTimeLimit: nat := 1800
  const TaskSoftTimeLimit: nat := 1500

  datatype Fault = NoFault | FailBeforeCommit(error: Exception) | FailAfterCommit(error: Exception)

  /** The dict `analyze_case_task` returns. */
  datatype TaskResult = TaskResult(
    status: string,
    caseId: nat,
    reportsGenerated: seq<string>,
    confidenceDashboard: ConfidenceDashboard,
    totalAssets: real,
    netWorth: real,
    immediateActions: nat,
    strategicLeveragePoints: nat)

  const AnalysisPhases := ["constitutional_verification", "sequential_analysis", "self_correction", "strategic_output"]

  datatype ReportTexts = ReportTexts(executive: string, confidence: string, detailed: string)

  /** The three `generate_report` calls in order; the first to raise wins. */
  function GenerateAll(r: Renderer, a: ForensicOutput): Result<ReportTexts> {
    match Report(r, a, "executive")
    case Err(e) => Err(e)
    case Ok(executive) =>
      match Report(r, a, "confidence")
      case Err(e) => Err(e)
      case Ok(confidence) =>
        match Report(r, a, "detailed")
        case Err(e) => Err(e)
        case Ok(detailed) => Ok(ReportTexts(executive, confidence, detailed))
  }

  function ExecutiveRow(caseId: nat, a: ForensicOutput, content: string, now: int): ReportRow {
    ReportRow(caseId, "executive_summary", content,
              ExecutiveMetadata(a.confidenceDashboard, a.totalAssetsValue, a.netWorth, now))
  }

  function ConfidenceRow(caseId: nat, a: ForensicOutput, content: string): ReportRow {
    ReportRow(caseId, "confidence_analysis", content,
              ConfidenceMetadata(a.confidenceDashboard.overallConfidence, a.evidenceRobustness, a.objectivityAssessment))
  }

  function DetailedRow(caseId: nat, a: ForensicOutput, content: string): ReportRow {
    ReportRow(caseId, "detailed_forensic", content,
              DetailedMetadata(AnalysisPhases, |a.concealmentSchemes|, |a.immediateActions|))
  }

  function StagedReports(caseId: nat, a: ForensicOutput, t: ReportTexts, now: int): seq<ReportRow> {
    [ExecutiveRow(caseId, a, t.executive, now), ConfidenceRow(caseId, a, t.confidence), DetailedRow(caseId, a, t.detailed)]
  }

  function Completed(c: CaseRow, a: ForensicOutput, now: int): CaseRow {
    c.(status := "analysis_complete", totalAssets := Some(a.totalAssetsValue),
       totalLiabilities := Some(a.totalLiabilitiesAmount), updatedAt := Some(now))
  }

  function Failed(c: CaseRow, now: int): CaseRow {
    c.(status := "analysis_failed", updatedAt := Some(now))
  }

  /** The case table after the success commit: the case, if it exists,
      completed. */
  function MarkCompleted(cases: seq<CaseRow>, caseId: nat, a: ForensicOutput, now: int): seq<CaseRow> {
    match FindCase(cases, caseId)
    case None => cases
    case Some(c) => UpdateCases(cases, map[caseId := Completed(c, a, now)])
  }

  function MarkFailed(cases: seq<CaseRow>, caseId: nat, now: int): seq<CaseRow> {
    match FindCase(cases, caseId)
    case None => cases
    case Some(c) => UpdateCases(cases, map[caseId := Failed(c, now)])
  }

  function SuccessNotice(user: UserContext, caseId: nat, a: ForensicOutput): Notification {
    Notification(user.email, user.fullName, caseId, a.executiveSummary, a.confidenceDashboard.overallConfidence, false)
  }

  function FailureNotice(user: UserContext, caseId: nat, e: Exception): Notification {
    Notification(user.email, user.fullName, caseId, "Analysis failed: " + Describe(e), "N/A", true)
  }

  function SuccessResult(caseId: nat, a: ForensicOutput): TaskResult {
    TaskResult("completed", caseId, ["executive", "confidence", "detailed"], a.confidenceDashboard,
               a.totalAssetsValue, a.netWorth, |a.immediateActions|, |a.strategicLeveragePoints|)
  }

  /** The committed state one task run reads and writes. */
  datatype RunState = RunState(cases: seq<CaseRow>, reports: seq<ReportRow>, sent: seq<Notification>)

  datatype AnalyzeOutcome = AnalyzeOutcome(state: RunState, result: Result<TaskResult>)

  /** The except block: mark the case failed, send the error e-mail,
      re-raise. */
  function FailureOutcome(s: RunState, caseId: nat, user: UserContext, e: Exception, now: int): AnalyzeOutcome {
    AnalyzeOutcome(RunState(MarkFailed(s.cases, caseId, now), s.reports, s.sent + [FailureNotice(user, caseId, e)]), Err(e))
  }

  /** The analysis and report generation, before any database work. */
  function Generated(r: Renderer, analysis: Result<ForensicOutput>): Result<(ForensicOutput, ReportTexts)> {
    match analysis
    case Err(e) => Err(e)
    case Ok(a) =>
      match GenerateAll(r, a)
      case Err(e) => Err(e)
      case Ok(t) => Ok((a, t))
  }

  /** The specification of one run of `analyze_case_task`, given the
      outcome `g` of the analysis and report generation. */
  function AnalyzeRun(s: RunState, caseId: nat, user: UserContext, g: Result<(ForensicOutput, ReportTexts)>,
                      fault: Fault, now: int): AnalyzeOutcome {
    if g.Err? then FailureOutcome(s, caseId, user, g.error, now)
    else if fault.FailBeforeCommit? then FailureOutcome(s, caseId, user, fault.error, now)
    else
      var a := g.value.0;
      var committed := RunState(MarkCompleted(s.cases, caseId, a, now),
                                s.reports + StagedReports(caseId, a, g.value.1, now), s.sent);
      if fault.FailAfterCommit? then FailureOutcome(committed, caseId, user, fault.error, now)
      else AnalyzeOutcome(RunState(committed.cases, committed.reports, committed.sent + [SuccessNotice(user, caseId, a)]),
                          Ok(SuccessResult(caseId, a)))
  }

  method AnalyzeCaseTask(db: Database, outbox: Outbox, r: Renderer, agent: Agent, caseId: nat,
                         documentsData: seq<DocEntry>, userContext: UserContext, jurisdiction: string,
                         fault: Fault, now: int)
    returns (result: Result<TaskResult>)
    requires db.Valid()
    modifies db, outbox
    ensures db.Valid()
    ensures db.documents == old(db.documents) && db.nextCaseId == old(db.nextCaseId)
    ensures AnalyzeOutcome(RunState(db.cases, db.reports, outbox.sent), result) ==
            AnalyzeRun(RunState(old(db.cases), old(db.reports), old(outbox.sent)), caseId, userContext,
                       Generated(r, agent(AgentCall(caseId, documentsData, userContext, jurisdiction, None, None))),
                       fault, now)
  {
    var analysisResult := AnalyzeCase(agent, caseId, documentsData, userContext, jurisdiction, None, None);
    if analysisResult.Err? {
      assert Generated(r, analysisResult) == Err(analysisResult.error);
      result := RecordFailure(db, outbox, caseId, userContext, analysisResult.error, now);
      return;
    }
    var a := analysisResult.value;
    var reports := GenerateReports(r, a);
    if reports.Err? {
      assert Generated(r, analysisResult) == Err(reports.error);
      result := RecordFailure(db, outbox, caseId, userContext, reports.error, now);
      return;
    }
    assert Generated(r, analysisResult) == Ok((a, reports.value));
    result := SaveAnalysis(db, outbox, caseId, userContext, a, reports.value, fault, now);
  }

  /** The success path from the report session on: stage, commit, e-mail,
      result; an exception from outside the model raised before or after
      the commit goes to the except block. */
  method SaveAnalysis(db: Database, outbox: Outbox, caseId: nat, userContext: UserContext,
                      a: ForensicOutput, t: ReportTexts, fault: Fault, now: int)
    returns (result: Result<TaskResult>)
    requires db.Valid()
    modifies db, outbox
    ensures db.Valid()
    ensures db.documents == old(db.documents) && db.nextCaseId == old(db.nextCaseId)
    ensures AnalyzeOutcome(RunState(db.cases, db.reports, outbox.sent), result) ==
            AnalyzeRun(RunState(old(db.cases), old(db.reports), old(outbox.sent)), caseId, userContext,
                       Ok((a, t)), fault, now)
  {
    var session := new Session(db);
    StageAnalysis(session, caseId, a, t, now);
    if fault.FailBeforeCommit? {
      result := RecordFailure(db, outbox, caseId, userContext, fault.error, now);
      return;
    }
    session.Commit();
    if fault.FailAfterCommit? {
      result := RecordFailure(db, outbox, caseId, userContext, fault.error, now);
      return;
    }
    outbox.Send(Notification(userContext.email, userContext.fullName, caseId, a.executiveSummary,
                             a.confidenceDashboard.overallConfidence, false));
    result := Ok(TaskResult("completed", caseId, ["executive", "confidence", "detailed"], a.confidenceDashboard,
                            a.totalAssetsValue, a.netWorth, |a.immediateActions|, |a.strategicLeveragePoints|));
  }

  /** The three `generate_report` calls, all before any database work. */
  method GenerateReports(r: Renderer, a: ForensicOutput) returns (texts: Result<ReportTexts>)
    ensures texts == GenerateAll(r, a)
  {
    var executiveReport := GenerateReport(r, a, "executive");
    if executiveReport.Err? {
      return Err(executiveReport.error);
    }
    var confidenceReport := GenerateReport(r, a, "confidence");
    if confidenceReport.Err? {
      return Err(confidenceReport.error);
    }
    // The detailed report is a plain serialization and cannot raise.
    var detailedReport := GenerateReport(r, a, "detailed");
    texts := Ok(ReportTexts(executiveReport.value, confidenceReport.value, detailedReport.value));
  }

  /** The body of the success session up to the commit: three `db.add`
      calls and the case update. */
  method StageAnalysis(session: Session, caseId: nat, a: ForensicOutput, t: ReportTexts, now: int)
    requires session.Valid() && session.db.Valid()
    requires session.pendingReports == [] && session.pendingCases == map[] && session.pendingDocuments == map[]
    modifies session
    ensures session.Valid()
    ensures session.pendingReports == StagedReports(caseId, a, t, now)
    ensures session.pendingDocuments == map[]
    ensures UpdateCases(session.db.cases, session.pendingCases) == MarkCompleted(session.db.cases, caseId, a, now)
  {
    session.AddReport(ExecutiveRow(caseId, a, t.executive, now));
    session.AddReport(ConfidenceRow(caseId, a, t.confidence));
    session.AddReport(DetailedRow(caseId, a, t.detailed));
    var c := session.GetCase(caseId);
    if c.Some? {
      session.StageCase(c.value.(status := "analysis_complete", totalAssets := Some(a.totalAssetsValue),
                                 totalLiabilities := Some(a.totalLiabilitiesAmount), updatedAt := Some(now)));
    } else {
      assert UpdateCases(session.db.cases, map[]) == session.db.cases;
    }
  }

  /** The except block of `analyze_case_task`, in a fresh session. */
  method RecordFailure(db: Database, outbox: Outbox, caseId: nat, userContext: UserContext, e: Exception, now: int)
    returns (result: Result<TaskResult>)
    requires db.Valid()
    modifies db, outbox
    ensures db.Valid()
    ensures db.cases == MarkFailed(old(db.cases), caseId, now)
    ensures db.documents == old(db.documents) && db.reports == old(db.reports) && db.nextCaseId == old(db.nextCaseId)
    ensures outbox.sent == old(outbox.sent) + [FailureNotice(userContext, caseId, e)]
    ensures result == Err(e)
  {
    var session := new Session(db);
    var c := session.GetCase(caseId);
    if c.Some? {
      session.StageCase(c.value.(status := "analysis_failed", updatedAt := Some(now)));
      session.Commit();
    }
    outbox.Send(Notification(userContext.email, userContext.fullName, caseId, "Analysis failed: " + Describe(e), "N/A", true));
    result := Err(e);
  }

  // ---------------------------------------------------------------------
  // Properties of a run

  /** The reports render exactly when the agent returned an output with
      named actions and leverage points and amounts on every scheme; the
      texts are then the three rendered reports. */
  lemma GeneratedExactlyWhen(r: Renderer, analysis: Result<ForensicOutput>)
    ensures Generated(r, analysis).Ok? <==>
              analysis.Ok? &&
              (forall i :: 0 <= i < |analysis.value.immediateActions| ==>
                 Lookup(analysis.value.immediateActions[i], "action").Some?) &&
              (forall i :: 0 <= i < |analysis.value.strategicLeveragePoints| ==>
                 Lookup(analysis.value.strategicLeveragePoints[i], "leverage").Some?) &&
              (forall i :: 0 <= i < |analysis.value.concealmentSchemes| ==>
                 analysis.value.concealmentSchemes[i].estimatedAmount.Some?)
    ensures Generated(r, analysis).Ok? ==>
              && Generated(r, analysis).value.0 == analysis.value
              && Ok(Generated(r, analysis).value.1.executive) == Report(r, analysis.value, "executive")
              && Ok(Generated(r, analysis).value.1.confidence) == Report(r, analysis.value, "confidence")
              && Ok(Generated(r, analysis).value.1.detailed) == Report(r, analysis.value, "detailed")
    ensures analysis.Err? ==> Generated(r, analysis) == Err(analysis.error)
  {
    if analysis.Ok? {
      GenerateAllOk(r, analysis.value);
      ReportsRaiseOnlyOn(r, analysis.value);
    }
  }

  /** The three reports are generated exactly when the first two render. */
  lemma GenerateAllOk(r: Renderer, a: ForensicOutput)
    ensures GenerateAll(r, a).Ok? <==> Report(r, a, "executive").Ok? && Report(r, a, "confidence").Ok?
    ensures GenerateAll(r, a).Ok? ==>
              && Ok(GenerateAll(r, a).value.executive) == Report(r, a, "executive")
              && Ok(GenerateAll(r, a).value.confidence) == Report(r, a, "confidence")
              && Ok(GenerateAll(r, a).value.detailed) == Report(r, a, "detailed")
  {
    var executive, confidence, detailed := Report(r, a, "executive"), Report(r, a, "confidence"), Report(r, a, "detailed");
    assert detailed.Ok? by {
      ReportsRaiseOnlyOn(r, a);
    }
    if executive.Ok? && confidence.Ok? {
      assert GenerateAll(r, a) == Ok(ReportTexts(executive.value, confidence.value, detailed.value));
    }
  }

  /** On success: exactly three new reports for the case, one of each type,
      holding the rendered texts; the case, if it exists, is complete with
      the output's totals; one completion e-mail; the result dict. */
  lemma RunSuccess(s: RunState, caseId: nat, user: UserContext, a: ForensicOutput, t: ReportTexts, now: int)
    requires CaseIdsDistinct(s.cases)
    ensures var o := AnalyzeRun(s, caseId, user, Ok((a, t)), NoFault, now);
      && o.result.Ok?
      && |o.state.reports| == |s.reports| + 3
      && o.state.reports[..|s.reports|] == s.reports
      && (forall i :: |s.reports| <= i < |o.state.reports| ==> o.state.reports[i].caseId == caseId)
      && o.state.reports[|s.reports|].reportType == "executive_summary"
      && o.state.reports[|s.reports| + 1].reportType == "confidence_analysis"
      && o.state.reports[|s.reports| + 2].reportType == "detailed_forensic"
      && o.state.reports[|s.reports|].content == t.executive
      && o.state.reports[|s.reports| + 1].content == t.confidence
      && o.state.reports[|s.reports| + 2].content == t.detailed
      && o.state.sent == s.sent + [SuccessNotice(user, caseId, a)]
      && o.result.value.status == "completed"
      && o.result.value.reportsGenerated == ["executive", "confidence", "detailed"]
      && o.result.value.immediateActions == |a.immediateActions|
      && o.result.value.strategicLeveragePoints == |a.strategicLeveragePoints|
    ensures var o := AnalyzeRun(s, caseId, user, Ok((a, t)), NoFault, now);
      FindCase(s.cases, caseId).Some? ==>
        FindCase(o.state.cases, caseId).Some? &&
        FindCase(o.state.cases, caseId).value.status == "analysis_complete" &&
        FindCase(o.state.cases, caseId).value.totalAssets == Some(a.totalAssetsValue) &&
        FindCase(o.state.cases, caseId).value.totalLiabilities == Some(a.totalLiabilitiesAmount)
    ensures var o := AnalyzeRun(s, caseId, user, Ok((a, t)), NoFault, now);
      FindCase(s.cases, caseId).None? ==> o.state.cases == s.cases
  {
    match FindCase(s.cases, caseId)
    case None =>
    case Some(c) =>
      UpdateOneCase(s.cases, Completed(c, a, now));
  }

  /** An exception before the commit leaves no new report and, for an
      existing case, changes only its status and timestamp: the totals are
      those it had before. */
  lemma RunFailureBeforeCommit(s: RunState, caseId: nat, user: UserContext,
                               g: Result<(ForensicOutput, ReportTexts)>, fault: Fault, now: int)
    requires CaseIdsDistinct(s.cases)
    requires g.Err? || fault.FailBeforeCommit?
    ensures var o := AnalyzeRun(s, caseId, user, g, fault, now);
      && o.result == Err(if g.Err? then g.error else fault.error)
      && o.state.reports == s.reports
      && (FindCase(s.cases, caseId).Some? ==>
            FindCase(o.state.cases, caseId) ==
              Some(FindCase(s.cases, caseId).value.(status := "analysis_failed", updatedAt := Some(now))))
  {
    match FindCase(s.cases, caseId)
    case None =>
    case Some(c) =>
      UpdateOneCase(s.cases, Failed(c, now));
  }

  /** An exception after the commit does not take the reports back; the
      case keeps the committed totals and ends up failed. */
  lemma RunFailureAfterCommit(s: RunState, caseId: nat, user: UserContext, a: ForensicOutput, t: ReportTexts,
                              e: Exception, now: int)
    requires CaseIdsDistinct(s.cases)
    ensures var o := AnalyzeRun(s, caseId, user, Ok((a, t)), FailAfterCommit(e), now);
      && o.result == Err(e)
      && o.state.reports == s.reports + StagedReports(caseId, a, t, now)
      && (FindCase(s.cases, caseId).Some? ==>
            FindCase(o.state.cases, caseId) ==
              Some(Failed(Completed(FindCase(s.cases, caseId).value, a, now), now)))
  {
    match FindCase(s.cases, caseId)
    case None =>
    case Some(c) =>
      UpdateOneCase(s.cases, Completed(c, a, now));
      UpdateOneCase(MarkCompleted(s.cases, caseId, a, now), Failed(Completed(c, a, now), now));
  }

  /** Every failure sends exactly one error e-mail naming the exception
      with confidence "N/A", and re-raises that exception; an existing case
      ends up `analysis_failed`. */
  lemma RunFailureNotifies(s: RunState, caseId: nat, user: UserContext,
                           g: Result<(ForensicOutput, ReportTexts)>, fault: Fault, now: int)
    requires CaseIdsDistinct(s.cases)
    requires AnalyzeRun(s, caseId, user, g, fault, now).result.Err?
    ensures var o := AnalyzeRun(s, caseId, user, g, fault, now);
      && o.state.sent == s.sent + [FailureNotice(user, caseId, o.result.error)]
      && o.state.sent[|s.sent|].isError
      && o.state.sent[|s.sent|].confidenceLevel == "N/A"
      && o.state.sent[|s.sent|].summary == "Analysis failed: " + Describe(o.result.error)
      && (FindCase(s.cases, caseId).Some? ==>
            FindCase(o.state.cases, caseId).Some? && FindCase(o.state.cases, caseId).value.status == "analysis_failed")
  {
    if g.Ok? && fault.FailAfterCommit? {
      RunFailureAfterCommit(s, caseId, user, g.value.0, g.value.1, fault.error, now);
    } else {
      RunFailureBeforeCommit(s, caseId, user, g, fault, now);
    }
  }

  /** Whatever happens, reports are only appended, exactly one e-mail goes
      out, and no row other than the analysed case changes. */
  lemma RunFrame(s: RunState, caseId: nat, user: UserContext,
                 g: Result<(ForensicOutput, ReportTexts)>, fault: Fault, now: int)
    requires CaseIdsDistinct(s.cases)
    ensures var o := AnalyzeRun(s, caseId, user, g, fault, now);
      && s.reports <= o.state.reports
      && |o.state.sent| == |s.sent| + 1
      && s.sent <= o.state.sent
      && |o.state.cases| == |s.cases|
      && (forall i :: 0 <= i < |s.cases| ==> o.state.cases[i].id == s.cases[i].id)
      && (forall i :: 0 <= i < |s.cases| && s.cases[i].id != caseId ==> o.state.cases[i] == s.cases[i])
  {
    MarkFailedFrame(s.cases, caseId, now);
    if g.Ok? {
      MarkCompletedFrame(s.cases, caseId, g.value.0, now);
      MarkFailedFrame(MarkCompleted(s.cases, caseId, g.value.0, now), caseId, now);
    }
  }

  /** A concealment scheme without an estimated amount makes the whole task
      fail with the formatter's TypeError: nothing is saved and the case is
      marked failed. */
  lemma AmountlessSchemeFailsTask(s: RunState, r: Renderer, caseId: nat, user: UserContext,
                                  a: ForensicOutput, fault: Fault, now: int, k: nat)
    requires CaseIdsDistinct(s.cases)
    requires k < |a.concealmentSchemes| && a.concealmentSchemes[k].estimatedAmount.None?
    requires Report(r, a, "executive").Ok?
    ensures var o := AnalyzeRun(s, caseId, user, Generated(r, Ok(a)), fault, now);
      && o.result == Err(NoneFormatError)
      && o.state.reports == s.reports
  {
    ReportsRaiseOnlyOn(r, a);
    ConcealmentRenders(r, a.concealmentSchemes);
    RunFailureBeforeCommit(s, caseId, user, Generated(r, Ok(a)), fault, now);
  }

  lemma MarkCompletedFrame(cases: seq<CaseRow>, caseId: nat, a: ForensicOutput, now: int)
    requires CaseIdsDistinct(cases)
    ensures var m := MarkCompleted(cases, caseId, a, now);
      && CaseIdsDistinct(m)
      && |m| == |cases|
      && (forall i :: 0 <= i < |cases| ==> m[i].id == cases[i].id)
      && (forall i :: 0 <= i < |cases| && cases[i].id != caseId ==> m[i] == cases[i])
  {
  }

  lemma MarkFailedFrame(cases: seq<CaseRow>, caseId: nat, now: int)
    requires CaseIdsDistinct(cases)
    ensures var m := MarkFailed(cases, caseId, now);
      && CaseIdsDistinct(m)
      && |m| == |cases|
      && (forall i :: 0 <= i < |cases| ==> m[i].id == cases[i].id)
      && (forall i :: 0 <= i < |cases| && cases[i].id != caseId ==> m[i] == cases[i])
  {
  }

  // ---------------------------------------------------------------------
  // process_document_task

  /** The dict `process_document_task` returns. */
  datatype ProcessResult = ProcessResult(status: string, documentId: nat, extractedData: Dict)

  /** The PDF reader and the spreadsheet reader: given the file path and
      type, the extracted dict, or the exception the library raised. */
  type Extractor = (string, string) -> Result<Dict>

  /** The file types that have an extractor. */
  predicate HasExtractor(fileType: string) {
    fileType == "pdf" || fileType in ["csv", "xlsx", "xls"]
  }

  /** The extraction step: any other file type yields an empty dict. */
  function Extraction(extract: Extractor, filePath: string, fileType: string): Result<Dict> {
    if HasExtractor(fileType) then extract(filePath, fileType) else Ok([])
  }

  function Processed(d: DocumentRow, data: Dict, now: int): DocumentRow {
    d.(status := "processed", extractedData := Some(data), processedAt := Some(now))
  }

  function ProcessingFailed(d: DocumentRow, e: Exception): DocumentRow {
    d.(status := "processing_failed", errorMessage := Some(Describe(e)))
  }

  function MarkProcessed(docs: seq<DocumentRow>, documentId: nat, data: Dict, now: int): seq<DocumentRow> {
    match FindDocument(docs, documentId)
    case None => docs
    case Some(d) => UpdateDocuments(docs, map[documentId := Processed(d, data, now)])
  }

  function MarkProcessingFailed(docs: seq<DocumentRow>, documentId: nat, e: Exception): seq<DocumentRow> {
    match FindDocument(docs, documentId)
    case None => docs
    case Some(d) => UpdateDocuments(docs, map[documentId := ProcessingFailed(d, e)])
  }

  datatype ProcessOutcome = ProcessOutcome(documents: seq<DocumentRow>, result: Result<ProcessResult>)

  /** The specification of one run of `process_document_task`, given the
      extraction outcome. */
  function ProcessRun(docs: seq<DocumentRow>, extracted: Result<Dict>, documentId: nat, now: int): ProcessOutcome {
    match extracted
    case Ok(data) => ProcessOutcome(MarkProcessed(docs, documentId, data, now), Ok(ProcessResult("success", documentId, data)))
    case Err(e) => ProcessOutcome(MarkProcessingFailed(docs, documentId, e), Err(e))
  }

  method ProcessDocumentTask(db: Database, extract: Extractor, documentId: nat, filePath: string, fileType: string, now: int)
    returns (result: Result<ProcessResult>)
    requires db.Valid()
    modifies db
    ensures db.Valid()
    ensures db.cases == old(db.cases) && db.reports == old(db.reports) && db.nextCaseId == old(db.nextCaseId)
    ensures ProcessOutcome(db.documents, result) ==
            ProcessRun(old(db.documents), Extraction(extract, filePath, fileType), documentId, now)
  {
    var extractedData: Result<Dict> := Ok([]);
    if fileType == "pdf" {
      extractedData := extract(filePath, fileType);
    } else if fileType in ["csv", "xlsx", "xls"] {
      extractedData := extract(filePath, fileType);
    }
    if extractedData.Err? {
      result := RecordProcessingFailure(db, documentId, extractedData.error);
      return;
    }
    var session := new Session(db);
    var document := session.GetDocument(documentId);
    if document.Some? {
      session.StageDocument(document.value.(status := "processed", extractedData := Some(extractedData.value),
                                            processedAt := Some(now)));
      session.Commit();
      assert UpdateCases(old(db.cases), map[]) == old(db.cases);
    }
    result := Ok(ProcessResult("success", documentId, extractedData.value));
  }

  /** The except block of `process_document_task`: no e-mail, re-raise. */
  method RecordProcessingFailure(db: Database, documentId: nat, e: Exception) returns (result: Result<ProcessResult>)
    requires db.Valid()
    modifies db
    ensures db.Valid()
    ensures db.cases == old(db.cases) && db.reports == old(db.reports) && db.nextCaseId == old(db.nextCaseId)
    ensures db.documents == MarkProcessingFailed(old(db.documents), documentId, e)
    ensures result == Err(e)
  {
    var session := new Session(db);
    var document := session.GetDocument(documentId);
    if document.Some? {
      session.StageDocument(document.value.(status := "processing_failed", errorMessage := Some(Describe(e))));
      session.Commit();
      assert UpdateCases(old(db.cases), map[]) == old(db.cases);
    }
    result := Err(e);
  }

  /** Success: the document, if it exists, is `processed` with the extracted
      data and a timestamp; every other document is untouched. */
  lemma ProcessSuccess(docs: seq<DocumentRow>, data: Dict, documentId: nat, now: int)
    requires DocumentIdsDistinct(docs)
    ensures var o := ProcessRun(docs, Ok(data), documentId, now);
      && o.result == Ok(ProcessResult("success", documentId, data))
      && |o.documents| == |docs|
      && (forall i :: 0 <= i < |docs| && docs[i].id != documentId ==> o.documents[i] == docs[i])
      && (FindDocument(docs, documentId).Some? ==>
            FindDocument(o.documents, documentId).Some? &&
            FindDocument(o.documents, documentId).value.status == "processed" &&
            FindDocument(o.documents, documentId).value.extractedData == Some(data) &&
            FindDocument(o.documents, documentId).value.processedAt == Some(now))
      && (FindDocument(docs, documentId).None? ==> o.documents == docs)
  {
    match FindDocument(docs, documentId)
    case None =>
    case Some(d) =>
      UpdateOneDocument(docs, Processed(d, data, now));
  }

  /** Failure: the exception is re-raised and the document, if it exists,
      is `processing_failed` with the exception's text; its data and
      processing time are unchanged, and no other document changes. */
  lemma ProcessFailure(docs: seq<DocumentRow>, e: Exception, documentId: nat, now: int)
    requires DocumentIdsDistinct(docs)
    ensures var o := ProcessRun(docs, Err(e), documentId, now);
      && o.result == Err(e)
      && |o.documents| == |docs|
      && (forall i :: 0 <= i < |docs| && docs[i].id != documentId ==> o.documents[i] == docs[i])
      && (FindDocument(docs, documentId).Some? ==>
            var before := FindDocument(docs, documentId).value;
            FindDocument(o.documents, documentId) ==
              Some(before.(status := "processing_failed", errorMessage := Some(Describe(e)))))
  {
    match FindDocument(docs, documentId)
    case None =>
    case Some(d) =>
      UpdateOneDocument(docs, ProcessingFailed(d, e));
  }

  /** A file type without an extractor still succeeds, with empty data. */
  lemma UnrecognisedTypeSucceeds(docs: seq<DocumentRow>, extract: Extractor, documentId: nat, filePath: string,
                                 fileType: string, now: int)
    requires !HasExtractor(fileType)
    ensures ProcessRun(docs, Extraction(extract, filePath, fileType), documentId, now).result ==
            Ok(ProcessResult("success", documentId, []))
  {
  }
}
